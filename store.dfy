/** The app's transaction list: loaded once, kept sorted by date (newest first),
    extended by the entry form and shrunk by confirmed deletes. */
module Store {
  import opened Types
  import opened Sorting

  /** The sort key of a date: the number YYYYMMDD. On valid dates its order is
      calendar order, as the order of the `getTime()` values is. */
  function DateKey(d: Date): int {
    d.year * 10000 + d.month * 100 + d.day
  }

  function TxKey(t: Transaction): int {
    DateKey(t.date)
  }

  lemma DateKeyIsCalendarOrder(a: Date, b: Date)
    requires ValidDate(a) && ValidDate(b)
    ensures DateKey(a) <= DateKey(b) <==> DateLe(a, b)
    ensures DateKey(a) == DateKey(b) <==> a == b
  {
    var ma, mb := a.month * 100 + a.day, b.month * 100 + b.day;
    assert 101 <= ma <= 1231 && 101 <= mb <= 1231;
    if a.year < b.year {
      assert a.year * 10000 + 10000 <= b.year * 10000;
    } else if a.year > b.year {
      assert b.year * 10000 + 10000 <= a.year * 10000;
    }
  }

  /** A list sorted by key, with valid dates, runs from the latest date to the earliest. */
  lemma SortedByKeyIsNewestFirst(ts: seq<Transaction>)
    requires forall i :: 0 <= i < |ts| ==> ValidDate(ts[i].date)
    requires SortedDesc(ts, TxKey)
    ensures forall i, j :: 0 <= i < j < |ts| ==> DateLe(ts[j].date, ts[i].date)
  {
    forall i, j | 0 <= i < j < |ts| ensures DateLe(ts[j].date, ts[i].date) {
      DateKeyIsCalendarOrder(ts[j].date, ts[i].date);
    }
  }

  function Ids(ts: seq<Transaction>): set<string> {
    set t | t in ts :: t.id
  }

  /** `{ ...newTxData, id: crypto.randomUUID(), timestamp: Date.now() }` */
  function NewTransaction(d: TransactionDraft, id: string, now: int): (r: Transaction)
    ensures r.amount == d.amount && r.date == d.date && r.category == d.category
    ensures r.ttype == d.ttype && r.note == d.note
    ensures r.id == id && r.timestamp == now
  {
    Transaction(id, d.amount, d.date, d.category, d.ttype, d.note, now)
  }

  /** `prev.filter(e => e.id !== id)` */
  function RemoveId(ts: seq<Transaction>, id: string): (r: seq<Transaction>)
    ensures |r| <= |ts|
    ensures forall t :: t in r <==> t in ts && t.id != id
  {
    if ts == [] then []
    else if ts[0].id != id then [ts[0]] + RemoveId(ts[1..], id)
    else RemoveId(ts[1..], id)
  }

  class TransactionStore {
    var transactions: seq<Transaction>

    /** The list as presented is always sorted newest first. */
    ghost predicate Valid()
      reads this
    {
      SortedDesc(transactions, TxKey)
    }

    /** `useState<Transaction[]>([])` */
    constructor ()
      ensures Valid() && transactions == []
    {
      transactions := [];
    }

    /** The mount effect: the loaded list, sorted by date descending. */
    method Load(loaded: seq<Transaction>)
      modifies this
      ensures Valid()
      ensures transactions == SortDesc(loaded, TxKey)
    {
      transactions := SortDesc(loaded, TxKey);
      SortDescIsSorted(loaded, TxKey);
    }

    /** `handleAddTransaction`: the id and timestamp come from the caller
        (`crypto.randomUUID()` as an id not yet used, `Date.now()`). */
    method Add(draft: TransactionDraft, id: string, now: int)
      requires Valid()
      requires id !in Ids(transactions)
      modifies this
      ensures Valid()
      ensures transactions == SortDesc([NewTransaction(draft, id, now)] + old(transactions), TxKey)
    {
      var tx := NewTransaction(draft, id, now);
      transactions := SortDesc([tx] + transactions, TxKey);
      SortDescIsSorted([tx] + old(transactions), TxKey);
    }

    /** `handleDeleteTransaction`: `confirmed` is the answer to `window.confirm`. */
    method Delete(id: string, confirmed: bool)
      requires Valid()
      modifies this
      ensures Valid()
      ensures transactions == if confirmed then RemoveId(old(transactions), id) else old(transactions)
    {
      if confirmed {
        RemoveIdKeepsSorted(transactions, id);
        transactions := RemoveId(transactions, id);
      }
    }
  }

  // ---------------------------------------------------------------------
  // Properties of add

  /** After an add the list is one longer, holds the new record and every old one
      as often as before, and is sorted by date descending. */
  lemma AddResult(ts: seq<Transaction>, draft: TransactionDraft, id: string, now: int)
    requires id !in Ids(ts)
    ensures var tx := NewTransaction(draft, id, now);
      var r := SortDesc([tx] + ts, TxKey);
      && |r| == |ts| + 1
      && multiset(r) == multiset(ts) + multiset{tx}
      && tx in r && tx !in ts
      && (forall t :: t in ts ==> t in r)
      && SortedDesc(r, TxKey)
  {
    var tx := NewTransaction(draft, id, now);
    var r := SortDesc([tx] + ts, TxKey);
    SortDescIsSorted([tx] + ts, TxKey);
    SortDescIsPermutation([tx] + ts, TxKey);
    assert multiset([tx] + ts) == multiset(ts) + multiset{tx};
    assert forall t :: t in ts ==> t.id in Ids(ts);
  }

  /** The new record comes before every older record with the same date. */
  lemma AddPutsNewFirstAmongSameDate(ts: seq<Transaction>, draft: TransactionDraft, id: string, now: int)
    requires id !in Ids(ts)
    ensures var tx := NewTransaction(draft, id, now);
      var r := SortDesc([tx] + ts, TxKey);
      forall i, j :: 0 <= i < |r| && 0 <= j < |r| && r[i] == tx && r[j] != tx && TxKey(r[j]) == TxKey(tx) ==> i < j
  {
    var tx := NewTransaction(draft, id, now);
    var r := SortDesc([tx] + ts, TxKey);
    var k := TxKey(tx);
    SortDescIsStable([tx] + ts, TxKey, k);
    WithKeyAppend([tx], ts, TxKey, k);
    assert WithKey([tx], TxKey, k) == [tx];
    var rest := WithKey(ts, TxKey, k);
    assert WithKey(r, TxKey, k) == [tx] + rest;
    assert forall t :: t in ts ==> t.id in Ids(ts);
    assert tx !in rest;
    forall i, j | 0 <= i < |r| && 0 <= j < |r| && r[i] == tx && r[j] != tx && TxKey(r[j]) == k
      ensures i < j
    {
      HeadOfKeyComesFirst(r, TxKey, tx, rest, i, j);
    }
  }

  // ---------------------------------------------------------------------
  // Properties of delete

  /** A delete drops exactly the records with that id and keeps the others as often as before. */
  lemma {:induction false} RemoveIdCounts(ts: seq<Transaction>, id: string, t: Transaction)
    ensures multiset(RemoveId(ts, id))[t] == if t.id == id then 0 else multiset(ts)[t]
  {
    if ts != [] {
      RemoveIdCounts(ts[1..], id, t);
      assert ts == [ts[0]] + ts[1..];
    }
  }

  /** The kept records stay in their relative order. */
  lemma {:induction false} RemoveIdIsSubsequence(ts: seq<Transaction>, id: string)
    ensures IsSubsequence(RemoveId(ts, id), ts)
  {
    if ts != [] {
      RemoveIdIsSubsequence(ts[1..], id);
    }
  }

  /** So a delete keeps the list sorted. */
  lemma RemoveIdKeepsSorted(ts: seq<Transaction>, id: string)
    requires SortedDesc(ts, TxKey)
    ensures SortedDesc(RemoveId(ts, id), TxKey)
  {
    RemoveIdIsSubsequence(ts, id);
    SubsequenceOfSorted(RemoveId(ts, id), ts, TxKey);
  }
}
