/** The analysis screen's derivations: the range filter, the income/expense
    totals, the per-category expense breakdown and the insight context label. */
module Analysis {
  import opened Types
  import opened Sorting

  // ---------------------------------------------------------------------
  // Range filter

  /** Whether one record falls in the selected range, given today's date. A custom
      window can hold a record only when its start is not after its end. */
  predicate InRange(t: Transaction, f: FilterState, today: Date): (b: bool)
    ensures b && f.range == Custom ==> DateLe(f.customStart, f.customEnd)
  {
    match f.range
    case Month => t.date.month == today.month && t.date.year == today.year
    case Year => t.date.year == today.year
    case Custom => DateLe(f.customStart, t.date) && DateLe(t.date, f.customEnd)
  }

  /** `transactions.filter(...)`: the records in range, in their original order. */
  function FilterByRange(ts: seq<Transaction>, f: FilterState, today: Date): (r: seq<Transaction>)
    ensures |r| <= |ts|
    ensures forall i :: 0 <= i < |r| ==> InRange(r[i], f, today)
    ensures forall t :: t in r <==> t in ts && InRange(t, f, today)
  {
    if ts == [] then []
    else if InRange(ts[0], f, today) then [ts[0]] + FilterByRange(ts[1..], f, today)
    else FilterByRange(ts[1..], f, today)
  }

  /** The filtered list keeps the input's relative order and adds or changes nothing. */
  lemma {:induction false} FilterIsSubsequence(ts: seq<Transaction>, f: FilterState, today: Date)
    ensures IsSubsequence(FilterByRange(ts, f, today), ts)
  {
    if ts != [] {
      FilterIsSubsequence(ts[1..], f, today);
    }
  }

  /** Every in-range record is kept as often as it occurs; every other record is dropped. */
  lemma {:induction false} FilterCounts(ts: seq<Transaction>, f: FilterState, today: Date, t: Transaction)
    ensures multiset(FilterByRange(ts, f, today))[t] == if InRange(t, f, today) then multiset(ts)[t] else 0
  {
    if ts != [] {
      FilterCounts(ts[1..], f, today, t);
      assert ts == [ts[0]] + ts[1..];
    }
  }

  lemma FilterMonth(ts: seq<Transaction>, f: FilterState, today: Date, t: Transaction)
    requires f.range == Month
    ensures t in FilterByRange(ts, f, today) <==>
      t in ts && t.date.month == today.month && t.date.year == today.year
  {
  }

  lemma FilterYear(ts: seq<Transaction>, f: FilterState, today: Date, t: Transaction)
    requires f.range == Year
    ensures t in FilterByRange(ts, f, today) <==> t in ts && t.date.year == today.year
  {
  }

  /** Both ends of the custom window are inclusive. */
  lemma FilterCustom(ts: seq<Transaction>, f: FilterState, today: Date, t: Transaction)
    requires f.range == Custom
    ensures t in FilterByRange(ts, f, today) <==>
      t in ts && DateLe(f.customStart, t.date) && DateLe(t.date, f.customEnd)
  {
  }

  /** A custom window whose start lies after its end keeps nothing. */
  lemma {:induction false} FilterCustomReversedIsEmpty(ts: seq<Transaction>, f: FilterState, today: Date)
    requires f.range == Custom && !DateLe(f.customStart, f.customEnd)
    ensures FilterByRange(ts, f, today) == []
  {
    if ts != [] {
      DateLeIsTotalOrder(f.customStart, ts[0].date, f.customEnd);
      FilterCustomReversedIsEmpty(ts[1..], f, today);
    }
  }

  /** With range `month`, the first and the last day of the current month are kept,
      the day before the month starts is not. */
  lemma MonthBoundaries(t: Transaction, f: FilterState, today: Date)
    requires f.range == Month && 1 <= today.month <= 12 && (today.month == 1 ==> today.year > 0)
    ensures InRange(t.(date := Date(today.year, today.month, 1)), f, today)
    ensures InRange(t.(date := Date(today.year, today.month, DaysInMonth(today.year, today.month))), f, today)
    ensures !InRange(t.(date := DayBeforeMonth(today.year, today.month)), f, today)
  {
  }

  /** The initial filter: range `month`, custom window from the first of the month to today. */
  function InitialFilter(today: Date): (r: FilterState)
    ensures r.range == Month && r.customEnd == today
    ensures forall t :: InRange(t, r.(range := Custom), today) ==> InRange(t, r, today)
    ensures forall t: Transaction :: ValidDate(t.date) && InRange(t, r, today) && DateLe(t.date, today) ==>
      InRange(t, r.(range := Custom), today)
  {
    FilterState(Month, Date(today.year, today.month, 1), today)
  }

  // ---------------------------------------------------------------------
  // Totals

  /** `filter(t => t.type === ty)` */
  function OfType(ts: seq<Transaction>, ty: TransactionType): (r: seq<Transaction>)
    ensures |r| <= |ts|
    ensures forall i :: 0 <= i < |r| ==> r[i].ttype == ty
    ensures forall t :: t in r <==> t in ts && t.ttype == ty
  {
    if ts == [] then []
    else if ts[0].ttype == ty then [ts[0]] + OfType(ts[1..], ty)
    else OfType(ts[1..], ty)
  }

  /** `reduce((acc, curr) => acc + curr.amount, 0)` */
  function SumAmounts(ts: seq<Transaction>): (r: int)
    ensures (forall i :: 0 <= i < |ts| ==> ts[i].amount >= 0) ==> r >= 0
  {
    if ts == [] then 0 else ts[0].amount + SumAmounts(ts[1..])
  }

  /** The income total; zero when no record is income. */
  function TotalIncome(ts: seq<Transaction>): (r: int)
    ensures (forall i :: 0 <= i < |ts| ==> ts[i].ttype != Income) ==> r == 0
  {
    SumAmounts(OfType(ts, Income))
  }

  /** The expense total; zero when no record is an expense. */
  function TotalExpense(ts: seq<Transaction>): (r: int)
    ensures (forall i :: 0 <= i < |ts| ==> ts[i].ttype != Expense) ==> r == 0
  {
    SumAmounts(OfType(ts, Expense))
  }

  function Balance(ts: seq<Transaction>): int {
    TotalIncome(ts) - TotalExpense(ts)
  }

  /** What one record adds to the balance: its amount for income, minus it for expense. */
  function SignedAmount(t: Transaction): int {
    if t.ttype == Income then t.amount else -t.amount
  }

  /** The net flow of a list, summed record by record. */
  function NetFlow(ts: seq<Transaction>): int {
    if ts == [] then 0 else SignedAmount(ts[0]) + NetFlow(ts[1..])
  }

  lemma {:induction false} SumAmountsAppend(a: seq<Transaction>, b: seq<Transaction>)
    ensures SumAmounts(a + b) == SumAmounts(a) + SumAmounts(b)
  {
    if a == [] {
      assert a + b == b;
    } else {
      assert (a + b)[1..] == a[1..] + b;
      SumAmountsAppend(a[1..], b);
    }
  }

  lemma {:induction false} OfTypeAppend(a: seq<Transaction>, b: seq<Transaction>, ty: TransactionType)
    ensures OfType(a + b, ty) == OfType(a, ty) + OfType(b, ty)
  {
    if a == [] {
      assert a + b == b;
    } else {
      assert (a + b)[1..] == a[1..] + b;
      OfTypeAppend(a[1..], b, ty);
    }
  }

  /** Totals of a concatenation are the sums of the parts' totals. */
  lemma TotalsAppend(a: seq<Transaction>, b: seq<Transaction>)
    ensures TotalIncome(a + b) == TotalIncome(a) + TotalIncome(b)
    ensures TotalExpense(a + b) == TotalExpense(a) + TotalExpense(b)
  {
    OfTypeAppend(a, b, Income);
    OfTypeAppend(a, b, Expense);
    SumAmountsAppend(OfType(a, Income), OfType(b, Income));
    SumAmountsAppend(OfType(a, Expense), OfType(b, Expense));
  }

  /** Every record is counted in exactly one of the two totals. */
  lemma {:induction false} TotalsPartition(ts: seq<Transaction>)
    ensures TotalIncome(ts) + TotalExpense(ts) == SumAmounts(ts)
  {
    if ts != [] {
      TotalsPartition(ts[1..]);
    }
  }

  /** The balance is the record-by-record net flow. */
  lemma {:induction false} BalanceIsNetFlow(ts: seq<Transaction>)
    ensures Balance(ts) == NetFlow(ts)
  {
    if ts != [] {
      BalanceIsNetFlow(ts[1..]);
    }
  }

  /** An empty list gives zero totals and a zero balance. */
  lemma TotalsOfEmpty()
    ensures TotalIncome([]) == 0 && TotalExpense([]) == 0 && Balance([]) == 0
  {
  }

  /** With non-negative amounts, both totals are non-negative. */
  lemma TotalsNonNegative(ts: seq<Transaction>)
    requires forall i :: 0 <= i < |ts| ==> ts[i].amount >= 0
    ensures TotalIncome(ts) >= 0 && TotalExpense(ts) >= 0
  {
    var inc, exp := OfType(ts, Income), OfType(ts, Expense);
    forall i | 0 <= i < |inc| ensures inc[i].amount >= 0 {
      assert inc[i] in ts;
    }
    forall i | 0 <= i < |exp| ensures exp[i].amount >= 0 {
      assert exp[i] in ts;
    }
  }

  // ---------------------------------------------------------------------
  // Expense breakdown. The entries of the JavaScript Map, in insertion order,
  // are a sequence of points with distinct names.

  function PointValue(p: ChartDataPoint): int { p.value }

  function Names(ps: seq<ChartDataPoint>): (r: seq<string>)
    ensures |r| == |ps|
  {
    seq(|ps|, i requires 0 <= i < |ps| => ps[i].name)
  }

  predicate NamesDistinct(ps: seq<ChartDataPoint>) {
    forall i, j :: 0 <= i < j < |ps| ==> ps[i].name != ps[j].name
  }

  /** `map.get(n) || 0`: the value of the first entry named `n`, and 0 for a name
      with no entry. */
  function ValueOf(ps: seq<ChartDataPoint>, n: string): (r: int)
    ensures n !in Names(ps) ==> r == 0
  {
    if ps == [] then 0
    else
      assert Names(ps) == [ps[0].name] + Names(ps[1..]);
      if ps[0].name == n then ps[0].value else ValueOf(ps[1..], n)
  }

  /** `map.set(n, (map.get(n) || 0) + a)`: an existing entry keeps its place. */
  function Bump(ps: seq<ChartDataPoint>, n: string, a: int): seq<ChartDataPoint> {
    if ps == [] then [ChartDataPoint(n, a)]
    else if ps[0].name == n then [ChartDataPoint(n, ps[0].value + a)] + ps[1..]
    else [ps[0]] + Bump(ps[1..], n, a)
  }

  /** Category labels of the records, in order. */
  function Categories(es: seq<Transaction>): (r: seq<string>)
    ensures |r| == |es|
  {
    seq(|es|, i requires 0 <= i < |es| => es[i].category)
  }

  /** The labels in order of first appearance, each once. */
  function Dedup(s: seq<string>): (r: seq<string>) {
    if s == [] then []
    else
      var d := Dedup(s[..|s| - 1]);
      if s[|s| - 1] in d then d else d + [s[|s| - 1]]
  }

  /** The Map after the `forEach` over the records `es`. */
  function Group(es: seq<Transaction>): seq<ChartDataPoint> {
    if es == [] then []
    else
      var last := es[|es| - 1];
      Bump(Group(es[..|es| - 1]), last.category, last.amount)
  }

  /** Reference sum: the amounts of the expense records labelled `n`. */
  function CategorySum(ts: seq<Transaction>, n: string): int {
    if ts == [] then 0
    else
      var own := if ts[0].ttype == Expense && ts[0].category == n then ts[0].amount else 0;
      own + CategorySum(ts[1..], n)
  }

  function SumValues(ps: seq<ChartDataPoint>): int {
    if ps == [] then 0 else ps[0].value + SumValues(ps[1..])
  }

  /** The breakdown handed to the chart: the Map's entries sorted by value, descending. */
  function Breakdown(ts: seq<Transaction>): (r: seq<ChartDataPoint>)
    ensures SortedDesc(r, PointValue)
    ensures multiset(r) == multiset(Group(OfType(ts, Expense)))
  {
    SortDescIsSorted(Group(OfType(ts, Expense)), PointValue);
    SortDesc(Group(OfType(ts, Expense)), PointValue)
  }

  /** The imperative breakdown: fold the expense records into the entry list, then sort. */
  method ExpenseBreakdown(filtered: seq<Transaction>) returns (points: seq<ChartDataPoint>)
    ensures points == Breakdown(filtered)
  {
    var expenses := OfType(filtered, Expense);
    var entries: seq<ChartDataPoint> := [];
    for i := 0 to |expenses|
      invariant entries == Group(expenses[..i])
    {
      assert expenses[..i + 1][..i] == expenses[..i];
      entries := Bump(entries, expenses[i].category, expenses[i].amount);
    }
    assert expenses[..|expenses|] == expenses;
    points := SortDesc(entries, PointValue);
  }

  // Facts about one Map update.

  lemma {:induction false} BumpNames(ps: seq<ChartDataPoint>, n: string, a: int)
    ensures Names(Bump(ps, n, a)) == if n in Names(ps) then Names(ps) else Names(ps) + [n]
  {
    if ps != [] {
      assert Names(ps) == [ps[0].name] + Names(ps[1..]);
      if ps[0].name != n {
        BumpNames(ps[1..], n, a);
        assert Names(Bump(ps, n, a)) == [ps[0].name] + Names(Bump(ps[1..], n, a));
      } else {
        assert Names(Bump(ps, n, a)) == [n] + Names(ps[1..]);
      }
    }
  }

  lemma {:induction false} BumpValue(ps: seq<ChartDataPoint>, n: string, a: int, m: string)
    ensures ValueOf(Bump(ps, n, a), m) == ValueOf(ps, m) + (if m == n then a else 0)
  {
    if ps != [] && ps[0].name != n {
      BumpValue(ps[1..], n, a, m);
    }
  }

  lemma {:induction false} BumpSum(ps: seq<ChartDataPoint>, n: string, a: int)
    ensures SumValues(Bump(ps, n, a)) == SumValues(ps) + a
  {
    if ps == [] {
    } else if ps[0].name == n {
      assert Bump(ps, n, a)[1..] == ps[1..];
    } else {
      BumpSum(ps[1..], n, a);
    }
  }

  // Facts about the first-appearance order.

  lemma {:induction false} DedupMembers(s: seq<string>)
    ensures forall x :: x in Dedup(s) <==> x in s
  {
    if s != [] {
      DedupMembers(s[..|s| - 1]);
      assert s == s[..|s| - 1] + [s[|s| - 1]];
    }
  }

  lemma {:induction false} DedupDistinct(s: seq<string>)
    ensures forall i, j :: 0 <= i < j < |Dedup(s)| ==> Dedup(s)[i] != Dedup(s)[j]
  {
    if s != [] {
      DedupDistinct(s[..|s| - 1]);
    }
  }

  // Facts about the Map after the loop.

  lemma {:induction false} GroupNames(es: seq<Transaction>)
    ensures Names(Group(es)) == Dedup(Categories(es))
  {
    if es != [] {
      var init := es[..|es| - 1];
      GroupNames(init);
      BumpNames(Group(init), es[|es| - 1].category, es[|es| - 1].amount);
      assert Categories(es)[..|es| - 1] == Categories(init);
    }
  }

  lemma {:induction false} CategorySumAppend(a: seq<Transaction>, b: seq<Transaction>, n: string)
    ensures CategorySum(a + b, n) == CategorySum(a, n) + CategorySum(b, n)
  {
    if a == [] {
      assert a + b == b;
    } else {
      assert (a + b)[1..] == a[1..] + b;
      CategorySumAppend(a[1..], b, n);
    }
  }

  /** On expense records, each entry's value is the reference category sum. */
  lemma {:induction false} GroupValues(es: seq<Transaction>, n: string)
    requires forall i :: 0 <= i < |es| ==> es[i].ttype == Expense
    ensures ValueOf(Group(es), n) == CategorySum(es, n)
  {
    if es != [] {
      var init, last := es[..|es| - 1], es[|es| - 1];
      GroupValues(init, n);
      BumpValue(Group(init), last.category, last.amount, n);
      assert es == init + [last];
      CategorySumAppend(init, [last], n);
    }
  }

  lemma {:induction false} GroupSum(es: seq<Transaction>)
    ensures SumValues(Group(es)) == SumAmounts(es)
  {
    if es != [] {
      var init, last := es[..|es| - 1], es[|es| - 1];
      GroupSum(init);
      BumpSum(Group(init), last.category, last.amount);
      assert es == init + [last];
      SumAmountsAppend(init, [last]);
    }
  }

  lemma {:induction false} CategorySumOfExpenses(ts: seq<Transaction>, n: string)
    ensures CategorySum(OfType(ts, Expense), n) == CategorySum(ts, n)
  {
    if ts != [] {
      CategorySumOfExpenses(ts[1..], n);
    }
  }

  lemma {:induction false} ValueOfDistinct(ps: seq<ChartDataPoint>, i: int)
    requires NamesDistinct(ps) && 0 <= i < |ps|
    ensures ValueOf(ps, ps[i].name) == ps[i].value
  {
    if i > 0 {
      ValueOfDistinct(ps[1..], i - 1);
    }
  }

  // Facts about the sort of the entries.

  lemma {:induction false} InsertKeepsNamesDistinct(x: ChartDataPoint, ps: seq<ChartDataPoint>)
    requires NamesDistinct(ps) && forall p :: p in ps ==> p.name != x.name
    ensures NamesDistinct(InsertDesc(x, ps, PointValue))
  {
    if ps != [] && x.value < ps[0].value {
      InsertKeepsNamesDistinct(x, ps[1..]);
      var r := InsertDesc(x, ps[1..], PointValue);
      forall p | p in r ensures p.name != ps[0].name {
        assert p in multiset(r);
        if p != x {
          assert p in multiset(ps[1..]);
        }
      }
    }
  }

  lemma {:induction false} SortKeepsNamesDistinct(ps: seq<ChartDataPoint>)
    requires NamesDistinct(ps)
    ensures NamesDistinct(SortDesc(ps, PointValue))
  {
    if ps != [] {
      SortKeepsNamesDistinct(ps[1..]);
      SortDescIsPermutation(ps[1..], PointValue);
      InsertKeepsNamesDistinct(ps[0], SortDesc(ps[1..], PointValue));
    }
  }

  lemma {:induction false} InsertSum(x: ChartDataPoint, ps: seq<ChartDataPoint>)
    ensures SumValues(InsertDesc(x, ps, PointValue)) == x.value + SumValues(ps)
  {
    if ps != [] && x.value < ps[0].value {
      InsertSum(x, ps[1..]);
    }
  }

  lemma {:induction false} SortSum(ps: seq<ChartDataPoint>)
    ensures SumValues(SortDesc(ps, PointValue)) == SumValues(ps)
  {
    if ps != [] {
      SortSum(ps[1..]);
      InsertSum(ps[0], SortDesc(ps[1..], PointValue));
    }
  }

  // The breakdown's properties.

  lemma GroupNamesDistinct(es: seq<Transaction>)
    ensures NamesDistinct(Group(es))
  {
    var g := Group(es);
    GroupNames(es);
    DedupDistinct(Categories(es));
    forall i, j | 0 <= i < j < |g| ensures g[i].name != g[j].name {
      assert Names(g)[i] == g[i].name && Names(g)[j] == g[j].name;
    }
  }

  lemma SortKeepsNames(ps: seq<ChartDataPoint>)
    ensures forall n :: n in Names(SortDesc(ps, PointValue)) <==> n in Names(ps)
  {
    var r := SortDesc(ps, PointValue);
    SortDescIsPermutation(ps, PointValue);
    forall n ensures n in Names(r) <==> n in Names(ps) {
      if n in Names(r) {
        var i :| 0 <= i < |r| && Names(r)[i] == n;
        assert r[i] in ps;
        var k :| 0 <= k < |ps| && ps[k] == r[i];
        assert Names(ps)[k] == n;
      }
      if n in Names(ps) {
        var k :| 0 <= k < |ps| && Names(ps)[k] == n;
        assert ps[k] in r;
        var i :| 0 <= i < |r| && r[i] == ps[k];
        assert Names(r)[i] == n;
      }
    }
  }

  lemma ExpenseCategoriesPresent(ts: seq<Transaction>)
    ensures forall n :: n in Categories(OfType(ts, Expense)) <==>
      exists t :: t in ts && t.ttype == Expense && t.category == n
  {
    var es := OfType(ts, Expense);
    forall n ensures n in Categories(es) <==> exists t :: t in ts && t.ttype == Expense && t.category == n {
      if n in Categories(es) {
        var m :| 0 <= m < |es| && Categories(es)[m] == n;
        assert es[m] in ts;
      }
      if exists t :: t in ts && t.ttype == Expense && t.category == n {
        var t :| t in ts && t.ttype == Expense && t.category == n;
        assert t in es;
        var m :| 0 <= m < |es| && es[m] == t;
        assert Categories(es)[m] == n;
      }
    }
  }

  /** One entry per distinct expense category present, names distinct, and no
      entry that is not an expense category of the list; income never shows up. */
  lemma BreakdownNames(ts: seq<Transaction>)
    ensures NamesDistinct(Breakdown(ts))
    ensures forall n :: n in Names(Breakdown(ts)) <==> exists t :: t in ts && t.ttype == Expense && t.category == n
  {
    var es := OfType(ts, Expense);
    GroupNamesDistinct(es);
    SortKeepsNamesDistinct(Group(es));
    SortKeepsNames(Group(es));
    GroupNames(es);
    DedupMembers(Categories(es));
    ExpenseCategoriesPresent(ts);
  }

  /** Each entry's value is the sum of that category's expense amounts. */
  lemma BreakdownValues(ts: seq<Transaction>)
    ensures forall i :: 0 <= i < |Breakdown(ts)| ==> Breakdown(ts)[i].value == CategorySum(ts, Breakdown(ts)[i].name)
  {
    var es := OfType(ts, Expense);
    var g := Group(es);
    var r := Breakdown(ts);
    GroupNamesDistinct(es);
    SortDescIsPermutation(g, PointValue);
    forall i | 0 <= i < |r| ensures r[i].value == CategorySum(ts, r[i].name) {
      assert r[i] in g;
      var k :| 0 <= k < |g| && g[k] == r[i];
      ValueOfDistinct(g, k);
      GroupValues(es, r[i].name);
      CategorySumOfExpenses(ts, r[i].name);
    }
  }

  /** The entry values add up to the expense total. */
  lemma BreakdownSum(ts: seq<Transaction>)
    ensures SumValues(Breakdown(ts)) == TotalExpense(ts)
  {
    SortSum(Group(OfType(ts, Expense)));
    GroupSum(OfType(ts, Expense));
  }

  /** Values are non-increasing; entries with equal values keep the Map's
      insertion order, which is the order in which categories first appear. */
  lemma BreakdownOrder(ts: seq<Transaction>, v: int)
    ensures SortedDesc(Breakdown(ts), PointValue)
    ensures WithKey(Breakdown(ts), PointValue, v) == WithKey(Group(OfType(ts, Expense)), PointValue, v)
    ensures Names(Group(OfType(ts, Expense))) == Dedup(Categories(OfType(ts, Expense)))
  {
    SortDescIsSorted(Group(OfType(ts, Expense)), PointValue);
    SortDescIsStable(Group(OfType(ts, Expense)), PointValue, v);
    GroupNames(OfType(ts, Expense));
  }

  /** An empty list has an empty breakdown. */
  lemma BreakdownOfEmpty()
    ensures Breakdown([]) == []
  {
  }

  // ---------------------------------------------------------------------
  // Context label for the insight request

  function RangeName(r: TimeRange): string {
    match r
    case Month => "month"
    case Year => "year"
    case Custom => "custom"
  }

  /** "From S to E" for a custom range, otherwise "Current month" / "Current year".
      S is the window's start and E its end, each in `YYYY-MM-DD` form. */
  function ContextLabel(f: FilterState): (r: string)
    ensures f.range == Month ==> r == "Current month"
    ensures f.range == Year ==> r == "Current year"
    ensures f.range == Custom ==> |r| == 29 && r[..5] == "From " && r[15..19] == " to "
  {
    if f.range == Custom then "From " + IsoDate(f.customStart) + " to " + IsoDate(f.customEnd)
    else "Current " + RangeName(f.range)
  }

  /** A custom label names the window in order: S parses back to the start and E
      to the end. */
  lemma ContextLabelNamesWindow(f: FilterState)
    requires f.range == Custom && ValidDate(f.customStart) && ValidDate(f.customEnd)
    ensures ParseIsoDate(ContextLabel(f)[5..15]) == Some(f.customStart)
    ensures ParseIsoDate(ContextLabel(f)[19..]) == Some(f.customEnd)
  {
    var r := ContextLabel(f);
    assert r[5..15] == IsoDate(f.customStart) && r[19..] == IsoDate(f.customEnd);
    IsoDateRoundTrip(f.customStart);
    IsoDateRoundTrip(f.customEnd);
  }

  /** The label tells the filters apart: equal labels mean the same range and,
      for a custom range, the same window. */
  lemma ContextLabelIdentifiesFilter(f: FilterState, g: FilterState)
    requires f.range == Custom ==> ValidDate(f.customStart) && ValidDate(f.customEnd)
    requires g.range == Custom ==> ValidDate(g.customStart) && ValidDate(g.customEnd)
    ensures ContextLabel(f) == ContextLabel(g) <==>
      f.range == g.range && (f.range == Custom ==> f.customStart == g.customStart && f.customEnd == g.customEnd)
  {
    var a, b := ContextLabel(f), ContextLabel(g);
    if f.range == Custom && g.range == Custom {
      assert a[5..15] == IsoDate(f.customStart) && a[19..] == IsoDate(f.customEnd);
      assert b[5..15] == IsoDate(g.customStart) && b[19..] == IsoDate(g.customEnd);
      IsoDateInjective(f.customStart, g.customStart);
      IsoDateInjective(f.customEnd, g.customEnd);
    } else if f.range == Custom {
      assert a[0] == 'F' && b[0] == 'C';
    } else if g.range == Custom {
      assert a[0] == 'C' && b[0] == 'F';
    } else if f.range != g.range {
      assert |a| != |b|;
    }
  }
}
