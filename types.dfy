/** The app's data model: transaction types, the two category label sets,
    calendar dates, the transaction record, the filter state and chart points. */
module Types {

  datatype Option<T> = None | Some(value: T)

  /** 'expense' | 'income' */
  datatype TransactionType = Expense | Income

  /** The expense categories, in declaration order. */
  datatype ExpenseCategory =
    | Food | Groceries | Transport | Bills | Shopping | Health | Housing | Education
    | Entertainment | Travel | PersonalCare | Gifts | Investment | Debt | Insurance
    | Pets | ExpenseOthers

  /** The income categories, in declaration order. */
  datatype IncomeCategory =
    | Salary | Freelance | Business | Gift | Refund | InvestmentReturn | Rental | IncomeOthers

  /** The string value of each expense enum member. */
  function ExpenseLabel(c: ExpenseCategory): string {
    match c
    case Food => "Food & Dining"
    case Groceries => "Groceries"
    case Transport => "Transport"
    case Bills => "Bills & Utilities"
    case Shopping => "Shopping"
    case Health => "Health & Fitness"
    case Housing => "Housing & Rent"
    case Education => "Education"
    case Entertainment => "Entertainment"
    case Travel => "Travel & Vacation"
    case PersonalCare => "Personal Care"
    case Gifts => "Gifts & Donations"
    case Investment => "Investment"
    case Debt => "Debt & Loans"
    case Insurance => "Insurance"
    case Pets => "Pets"
    case ExpenseOthers => "Others"
  }

  /** The string value of each income enum member. */
  function IncomeLabel(c: IncomeCategory): string {
    match c
    case Salary => "Salary"
    case Freelance => "Freelance"
    case Business => "Business"
    case Gift => "Gift"
    case Refund => "Refund"
    case InvestmentReturn => "Investment Return"
    case Rental => "Rental Income"
    case IncomeOthers => "Others"
  }

  /** The enum members in declaration order, as `Object.values` lists them. */
  const ExpenseCategories: seq<ExpenseCategory> :=
    [Food, Groceries, Transport, Bills, Shopping, Health, Housing, Education,
     Entertainment, Travel, PersonalCare, Gifts, Investment, Debt, Insurance,
     Pets, ExpenseOthers]

  const IncomeCategories: seq<IncomeCategory> :=
    [Salary, Freelance, Business, Gift, Refund, InvestmentReturn, Rental, IncomeOthers]

  /** Looks a label up among the expense enum values. */
  function ParseExpenseCategory(s: string): (r: Option<ExpenseCategory>)
    ensures r.Some? ==> ExpenseLabel(r.value) == s
  {
    if s == "Food & Dining" then Some(Food)
    else if s == "Groceries" then Some(Groceries)
    else if s == "Transport" then Some(Transport)
    else if s == "Bills & Utilities" then Some(Bills)
    else if s == "Shopping" then Some(Shopping)
    else if s == "Health & Fitness" then Some(Health)
    else if s == "Housing & Rent" then Some(Housing)
    else if s == "Education" then Some(Education)
    else if s == "Entertainment" then Some(Entertainment)
    else if s == "Travel & Vacation" then Some(Travel)
    else if s == "Personal Care" then Some(PersonalCare)
    else if s == "Gifts & Donations" then Some(Gifts)
    else if s == "Investment" then Some(Investment)
    else if s == "Debt & Loans" then Some(Debt)
    else if s == "Insurance" then Some(Insurance)
    else if s == "Pets" then Some(Pets)
    else if s == "Others" then Some(ExpenseOthers)
    else None
  }

  /** Looks a label up among the income enum values. */
  function ParseIncomeCategory(s: string): (r: Option<IncomeCategory>)
    ensures r.Some? ==> IncomeLabel(r.value) == s
  {
    if s == "Salary" then Some(Salary)
    else if s == "Freelance" then Some(Freelance)
    else if s == "Business" then Some(Business)
    else if s == "Gift" then Some(Gift)
    else if s == "Refund" then Some(Refund)
    else if s == "Investment Return" then Some(InvestmentReturn)
    else if s == "Rental Income" then Some(Rental)
    else if s == "Others" then Some(IncomeOthers)
    else None
  }

  predicate IsExpenseLabel(s: string) { ParseExpenseCategory(s).Some? }

  predicate IsIncomeLabel(s: string) { ParseIncomeCategory(s).Some? }

  /** Every expense label reads back as its own enum member. */
  lemma ExpenseLabelRoundTrip(c: ExpenseCategory)
    ensures ParseExpenseCategory(ExpenseLabel(c)) == Some(c)
  {
    match c
    case Food =>
    case Groceries =>
    case Transport =>
    case Bills =>
    case Shopping =>
    case Health =>
    case Housing =>
    case Education =>
    case Entertainment =>
    case Travel =>
    case PersonalCare =>
    case Gifts =>
    case Investment =>
    case Debt =>
    case Insurance =>
    case Pets =>
    case ExpenseOthers =>
  }

  /** Every income label reads back as its own enum member. */
  lemma IncomeLabelRoundTrip(c: IncomeCategory)
    ensures ParseIncomeCategory(IncomeLabel(c)) == Some(c)
  {
    match c
    case Salary =>
    case Freelance =>
    case Business =>
    case Gift =>
    case Refund =>
    case InvestmentReturn =>
    case Rental =>
    case IncomeOthers =>
  }

  /** The 17 expense labels are pairwise distinct. */
  lemma ExpenseLabelsDistinct(a: ExpenseCategory, b: ExpenseCategory)
    ensures ExpenseLabel(a) == ExpenseLabel(b) <==> a == b
  {
    ExpenseLabelRoundTrip(a);
    ExpenseLabelRoundTrip(b);
  }

  /** The 8 income labels are pairwise distinct. */
  lemma IncomeLabelsDistinct(a: IncomeCategory, b: IncomeCategory)
    ensures IncomeLabel(a) == IncomeLabel(b) <==> a == b
  {
    IncomeLabelRoundTrip(a);
    IncomeLabelRoundTrip(b);
  }

  /** The enum value lists hold every member exactly once: 17 and 8 labels. */
  lemma CategoryListsComplete()
    ensures |ExpenseCategories| == 17 && |IncomeCategories| == 8
    ensures forall c: ExpenseCategory :: c in ExpenseCategories
    ensures forall c: IncomeCategory :: c in IncomeCategories
    ensures forall i, j :: 0 <= i < j < |ExpenseCategories| ==>
      ExpenseLabel(ExpenseCategories[i]) != ExpenseLabel(ExpenseCategories[j])
    ensures forall i, j :: 0 <= i < j < |IncomeCategories| ==>
      IncomeLabel(IncomeCategories[i]) != IncomeLabel(IncomeCategories[j])
  {
    forall c: ExpenseCategory ensures c in ExpenseCategories {
      match c
      case Food => assert ExpenseCategories[0] == c;
      case Groceries => assert ExpenseCategories[1] == c;
      case Transport => assert ExpenseCategories[2] == c;
      case Bills => assert ExpenseCategories[3] == c;
      case Shopping => assert ExpenseCategories[4] == c;
      case Health => assert ExpenseCategories[5] == c;
      case Housing => assert ExpenseCategories[6] == c;
      case Education => assert ExpenseCategories[7] == c;
      case Entertainment => assert ExpenseCategories[8] == c;
      case Travel => assert ExpenseCategories[9] == c;
      case PersonalCare => assert ExpenseCategories[10] == c;
      case Gifts => assert ExpenseCategories[11] == c;
      case Investment => assert ExpenseCategories[12] == c;
      case Debt => assert ExpenseCategories[13] == c;
      case Insurance => assert ExpenseCategories[14] == c;
      case Pets => assert ExpenseCategories[15] == c;
      case ExpenseOthers => assert ExpenseCategories[16] == c;
    }
    forall c: IncomeCategory ensures c in IncomeCategories {
      match c
      case Salary => assert IncomeCategories[0] == c;
      case Freelance => assert IncomeCategories[1] == c;
      case Business => assert IncomeCategories[2] == c;
      case Gift => assert IncomeCategories[3] == c;
      case Refund => assert IncomeCategories[4] == c;
      case InvestmentReturn => assert IncomeCategories[5] == c;
      case Rental => assert IncomeCategories[6] == c;
      case IncomeOthers => assert IncomeCategories[7] == c;
    }
    forall i, j | 0 <= i < j < |ExpenseCategories|
      ensures ExpenseLabel(ExpenseCategories[i]) != ExpenseLabel(ExpenseCategories[j])
    {
      ExpenseLabelsDistinct(ExpenseCategories[i], ExpenseCategories[j]);
    }
    forall i, j | 0 <= i < j < |IncomeCategories|
      ensures IncomeLabel(IncomeCategories[i]) != IncomeLabel(IncomeCategories[j])
    {
      IncomeLabelsDistinct(IncomeCategories[i], IncomeCategories[j]);
    }
  }

  /** "Others" is the one label the two sets share, so they are not disjoint. */
  lemma OnlySharedLabelIsOthers(s: string)
    ensures IsExpenseLabel(s) && IsIncomeLabel(s) <==> s == "Others"
  {
  }

  /** The shared label, stated over the enum members. */
  lemma SharedCategories(e: ExpenseCategory, i: IncomeCategory)
    ensures ExpenseLabel(e) == IncomeLabel(i) <==> e == ExpenseOthers && i == IncomeOthers
  {
    ExpenseLabelRoundTrip(e);
    IncomeLabelRoundTrip(i);
    OnlySharedLabelIsOthers(ExpenseLabel(e));
  }

  // ---------------------------------------------------------------------
  // Calendar dates. The record stores a "YYYY-MM-DD" string; the model
  // keeps the calendar triple it denotes and orders triples lexicographically.

  datatype Date = Date(year: nat, month: nat, day: nat)

  function DaysInMonth(year: nat, month: nat): (r: nat)
    requires 1 <= month <= 12
    ensures 28 <= r <= 31
    ensures month == 2 ==> (r == 29 <==> year % 4 == 0 && (year % 100 != 0 || year % 400 == 0))
  {
    if month == 2 then
      (if year % 4 == 0 && (year % 100 != 0 || year % 400 == 0) then 29 else 28)
    else if month == 4 || month == 6 || month == 9 || month == 11 then 30
    else 31
  }

  /** A date an ISO "YYYY-MM-DD" string can denote. */
  predicate ValidDate(d: Date) {
    d.year <= 9999 && 1 <= d.month <= 12 && 1 <= d.day <= DaysInMonth(d.year, d.month)
  }

  /** Calendar order: year, then month, then day. */
  predicate DateLe(a: Date, b: Date) {
    a.year < b.year
    || (a.year == b.year && (a.month < b.month || (a.month == b.month && a.day <= b.day)))
  }

  lemma DateLeIsTotalOrder(a: Date, b: Date, c: Date)
    ensures DateLe(a, a)
    ensures DateLe(a, b) || DateLe(b, a)
    ensures DateLe(a, b) && DateLe(b, a) ==> a == b
    ensures DateLe(a, b) && DateLe(b, c) ==> DateLe(a, c)
  {
  }

  /** The day before the first of a month (the last day of the previous month). */
  function DayBeforeMonth(year: nat, month: nat): (r: Date)
    requires 1 <= month <= 12 && (month == 1 ==> year > 0)
    ensures ValidDate(r) || year > 9999
    ensures DateLe(r, Date(year, month, 1)) && r != Date(year, month, 1)
    ensures forall d: Date :: ValidDate(d) && DateLe(r, d) && d != r ==> DateLe(Date(year, month, 1), d)
  {
    if month == 1 then Date(year - 1, 12, 31)
    else Date(year, month - 1, DaysInMonth(year, month - 1))
  }

  // ---------------------------------------------------------------------
  // The ISO "YYYY-MM-DD" text form of a date.

  function DigitChar(k: nat): char
    requires k < 10
  {
    ['0', '1', '2', '3', '4', '5', '6', '7', '8', '9'][k]
  }

  function CharValue(c: char): Option<nat> {
    if '0' <= c <= '9' then Some((c as int - '0' as int) as nat) else None
  }

  function Pow10(w: nat): (r: nat)
    ensures r >= 1
  {
    if w == 0 then 1 else 10 * Pow10(w - 1)
  }

  /** The lowest `w` decimal digits of `n`, zero-padded. */
  function Digits(n: nat, w: nat): (r: string)
    ensures |r| == w
    ensures forall i :: 0 <= i < |r| ==> '0' <= r[i] <= '9'
  {
    if w == 0 then [] else Digits(n / 10, w - 1) + [DigitChar(n % 10)]
  }

  /** Reads a string of decimal digits; fails on anything else. */
  function ParseDigits(s: string): (r: Option<nat>)
    ensures r.Some? ==> r.value < Pow10(|s|)
  {
    if s == [] then Some(0)
    else
      match ParseDigits(s[..|s| - 1])
      case None => None
      case Some(hi) =>
        match CharValue(s[|s| - 1])
        case None => None
        case Some(lo) => Some(hi * 10 + lo)
  }

  lemma {:induction false} DigitsRoundTrip(n: nat, w: nat)
    requires n < Pow10(w)
    ensures ParseDigits(Digits(n, w)) == Some(n)
  {
    if w > 0 {
      var s := Digits(n, w);
      var hi, lo := n / 10, n % 10;
      assert n == hi * 10 + lo;
      assert hi < Pow10(w - 1);
      assert s[..|s| - 1] == Digits(hi, w - 1);
      DigitsRoundTrip(hi, w - 1);
      assert CharValue(DigitChar(lo)) == Some(lo);
    }
  }

  /** The "YYYY-MM-DD" form of a date. */
  function IsoDate(d: Date): (r: string)
    ensures |r| == 10 && r[4] == '-' && r[7] == '-'
  {
    Digits(d.year, 4) + "-" + Digits(d.month, 2) + "-" + Digits(d.day, 2)
  }

  /** Reads a "YYYY-MM-DD" string back into its calendar triple. */
  function ParseIsoDate(s: string): (r: Option<Date>)
    ensures r.Some? ==> |s| == 10 && s[4] == '-' && s[7] == '-'
  {
    if |s| != 10 || s[4] != '-' || s[7] != '-' then None
    else
      match (ParseDigits(s[..4]), ParseDigits(s[5..7]), ParseDigits(s[8..]))
      case (Some(y), Some(m), Some(d)) => Some(Date(y, m, d))
      case _ => None
  }

  /** Formatting then reading a date in the ISO form gives it back. */
  lemma IsoDateRoundTrip(d: Date)
    requires ValidDate(d)
    ensures ParseIsoDate(IsoDate(d)) == Some(d)
  {
    var s := IsoDate(d);
    assert s[..4] == Digits(d.year, 4);
    assert s[5..7] == Digits(d.month, 2);
    assert s[8..] == Digits(d.day, 2);
    DigitsRoundTrip(d.year, 4);
    DigitsRoundTrip(d.month, 2);
    DigitsRoundTrip(d.day, 2);
  }

  lemma IsoDateInjective(a: Date, b: Date)
    requires ValidDate(a) && ValidDate(b)
    ensures IsoDate(a) == IsoDate(b) <==> a == b
  {
    IsoDateRoundTrip(a);
    IsoDateRoundTrip(b);
  }

  // ---------------------------------------------------------------------
  // Records.

  /** A stored transaction. `category` is any string: nothing in the record
      ties it to the label set of its `ttype`. Amounts are whole minor units. */
  datatype Transaction = Transaction(
    id: string,
    amount: int,
    date: Date,
    category: string,
    ttype: TransactionType,
    note: string,
    timestamp: int)

  /** The record the entry form hands over (a transaction without id and timestamp). */
  datatype TransactionDraft = TransactionDraft(
    amount: int,
    date: Date,
    category: string,
    ttype: TransactionType,
    note: string)

  /** 'month' | 'year' | 'custom' */
  datatype TimeRange = Month | Year | Custom

  datatype FilterState = FilterState(range: TimeRange, customStart: Date, customEnd: Date)

  /** One slice of the expense breakdown: a category label and its summed amount. */
  datatype ChartDataPoint = ChartDataPoint(name: string, value: int)

  /** A transaction type is exactly one of expense or income. */
  lemma TypeIsExpenseOrIncome(t: TransactionType)
    ensures t == Expense <==> t != Income
  {
  }

  /** A time range is exactly one of month, year or custom. */
  lemma RangeIsOneOfThree(r: TimeRange)
    ensures r == Month || r == Year || r == Custom
    ensures !(r == Month && r == Year) && !(r == Month && r == Custom) && !(r == Year && r == Custom)
  {
  }

  /** The record type admits an income transaction carrying an expense-only label. */
  lemma CategoryIsUnconstrained()
    ensures exists t: Transaction :: t.ttype == Income && IsExpenseLabel(t.category) && !IsIncomeLabel(t.category)
  {
    var t := Transaction("id", 100, Date(2024, 1, 1), "Groceries", Income, "", 0);
    assert IsExpenseLabel(t.category) && !IsIncomeLabel(t.category);
  }
}
