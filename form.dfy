/** The add screen: the entry form's state and handlers, the category tint of a
    listed transaction, and the recent-transactions window. */
module EntryForm {
  import opened Types

  /** The category a type switch selects: "Food & Dining" or "Salary". */
  function DefaultCategory(t: TransactionType): (r: string)
    ensures t == Expense ==> ParseExpenseCategory(r) == Some(Food)
    ensures t == Income ==> ParseIncomeCategory(r) == Some(Salary)
  {
    if t == Expense then ExpenseLabel(Food) else IncomeLabel(Salary)
  }

  /** The options the category select lists for a type, in enum order. */
  function CategoryOptions(t: TransactionType): (r: seq<string>)
    ensures |r| == if t == Expense then 17 else 8
  {
    if t == Expense then seq(|ExpenseCategories|, i requires 0 <= i < |ExpenseCategories| => ExpenseLabel(ExpenseCategories[i]))
    else seq(|IncomeCategories|, i requires 0 <= i < |IncomeCategories| => IncomeLabel(IncomeCategories[i]))
  }

  /** The select offers exactly the labels of the set matching the type. */
  lemma CategoryOptionsAreTheTypesLabels(t: TransactionType, s: string)
    ensures s in CategoryOptions(t) <==> if t == Expense then IsExpenseLabel(s) else IsIncomeLabel(s)
  {
    CategoryListsComplete();
    var opts := CategoryOptions(t);
    if t == Expense {
      if s in opts {
        var i :| 0 <= i < |opts| && opts[i] == s;
        ExpenseLabelRoundTrip(ExpenseCategories[i]);
      }
      if IsExpenseLabel(s) {
        var c := ParseExpenseCategory(s).value;
        assert c in ExpenseCategories;
        var i :| 0 <= i < |ExpenseCategories| && ExpenseCategories[i] == c;
        assert opts[i] == s;
      }
    } else {
      if s in opts {
        var i :| 0 <= i < |opts| && opts[i] == s;
        IncomeLabelRoundTrip(IncomeCategories[i]);
      }
      if IsIncomeLabel(s) {
        var c := ParseIncomeCategory(s).value;
        assert c in IncomeCategories;
        var i :| 0 <= i < |IncomeCategories| && IncomeCategories[i] == c;
        assert opts[i] == s;
      }
    }
  }

  /** The submit guard `!amount || isNaN(Number(amount))`, negated; `toNumber`
      stands for `Number`, with `None` for NaN. Zero and negative amounts pass. */
  predicate AcceptsAmount(amount: string, toNumber: string -> Option<int>) {
    amount != "" && toNumber(amount).Some?
  }

  class AddForm {
    var ttype: TransactionType
    var amount: string
    var date: Date
    var category: string
    var note: string

    /** The selected category is one the select offers for the selected type. */
    ghost predicate Valid()
      reads this
    {
      category in CategoryOptions(ttype)
    }

    /** The initial state; `today` is the date input's default. */
    constructor (today: Date)
      ensures Valid()
      ensures ttype == Expense && category == "Food & Dining"
      ensures amount == "" && note == "" && date == today
    {
      ttype := Expense;
      amount := "";
      date := today;
      category := ExpenseLabel(Food);
      note := "";
      assert CategoryOptions(Expense)[0] == ExpenseLabel(Food);
    }

    /** `handleTypeChange` */
    method ChangeType(t: TransactionType)
      modifies this`ttype, this`category
      ensures Valid()
      ensures ttype == t && category == DefaultCategory(t)
      ensures amount == old(amount) && date == old(date) && note == old(note)
    {
      ttype := t;
      category := DefaultCategory(t);
      assert CategoryOptions(t)[0] == category;
    }

    /** The amount input's `onChange`. */
    method EditAmount(s: string)
      requires Valid()
      modifies this`amount
      ensures Valid()
      ensures amount == s
      ensures ttype == old(ttype) && date == old(date) && category == old(category) && note == old(note)
    {
      amount := s;
    }

    /** The date input's `onChange`. */
    method EditDate(d: Date)
      requires Valid()
      modifies this`date
      ensures Valid()
      ensures date == d
      ensures ttype == old(ttype) && amount == old(amount) && category == old(category) && note == old(note)
    {
      date := d;
    }

    /** The category select's `onChange`: its value is one of the listed options. */
    method SelectCategory(c: string)
      requires c in CategoryOptions(ttype)
      modifies this`category
      ensures Valid()
      ensures category == c
      ensures ttype == old(ttype) && amount == old(amount) && date == old(date) && note == old(note)
    {
      category := c;
    }

    /** The note input's `onChange`. */
    method EditNote(s: string)
      requires Valid()
      modifies this`note
      ensures Valid()
      ensures note == s
      ensures ttype == old(ttype) && amount == old(amount) && date == old(date) && category == old(category)
    {
      note := s;
    }

    /** `handleSubmit`: emits the record handed to `onAddTransaction`, or nothing. */
    method Submit(toNumber: string -> Option<int>) returns (emitted: Option<TransactionDraft>)
      requires Valid()
      modifies this`amount, this`note
      ensures Valid()
      ensures !AcceptsAmount(old(amount), toNumber) ==>
        emitted == None && amount == old(amount) && note == old(note)
      ensures AcceptsAmount(old(amount), toNumber) ==>
        && emitted == Some(TransactionDraft(toNumber(old(amount)).value, date, category, ttype, old(note)))
        && amount == "" && note == ""
      ensures emitted.Some? ==> emitted.value.category in CategoryOptions(emitted.value.ttype)
      ensures ttype == old(ttype) && date == old(date) && category == old(category)
    {
      if amount == "" || toNumber(amount).None? {
        return None;
      }
      emitted := Some(TransactionDraft(toNumber(amount).value, date, category, ttype, note));
      amount := "";
      note := "";
    }
  }

  // ---------------------------------------------------------------------
  // Category tint of a listed transaction

  datatype Tint =
    | Green | Orange | Yellow | Blue | Red | Purple | Teal | Indigo | Pink | Sky
    | Cyan | Emerald | Rose | Gray

  /** `getCategoryStyles`: income is always green; the `switch` colours twelve
      expense labels and falls back to gray. */
  function CategoryStyle(category: string, t: TransactionType): Tint {
    if t == Income then Green
    else if category == "Food & Dining" then Orange
    else if category == "Groceries" then Yellow
    else if category == "Transport" then Blue
    else if category == "Bills & Utilities" then Red
    else if category == "Shopping" then Purple
    else if category == "Health & Fitness" then Teal
    else if category == "Housing & Rent" then Indigo
    else if category == "Entertainment" then Pink
    else if category == "Travel & Vacation" then Sky
    else if category == "Education" then Cyan
    else if category == "Investment" then Emerald
    else if category == "Debt & Loans" then Rose
    else Gray
  }

  /** The class names each tint stands for. */
  function TintClasses(t: Tint): string {
    match t
    case Green => "bg-green-100 text-green-600"
    case Orange => "bg-orange-100 text-orange-600"
    case Yellow => "bg-yellow-100 text-yellow-600"
    case Blue => "bg-blue-100 text-blue-600"
    case Red => "bg-red-100 text-red-600"
    case Purple => "bg-purple-100 text-purple-600"
    case Teal => "bg-teal-100 text-teal-600"
    case Indigo => "bg-indigo-100 text-indigo-600"
    case Pink => "bg-pink-100 text-pink-600"
    case Sky => "bg-sky-100 text-sky-600"
    case Cyan => "bg-cyan-100 text-cyan-600"
    case Emerald => "bg-emerald-100 text-emerald-600"
    case Rose => "bg-rose-100 text-rose-600"
    case Gray => "bg-gray-100 text-gray-600"
  }

  /** Income records are green whatever their category. */
  lemma IncomeIsGreen(category: string)
    ensures CategoryStyle(category, Income) == Green
  {
  }

  /** An expense record is gray exactly when its category is not one of the twelve
      listed labels: "Personal Care", "Gifts & Donations", "Insurance", "Pets",
      "Others" and every string outside the expense set. Expenses are never green. */
  lemma ExpenseGrayIffUnlisted(category: string)
    ensures CategoryStyle(category, Expense) != Green
    ensures CategoryStyle(category, Expense) == Gray <==>
      match ParseExpenseCategory(category)
      case None => true
      case Some(c) => c in {PersonalCare, Gifts, Insurance, Pets, ExpenseOthers}
  {
  }

  /** The tint of each expense category, by enum member. */
  function ExpenseTint(c: ExpenseCategory): Tint {
    match c
    case Food => Orange
    case Groceries => Yellow
    case Transport => Blue
    case Bills => Red
    case Shopping => Purple
    case Health => Teal
    case Housing => Indigo
    case Entertainment => Pink
    case Travel => Sky
    case Education => Cyan
    case Investment => Emerald
    case Debt => Rose
    case _ => Gray
  }

  /** The string `switch` gives each expense label the tint of its enum member. */
  lemma StyleOfExpenseLabel(c: ExpenseCategory)
    ensures CategoryStyle(ExpenseLabel(c), Expense) == ExpenseTint(c)
  {
    match c
    case Food =>
    case Groceries =>
    case Transport =>
    case Bills =>
    case Shopping =>
    case Health =>
    case Housing =>
    case Education =>
    case Entertainment =>
    case Travel =>
    case PersonalCare =>
    case Gifts =>
    case Investment =>
    case Debt =>
    case Insurance =>
    case Pets =>
    case ExpenseOthers =>
  }

  /** The twelve listed expense categories get twelve different tints. */
  lemma ListedTintsDistinct(a: ExpenseCategory, b: ExpenseCategory)
    requires CategoryStyle(ExpenseLabel(a), Expense) != Gray
    ensures CategoryStyle(ExpenseLabel(a), Expense) == CategoryStyle(ExpenseLabel(b), Expense) ==> a == b
  {
    StyleOfExpenseLabel(a);
    StyleOfExpenseLabel(b);
  }

  /** Every tint has its own class names. */
  lemma TintClassesDistinct(a: Tint, b: Tint)
    ensures TintClasses(a) == TintClasses(b) <==> a == b
  {
  }

  // ---------------------------------------------------------------------
  // Recent list

  /** `recentTransactions.slice(0, 5)`: the first five records in the store's order. */
  function Recent(ts: seq<Transaction>): (r: seq<Transaction>)
    ensures |r| == if |ts| < 5 then |ts| else 5
    ensures forall i :: 0 <= i < |r| ==> r[i] == ts[i]
  {
    if |ts| <= 5 then ts else ts[..5]
  }
}
