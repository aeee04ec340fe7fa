/**
 * The mock-data helpers: generated demo transactions, the duplicated summary
 * and category breakdown, the top-five breakdown for the pie chart and the
 * six-month trend window. Every `Math.random()` value and every `uuidv4()`
 * id is an input here.
 */
module MockData {
  import opened Types
  import opened Sorting
  import Aggregation

  const ExpenseCategoryList: seq<string> := [
    "Food & Dining", "Shopping", "Housing", "Transportation", "Entertainment",
    "Health & Medical", "Personal Care", "Education", "Travel",
    "Gifts & Donations", "Bills & Utilities", "Other"]

  const IncomeCategoryList: seq<string> := [
    "Salary", "Business", "Investments", "Gifts", "Rental Income", "Other"]

  /** `categories[type]`. */
  function CategoriesFor(k: TxType): seq<string>
  {
    if k == Income then IncomeCategoryList else ExpenseCategoryList
  }

  // ---------------------------------------------------------------------
  // generateMockTransactions
  // ---------------------------------------------------------------------

  /**
   * What one iteration of the generator draws: three `Math.random()`
   * values, the `uuidv4()` id and the date `i` days before today.
   */
  datatype MockDraw = MockDraw(typeRoll: real, categoryRoll: real, amountRoll: real, id: string, date: Date)

  /** `Math.random()` returns a value in [0, 1). */
  predicate ValidDraw(d: MockDraw)
  {
    0.0 <= d.typeRoll < 1.0 && 0.0 <= d.categoryRoll < 1.0 && 0.0 <= d.amountRoll < 1.0
  }

  /** `parseFloat(x.toFixed(2))` in cents, rounding half up. */
  function ToCents(dollars: real): int
  {
    (dollars * 100.0 + 0.5).Floor
  }

  /** The transaction one iteration pushes. */
  function MockTransaction(d: MockDraw): (t: Transaction)
    requires ValidDraw(d)
    ensures t.kind == Income <==> d.typeRoll > 0.7
    ensures t.category in CategoriesFor(t.kind)
    ensures t.kind == Income ==> 100000 <= t.amount <= 300000
    ensures t.kind == Expense ==> 1000 <= t.amount <= 21000
    ensures t.id == d.id && t.date == d.date
    ensures t.description == Some((if t.kind == Income then "Received" else "Spent") + " on " + t.category)
    ensures t.merchant == None && t.importedFrom == None
  {
    var kind := if d.typeRoll > 0.7 then Income else Expense;
    var list := CategoriesFor(kind);
    var category := list[(d.categoryRoll * |list| as real).Floor];
    var amount := if kind == Income then ToCents(d.amountRoll * 2000.0 + 1000.0)
                  else ToCents(d.amountRoll * 200.0 + 10.0);
    var verb := if kind == Income then "Received" else "Spent";
    Transaction(d.id, d.date, kind, category, amount, Some(verb + " on " + category), None, None)
  }

  function TimeOf(t: Transaction): int { t.date.time }

  /** The transactions the loop pushes for `draws`, in push order. */
  function MockBatch(draws: seq<MockDraw>): (r: seq<Transaction>)
    requires forall i :: 0 <= i < |draws| ==> ValidDraw(draws[i])
    ensures |r| == |draws|
    ensures forall t :: t in r ==> t.category in CategoriesFor(t.kind)
  {
    if draws == [] then [] else MockBatch(draws[..|draws| - 1]) + [MockTransaction(draws[|draws| - 1])]
  }

  /**
   * `generateMockTransactions(count)`: one transaction per iteration,
   * then sorted newest first.
   */
  method GenerateMockTransactions(count: int, draws: seq<MockDraw>) returns (r: seq<Transaction>)
    requires count <= |draws|
    requires forall i :: 0 <= i < |draws| ==> ValidDraw(draws[i])
    ensures |r| == if count < 0 then 0 else count
    ensures SortedDesc(r, TimeOf)
    ensures multiset(r) == multiset(MockBatch(draws[..|r|]))
    ensures forall t :: t in r ==> t.category in CategoriesFor(t.kind)
  {
    var n := if count < 0 then 0 else count;
    var transactions: seq<Transaction> := [];
    var i := 0;
    while i < count
      invariant 0 <= i <= n
      invariant transactions == MockBatch(draws[..i])
    {
      transactions := transactions + [MockTransaction(draws[i])];
      assert draws[..i + 1][..i] == draws[..i];
      i := i + 1;
    }
    r := SortDesc(transactions, TimeOf);
    forall t | t in r ensures t.category in CategoriesFor(t.kind) {
      assert t in multiset(transactions);
    }
  }

  // ---------------------------------------------------------------------
  // The duplicated summary and breakdown
  // ---------------------------------------------------------------------

  /** `getFinancialSummary` (mock-data.ts), the same filter-and-reduce as the store's. */
  function FinancialSummary(ts: seq<Transaction>): (r: Aggregation.Summary)
    ensures r.income == Aggregation.KindTotal(ts, Income)
    ensures r.expenses == Aggregation.KindTotal(ts, Expense)
    ensures r.balance == r.income - r.expenses
    ensures ts == [] ==> r == Aggregation.Summary(0, 0, 0)
  {
    var income := Aggregation.AddAmounts(0, Aggregation.OfKind(ts, Income));
    var expenses := Aggregation.AddAmounts(0, Aggregation.OfKind(ts, Expense));
    Aggregation.AddAmountsOfKind(0, ts, Income);
    Aggregation.AddAmountsOfKind(0, ts, Expense);
    Aggregation.Summary(income, expenses, income - expenses)
  }

  /**
   * The reduce step `if (!acc[c]) acc[c] = 0; acc[c] += amount`: it does
   * what the store's `acc[c] = (acc[c] || 0) + amount` does.
   */
  function ZeroingStep(acc: Aggregation.Tally, t: Transaction): (next: Aggregation.Tally)
    ensures next == Aggregation.AddToTally(acc, t)
  {
    var c := t.category;
    var base := if c !in acc.totals || acc.totals[c] == 0 then 0 else acc.totals[c];
    Aggregation.Tally(if c in acc.totals then acc.keys else acc.keys + [c], acc.totals[c := base + t.amount])
  }

  /**
   * `getExpensesByCategory` (mock-data.ts): a reduce that zeroes a missing
   * (or zero) entry before adding to it; the result is the same breakdown
   * the store adapter computes.
   */
  method ExpensesByCategory(ts: seq<Transaction>) returns (r: seq<Aggregation.CategoryAmount>)
    ensures r == Aggregation.CategoryBreakdown(ts)
  {
    var expenseTransactions := Aggregation.OfKind(ts, Expense);
    // the accumulator, with its keys in insertion order
    var acc := Aggregation.Tally([], map[]);
    var i := 0;
    assert expenseTransactions[..0] == [];
    while i < |expenseTransactions|
      invariant 0 <= i <= |expenseTransactions|
      invariant acc == Aggregation.TallyOf(expenseTransactions[..i])
    {
      assert expenseTransactions[..i + 1][..i] == expenseTransactions[..i];
      acc := ZeroingStep(acc, expenseTransactions[i]);
      i := i + 1;
    }
    assert expenseTransactions[..i] == expenseTransactions;
    r := SortDesc(Aggregation.Entries(acc), Aggregation.AmountOf);
  }

  // ---------------------------------------------------------------------
  // generateExpenseBreakdownData
  // ---------------------------------------------------------------------

  datatype PieSlice = PieSlice(name: string, value: int)

  /** The first five categories of the breakdown, renamed to `{name, value}`. */
  function ExpenseBreakdownData(ts: seq<Transaction>): (r: seq<PieSlice>)
    ensures var b := Aggregation.CategoryBreakdown(ts);
            && |r| == (if |b| < 5 then |b| else 5)
            && forall i :: 0 <= i < |r| ==> r[i] == PieSlice(b[i].name, b[i].amount)
  {
    var b := Aggregation.CategoryBreakdown(ts);
    var top := b[..if |b| < 5 then |b| else 5];
    seq(|top|, i requires 0 <= i < |top| => PieSlice(top[i].name, top[i].amount))
  }

  /** The slices are in non-increasing order and no category left out is larger than any slice. */
  lemma TopFiveAreLargest(ts: seq<Transaction>)
    ensures forall i, j :: 0 <= i < j < |ExpenseBreakdownData(ts)| ==>
              ExpenseBreakdownData(ts)[i].value >= ExpenseBreakdownData(ts)[j].value
    ensures forall i, j :: 0 <= i < |ExpenseBreakdownData(ts)| <= j < |Aggregation.CategoryBreakdown(ts)| ==>
              Aggregation.CategoryBreakdown(ts)[j].amount <= ExpenseBreakdownData(ts)[i].value
  {
    Aggregation.BreakdownIsPerCategoryTotals(ts);
  }

  // ---------------------------------------------------------------------
  // generateSpendingTrendData
  // ---------------------------------------------------------------------

  /** `Array.prototype.reverse`. */
  function Reverse<T>(s: seq<T>): (r: seq<T>)
    ensures |r| == |s|
    ensures forall i :: 0 <= i < |s| ==> r[i] == s[|s| - 1 - i]
  {
    if s == [] then [] else Reverse(s[1..]) + [s[0]]
  }

  /** `lastSixMonths`: the month `index` months back for index 0..5, then reversed. */
  function LastSixMonths(current: Month): (r: seq<Month>)
    ensures |r| == 6
    ensures r[5] == current
    ensures forall i :: 0 <= i < 5 ==> r[i + 1] as int == (r[i] as int + 1) % 12
  {
    var back := seq(6, (index: int) requires 0 <= index < 6 => (current - index + 12) % 12);
    var r := Reverse(back);
    forall i | 0 <= i < 5 ensures r[i + 1] as int == (r[i] as int + 1) % 12 {
      var x := current + 7 + i;
      assert r[i] == x % 12;
      assert r[i + 1] == (x + 1) % 12;
      ModSuccessor(x);
    }
    r
  }

  lemma ModSuccessor(x: int)
    ensures (x + 1) % 12 == (x % 12 + 1) % 12
  {
  }

  /** An amount of cents that is a whole number of dollars. */
  predicate WholeDollars(cents: int)
  {
    cents % 100 == 0
  }

  /** `Math.floor(Math.random() * 3000) + 2000` dollars, in cents. */
  function TrendIncome(roll: real): (c: int)
    requires 0.0 <= roll < 1.0
    ensures 200000 <= c < 500000 && WholeDollars(c)
  {
    var dollars := (roll * 3000.0).Floor + 2000;
    assert 2000 <= dollars < 5000;
    dollars * 100
  }

  /** `Math.floor(Math.random() * 2000) + 1000` dollars, in cents. */
  function TrendExpenses(roll: real): (c: int)
    requires 0.0 <= roll < 1.0
    ensures 100000 <= c < 300000 && WholeDollars(c)
  {
    var dollars := (roll * 2000.0).Floor + 1000;
    assert 1000 <= dollars < 3000;
    dollars * 100
  }

  /**
   * The mock trend points: the six window months with random totals;
   * `rolls[2 * i]` and `rolls[2 * i + 1]` are the two `Math.random()`
   * values drawn for month `i`. The source draws whole dollars; the
   * points carry them in cents, like every other amount.
   */
  function MockTrendData(current: Month, rolls: seq<real>): (r: seq<Aggregation.MonthPoint>)
    requires |rolls| >= 12
    requires forall i :: 0 <= i < |rolls| ==> 0.0 <= rolls[i] < 1.0
    ensures |r| == 6
    ensures forall i :: 0 <= i < 6 ==> r[i].name == MonthNames[LastSixMonths(current)[i]]
    ensures r[5].name == MonthNames[current]
    ensures forall i :: 0 <= i < 6 ==> 200000 <= r[i].income < 500000 && 100000 <= r[i].expenses < 300000
    ensures forall i :: 0 <= i < 6 ==> WholeDollars(r[i].income) && WholeDollars(r[i].expenses)
  {
    var window := LastSixMonths(current);
    TrendPoints(seq(6, i requires 0 <= i < 6 => MonthNames[window[i]]), rolls)
  }

  /** A point per name, with the two rolls drawn for it. */
  function TrendPoints(names: seq<string>, rolls: seq<real>): (r: seq<Aggregation.MonthPoint>)
    requires |rolls| >= 2 * |names|
    requires forall i :: 0 <= i < |rolls| ==> 0.0 <= rolls[i] < 1.0
    ensures |r| == |names|
    ensures forall i :: 0 <= i < |r| ==> r[i].name == names[i]
    ensures forall i :: 0 <= i < |r| ==> 200000 <= r[i].income < 500000 && 100000 <= r[i].expenses < 300000
    ensures forall i :: 0 <= i < |r| ==> WholeDollars(r[i].income) && WholeDollars(r[i].expenses)
  {
    seq(|names|, i requires 0 <= i < |names| => TrendPoint(names[i], rolls[2 * i], rolls[2 * i + 1]))
  }

  /** One mock trend point: the month's name and its two drawn totals. */
  function TrendPoint(name: string, incomeRoll: real, expensesRoll: real): (p: Aggregation.MonthPoint)
    requires 0.0 <= incomeRoll < 1.0 && 0.0 <= expensesRoll < 1.0
    ensures p.name == name
    ensures 200000 <= p.income < 500000 && 100000 <= p.expenses < 300000
    ensures WholeDollars(p.income) && WholeDollars(p.expenses)
  {
    Aggregation.MonthPoint(name, TrendIncome(incomeRoll), TrendExpenses(expensesRoll))
  }
}
