/**
 * The aggregation engine of the transactions store adapter: the income /
 * expenses / balance summary, the per-category expense breakdown and the
 * twelve-bucket monthly series.
 */
module Aggregation {
  import opened Types
  import opened Sums
  import opened Sorting

  // ---------------------------------------------------------------------
  // Summary
  // ---------------------------------------------------------------------

  datatype Summary = Summary(income: int, expenses: int, balance: int)

  /** The amount of a transaction of kind `k`, and 0 for the other kind. */
  function AmountIf(k: TxType): Transaction -> int
  {
    (t: Transaction) => if t.kind == k then t.amount else 0
  }

  /** Reference definition: the total amount of the transactions of kind `k`. */
  function KindTotal(ts: seq<Transaction>, k: TxType): int
  {
    Sum(ts, AmountIf(k))
  }

  /** `transactions.filter(t => t.type === k)`. */
  function OfKind(ts: seq<Transaction>, k: TxType): (r: seq<Transaction>)
    ensures forall t :: t in r <==> t in ts && t.kind == k
  {
    if ts == [] then []
    else (if ts[0].kind == k then [ts[0]] else []) + OfKind(ts[1..], k)
  }

  /** `.reduce((sum, t) => sum + t.amount, acc)`: a left fold over the amounts. */
  function AddAmounts(acc: int, ts: seq<Transaction>): int
    decreases ts
  {
    if ts == [] then acc else AddAmounts(acc + ts[0].amount, ts[1..])
  }

  function TxAmount(t: Transaction): int { t.amount }

  /** The fold adds every amount to the accumulator. */
  lemma {:induction false} AddAmountsIsSum(acc: int, ts: seq<Transaction>)
    ensures AddAmounts(acc, ts) == acc + Sum(ts, TxAmount)
    decreases ts
  {
    if ts != [] {
      AddAmountsIsSum(acc + ts[0].amount, ts[1..]);
    }
  }

  /** The amounts of the transactions of kind `k` add up to that kind's total. */
  lemma {:induction false} OfKindSum(ts: seq<Transaction>, k: TxType)
    ensures Sum(OfKind(ts, k), TxAmount) == KindTotal(ts, k)
  {
    if ts != [] {
      OfKindSum(ts[1..], k);
      var head := if ts[0].kind == k then [ts[0]] else [];
      SumAppend(head, OfKind(ts[1..], k), TxAmount);
      if ts[0].kind == k {
        assert Sum(head, TxAmount) == ts[0].amount + Sum(head[1..], TxAmount);
      }
    }
  }

  lemma AddAmountsOfKind(acc: int, ts: seq<Transaction>, k: TxType)
    ensures AddAmounts(acc, OfKind(ts, k)) == acc + KindTotal(ts, k)
  {
    AddAmountsIsSum(acc, OfKind(ts, k));
    OfKindSum(ts, k);
  }

  /** `getFinancialSummary`: income and expense totals and their difference. */
  function FinancialSummary(ts: seq<Transaction>): (r: Summary)
    ensures r.income == KindTotal(ts, Income)
    ensures r.expenses == KindTotal(ts, Expense)
    ensures r.balance == r.income - r.expenses
    ensures ts == [] ==> r == Summary(0, 0, 0)
  {
    var income := AddAmounts(0, OfKind(ts, Income));
    var expenses := AddAmounts(0, OfKind(ts, Expense));
    AddAmountsOfKind(0, ts, Income);
    AddAmountsOfKind(0, ts, Expense);
    Summary(income, expenses, income - expenses)
  }

  /** The summary does not depend on the order of the transactions. */
  lemma SummaryIgnoresOrder(a: seq<Transaction>, b: seq<Transaction>)
    requires multiset(a) == multiset(b)
    ensures FinancialSummary(a) == FinancialSummary(b)
  {
    SumPermutation(a, b, AmountIf(Income));
    SumPermutation(a, b, AmountIf(Expense));
  }

  /** Summaries of two lists add up; in particular an income never moves `expenses` and an expense never moves `income`. */
  lemma SummaryOfAppend(a: seq<Transaction>, b: seq<Transaction>)
    ensures FinancialSummary(a + b).income == FinancialSummary(a).income + FinancialSummary(b).income
    ensures FinancialSummary(a + b).expenses == FinancialSummary(a).expenses + FinancialSummary(b).expenses
    ensures FinancialSummary(a + b).balance == FinancialSummary(a).balance + FinancialSummary(b).balance
  {
    SumAppend(a, b, AmountIf(Income));
    SumAppend(a, b, AmountIf(Expense));
  }

  /** Adding one transaction moves only the total of its own kind, by its amount. */
  lemma SummaryOfOneMore(ts: seq<Transaction>, t: Transaction)
    ensures FinancialSummary([t] + ts).income
            == FinancialSummary(ts).income + (if t.kind == Income then t.amount else 0)
    ensures FinancialSummary([t] + ts).expenses
            == FinancialSummary(ts).expenses + (if t.kind == Expense then t.amount else 0)
  {
    SummaryOfAppend([t], ts);
    assert Sum([t], AmountIf(Income)) == AmountIf(Income)(t) + Sum([t][1..], AmountIf(Income));
    assert Sum([t], AmountIf(Expense)) == AmountIf(Expense)(t) + Sum([t][1..], AmountIf(Expense));
  }

  lemma {:induction false} KindTotalOfKind(ts: seq<Transaction>, k: TxType)
    ensures KindTotal(OfKind(ts, k), k) == KindTotal(ts, k)
  {
    if ts != [] {
      KindTotalOfKind(ts[1..], k);
      var head := if ts[0].kind == k then [ts[0]] else [];
      SumAppend(head, OfKind(ts[1..], k), AmountIf(k));
      if ts[0].kind == k {
        assert Sum(head, AmountIf(k)) == ts[0].amount + Sum(head[1..], AmountIf(k));
      }
    }
  }

  // ---------------------------------------------------------------------
  // Expenses by category
  // ---------------------------------------------------------------------

  datatype CategoryAmount = CategoryAmount(name: string, amount: int)

  function AmountOf(e: CategoryAmount): int { e.amount }

  /** The amount of an expense filed under `c`, and 0 for anything else. */
  function InCategory(c: string): Transaction -> int
  {
    (t: Transaction) => if t.kind == Expense && t.category == c then t.amount else 0
  }

  /** Reference definition: the total of the expenses filed under `c`. */
  function CategoryTotal(ts: seq<Transaction>, c: string): int
  {
    Sum(ts, InCategory(c))
  }

  /** The categories that have at least one expense. */
  function ExpenseCategories(ts: seq<Transaction>): set<string>
  {
    set t | t in ts && t.kind == Expense :: t.category
  }

  /**
   * The record the source fills category by category: the keys in the
   * order they were first written (the order `Object.entries` gives back
   * for non-numeric keys) and the running total per key.
   */
  datatype Tally = Tally(keys: seq<string>, totals: map<string, int>)

  /** One step of the accumulation: `record[c] = (record[c] || 0) + amount`. */
  function AddToTally(tally: Tally, t: Transaction): Tally
  {
    var prior := if t.category in tally.totals then tally.totals[t.category] else 0;
    Tally(if t.category in tally.totals then tally.keys else tally.keys + [t.category],
          tally.totals[t.category := prior + t.amount])
  }

  /** The tally after visiting `ts` from first to last. */
  function TallyOf(ts: seq<Transaction>): Tally
  {
    if ts == [] then Tally([], map[])
    else AddToTally(TallyOf(ts[..|ts| - 1]), ts[|ts| - 1])
  }

  /** `Object.entries(record).map(([name, amount]) => ({ name, amount }))`. */
  function Entries(tally: Tally): seq<CategoryAmount>
  {
    seq(|tally.keys|, i requires 0 <= i < |tally.keys| =>
      var c := tally.keys[i];
      CategoryAmount(c, if c in tally.totals then tally.totals[c] else 0))
  }

  /** The breakdown `getExpensesByCategory` returns, as a function of its input. */
  function CategoryBreakdown(ts: seq<Transaction>): seq<CategoryAmount>
  {
    SortDesc(Entries(TallyOf(OfKind(ts, Expense))), AmountOf)
  }

  /** What the tally holds after visiting a list of expenses. */
  ghost predicate TallyMatches(tally: Tally, s: seq<Transaction>)
  {
    && Distinct(tally.keys)
    && (forall c :: c in tally.keys <==> c in tally.totals)
    && (forall c :: c in tally.totals <==> c in ExpenseCategories(s))
    && (forall c :: c in tally.totals ==> tally.totals[c] == CategoryTotal(s, c))
  }

  lemma CategoryTotalSnoc(s: seq<Transaction>, t: Transaction, c: string)
    ensures CategoryTotal(s + [t], c) == CategoryTotal(s, c) + InCategory(c)(t)
  {
    SumAppend(s, [t], InCategory(c));
    assert Sum([t], InCategory(c)) == InCategory(c)(t) + Sum([t][1..], InCategory(c));
  }

  lemma {:induction false} TallyOfExpenses(s: seq<Transaction>)
    requires forall t :: t in s ==> t.kind == Expense
    ensures TallyMatches(TallyOf(s), s)
  {
    if s != [] {
      var init, t := s[..|s| - 1], s[|s| - 1];
      assert s == init + [t];
      TallyOfExpenses(init);
      TallyStep(TallyOf(init), init, t);
    }
  }

  /** One accumulation step keeps the tally matching the expenses seen so far. */
  lemma TallyStep(before: Tally, init: seq<Transaction>, t: Transaction)
    requires TallyMatches(before, init)
    requires t.kind == Expense
    ensures TallyMatches(AddToTally(before, t), init + [t])
  {
    TallyStepKeys(before, init, t);
    TallyStepTotals(before, init, t);
  }

  lemma TallyStepKeys(before: Tally, init: seq<Transaction>, t: Transaction)
    requires TallyMatches(before, init)
    requires t.kind == Expense
    ensures var after := AddToTally(before, t);
            && Distinct(after.keys)
            && (forall c :: c in after.keys <==> c in after.totals)
            && (forall c :: c in after.totals <==> c in ExpenseCategories(init + [t]))
  {
    assert ExpenseCategories(init + [t]) == ExpenseCategories(init) + {t.category};
    if t.category !in before.totals {
      forall c | c in before.keys ensures c != t.category { }
    }
  }

  lemma TallyStepTotals(before: Tally, init: seq<Transaction>, t: Transaction)
    requires TallyMatches(before, init)
    requires t.kind == Expense
    ensures var after := AddToTally(before, t);
            forall c :: c in after.totals ==> after.totals[c] == CategoryTotal(init + [t], c)
  {
    var after := AddToTally(before, t);
    if t.category !in before.totals {
      CategoryTotalOfAbsent(init, t.category);
    }
    forall c | c in after.totals ensures after.totals[c] == CategoryTotal(init + [t], c) {
      CategoryTotalSnoc(init, t, c);
    }
  }



  lemma {:induction false} CategoryTotalOfAbsent(s: seq<Transaction>, c: string)
    requires c !in ExpenseCategories(s)
    ensures CategoryTotal(s, c) == 0
  {
    if s != [] {
      assert ExpenseCategories(s[1..]) <= ExpenseCategories(s);
      CategoryTotalOfAbsent(s[1..], c);
    }
  }

  /** Each entry of a matching tally is a category of `s` with its total; each category has an entry; no name repeats. */
  lemma EntriesOfTally(tally: Tally, s: seq<Transaction>)
    requires TallyMatches(tally, s)
    ensures Distinct(Entries(tally))
    ensures forall e :: e in Entries(tally) ==>
              e.name in ExpenseCategories(s) && e.amount == CategoryTotal(s, e.name)
    ensures forall c :: c in ExpenseCategories(s) ==>
              exists i :: 0 <= i < |Entries(tally)| && Entries(tally)[i].name == c
  {
    var entries := Entries(tally);
    forall c | c in ExpenseCategories(s)
      ensures exists i :: 0 <= i < |entries| && entries[i].name == c
    {
      assert c in tally.keys;
      var i :| 0 <= i < |tally.keys| && tally.keys[i] == c;
      assert entries[i].name == c;
    }
  }

  lemma {:induction false} CategoryTotalOfExpenses(ts: seq<Transaction>, c: string)
    ensures CategoryTotal(OfKind(ts, Expense), c) == CategoryTotal(ts, c)
  {
    if ts != [] {
      CategoryTotalOfExpenses(ts[1..], c);
      var head := if ts[0].kind == Expense then [ts[0]] else [];
      SumAppend(head, OfKind(ts[1..], Expense), InCategory(c));
      if ts[0].kind == Expense {
        assert Sum(head, InCategory(c)) == InCategory(c)(ts[0]) + Sum(head[1..], InCategory(c));
      }
    }
  }

  /**
   * The breakdown is sorted by amount, names each expense category exactly
   * once with its total, and names nothing else; income never shows up.
   */
  lemma BreakdownIsPerCategoryTotals(ts: seq<Transaction>)
    ensures SortedDesc(CategoryBreakdown(ts), AmountOf)
    ensures forall i, j :: 0 <= i < j < |CategoryBreakdown(ts)| ==>
              CategoryBreakdown(ts)[i].name != CategoryBreakdown(ts)[j].name
    ensures forall e :: e in CategoryBreakdown(ts) ==>
              e.name in ExpenseCategories(ts) && e.amount == CategoryTotal(ts, e.name)
    ensures forall c :: c in ExpenseCategories(ts) ==>
              exists e :: e in CategoryBreakdown(ts) && e.name == c
  {
    BreakdownEntries(ts);
    BreakdownNamesDistinct(ts);
    BreakdownCovers(ts);
  }

  /** The tally of the expenses of `ts` matches `ts` itself. */
  lemma ExpenseTallyMatches(ts: seq<Transaction>)
    ensures TallyMatches(TallyOf(OfKind(ts, Expense)), OfKind(ts, Expense))
    ensures ExpenseCategories(OfKind(ts, Expense)) == ExpenseCategories(ts)
  {
    TallyOfExpenses(OfKind(ts, Expense));
  }

  lemma BreakdownEntries(ts: seq<Transaction>)
    ensures forall e :: e in CategoryBreakdown(ts) ==>
              e.name in ExpenseCategories(ts) && e.amount == CategoryTotal(ts, e.name)
  {
    var s := OfKind(ts, Expense);
    ExpenseTallyMatches(ts);
    var entries := Entries(TallyOf(s));
    EntriesOfTally(TallyOf(s), s);
    var r := CategoryBreakdown(ts);
    forall e | e in r
      ensures e.name in ExpenseCategories(ts) && e.amount == CategoryTotal(ts, e.name)
    {
      assert e in multiset(entries);
      CategoryTotalOfExpenses(ts, e.name);
    }
  }

  lemma BreakdownNamesDistinct(ts: seq<Transaction>)
    ensures forall i, j :: 0 <= i < j < |CategoryBreakdown(ts)| ==>
              CategoryBreakdown(ts)[i].name != CategoryBreakdown(ts)[j].name
  {
    var s := OfKind(ts, Expense);
    ExpenseTallyMatches(ts);
    EntriesOfTally(TallyOf(s), s);
    var r := CategoryBreakdown(ts);
    PermutationKeepsDistinct(Entries(TallyOf(s)), r);
    BreakdownEntries(ts);
    forall i, j | 0 <= i < j < |r| ensures r[i].name != r[j].name {
      // entries with equal names carry equal totals, so they would be equal
      assert r[i] in r && r[j] in r;
    }
  }

  lemma BreakdownCovers(ts: seq<Transaction>)
    ensures forall c :: c in ExpenseCategories(ts) ==>
              exists e :: e in CategoryBreakdown(ts) && e.name == c
  {
    var s := OfKind(ts, Expense);
    ExpenseTallyMatches(ts);
    var entries := Entries(TallyOf(s));
    EntriesOfTally(TallyOf(s), s);
    var r := CategoryBreakdown(ts);
    forall c | c in ExpenseCategories(ts) ensures exists e :: e in r && e.name == c {
      var i :| 0 <= i < |entries| && entries[i].name == c;
      assert entries[i] in multiset(r);
    }
  }


  lemma {:induction false} EntriesSumToTotal(s: seq<Transaction>)
    requires forall t :: t in s ==> t.kind == Expense
    ensures Sum(Entries(TallyOf(s)), AmountOf) == KindTotal(s, Expense)
  {
    if s != [] {
      var init, t := s[..|s| - 1], s[|s| - 1];
      assert s == init + [t];
      EntriesSumToTotal(init);
      SumAppend(init, [t], AmountIf(Expense));
      assert Sum([t], AmountIf(Expense)) == t.amount + Sum([t][1..], AmountIf(Expense));
      TallyOfExpenses(init);
      EntriesStep(TallyOf(init), t);
    }
  }

  /** One accumulation step adds the amount to the sum of the entries. */
  lemma EntriesStep(before: Tally, t: Transaction)
    requires Distinct(before.keys)
    requires forall c :: c in before.keys <==> c in before.totals
    ensures Sum(Entries(AddToTally(before, t)), AmountOf) == Sum(Entries(before), AmountOf) + t.amount
  {
    var olds := Entries(before);
    var news := Entries(AddToTally(before, t));
    if t.category in before.totals {
      var i :| 0 <= i < |before.keys| && before.keys[i] == t.category;
      var e := CategoryAmount(t.category, before.totals[t.category] + t.amount);
      forall k | 0 <= k < |news| ensures news[k] == olds[i := e][k] {
        if k != i {
          assert before.keys[k] != t.category;
        }
      }
      assert news == olds[i := e];
      SumUpdate(olds, i, e);
    } else {
      var e := CategoryAmount(t.category, t.amount);
      assert news == olds + [e];
      SumAppend(olds, [e], AmountOf);
      assert Sum([e], AmountOf) == e.amount + Sum([e][1..], AmountOf);
    }
  }

  lemma SumUpdate(s: seq<CategoryAmount>, i: nat, e: CategoryAmount)
    requires i < |s|
    ensures Sum(s[i := e], AmountOf) == Sum(s, AmountOf) - s[i].amount + e.amount
  {
    SumRemove(s, i, AmountOf);
    SumRemove(s[i := e], i, AmountOf);
    assert s[i := e][..i] + s[i := e][i+1..] == s[..i] + s[i+1..];
  }

  /** The category amounts add up to the summary's `expenses`. */
  lemma BreakdownSumsToExpenses(ts: seq<Transaction>)
    ensures Sum(CategoryBreakdown(ts), AmountOf) == FinancialSummary(ts).expenses
  {
    var s := OfKind(ts, Expense);
    SumPermutation(CategoryBreakdown(ts), Entries(TallyOf(s)), AmountOf);
    EntriesSumToTotal(s);
    KindTotalOfKind(ts, Expense);
  }

  /** `getExpensesByCategory` (transactions.ts): fill the record in a loop, then sort its entries. */
  method ExpensesByCategory(ts: seq<Transaction>) returns (r: seq<CategoryAmount>)
    ensures r == CategoryBreakdown(ts)
  {
    var expenses := OfKind(ts, Expense);
    // the record, with its keys in insertion order
    var record := Tally([], map[]);
    var i := 0;
    assert expenses[..0] == [];
    while i < |expenses|
      invariant 0 <= i <= |expenses|
      invariant record == TallyOf(expenses[..i])
    {
      assert expenses[..i + 1][..i] == expenses[..i];
      record := AddToTally(record, expenses[i]);
      i := i + 1;
    }
    assert expenses[..i] == expenses;
    r := SortDesc(Entries(record), AmountOf);
  }


  // ---------------------------------------------------------------------
  // Monthly series
  // ---------------------------------------------------------------------

  datatype MonthPoint = MonthPoint(name: string, income: int, expenses: int)

  function IncomeOf(p: MonthPoint): int { p.income }
  function ExpensesOf(p: MonthPoint): int { p.expenses }

  /** The amount of a transaction of kind `k` dated in month `m`, else 0. */
  function InMonth(m: Month, k: TxType): Transaction -> int
  {
    (t: Transaction) => if t.date.month == m && t.kind == k then t.amount else 0
  }

  function MonthTotal(ts: seq<Transaction>, m: Month, k: TxType): int
  {
    Sum(ts, InMonth(m, k))
  }

  /** Reference definition: Jan..Dec with each month's income and expense totals, any year. */
  function MonthlySeries(ts: seq<Transaction>): seq<MonthPoint>
  {
    seq(12, (m: int) requires 0 <= m < 12 =>
      MonthPoint(MonthNames[m], MonthTotal(ts, m, Income), MonthTotal(ts, m, Expense)))
  }

  /** The source's bucket update: `+=` into `income` for an income, else into `expenses`. */
  function AddToBucket(p: MonthPoint, t: Transaction): MonthPoint
  {
    if t.kind == Income then p.(income := p.income + t.amount)
    else p.(expenses := p.expenses + t.amount)
  }

  /** A transaction lands in exactly one bucket, its own month's, on the column of its kind. */
  lemma OneBucketPerTransaction(a: seq<Transaction>, t: Transaction, b: seq<Transaction>)
    ensures MonthlySeries(a + [t] + b)
            == MonthlySeries(a + b)[t.date.month := AddToBucket(MonthlySeries(a + b)[t.date.month], t)]
  {
    forall m: Month, k: TxType
      ensures MonthTotal(a + [t] + b, m, k) == MonthTotal(a + b, m, k) + InMonth(m, k)(t)
    {
      SumAppend(a + [t], b, InMonth(m, k));
      SumAppend(a, [t], InMonth(m, k));
      SumAppend(a, b, InMonth(m, k));
      assert Sum([t], InMonth(m, k)) == InMonth(m, k)(t) + Sum([t][1..], InMonth(m, k));
    }
  }

  /** The series does not depend on the order of the transactions. */
  lemma SeriesIgnoresOrder(a: seq<Transaction>, b: seq<Transaction>)
    requires multiset(a) == multiset(b)
    ensures MonthlySeries(a) == MonthlySeries(b)
  {
    forall m: Month, k: TxType ensures MonthTotal(a, m, k) == MonthTotal(b, m, k) {
      SumPermutation(a, b, InMonth(m, k));
    }
  }

  lemma MonthPointsSumUpdate(s: seq<MonthPoint>, i: nat, e: MonthPoint, f: MonthPoint -> int)
    requires i < |s|
    ensures Sum(s[i := e], f) == Sum(s, f) - f(s[i]) + f(e)
  {
    SumRemove(s, i, f);
    SumRemove(s[i := e], i, f);
    assert s[i := e][..i] + s[i := e][i+1..] == s[..i] + s[i+1..];
  }

  /** The twelve incomes add up to the summary's income, the twelve expenses to its expenses. */
  lemma {:induction false} SeriesColumnTotals(ts: seq<Transaction>)
    ensures Sum(MonthlySeries(ts), IncomeOf) == FinancialSummary(ts).income
    ensures Sum(MonthlySeries(ts), ExpensesOf) == FinancialSummary(ts).expenses
  {
    if ts == [] {
      var zero := MonthlySeries(ts);
      assert forall m :: 0 <= m < 12 ==> zero[m] == MonthPoint(MonthNames[m], 0, 0);
      ZeroColumns(zero, 0);
    } else {
      var t, rest := ts[0], ts[1..];
      assert ts == [] + [t] + rest;
      assert [] + rest == rest;
      SeriesColumnTotals(rest);
      OneBucketPerTransaction([], t, rest);
      var before := MonthlySeries(rest);
      var m := t.date.month;
      MonthPointsSumUpdate(before, m, AddToBucket(before[m], t), IncomeOf);
      MonthPointsSumUpdate(before, m, AddToBucket(before[m], t), ExpensesOf);
      SummaryOfOneMore(rest, t);
    }
  }

  lemma {:induction false} ZeroColumns(s: seq<MonthPoint>, from: nat)
    requires from <= |s|
    requires forall m :: from <= m < |s| ==> s[m].income == 0 && s[m].expenses == 0
    ensures Sum(s[from..], IncomeOf) == 0 && Sum(s[from..], ExpensesOf) == 0
    decreases |s| - from
  {
    if from < |s| {
      ZeroColumns(s, from + 1);
      assert s[from..][1..] == s[from + 1..];
    }
  }

  /** `generateSpendingTrendData` (transactions.ts): twelve buckets filled in one pass. */
  method SpendingTrendData(ts: seq<Transaction>) returns (r: seq<MonthPoint>)
    ensures r == MonthlySeries(ts)
    ensures |r| == 12 && forall m :: 0 <= m < 12 ==> r[m].name == MonthNames[m]
  {
    var months := seq(12, (m: int) requires 0 <= m < 12 => MonthPoint(MonthNames[m], 0, 0));
    assert months == MonthlySeries([]);
    var i := 0;
    while i < |ts|
      invariant 0 <= i <= |ts|
      invariant months == MonthlySeries(ts[..i])
    {
      var t := ts[i];
      var m := t.date.month;
      if t.kind == Income {
        months := months[m := months[m].(income := months[m].income + t.amount)];
      } else {
        months := months[m := months[m].(expenses := months[m].expenses + t.amount)];
      }
      OneBucketPerTransaction(ts[..i], t, []);
      assert ts[..i + 1] == ts[..i] + [t] + [];
      assert ts[..i] + [] == ts[..i];
      i := i + 1;
    }
    assert ts[..i] == ts;
    r := months;
  }
}
