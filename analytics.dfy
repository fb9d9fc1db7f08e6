/**
 * The dashboard figures of `lib/analytics.ts`: income and expense totals with the savings rate
 * and per-day and per-month averages, the spending breakdown by category, the projection of a
 * savings goal, and the spending histogram by day of the week. Amounts are dollars as reals.
 */
module Analytics {
  import opened Wrappers
  import opened Calendar
  import opened FinanceTypes
  import opened JsNumbers
  import Seqs

  function AmountOf(t: Transaction): real {
    t.amount
  }

  /** The sum of the amounts of `xs` (`xs.reduce((sum, t) => sum + t.amount, 0)`). */
  function Total(xs: seq<Transaction>): real {
    Seqs.Sum(xs, AmountOf)
  }

  function Credits(txns: seq<Transaction>): seq<Transaction> {
    Seqs.Filter(txns, IsCredit)
  }

  function Debits(txns: seq<Transaction>): seq<Transaction> {
    Seqs.Filter(txns, IsDebit)
  }

  lemma TotalSnoc(xs: seq<Transaction>, x: Transaction)
    ensures Total(xs + [x]) == Total(xs) + x.amount
  {
    Seqs.SumSnoc(xs, x, AmountOf);
  }

  /** Every transaction is a credit or a debit, so income and expenses add up to all amounts. */
  lemma CreditsAndDebits(txns: seq<Transaction>)
    ensures Total(Credits(txns)) + Total(Debits(txns)) == Total(txns)
    ensures |Credits(txns)| + |Debits(txns)| == |txns|
  {
    Seqs.FilterPartition(txns, IsCredit, IsDebit, AmountOf);
  }

  lemma {:induction false} TotalNonNegative(xs: seq<Transaction>)
    requires forall i :: 0 <= i < |xs| ==> xs[i].amount >= 0.0
    ensures Total(xs) >= 0.0
  {
    Seqs.SumNonNegative(xs, AmountOf);
  }

  // ---- financial metrics ----

  datatype FinancialMetrics = FinancialMetrics(
    totalIncome: real,
    totalExpenses: real,
    netSavings: real,
    savingsRate: real,
    averageDailySpending: Num,
    monthlyIncome: Num,
    monthlyExpenses: Num)

  /** The earliest day number among the transaction dates. */
  function EarliestDay(txns: seq<Transaction>): (r: int)
    requires txns != []
    ensures forall i :: 0 <= i < |txns| ==> r <= DayNumber(txns[i].date)
    ensures exists i :: 0 <= i < |txns| && r == DayNumber(txns[i].date)
  {
    if |txns| == 1 then DayNumber(txns[0].date)
    else
      var rest := EarliestDay(txns[1..]);
      assert forall i :: 1 <= i < |txns| ==> txns[i] == txns[1..][i - 1];
      MinInt(DayNumber(txns[0].date), rest)
  }

  /** The latest day number among the transaction dates. */
  function LatestDay(txns: seq<Transaction>): (r: int)
    requires txns != []
    ensures forall i :: 0 <= i < |txns| ==> DayNumber(txns[i].date) <= r
    ensures exists i :: 0 <= i < |txns| && r == DayNumber(txns[i].date)
  {
    if |txns| == 1 then DayNumber(txns[0].date)
    else
      var rest := LatestDay(txns[1..]);
      assert forall i :: 1 <= i < |txns| ==> txns[i] == txns[1..][i - 1];
      MaxInt(DayNumber(txns[0].date), rest)
  }

  /**
   * The day span of the dates, at least 1, as written: with no transactions the minimum and
   * maximum of no instants are the infinities, the dates built from them are invalid and the
   * span is NaN.
   */
  function DaySpanAsWritten(txns: seq<Transaction>): (r: Num)
    ensures txns == [] ==> r.NaN?
    ensures txns != [] ==>
      (r.Finite? && r.value >= 1.0
       && (r.value == 1.0 || r.value == (LatestDay(txns) - EarliestDay(txns)) as real)
       && r.value >= (LatestDay(txns) - EarliestDay(txns)) as real)
  {
    if txns == [] then NaN else Finite(Max(1.0, (LatestDay(txns) - EarliestDay(txns)) as real))
  }

  /** The day span with an empty list taken as a span of one day. */
  function DaySpan(txns: seq<Transaction>): (r: Num)
    ensures r.Finite? && r.value >= 1.0
    ensures txns != [] ==> r == DaySpanAsWritten(txns)
  {
    if txns == [] then Finite(1.0) else DaySpanAsWritten(txns)
  }

  /** The share of the income saved, in percent, or 0 without income. */
  function SavingsRate(netSavings: real, totalIncome: real): (r: real)
    ensures totalIncome > 0.0 ==> r * totalIncome == netSavings * 100.0
    ensures totalIncome <= 0.0 ==> r == 0.0
  {
    if totalIncome > 0.0 then
      assert netSavings / totalIncome * 100.0 * totalIncome == netSavings * 100.0;
      netSavings / totalIncome * 100.0
    else 0.0
  }

  /** Dividing by a positive amount and multiplying back gives the amount again. */
  lemma DivTimes(a: real, k: real)
    requires k > 0.0
    ensures (a / k) * k == a
  {
  }

  /** Multiplying by a positive factor keeps the order. */
  lemma MultiplyPositive(a: real, b: real, k: real)
    requires k > 0.0 && a <= b
    ensures a * k <= b * k
    ensures a < b ==> a * k < b * k
  {
    assert b * k - a * k == (b - a) * k;
  }

  /** A rate `r` with `r * income == net * 100` exceeds `c` exactly when `net` exceeds `c` percent of the income. */
  lemma RateAbove(r: real, income: real, net: real, c: real)
    requires income > 0.0 && r * income == net * 100.0
    ensures r > c <==> net * 100.0 > c * income
  {
    if r > c {
      MultiplyPositive(c, r, income);
    } else {
      MultiplyPositive(r, c, income);
    }
  }

  /** The metrics from the two totals and a day span. */
  function MetricsFrom(income: real, expenses: real, span: Num): FinancialMetrics {
    var netSavings := income - expenses;
    var savingsRate := SavingsRate(netSavings, income);
    FinancialMetrics(income, expenses, netSavings, savingsRate,
      DivBy(expenses, span), Scale(DivBy(income, span), 30.0), Scale(DivBy(expenses, span), 30.0))
  }

  /** `calculateFinancialMetrics` as written. */
  function CalculateFinancialMetricsAsWritten(txns: seq<Transaction>): FinancialMetrics {
    MetricsFrom(Total(Credits(txns)), Total(Debits(txns)), DaySpanAsWritten(txns))
  }

  /** `calculateFinancialMetrics` with no transactions giving zero averages. */
  function CalculateFinancialMetrics(txns: seq<Transaction>): FinancialMetrics {
    MetricsFrom(Total(Credits(txns)), Total(Debits(txns)), DaySpan(txns))
  }

  /** With no transactions, the averages as written are NaN. */
  lemma EmptyMetricsAsWritten()
    ensures var m := CalculateFinancialMetricsAsWritten([]);
      m.averageDailySpending.NaN? && m.monthlyIncome.NaN? && m.monthlyExpenses.NaN?
  {
  }

  /** The corrected metrics agree with the written ones whenever there is a transaction. */
  lemma MetricsAgree(txns: seq<Transaction>)
    requires txns != []
    ensures CalculateFinancialMetrics(txns) == CalculateFinancialMetricsAsWritten(txns)
  {
  }

  /** The net savings and the savings rate of the metrics from two totals. */
  lemma RateOfMetrics(income: real, expenses: real, span: Num)
    ensures MetricsFrom(income, expenses, span).savingsRate == SavingsRate(income - expenses, income)
    ensures MetricsFrom(income, expenses, span).netSavings == income - expenses
  {
  }

  /** Metrics whose rate is the savings rate of their net savings carry its contract. */
  lemma RateField(m: FinancialMetrics, income: real, net: real)
    requires m.savingsRate == SavingsRate(net, income) && m.netSavings == net
    ensures income > 0.0 ==> m.savingsRate * income == m.netSavings * 100.0
    ensures income <= 0.0 ==> m.savingsRate == 0.0
  {
  }

  /** Without negative expenses, at most all of the income is saved. */
  lemma SavingsRateAtMost(income: real, expenses: real, span: Num)
    requires income > 0.0 && expenses >= 0.0
    ensures MetricsFrom(income, expenses, span).savingsRate <= 100.0
  {
    RateOfMetrics(income, expenses, span);
    PercentSaved(income, income - expenses);
  }

  /** `net / income * 100` is the percentage of a positive income that `net` is, at most 100 when `net` is at most the income. */
  lemma PercentSaved(income: real, net: real)
    requires income > 0.0
    ensures (net / income * 100.0) * income == net * 100.0
    ensures net <= income ==> net / income * 100.0 <= 100.0
  {
    var q := net / income;
    assert q * income == net;
    assert (q * 100.0) * income == (q * income) * 100.0;
  }

  /** `x / span` over a span of at least one day, and thirty times that. */
  lemma PerDaySpec(x: real, span: real)
    requires span >= 1.0
    ensures DivBy(x, Finite(span)).Finite? && DivBy(x, Finite(span)).value * span == x
    ensures Scale(DivBy(x, Finite(span)), 30.0).Finite?
    ensures Scale(DivBy(x, Finite(span)), 30.0).value == DivBy(x, Finite(span)).value * 30.0
    ensures Scale(DivBy(x, Finite(span)), 30.0).value * span == x * 30.0
  {
    var a := x / span;
    assert a * span == x;
    assert a * 30.0 * span == a * span * 30.0;
  }

  /**
   * What metrics `m` mean for the totals `income` and `expenses` over `span` days: the net is
   * their difference; the savings rate is the percentage of income saved, or 0 without income;
   * the averages are finite, per day of the span, and the monthly figures are 30 days' worth.
   */
  predicate MetricsMean(m: FinancialMetrics, income: real, expenses: real, span: real) {
    && m.totalIncome == income && m.totalExpenses == expenses
    && m.netSavings == income - expenses
    && (income > 0.0 ==> m.savingsRate * income == m.netSavings * 100.0)
    && (income <= 0.0 ==> m.savingsRate == 0.0)
    && m.averageDailySpending.Finite? && m.monthlyIncome.Finite? && m.monthlyExpenses.Finite?
    && m.monthlyExpenses.value == m.averageDailySpending.value * 30.0
    && m.averageDailySpending.value * span == expenses
    && m.monthlyIncome.value * span == income * 30.0
  }

  /** The metrics over a span of at least one day mean what they should, whatever the totals. */
  lemma MetricsFromSpec(income: real, expenses: real, span: Num)
    requires span.Finite? && span.value >= 1.0
    ensures MetricsMean(MetricsFrom(income, expenses, span), income, expenses, span.value)
  {
    RateOfMetrics(income, expenses, span);
    RateField(MetricsFrom(income, expenses, span), income, income - expenses);
    PerDaySpec(income, span.value);
    PerDaySpec(expenses, span.value);
  }

  /**
   * The metrics of a list mean what `MetricsMean` says for the credits' and the debits' totals
   * over the day span, and those two totals split all amounts between them.
   */
  lemma MetricsSpec(txns: seq<Transaction>)
    ensures MetricsMean(CalculateFinancialMetrics(txns), Total(Credits(txns)), Total(Debits(txns)), DaySpan(txns).value)
    ensures Total(Credits(txns)) + Total(Debits(txns)) == Total(txns)
    ensures DaySpan(txns).value >= 1.0
  {
    CreditsAndDebits(txns);
    MetricsFromSpec(Total(Credits(txns)), Total(Debits(txns)), DaySpan(txns));
  }

  /** With no negative amounts the savings rate is at most 100 percent. */
  lemma SavingsRateAtMostAll(txns: seq<Transaction>)
    requires forall i :: 0 <= i < |txns| ==> txns[i].amount >= 0.0
    ensures CalculateFinancialMetrics(txns).savingsRate <= 100.0
  {
    var debits := Debits(txns);
    forall i | 0 <= i < |debits|
      ensures debits[i].amount >= 0.0
    {
      assert debits[i] in multiset(txns);
    }
    TotalNonNegative(debits);
    if Total(Credits(txns)) > 0.0 {
      SavingsRateAtMost(Total(Credits(txns)), Total(debits), DaySpan(txns));
    }
  }

  // ---- grouping by a key ----

  /** The running sums of one group. */
  datatype Acc = Acc(amount: real, count: nat)

  /** The keys of `xs` in the order they first appear (the insertion order of a `Map`). */
  function FirstKeys<K(==)>(xs: seq<Transaction>, key: Transaction -> K): seq<K> {
    if xs == [] then []
    else
      var seen := FirstKeys(xs[..|xs| - 1], key);
      if key(xs[|xs| - 1]) in seen then seen else seen + [key(xs[|xs| - 1])]
  }

  /** The sum of the amounts of the transactions of `xs` with key `k`. */
  function KeyAmount<K(==)>(xs: seq<Transaction>, key: Transaction -> K, k: K): real {
    if xs == [] then 0.0
    else KeyAmount(xs[..|xs| - 1], key, k) + (if key(xs[|xs| - 1]) == k then xs[|xs| - 1].amount else 0.0)
  }

  /** The number of transactions of `xs` with key `k`. */
  function KeyCount<K(==)>(xs: seq<Transaction>, key: Transaction -> K, k: K): nat {
    if xs == [] then 0
    else KeyCount(xs[..|xs| - 1], key, k) + (if key(xs[|xs| - 1]) == k then 1 else 0)
  }

  /** A key not yet seen has nothing summed for it. */
  lemma {:induction false} UnseenIsEmpty<K>(xs: seq<Transaction>, key: Transaction -> K, k: K)
    requires k !in FirstKeys(xs, key)
    ensures KeyAmount(xs, key, k) == 0.0 && KeyCount(xs, key, k) == 0
  {
    if xs != [] {
      UnseenIsEmpty(xs[..|xs| - 1], key, k);
    }
  }

  /**
   * The `forEach` that groups `xs` by `key` into a map of sums and counts, a missing entry
   * read as zero; `keys` lists the map's keys in insertion order.
   */
  method Tally<K(==)>(xs: seq<Transaction>, key: Transaction -> K) returns (keys: seq<K>, m: map<K, Acc>)
    ensures keys == FirstKeys(xs, key)
    ensures forall k :: k in m <==> k in keys
    ensures forall k :: k in m ==> m[k] == Acc(KeyAmount(xs, key, k), KeyCount(xs, key, k))
    ensures forall k :: k !in m ==> KeyAmount(xs, key, k) == 0.0 && KeyCount(xs, key, k) == 0
  {
    keys, m := [], map[];
    var i := 0;
    while i < |xs|
      invariant 0 <= i <= |xs|
      invariant keys == FirstKeys(xs[..i], key)
      invariant forall k :: k in m <==> k in keys
      invariant forall k :: k in m ==> m[k] == Acc(KeyAmount(xs[..i], key, k), KeyCount(xs[..i], key, k))
    {
      var x := xs[i];
      assert xs[..i + 1][..i] == xs[..i];
      var k := key(x);
      var existing := if k in m then m[k] else Acc(0.0, 0);
      if k !in m {
        UnseenIsEmpty(xs[..i], key, k);
        keys := keys + [k];
      }
      m := m[k := Acc(existing.amount + x.amount, existing.count + 1)];
      i := i + 1;
    }
    assert xs[..i] == xs;
    forall k | k !in m
      ensures KeyAmount(xs, key, k) == 0.0 && KeyCount(xs, key, k) == 0
    {
      UnseenIsEmpty(xs, key, k);
    }
  }

  predicate DistinctKeys<K(==)>(ks: seq<K>) {
    forall i, j :: 0 <= i < j < |ks| ==> ks[i] != ks[j]
  }

  /** The first-seen keys are distinct and are exactly the keys of `xs`. */
  lemma {:induction false} FirstKeysSpec<K>(xs: seq<Transaction>, key: Transaction -> K)
    ensures DistinctKeys(FirstKeys(xs, key))
    ensures forall i :: 0 <= i < |xs| ==> key(xs[i]) in FirstKeys(xs, key)
    ensures forall k :: k in FirstKeys(xs, key) ==> exists i :: 0 <= i < |xs| && key(xs[i]) == k
  {
    if xs != [] {
      var front := xs[..|xs| - 1];
      FirstKeysSpec(front, key);
      forall i | 0 <= i < |xs|
        ensures key(xs[i]) in FirstKeys(xs, key)
      {
        if i < |front| {
          assert xs[i] == front[i];
        }
      }
      forall k | k in FirstKeys(xs, key)
        ensures exists i :: 0 <= i < |xs| && key(xs[i]) == k
      {
        if k in FirstKeys(front, key) {
          var i :| 0 <= i < |front| && key(front[i]) == k;
          assert xs[i] == front[i];
        } else {
          assert key(xs[|xs| - 1]) == k;
        }
      }
    }
  }

  /** The amounts of the groups of `keys`. */
  function KeysAmount<K(==)>(keys: seq<K>, xs: seq<Transaction>, key: Transaction -> K): real {
    if keys == [] then 0.0 else KeyAmount(xs, key, keys[0]) + KeysAmount(keys[1..], xs, key)
  }

  /** The counts of the groups of `keys`. */
  function KeysCount<K(==)>(keys: seq<K>, xs: seq<Transaction>, key: Transaction -> K): nat {
    if keys == [] then 0 else KeyCount(xs, key, keys[0]) + KeysCount(keys[1..], xs, key)
  }

  lemma {:induction false} KeysAppend<K>(keys: seq<K>, k: K, xs: seq<Transaction>, key: Transaction -> K)
    ensures KeysAmount(keys + [k], xs, key) == KeysAmount(keys, xs, key) + KeyAmount(xs, key, k)
    ensures KeysCount(keys + [k], xs, key) == KeysCount(keys, xs, key) + KeyCount(xs, key, k)
  {
    if keys != [] {
      assert (keys + [k])[1..] == keys[1..] + [k];
      KeysAppend(keys[1..], k, xs, key);
    }
  }

  /**
   * One more transaction adds its amount and one to the groups of distinct `keys` when its key
   * is among them, and nothing otherwise.
   */
  lemma {:induction false} KeysStep<K>(keys: seq<K>, front: seq<Transaction>, x: Transaction, key: Transaction -> K)
    requires DistinctKeys(keys)
    ensures KeysAmount(keys, front + [x], key) == KeysAmount(keys, front, key) + (if key(x) in keys then x.amount else 0.0)
    ensures KeysCount(keys, front + [x], key) == KeysCount(keys, front, key) + (if key(x) in keys then 1 else 0)
  {
    var xs := front + [x];
    assert xs[..|xs| - 1] == front;
    if keys != [] {
      var rest := keys[1..];
      assert DistinctKeys(rest);
      KeysStep(rest, front, x, key);
      if keys[0] == key(x) {
        assert key(x) !in rest;
      } else {
        assert key(x) in keys <==> key(x) in rest;
      }
    }
  }

  /** The groups of the first-seen keys add up to all amounts and all transactions. */
  lemma {:induction false} GroupTotals<K>(xs: seq<Transaction>, key: Transaction -> K)
    ensures KeysAmount(FirstKeys(xs, key), xs, key) == Total(xs)
    ensures KeysCount(FirstKeys(xs, key), xs, key) == |xs|
  {
    if xs == [] {
    } else {
      var front, x := xs[..|xs| - 1], xs[|xs| - 1];
      assert xs == front + [x];
      GroupTotals(front, key);
      TotalSnoc(front, x);
      var keys := FirstKeys(front, key);
      FirstKeysSpec(front, key);
      KeysStep(keys, front, x, key);
      if key(x) !in keys {
        UnseenIsEmpty(front, key, key(x));
        KeysAppend(keys, key(x), xs, key);
      }
    }
  }

  // ---- spending by category ----

  function CategoryOf(t: Transaction): Category {
    t.category
  }

  /** The share of `total` that `amount` is, in percent, or 0 when nothing was spent. */
  function Percent(amount: real, total: real): (r: real)
    ensures total > 0.0 ==> r * total == amount * 100.0
    ensures total <= 0.0 ==> r == 0.0
  {
    if total > 0.0 then amount / total * 100.0 else 0.0
  }

  function Entry(c: Category, xs: seq<Transaction>, total: real): CategorySpending {
    var amount := KeyAmount(xs, CategoryOf, c);
    CategorySpending(c, amount, Percent(amount, total), KeyCount(xs, CategoryOf, c))
  }

  /** One entry per key, in key order. */
  function Entries(keys: seq<Category>, xs: seq<Transaction>, total: real): (r: seq<CategorySpending>)
    ensures |r| == |keys|
    ensures forall i :: 0 <= i < |keys| ==> r[i] == Entry(keys[i], xs, total)
  {
    seq(|keys|, i requires 0 <= i < |keys| => Entry(keys[i], xs, total))
  }

  function NegAmount(e: CategorySpending): real {
    -e.amount
  }

  /** The entries of `calculateCategorySpending`, before the final sort. */
  function CategoryEntries(txns: seq<Transaction>): seq<CategorySpending> {
    var expenses := Debits(txns);
    Entries(FirstKeys(expenses, CategoryOf), expenses, Total(expenses))
  }

  /** `calculateCategorySpending`: the entries sorted by amount, largest first (stably). */
  function CategorySpendingOf(txns: seq<Transaction>): seq<CategorySpending> {
    Seqs.SortBy(CategoryEntries(txns), NegAmount)
  }

  method CalculateCategorySpending(txns: seq<Transaction>) returns (result: seq<CategorySpending>)
    ensures result == CategorySpendingOf(txns)
  {
    var expenses := Debits(txns);
    var totalExpenses := Total(expenses);
    var keys, categoryMap := Tally(expenses, CategoryOf);
    var entries: seq<CategorySpending> := [];
    var j := 0;
    while j < |keys|
      invariant 0 <= j <= |keys|
      invariant |entries| == j
      invariant forall k :: 0 <= k < j ==> entries[k] == Entry(keys[k], expenses, totalExpenses)
    {
      var data := categoryMap[keys[j]];
      entries := entries + [CategorySpending(keys[j], data.amount, Percent(data.amount, totalExpenses), data.count)];
      j := j + 1;
    }
    assert entries == Entries(keys, expenses, totalExpenses);
    result := Seqs.SortBy(entries, NegAmount);
  }

  function EntryAmount(e: CategorySpending): real {
    e.amount
  }

  function EntryCount(e: CategorySpending): real {
    e.transactionCount as real
  }

  lemma {:induction false} EntriesSums(keys: seq<Category>, xs: seq<Transaction>, total: real)
    ensures Seqs.Sum(Entries(keys, xs, total), EntryAmount) == KeysAmount(keys, xs, CategoryOf)
    ensures Seqs.Sum(Entries(keys, xs, total), EntryCount) == KeysCount(keys, xs, CategoryOf) as real
  {
    if keys != [] {
      EntriesSums(keys[1..], xs, total);
      assert Entries(keys, xs, total)[1..] == Entries(keys[1..], xs, total);
    }
  }

  /**
   * The order `calculateCategorySpending` promises: its result is a permutation of one entry
   * per category in first-seen order, sorted by amount from largest down.
   */
  lemma CategorySpendingOrder(txns: seq<Transaction>)
    ensures var r := CategorySpendingOf(txns);
      && multiset(r) == multiset(CategoryEntries(txns))
      && (forall i, j :: 0 <= i < j < |r| ==> r[i].amount >= r[j].amount)
  {
    var r := CategorySpendingOf(txns);
    Seqs.SortBySorted(CategoryEntries(txns), NegAmount);
    assert forall i, j :: 0 <= i < j < |r| ==> NegAmount(r[i]) <= NegAmount(r[j]);
  }

  /**
   * The entries of `calculateCategorySpending`: one for each category some debit has, each
   * category once, holding its category's debit total and count and its share of all debits in
   * percent (0 when the debits total 0).
   */
  lemma CategorySpendingEntries(txns: seq<Transaction>)
    ensures var r := CategorySpendingOf(txns);
      var expenses := Debits(txns);
      var keys := FirstKeys(expenses, CategoryOf);
      && DistinctKeys(keys)
      && (forall i :: 0 <= i < |expenses| ==> expenses[i].category in keys)
      && (forall c :: c in keys ==> exists i :: 0 <= i < |expenses| && expenses[i].category == c)
      && (forall e :: e in r ==> e == Entry(e.category, expenses, Total(expenses)) && e.category in keys)
  {
    var expenses := Debits(txns);
    var keys := FirstKeys(expenses, CategoryOf);
    var entries := CategoryEntries(txns);
    var r := CategorySpendingOf(txns);
    Seqs.SortBySorted(entries, NegAmount);
    FirstKeysSpec(expenses, CategoryOf);
    forall e | e in r
      ensures e == Entry(e.category, expenses, Total(expenses)) && e.category in keys
    {
      assert e in multiset(entries);
    }
  }

  /** The amounts of the category entries add up to all debits and their counts to their number. */
  lemma CategorySpendingSums(txns: seq<Transaction>)
    ensures var r := CategorySpendingOf(txns);
      var expenses := Debits(txns);
      && Seqs.Sum(r, EntryAmount) == Total(expenses)
      && Seqs.Sum(r, EntryCount) == |expenses| as real
  {
    var expenses := Debits(txns);
    var keys := FirstKeys(expenses, CategoryOf);
    var entries := CategoryEntries(txns);
    FirstKeysSpec(expenses, CategoryOf);
    GroupTotals(expenses, CategoryOf);
    EntriesSums(keys, expenses, Total(expenses));
    Seqs.SumSortBy(entries, NegAmount, EntryAmount);
    Seqs.SumSortBy(entries, NegAmount, EntryCount);
  }

  /** There is a category entry exactly when there is a debit. */
  lemma NoCategoriesIffNoDebits(txns: seq<Transaction>)
    ensures |CategorySpendingOf(txns)| == 0 <==> |Debits(txns)| == 0
  {
    var expenses := Debits(txns);
    var keys := FirstKeys(expenses, CategoryOf);
    FirstKeysSpec(expenses, CategoryOf);
    assert |CategorySpendingOf(txns)| == |keys|;
    if |expenses| > 0 {
      assert expenses[0].category in keys;
    }
    if |keys| > 0 {
      assert keys[0] in keys;
    }
  }

  // ---- goal progress ----

  datatype GoalProgress = GoalProgress(
    currentAmount: real,
    targetAmount: real,
    progressPercentage: Num,
    monthsToGoal: Num,
    confidenceScore: Num,
    isOnTrack: bool,
    requiredMonthlySavings: real)

  /** Monthly income less monthly expenses. */
  function MonthlyNet(m: FinancialMetrics): Num {
    Minus(m.monthlyIncome, m.monthlyExpenses)
  }

  /** `Math.min(100, current / target * 100)`. */
  function ProgressPercentage(current: real, target: real): Num {
    MinWith(100.0, Scale(Div(current, target), 100.0))
  }

  /** The months to the goal at the monthly savings rate, or 999 without positive savings. */
  function MonthsToGoal(remaining: real, monthlySavings: Num): Num {
    if Above(monthlySavings, 0.0) then DivBy(remaining, monthlySavings) else Finite(999.0)
  }

  /** `Math.min(100, (consistency * 0.6 + progress / 100 * 0.4) * 100)`. */
  function ConfidenceScore(savingsRate: real, progress: Num): Num {
    var savingsConsistency := if savingsRate > 0.0 then 1.0 else 0.0;
    var progressScore := Scale(progress, 0.01);
    MinWith(100.0, Scale(Plus(Scale(progressScore, 0.4), savingsConsistency * 0.6), 100.0))
  }

  /** Months of 30 days from the instant `now` (days since 1970-01-01, UTC) to the deadline. */
  function MonthsUntil(deadline: CivilDate, now: real): real {
    (DayNumber(deadline) as real - now) / 30.0
  }

  /**
   * `calculateGoalProgress`, where `now` is the current instant in days since 1970-01-01 (UTC)
   * and a month counts 30 days.
   */
  function CalculateGoalProgress(goal: Goal, metrics: FinancialMetrics, now: real): GoalProgress {
    var progressPercentage := ProgressPercentage(goal.currentAmount, goal.targetAmount);
    var remainingAmount := goal.targetAmount - goal.currentAmount;
    var monthsToGoal := MonthsToGoal(remainingAmount, MonthlyNet(metrics));
    var monthsUntilDeadline := MonthsUntil(goal.deadline, now);
    var requiredMonthlySavings := if monthsUntilDeadline > 0.0 then remainingAmount / monthsUntilDeadline else 0.0;
    GoalProgress(goal.currentAmount, goal.targetAmount, progressPercentage, monthsToGoal,
      ConfidenceScore(metrics.savingsRate, progressPercentage),
      AtMost(monthsToGoal, monthsUntilDeadline), requiredMonthlySavings)
  }

  /**
   * Progress never exceeds 100; it is NaN exactly for a zero target with nothing saved, 100
   * for a zero target with something saved, and otherwise the saved share in percent, capped.
   */
  lemma ProgressSpec(current: real, target: real)
    ensures var p := ProgressPercentage(current, target);
      && (p.NaN? <==> target == 0.0 && current == 0.0)
      && (p.NaN? || AtMost(p, 100.0))
      && (target == 0.0 && current > 0.0 ==> p == Finite(100.0))
      && (target != 0.0 ==> p == Finite(Min(100.0, current / target * 100.0)))
  {
  }

  /** The confidence score never exceeds 100 and is NaN only when progress is. */
  lemma ConfidenceSpec(savingsRate: real, progress: Num)
    ensures var c := ConfidenceScore(savingsRate, progress);
      (c.NaN? <==> progress.NaN?) && (c.NaN? || AtMost(c, 100.0))
  {
  }

  /**
   * The months to the goal are 999 whenever monthly savings are not positive, otherwise the
   * remaining amount over the monthly savings (0 for infinite savings).
   */
  lemma MonthsToGoalSpec(remaining: real, monthlySavings: Num)
    ensures var m := MonthsToGoal(remaining, monthlySavings);
      && (!Above(monthlySavings, 0.0) ==> m == Finite(999.0))
      && (monthlySavings.Finite? && monthlySavings.value > 0.0 ==>
            m.Finite? && m.value * monthlySavings.value == remaining)
      && (monthlySavings.PosInf? ==> m == Finite(0.0))
  {
    if monthlySavings.Finite? && monthlySavings.value > 0.0 {
      var q := remaining / monthlySavings.value;
      assert q * monthlySavings.value == remaining;
    }
  }

  /**
   * Once the deadline has passed no monthly saving is required, before it the remaining amount
   * is spread over the months left, and the goal is on track exactly when the months to the
   * goal do not exceed the months left.
   */
  lemma GoalDeadlineSpec(goal: Goal, metrics: FinancialMetrics, now: real)
    ensures var p := CalculateGoalProgress(goal, metrics, now);
      var left := MonthsUntil(goal.deadline, now);
      && (left <= 0.0 ==> p.requiredMonthlySavings == 0.0)
      && (left > 0.0 ==> p.requiredMonthlySavings * left == goal.targetAmount - goal.currentAmount)
      && p.monthsToGoal.Finite? && (p.isOnTrack <==> p.monthsToGoal.value <= left)
  {
    var p := CalculateGoalProgress(goal, metrics, now);
    var remaining := goal.targetAmount - goal.currentAmount;
    var left := MonthsUntil(goal.deadline, now);
    assert p.requiredMonthlySavings == if left > 0.0 then remaining / left else 0.0;
    if left > 0.0 {
      DivTimes(remaining, left);
    }
    GoalOnTrack(goal, metrics, now);
  }

  /** The months to the goal are finite, and the goal is on track when they fit in the months left. */
  lemma GoalOnTrack(goal: Goal, metrics: FinancialMetrics, now: real)
    ensures var p := CalculateGoalProgress(goal, metrics, now);
      p.monthsToGoal.Finite? && (p.isOnTrack <==> p.monthsToGoal.value <= MonthsUntil(goal.deadline, now))
  {
    var p := CalculateGoalProgress(goal, metrics, now);
    var m := MonthsToGoal(goal.targetAmount - goal.currentAmount, MonthlyNet(metrics));
    assert m.Finite?;
    assert p.monthsToGoal == m;
    assert p.isOnTrack == AtMost(m, MonthsUntil(goal.deadline, now));
  }

  /** For a positive target and a saved amount not below zero, progress and confidence lie in [0, 100]. */
  lemma GoalProgressBounded(goal: Goal, metrics: FinancialMetrics, now: real)
    requires goal.targetAmount > 0.0 && goal.currentAmount >= 0.0
    ensures var p := CalculateGoalProgress(goal, metrics, now);
      && p.progressPercentage.Finite? && 0.0 <= p.progressPercentage.value <= 100.0
      && p.confidenceScore.Finite? && 0.0 <= p.confidenceScore.value <= 100.0
  {
    assert goal.currentAmount / goal.targetAmount >= 0.0;
  }

  // ---- spending by day of the week ----

  const DayNames: seq<string> := ["Sunday", "Monday", "Tuesday", "Wednesday", "Thursday", "Friday", "Saturday"]

  datatype SpendingPattern = SpendingPattern(dayOfWeek: string, amount: real, transactionCount: nat)

  /** The day of the week of the transaction's date, 0 for Sunday (`getDay`, in UTC). */
  function DayOf(t: Transaction): (d: int)
    ensures 0 <= d < 7
  {
    Weekday(DayNumber(t.date))
  }

  /** `analyzeSpendingPatterns`: debit totals and counts for each day, Sunday to Saturday. */
  function SpendingPatternsOf(txns: seq<Transaction>): (r: seq<SpendingPattern>)
    ensures |r| == 7
    ensures forall d :: 0 <= d < 7 ==> r[d].dayOfWeek == DayNames[d]
  {
    var debits := Debits(txns);
    seq(7, d requires 0 <= d < 7 => SpendingPattern(DayNames[d], KeyAmount(debits, DayOf, d), KeyCount(debits, DayOf, d)))
  }

  /**
   * The day map is keyed by day name; the names are those of the day indices 0 to 6, one to
   * one, so it is kept here by index.
   */
  method AnalyzeSpendingPatterns(txns: seq<Transaction>) returns (patterns: seq<SpendingPattern>)
    ensures patterns == SpendingPatternsOf(txns)
  {
    var debits := Debits(txns);
    var _, dayMap := Tally(debits, DayOf);
    patterns := [];
    var d := 0;
    while d < 7
      invariant 0 <= d <= 7
      invariant |patterns| == d
      invariant forall k :: 0 <= k < d ==> patterns[k] == SpendingPatternsOf(txns)[k]
    {
      var data := if d in dayMap then dayMap[d] else Acc(0.0, 0);
      patterns := patterns + [SpendingPattern(DayNames[d], data.amount, data.count)];
      d := d + 1;
    }
  }

  function PatternAmount(p: SpendingPattern): real {
    p.amount
  }

  function PatternCount(p: SpendingPattern): real {
    p.transactionCount as real
  }

  /** The group sums of the keys `0 .. n - 1`. */
  function RangeAmount(xs: seq<Transaction>, key: Transaction -> int, n: nat): real {
    if n == 0 then 0.0 else RangeAmount(xs, key, n - 1) + KeyAmount(xs, key, n - 1)
  }

  function RangeCount(xs: seq<Transaction>, key: Transaction -> int, n: nat): nat {
    if n == 0 then 0 else RangeCount(xs, key, n - 1) + KeyCount(xs, key, n - 1)
  }

  lemma {:induction false} RangeStep(front: seq<Transaction>, x: Transaction, key: Transaction -> int, n: nat)
    ensures RangeAmount(front + [x], key, n) == RangeAmount(front, key, n) + (if 0 <= key(x) < n then x.amount else 0.0)
    ensures RangeCount(front + [x], key, n) == RangeCount(front, key, n) + (if 0 <= key(x) < n then 1 else 0)
  {
    assert (front + [x])[..|front + [x]| - 1] == front;
    if n > 0 {
      RangeStep(front, x, key, n - 1);
    }
  }

  lemma {:induction false} RangeEmpty(key: Transaction -> int, n: nat)
    ensures RangeAmount([], key, n) == 0.0 && RangeCount([], key, n) == 0
  {
    if n > 0 {
      RangeEmpty(key, n - 1);
    }
  }

  /** With every key in `0 .. n - 1`, the groups of those keys add up to all of `xs`. */
  lemma {:induction false} RangeConservation(xs: seq<Transaction>, key: Transaction -> int, n: nat)
    requires forall t :: 0 <= key(t) < n
    ensures RangeAmount(xs, key, n) == Total(xs)
    ensures RangeCount(xs, key, n) == |xs|
  {
    if xs == [] {
      RangeEmpty(key, n);
    } else {
      var front, x := xs[..|xs| - 1], xs[|xs| - 1];
      assert xs == front + [x];
      RangeConservation(front, key, n);
      RangeStep(front, x, key, n);
      TotalSnoc(front, x);
    }
  }

  lemma {:induction false} PatternPrefixSums(r: seq<SpendingPattern>, xs: seq<Transaction>, n: nat)
    requires n <= |r|
    requires forall d :: 0 <= d < |r| ==> r[d].amount == KeyAmount(xs, DayOf, d) && r[d].transactionCount == KeyCount(xs, DayOf, d)
    ensures Seqs.Sum(r[..n], PatternAmount) == RangeAmount(xs, DayOf, n)
    ensures Seqs.Sum(r[..n], PatternCount) == RangeCount(xs, DayOf, n) as real
  {
    if n > 0 {
      PatternPrefixSums(r, xs, n - 1);
      assert r[..n] == r[..n - 1] + [r[n - 1]];
      Seqs.SumSnoc(r[..n - 1], r[n - 1], PatternAmount);
      Seqs.SumSnoc(r[..n - 1], r[n - 1], PatternCount);
    }
  }

  /** The seven day totals add up to all debits, and the counts to their number. */
  lemma SpendingPatternsTotals(txns: seq<Transaction>)
    ensures Seqs.Sum(SpendingPatternsOf(txns), PatternAmount) == Total(Debits(txns))
    ensures Seqs.Sum(SpendingPatternsOf(txns), PatternCount) == |Debits(txns)| as real
  {
    var r := SpendingPatternsOf(txns);
    PatternPrefixSums(r, Debits(txns), 7);
    assert r[..7] == r;
    RangeConservation(Debits(txns), DayOf, 7);
  }

  // ---- everything together ----

  /** The goal fields of `calculateAnalytics`, present only when there is a goal. */
  datatype GoalFields = GoalFields(isOnTrack: bool, monthsToGoal: Num)

  datatype AnalyticsSummary = AnalyticsSummary(
    metrics: FinancialMetrics,
    goalProgress: Num,
    monthlyNet: Num,
    goalFields: Option<GoalFields>)

  /**
   * `calculateAnalytics` as written: the metrics of `calculateFinancialMetrics` (NaN averages
   * for an empty list), the goal's progress (0 without a goal) and the monthly net.
   */
  function CalculateAnalytics(txns: seq<Transaction>, goal: Option<Goal>, now: real): (r: AnalyticsSummary)
    ensures r.metrics == CalculateFinancialMetricsAsWritten(txns)
    ensures r.monthlyNet == MonthlyNet(r.metrics)
    ensures goal.None? ==> r.goalProgress == Finite(0.0) && r.goalFields.None?
    ensures goal.Some? ==>
      var p := CalculateGoalProgress(goal.value, r.metrics, now);
      r.goalProgress == p.progressPercentage && r.goalFields == Some(GoalFields(p.isOnTrack, p.monthsToGoal))
  {
    AnalyticsFrom(CalculateFinancialMetricsAsWritten(txns), goal, now)
  }

  /** `calculateAnalytics` on the corrected metrics, whose span of an empty list is one day. */
  function CalculateAnalyticsCorrected(txns: seq<Transaction>, goal: Option<Goal>, now: real): (r: AnalyticsSummary)
    ensures r.metrics == CalculateFinancialMetrics(txns)
    ensures r.monthlyNet == MonthlyNet(r.metrics)
    ensures txns != [] ==> r == CalculateAnalytics(txns, goal, now)
  {
    AnalyticsFrom(CalculateFinancialMetrics(txns), goal, now)
  }

  /** The summary built from given metrics. */
  function AnalyticsFrom(metrics: FinancialMetrics, goal: Option<Goal>, now: real): AnalyticsSummary {
    match goal
    case None => AnalyticsSummary(metrics, Finite(0.0), MonthlyNet(metrics), None)
    case Some(g) =>
      var progress := CalculateGoalProgress(g, metrics, now);
      AnalyticsSummary(metrics, progress.progressPercentage, MonthlyNet(metrics),
        Some(GoalFields(progress.isOnTrack, progress.monthsToGoal)))
  }

  /** Over a span of at least one day the monthly net is the difference of the monthly figures. */
  lemma MonthlyNetOf(income: real, expenses: real, span: Num)
    requires span.Finite? && span.value >= 1.0
    ensures var m := MetricsFrom(income, expenses, span);
      && MonthlyNet(m).Finite?
      && MonthlyNet(m).value == m.monthlyIncome.value - m.monthlyExpenses.value
  {
  }

  /**
   * The monthly net that `calculateAnalytics` reports is finite exactly when there is a
   * transaction, and then it is monthly income less monthly expenses; an empty list gives NaN.
   */
  lemma MonthlyNetFinite(txns: seq<Transaction>, goal: Option<Goal>, now: real)
    ensures var r := CalculateAnalytics(txns, goal, now);
      && (r.monthlyNet.Finite? <==> txns != [])
      && (txns == [] ==> r.monthlyNet.NaN?)
      && (txns != [] ==> r.monthlyNet.value == r.metrics.monthlyIncome.value - r.metrics.monthlyExpenses.value)
  {
    var m := CalculateFinancialMetricsAsWritten(txns);
    assert CalculateAnalytics(txns, goal, now).monthlyNet == MonthlyNet(m);
    if txns != [] {
      MonthlyNetOf(Total(Credits(txns)), Total(Debits(txns)), DaySpanAsWritten(txns));
    }
  }

  /** On the corrected metrics the monthly net is always finite. */
  lemma CorrectedMonthlyNetFinite(txns: seq<Transaction>, goal: Option<Goal>, now: real)
    ensures var r := CalculateAnalyticsCorrected(txns, goal, now);
      && r.monthlyNet.Finite?
      && r.monthlyNet.value == r.metrics.monthlyIncome.value - r.metrics.monthlyExpenses.value
  {
    var m := CalculateFinancialMetrics(txns);
    assert CalculateAnalyticsCorrected(txns, goal, now).monthlyNet == MonthlyNet(m);
    MonthlyNetOf(Total(Credits(txns)), Total(Debits(txns)), DaySpan(txns));
  }
}
