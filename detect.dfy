/**
 * The two passes of `lib/transaction-parser.ts` that flag transactions in place: recurring
 * payments (a merchant seen three times or more with steady amounts) and unusual debits (more
 * than two standard deviations above the mean debit).
 */
module TransactionDetect {
  import opened Wrappers
  import opened JsNumbers
  import opened FinanceTypes
  import Seqs

  // ---- statistics over amounts ----

  function Identity(x: real): real {
    x
  }

  /** The arithmetic mean, `amounts.reduce((a, b) => a + b, 0) / amounts.length`. */
  function Mean(xs: seq<real>): real
    requires |xs| > 0
  {
    Seqs.Sum(xs, Identity) / |xs| as real
  }

  /** The sum of the distances of the amounts from `c`. */
  function AbsDeviation(xs: seq<real>, c: real): (r: real)
    ensures r >= 0.0
  {
    if xs == [] then 0.0 else Abs(xs[0] - c) + AbsDeviation(xs[1..], c)
  }

  /** The sum of the squared distances of the amounts from `c`. */
  function SquaredDeviation(xs: seq<real>, c: real): real {
    if xs == [] then 0.0 else (xs[0] - c) * (xs[0] - c) + SquaredDeviation(xs[1..], c)
  }

  /** The population variance. */
  function Variance(xs: seq<real>): real
    requires |xs| > 0
  {
    SquaredDeviation(xs, Mean(xs)) / |xs| as real
  }

  /** Squared distances add up to no less than zero. */
  lemma {:induction false} SquaresNonNegative(xs: seq<real>, c: real)
    ensures SquaredDeviation(xs, c) >= 0.0
  {
    if xs != [] {
      var d := xs[0] - c;
      assert d * d >= 0.0;
      SquaresNonNegative(xs[1..], c);
    }
  }

  /** A list of equal amounts sums to their number times the amount. */
  lemma {:induction false} SumConst(xs: seq<real>, c: real)
    requires forall i | 0 <= i < |xs| :: xs[i] == c
    ensures Seqs.Sum(xs, Identity) == |xs| as real * c
  {
    if xs != [] {
      SumConst(xs[1..], c);
    }
  }

  /** Amounts all at least `lo` sum to at least their number times `lo`. */
  lemma {:induction false} SumAtLeast(xs: seq<real>, lo: real)
    requires forall i | 0 <= i < |xs| :: xs[i] >= lo
    ensures Seqs.Sum(xs, Identity) >= |xs| as real * lo
  {
    if xs != [] {
      assert forall i | 0 <= i < |xs| - 1 :: xs[1..][i] == xs[i + 1];
      SumAtLeast(xs[1..], lo);
      assert |xs| as real * lo == (|xs| - 1) as real * lo + lo;
    }
  }

  /** Amounts all at most `hi` sum to at most their number times `hi`. */
  lemma {:induction false} SumAtMost(xs: seq<real>, hi: real)
    requires forall i | 0 <= i < |xs| :: xs[i] <= hi
    ensures Seqs.Sum(xs, Identity) <= |xs| as real * hi
  {
    if xs != [] {
      assert forall i | 0 <= i < |xs| - 1 :: xs[1..][i] == xs[i + 1];
      SumAtMost(xs[1..], hi);
      assert |xs| as real * hi == (|xs| - 1) as real * hi + hi;
    }
  }

  /** The mean of equal amounts is that amount. */
  lemma MeanConst(xs: seq<real>, c: real)
    requires |xs| > 0
    requires forall i | 0 <= i < |xs| :: xs[i] == c
    ensures Mean(xs) == c
  {
    SumConst(xs, c);
    assert (|xs| as real * c) / |xs| as real == c;
  }

  /** The mean lies between the smallest and the largest amount. */
  lemma MeanAtLeast(xs: seq<real>, lo: real)
    requires |xs| > 0
    requires forall i | 0 <= i < |xs| :: xs[i] >= lo
    ensures Mean(xs) >= lo
  {
    SumAtLeast(xs, lo);
    DivAtLeast(Seqs.Sum(xs, Identity), |xs| as real, lo);
  }

  lemma MeanAtMost(xs: seq<real>, hi: real)
    requires |xs| > 0
    requires forall i | 0 <= i < |xs| :: xs[i] <= hi
    ensures Mean(xs) <= hi
  {
    SumAtMost(xs, hi);
    DivAtLeast(-Seqs.Sum(xs, Identity), |xs| as real, -hi);
    assert -Seqs.Sum(xs, Identity) / |xs| as real == -(Seqs.Sum(xs, Identity) / |xs| as real);
  }

  lemma DivAtLeast(total: real, n: real, lo: real)
    requires n > 0.0 && total >= n * lo
    ensures total / n >= lo
  {
    assert (total / n) * n == total;
  }

  /** Amounts all equal to `c` lie at distance zero from `c`. */
  lemma {:induction false} DeviationOfConst(xs: seq<real>, c: real)
    requires forall i | 0 <= i < |xs| :: xs[i] == c
    ensures AbsDeviation(xs, c) == 0.0 && SquaredDeviation(xs, c) == 0.0
  {
    if xs != [] {
      DeviationOfConst(xs[1..], c);
    }
  }

  // ---- recurring transactions ----

  /** The indices of the transactions of merchant `m`, in order (the group of `merchantCounts`). */
  function Members(txns: seq<Transaction>, m: string): (r: seq<nat>)
    ensures forall j | 0 <= j < |r| :: r[j] < |txns|
    decreases |txns|
  {
    if txns == [] then []
    else
      var init := Members(txns[..|txns| - 1], m);
      if txns[|txns| - 1].merchant == m then init + [|txns| - 1] else init
  }

  /** The group of `m` holds exactly the indices of the transactions of `m`, ascending. */
  lemma MembersSpec(txns: seq<Transaction>, m: string)
    ensures var r := Members(txns, m);
      && (forall j | 0 <= j < |r| :: txns[r[j]].merchant == m)
      && (forall k | 0 <= k < |txns| && txns[k].merchant == m :: k in r)
      && (forall j, l | 0 <= j < l < |r| :: r[j] < r[l])
  {
    MembersOfMerchant(txns, m);
    MembersComplete(txns, m);
    MembersAscending(txns, m);
  }

  lemma {:induction false} MembersOfMerchant(txns: seq<Transaction>, m: string)
    ensures forall j | 0 <= j < |Members(txns, m)| :: txns[Members(txns, m)[j]].merchant == m
    decreases |txns|
  {
    if txns != [] {
      var init := txns[..|txns| - 1];
      MembersOfMerchant(init, m);
      var r0 := Members(init, m);
      assert forall j | 0 <= j < |r0| :: txns[r0[j]] == init[r0[j]];
    }
  }

  lemma {:induction false} MembersComplete(txns: seq<Transaction>, m: string)
    ensures forall k | 0 <= k < |txns| && txns[k].merchant == m :: k in Members(txns, m)
    decreases |txns|
  {
    if txns != [] {
      var init := txns[..|txns| - 1];
      MembersComplete(init, m);
      assert forall k | 0 <= k < |init| :: init[k] == txns[k];
    }
  }

  lemma {:induction false} MembersAscending(txns: seq<Transaction>, m: string)
    ensures forall j, l | 0 <= j < l < |Members(txns, m)| :: Members(txns, m)[j] < Members(txns, m)[l]
    decreases |txns|
  {
    if txns != [] {
      MembersAscending(txns[..|txns| - 1], m);
    }
  }

  /** The amounts of the transactions at the given indices (`txns.map((t) => t.amount)`). */
  function AmountsAt(txns: seq<Transaction>, idx: seq<nat>): seq<real>
    requires forall j | 0 <= j < |idx| :: idx[j] < |txns|
  {
    seq(|idx|, j requires 0 <= j < |idx| => txns[idx[j]].amount)
  }

  /**
   * A group of at least three amounts whose mean distance from their average is below a fifth of
   * the average.
   */
  predicate LooksRecurring(amounts: seq<real>) {
    |amounts| >= 3 && AbsDeviation(amounts, Mean(amounts)) / |amounts| as real < Mean(amounts) * 0.2
  }

  /** The merchant `m` has a recurring pattern among `txns`. */
  predicate RecurringMerchant(txns: seq<Transaction>, m: string) {
    LooksRecurring(AmountsAt(txns, Members(txns, m)))
  }

  /** What `detectRecurringTransactions` leaves in the list. */
  function MarkRecurring(txns: seq<Transaction>): seq<Transaction> {
    seq(|txns|, k requires 0 <= k < |txns| =>
      if RecurringMerchant(txns, txns[k].merchant) then txns[k].(isRecurring := Some(true)) else txns[k])
  }

  /** Two lists with the same merchants and amounts have the same recurring merchants. */
  lemma SameGroups(txns: seq<Transaction>, other: seq<Transaction>, m: string)
    requires |txns| == |other|
    requires forall k | 0 <= k < |txns| :: txns[k].merchant == other[k].merchant && txns[k].amount == other[k].amount
    ensures Members(txns, m) == Members(other, m)
    ensures RecurringMerchant(txns, m) == RecurringMerchant(other, m)
  {
    MembersAgree(txns, other, m);
    assert AmountsAt(txns, Members(txns, m)) == AmountsAt(other, Members(other, m));
  }

  lemma {:induction false} MembersAgree(txns: seq<Transaction>, other: seq<Transaction>, m: string)
    requires |txns| == |other|
    requires forall k | 0 <= k < |txns| :: txns[k].merchant == other[k].merchant
    ensures Members(txns, m) == Members(other, m)
    decreases |txns|
  {
    if txns != [] {
      MembersAgree(txns[..|txns| - 1], other[..|other| - 1], m);
    }
  }

  /**
   * The pass keeps the list's length and order and changes no field but `isRecurring`, which it
   * sets on every transaction of a recurring merchant and on no other.
   */
  lemma MarkRecurringSpec(txns: seq<Transaction>)
    ensures var r := MarkRecurring(txns);
      && |r| == |txns|
      && (forall k | 0 <= k < |txns| :: r[k].(isRecurring := txns[k].isRecurring) == txns[k])
      && (forall k | 0 <= k < |txns| ::
            r[k].isRecurring == if RecurringMerchant(txns, txns[k].merchant) then Some(true) else txns[k].isRecurring)
  {
  }

  /** A flagged merchant appears at least three times. */
  lemma RecurringNeedsThree(txns: seq<Transaction>, m: string)
    requires RecurringMerchant(txns, m)
    ensures |Members(txns, m)| >= 3
    ensures exists j, k, l | 0 <= j < k < l < |txns| :: txns[j].merchant == m && txns[k].merchant == m && txns[l].merchant == m
  {
    var r := Members(txns, m);
    MembersSpec(txns, m);
    assert txns[r[0]].merchant == m && txns[r[1]].merchant == m && txns[r[2]].merchant == m;
  }

  /** Three or more payments of the same positive amount to one merchant are recurring. */
  lemma SteadyPaymentsRecurring(txns: seq<Transaction>, m: string, c: real)
    requires c > 0.0
    requires |Members(txns, m)| >= 3
    requires forall k | 0 <= k < |txns| && txns[k].merchant == m :: txns[k].amount == c
    ensures RecurringMerchant(txns, m)
    ensures forall k | 0 <= k < |txns| && txns[k].merchant == m :: MarkRecurring(txns)[k].isRecurring == Some(true)
  {
    MembersSpec(txns, m);
    ConstLooksRecurring(AmountsAt(txns, Members(txns, m)), c);
  }

  /** At least three equal positive amounts look recurring. */
  lemma ConstLooksRecurring(amounts: seq<real>, c: real)
    requires c > 0.0 && |amounts| >= 3
    requires forall j | 0 <= j < |amounts| :: amounts[j] == c
    ensures LooksRecurring(amounts)
  {
    MeanConst(amounts, c);
    DeviationOfConst(amounts, c);
    assert AbsDeviation(amounts, Mean(amounts)) / |amounts| as real == 0.0;
  }

  /** A merchant whose amounts are all zero or negative is never recurring. */
  lemma NoRecurringWithoutPositive(txns: seq<Transaction>, m: string)
    requires forall k | 0 <= k < |txns| && txns[k].merchant == m :: txns[k].amount <= 0.0
    ensures !RecurringMerchant(txns, m)
  {
    var amounts := AmountsAt(txns, Members(txns, m));
    MembersSpec(txns, m);
    if |amounts| >= 3 {
      MeanAtMost(amounts, 0.0);
      assert AbsDeviation(amounts, Mean(amounts)) / |amounts| as real >= 0.0;
    }
  }

  /** Running the pass twice flags nothing more. */
  lemma MarkRecurringIdempotent(txns: seq<Transaction>)
    ensures MarkRecurring(MarkRecurring(txns)) == MarkRecurring(txns)
  {
    var r := MarkRecurring(txns);
    forall k | 0 <= k < |txns|
      ensures MarkRecurring(r)[k] == r[k]
    {
      SameGroups(r, txns, txns[k].merchant);
    }
  }

  /** A merchant without transactions has an empty group. */
  lemma {:induction false} MembersEmpty(txns: seq<Transaction>, m: string)
    requires forall k | 0 <= k < |txns| :: txns[k].merchant != m
    ensures Members(txns, m) == []
    decreases |txns|
  {
    if txns != [] {
      MembersEmpty(txns[..|txns| - 1], m);
    }
  }

  /** One more transaction joins the group of its merchant only. */
  lemma MembersSnoc(txns: seq<Transaction>, t: Transaction, m: string)
    ensures Members(txns + [t], m) == if t.merchant == m then Members(txns, m) + [|txns|] else Members(txns, m)
  {
    assert (txns + [t])[..|txns|] == txns;
  }

  /** The first pass of `detectRecurringTransactions`: the transactions grouped by merchant. */
  method GroupByMerchant(a: array<Transaction>) returns (groups: map<string, seq<nat>>)
    ensures forall m | m in groups :: groups[m] == Members(a[..], m)
    ensures forall k | 0 <= k < a.Length :: a[k].merchant in groups
  {
    groups := map[];
    for i := 0 to a.Length
      invariant forall m | m in groups :: groups[m] == Members(a[..i], m)
      invariant forall k | 0 <= k < i :: a[k].merchant in groups
    {
      var m := a[i].merchant;
      if m !in groups {
        MembersEmpty(a[..i], m);
      }
      var existing := if m in groups then groups[m] else [];
      ghost var before := groups;
      groups := groups[m := existing + [i]];
      assert a[..i + 1] == a[..i] + [a[i]];
      forall m' | m' in groups
        ensures groups[m'] == Members(a[..i + 1], m')
      {
        MembersSnoc(a[..i], a[i], m');
      }
    }
    assert a[..a.Length] == a[..];
  }

  /** Sets `isRecurring` on the transactions at the given indices. */
  method MarkGroup(a: array<Transaction>, members: seq<nat>)
    requires forall j | 0 <= j < |members| :: members[j] < a.Length
    modifies a
    ensures forall k | 0 <= k < a.Length ::
      a[k] == if k in members then old(a[k]).(isRecurring := Some(true)) else old(a[k])
  {
    for j := 0 to |members|
      invariant forall k | 0 <= k < a.Length ::
        a[k] == if k in members[..j] then old(a[k]).(isRecurring := Some(true)) else old(a[k])
    {
      assert members[..j + 1] == members[..j] + [members[j]];
      a[members[j]] := a[members[j]].(isRecurring := Some(true));
    }
    assert members[..|members|] == members;
  }

  /** `detectRecurringTransactions`: groups by merchant, then flags the steady groups in place. */
  method DetectRecurringTransactions(a: array<Transaction>)
    modifies a
    ensures a[..] == MarkRecurring(old(a[..]))
  {
    ghost var orig := a[..];
    var groups := GroupByMerchant(a);
    var remaining := groups.Keys;
    while remaining != {}
      invariant remaining <= groups.Keys
      invariant forall m | m in groups :: groups[m] == Members(orig, m)
      invariant forall k | 0 <= k < a.Length ::
        a[k] == if orig[k].merchant !in remaining && RecurringMerchant(orig, orig[k].merchant)
                then orig[k].(isRecurring := Some(true)) else orig[k]
      decreases remaining
    {
      var m :| m in remaining;
      FlagGroup(a, m, groups[m], orig);
      remaining := remaining - {m};
    }
  }

  /** The body of the second pass for the group of merchant `m`. */
  method FlagGroup(a: array<Transaction>, m: string, members: seq<nat>, ghost orig: seq<Transaction>)
    requires |orig| == a.Length && members == Members(orig, m)
    requires forall k | 0 <= k < a.Length :: a[k].merchant == orig[k].merchant && a[k].amount == orig[k].amount
    modifies a
    ensures forall k | 0 <= k < a.Length ::
      a[k] == if orig[k].merchant == m && RecurringMerchant(orig, m) then old(a[k]).(isRecurring := Some(true)) else old(a[k])
  {
    MembersSpec(orig, m);
    if |members| >= 3 {
      var amounts := AmountsAt(a[..], members);
      assert amounts == AmountsAt(orig, members);
      var avgAmount := Mean(amounts);
      var variance := AbsDeviation(amounts, avgAmount) / |amounts| as real;
      if variance < avgAmount * 0.2 {
        MarkGroup(a, members);
      }
    }
  }

  // ---- unusual transactions ----

  /** The amounts of the debits, in order (`filter((t) => t.type === "debit").map((t) => t.amount)`). */
  function DebitAmounts(txns: seq<Transaction>): (r: seq<real>)
    ensures |r| <= |txns|
  {
    if txns == [] then []
    else (if txns[0].kind == Debit then [txns[0].amount] else []) + DebitAmounts(txns[1..])
  }

  /**
   * `amount > mean + 2 * stdDev` without the square root: the amount lies above the mean and its
   * squared distance from the mean exceeds four times the variance.
   */
  predicate Outlier(x: real, mean: real, variance: real) {
    x - mean > 0.0 && (x - mean) * (x - mean) > 4.0 * variance
  }

  /** With `sd` the square root of the variance, the test above is `x > mean + 2 * sd`. */
  lemma OutlierIsTwoDeviations(x: real, mean: real, variance: real, sd: real)
    requires sd >= 0.0 && sd * sd == variance
    ensures x > mean + 2.0 * sd <==> Outlier(x, mean, variance)
  {
    var d, t := x - mean, 2.0 * sd;
    assert t * t == 4.0 * variance;
    if d > t {
      assert d * (d - t) > 0.0 && t * (d - t) >= 0.0;
      assert d * d - t * t == d * (d - t) + t * (d - t);
    }
    if d > 0.0 && d <= t {
      assert d * (t - d) >= 0.0 && t * (t - d) >= 0.0;
      assert t * t - d * d == d * (t - d) + t * (t - d);
    }
  }

  /** The transaction is a debit that lies more than two deviations above the mean debit. */
  predicate UnusualDebit(t: Transaction, mean: real, variance: real) {
    t.kind == Debit && Outlier(t.amount, mean, variance)
  }

  /** What `detectUnusualTransactions` leaves in the list. */
  function MarkUnusual(txns: seq<Transaction>): seq<Transaction> {
    var amounts := DebitAmounts(txns);
    if |amounts| == 0 then txns
    else
      var mean, variance := Mean(amounts), Variance(amounts);
      seq(|txns|, k requires 0 <= k < |txns| =>
        if UnusualDebit(txns[k], mean, variance) then txns[k].(isUnusual := Some(true)) else txns[k])
  }

  /** `detectUnusualTransactions`: the debit statistics, then a pass that flags in place. */
  method DetectUnusualTransactions(a: array<Transaction>)
    modifies a
    ensures a[..] == MarkUnusual(old(a[..]))
  {
    ghost var orig := a[..];
    var amounts := DebitAmounts(a[..]);
    if |amounts| == 0 {
      return;
    }
    var mean := Mean(amounts);
    var variance := SquaredDeviation(amounts, mean) / |amounts| as real;
    for k := 0 to a.Length
      invariant forall j | 0 <= j < a.Length :: a[j] == if j < k then MarkUnusual(orig)[j] else orig[j]
    {
      if a[k].kind == Debit && Outlier(a[k].amount, mean, variance) {
        a[k] := a[k].(isUnusual := Some(true));
      }
    }
  }

  /**
   * The pass keeps the list's length and order and changes no field but `isUnusual`, which it
   * sets on unusual debits only; without debits the list is left as it is.
   */
  lemma MarkUnusualSpec(txns: seq<Transaction>)
    ensures var r := MarkUnusual(txns);
      && |r| == |txns|
      && (DebitAmounts(txns) == [] ==> r == txns)
      && (forall k | 0 <= k < |txns| :: r[k].(isUnusual := txns[k].isUnusual) == txns[k])
      && (forall k | 0 <= k < |txns| && r[k] != txns[k] ::
            txns[k].kind == Debit && r[k].isUnusual == Some(true)
            && txns[k].amount > Mean(DebitAmounts(txns)))
  {
  }

  /** Every amount of a debit is among the debit amounts. */
  lemma {:induction false} DebitAmountsHold(txns: seq<Transaction>, k: nat)
    requires k < |txns| && txns[k].kind == Debit
    ensures txns[k].amount in DebitAmounts(txns)
  {
    if k > 0 {
      DebitAmountsHold(txns[1..], k - 1);
    }
  }

  /** When every debit is for the same amount, no debit is unusual. */
  lemma EqualDebitsNotUnusual(txns: seq<Transaction>, c: real)
    requires forall k | 0 <= k < |txns| && txns[k].kind == Debit :: txns[k].amount == c
    ensures MarkUnusual(txns) == txns
  {
    var amounts := DebitAmounts(txns);
    if |amounts| > 0 {
      forall i | 0 <= i < |amounts|
        ensures amounts[i] == c
      {
        EqualDebitsAmounts(txns, c, amounts[i]);
      }
      MeanConst(amounts, c);
    }
  }

  lemma {:induction false} EqualDebitsAmounts(txns: seq<Transaction>, c: real, x: real)
    requires forall k | 0 <= k < |txns| && txns[k].kind == Debit :: txns[k].amount == c
    requires x in DebitAmounts(txns)
    ensures x == c
  {
    if txns[0].kind == Debit && x == txns[0].amount {
    } else {
      EqualDebitsAmounts(txns[1..], c, x);
    }
  }

  /** A debit that is no larger than any other debit is never unusual. */
  lemma SmallestDebitNotUnusual(txns: seq<Transaction>, k: nat)
    requires k < |txns| && txns[k].kind == Debit
    requires forall j | 0 <= j < |txns| && txns[j].kind == Debit :: txns[k].amount <= txns[j].amount
    ensures MarkUnusual(txns)[k] == txns[k]
  {
    var amounts := DebitAmounts(txns);
    DebitAmountsHold(txns, k);
    forall i | 0 <= i < |amounts|
      ensures amounts[i] >= txns[k].amount
    {
      LowerBoundOfDebits(txns, txns[k].amount, amounts[i]);
    }
    MeanAtLeast(amounts, txns[k].amount);
  }

  lemma {:induction false} LowerBoundOfDebits(txns: seq<Transaction>, lo: real, x: real)
    requires forall j | 0 <= j < |txns| && txns[j].kind == Debit :: lo <= txns[j].amount
    requires x in DebitAmounts(txns)
    ensures lo <= x
  {
    if txns[0].kind == Debit && x == txns[0].amount {
    } else {
      LowerBoundOfDebits(txns[1..], lo, x);
    }
  }

  /** The number of amounts that are outliers. */
  function Outliers(xs: seq<real>, mean: real, variance: real): nat {
    if xs == [] then 0 else (if Outlier(xs[0], mean, variance) then 1 else 0) + Outliers(xs[1..], mean, variance)
  }

  /** The number of unusual debits. */
  function UnusualCount(txns: seq<Transaction>, mean: real, variance: real): nat {
    if txns == [] then 0
    else (if UnusualDebit(txns[0], mean, variance) then 1 else 0) + UnusualCount(txns[1..], mean, variance)
  }

  /** Counting unusual debits is counting outliers among the debit amounts. */
  lemma {:induction false} UnusualCountIsOutliers(txns: seq<Transaction>, mean: real, variance: real)
    ensures UnusualCount(txns, mean, variance) == Outliers(DebitAmounts(txns), mean, variance)
  {
    if txns != [] {
      UnusualCountIsOutliers(txns[1..], mean, variance);
      var head := if txns[0].kind == Debit then [txns[0].amount] else [];
      OutliersAppend(head, DebitAmounts(txns[1..]), mean, variance);
    }
  }

  lemma {:induction false} OutliersAppend(xs: seq<real>, ys: seq<real>, mean: real, variance: real)
    ensures Outliers(xs + ys, mean, variance) == Outliers(xs, mean, variance) + Outliers(ys, mean, variance)
  {
    if xs == [] {
      assert xs + ys == ys;
    } else {
      assert (xs + ys)[0] == xs[0];
      assert (xs + ys)[1..] == xs[1..] + ys;
      OutliersAppend(xs[1..], ys, mean, variance);
    }
  }

  /** Each outlier contributes more than four variances to the squared deviation. */
  lemma {:induction false} OutlierMass(xs: seq<real>, mean: real, variance: real)
    requires variance >= 0.0
    ensures SquaredDeviation(xs, mean) >= 4.0 * variance * Outliers(xs, mean, variance) as real
    ensures Outliers(xs, mean, variance) > 0 ==>
      SquaredDeviation(xs, mean) > 4.0 * variance * Outliers(xs, mean, variance) as real
  {
    if xs != [] {
      OutlierMass(xs[1..], mean, variance);
      var rest := Outliers(xs[1..], mean, variance) as real;
      var d := xs[0] - mean;
      assert d * d >= 0.0;
      if Outlier(xs[0], mean, variance) {
        assert 4.0 * variance * (1.0 + rest) == 4.0 * variance + 4.0 * variance * rest;
      }
    }
  }

  /** Fewer than a quarter of a list of amounts lie more than two deviations above their mean. */
  lemma FewOutliers(xs: seq<real>)
    requires |xs| > 0
    ensures 4 * Outliers(xs, Mean(xs), Variance(xs)) < |xs|
  {
    FewOutliersAround(xs, Mean(xs), Variance(xs));
  }

  lemma FewOutliersAround(xs: seq<real>, mean: real, variance: real)
    requires |xs| > 0 && variance == SquaredDeviation(xs, mean) / |xs| as real
    ensures 4 * Outliers(xs, mean, variance) < |xs|
  {
    SquaresNonNegative(xs, mean);
    OutlierMass(xs, mean, variance);
    QuarterBound(Outliers(xs, mean, variance), |xs|, variance, SquaredDeviation(xs, mean));
  }

  /**
   * Fewer than a quarter of the debits are flagged unusual: the bound of Chebyshev's inequality
   * for two standard deviations.
   */
  lemma FewUnusual(txns: seq<Transaction>)
    requires DebitAmounts(txns) != []
    ensures var amounts := DebitAmounts(txns);
      4 * UnusualCount(txns, Mean(amounts), Variance(amounts)) < |amounts|
  {
    var amounts := DebitAmounts(txns);
    UnusualCountIsOutliers(txns, Mean(amounts), Variance(amounts));
    FewOutliers(amounts);
  }

  /** The arithmetic of the bound: `n` amounts carry `n` variances, `c` outliers more than `4c`. */
  lemma QuarterBound(count: nat, size: nat, variance: real, squares: real)
    requires size > 0 && squares >= 0.0 && variance == squares / size as real
    requires squares >= 4.0 * variance * count as real
    requires count > 0 ==> squares > 4.0 * variance * count as real
    ensures 4 * count < size
  {
    var n, c := size as real, count as real;
    assert squares == variance * n;
    assert variance >= 0.0;
    if c > 0.0 {
      assert 4.0 * variance * c >= 0.0;
      assert variance > 0.0;
      assert variance * (n - 4.0 * c) > 0.0;
      assert n - 4.0 * c == (variance * (n - 4.0 * c)) / variance;
    }
    assert 4.0 * c < n;
  }

  /** Running the pass twice flags nothing more. */
  lemma MarkUnusualIdempotent(txns: seq<Transaction>)
    ensures MarkUnusual(MarkUnusual(txns)) == MarkUnusual(txns)
  {
    SameDebits(MarkUnusual(txns), txns);
  }

  lemma {:induction false} SameDebits(txns: seq<Transaction>, other: seq<Transaction>)
    requires |txns| == |other|
    requires forall k | 0 <= k < |txns| :: txns[k].kind == other[k].kind && txns[k].amount == other[k].amount
    ensures DebitAmounts(txns) == DebitAmounts(other)
  {
    if txns != [] {
      SameDebits(txns[1..], other[1..]);
    }
  }
}
