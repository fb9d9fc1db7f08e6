/**
 * The income / expense / savings series of `lib/analytics/series.ts`: calendar buckets of a
 * grain, the aggregation of classified transactions into them, and the chart rows built from
 * the points.
 */
module Series {
  import opened Wrappers
  import opened Strings
  import opened Calendar
  import opened AnalyticsTypes
  import Seqs
  import JsNumbers
  import Classify

  // ---- buckets ----

  /** The number of months in a bucket of a month-based grain. */
  function Span(g: Grain): (n: int)
    requires g != Week
    ensures n == 1 || n == 3 || n == 12
  {
    match g
    case Month => 1
    case Quarter => 3
    case Year => 12
  }

  /** The start of the bucket holding `d`: weeks start on Monday. */
  function BucketKey(g: Grain, d: CivilDate): CivilDate {
    match g
    case Week => StartOfWeek(d)
    case Month => StartOfMonth(d)
    case Quarter => StartOfQuarter(d)
    case Year => StartOfYear(d)
  }

  /** The start of the bucket after the one starting at `k`. */
  function NextBucket(g: Grain, k: CivilDate): (r: CivilDate)
    ensures DayNumber(k) < DayNumber(r)
  {
    if g == Week then AddDays(k, 7)
    else
      MonthsLater(k, Span(g));
      AddMonthStarts(k, Span(g))
  }

  /** The start of a later month comes after every day of this one. */
  lemma MonthsLater(k: CivilDate, n: nat)
    requires n > 0
    ensures DayNumber(k) < DayNumber(AddMonthStarts(k, n))
  {
    InOwnMonth(k);
    MonthStartLe(MonthIndex(k) + 1, MonthIndex(k) + n);
  }

  predicate IsBucketStart(g: Grain, k: CivilDate) {
    BucketKey(g, k) == k
  }

  /** `d` falls in the days from bucket start `k` up to the next bucket start. */
  predicate InBucket(g: Grain, k: CivilDate, d: CivilDate) {
    DayNumber(k) <= DayNumber(d) < DayNumber(NextBucket(g, k))
  }

  /** A month-based bucket key is the start of a run of `Span(g)` months aligned to `Span(g)`. */
  lemma MonthKey(g: Grain, d: CivilDate)
    requires g != Week
    ensures BucketKey(g, d) == MonthStart(MonthIndex(d) - MonthIndex(d) % Span(g))
    ensures (MonthIndex(d) - MonthIndex(d) % Span(g)) % Span(g) == 0
  {
    SpanStarts(d);
  }

  /** The key of a date is a bucket start. */
  lemma KeyIsBucketStart(g: Grain, d: CivilDate)
    ensures IsBucketStart(g, BucketKey(g, d))
  {
    var k := BucketKey(g, d);
    if g == Week {
      StartOfWeekUnique(k, k);
    } else {
      var b := MonthIndex(d) - MonthIndex(d) % Span(g);
      MonthKey(g, d);
      MonthKey(g, k);
      MonthIndexOfStart(b);
    }
  }

  /**
   * For a bucket start `k`, a date has key `k` exactly when it falls in the days from `k` up to
   * the next bucket start.
   */
  lemma KeyIff(g: Grain, k: CivilDate, d: CivilDate)
    requires IsBucketStart(g, k)
    ensures BucketKey(g, d) == k <==> InBucket(g, k, d)
  {
    if g == Week {
      if InBucket(g, k, d) {
        StartOfWeekUnique(d, k);
      }
    } else {
      KeyIffMonths(g, k, d);
    }
  }

  lemma KeyIffMonths(g: Grain, k: CivilDate, d: CivilDate)
    requires g != Week && IsBucketStart(g, k)
    ensures BucketKey(g, d) == k <==> InBucket(g, k, d)
  {
    StartIndex(g, k);
    SameKeyMonths(g, k, d);
    InBucketMonths(g, k, d);
  }

  /** A month-based bucket start is the first of an aligned month index. */
  lemma StartIndex(g: Grain, k: CivilDate)
    requires g != Week && IsBucketStart(g, k)
    ensures k == MonthStart(MonthIndex(k)) && MonthIndex(k) % Span(g) == 0
  {
    var b := MonthIndex(k) - MonthIndex(k) % Span(g);
    MonthKey(g, k);
    MonthIndexOfStart(b);
  }

  /** A date has key `k` exactly when its month rounds down to the month of `k`. */
  lemma SameKeyMonths(g: Grain, k: CivilDate, d: CivilDate)
    requires g != Week && k == MonthStart(MonthIndex(k))
    ensures BucketKey(g, d) == k <==> MonthIndex(d) - MonthIndex(d) % Span(g) == MonthIndex(k)
  {
    var c := MonthIndex(d) - MonthIndex(d) % Span(g);
    MonthKey(g, d);
    MonthIndexOfStart(c);
  }

  /** A date falls in the bucket of `k` exactly when its month rounds down to the month of `k`. */
  lemma InBucketMonths(g: Grain, k: CivilDate, d: CivilDate)
    requires g != Week && k == MonthStart(MonthIndex(k)) && MonthIndex(k) % Span(g) == 0
    ensures InBucket(g, k, d) <==> MonthIndex(d) - MonthIndex(d) % Span(g) == MonthIndex(k)
  {
    assert NextBucket(g, k) == MonthStart(MonthIndex(k) + Span(g));
    SpanOfDate(d, Span(g), MonthIndex(k));
  }

  /** Every date lies in the bucket its key starts. */
  lemma InOwnBucket(g: Grain, d: CivilDate)
    ensures InBucket(g, BucketKey(g, d), d)
  {
    KeyIsBucketStart(g, d);
    KeyIff(g, BucketKey(g, d), d);
  }

  /** The next bucket after a bucket start is a bucket start again. */
  lemma NextIsBucketStart(g: Grain, k: CivilDate)
    requires IsBucketStart(g, k)
    ensures IsBucketStart(g, NextBucket(g, k))
  {
    if g == Week {
      NextWeekStart(k);
      StartOfWeekUnique(NextBucket(g, k), NextBucket(g, k));
    } else {
      NextSpanStart(g, k);
    }
  }

  lemma NextWeekStart(k: CivilDate)
    requires IsMonday(k)
    ensures IsMonday(AddDays(k, 7))
  {
    var n := DayNumber(k);
    assert (n + 7 + 4) % 7 == (n + 4) % 7;
  }

  lemma NextSpanStart(g: Grain, k: CivilDate)
    requires g != Week && IsBucketStart(g, k)
    ensures IsBucketStart(g, NextBucket(g, k))
  {
    var span := Span(g);
    MonthKey(g, k);
    var b := MonthIndex(k) - MonthIndex(k) % span;
    MonthIndexOfStart(b);
    assert MonthIndex(k) == b;
    SpanStartAfter(g, b);
  }

  /** The month start one span after an aligned month index is a bucket start. */
  lemma SpanStartAfter(g: Grain, b: int)
    requires g != Week && b % Span(g) == 0
    ensures IsBucketStart(g, MonthStart(b + Span(g)))
  {
    var n := MonthStart(b + Span(g));
    MonthIndexOfStart(b + Span(g));
    MonthKey(g, n);
    AlignedStep(b, Span(g));
  }

  lemma AlignedStep(b: int, span: int)
    requires (span == 1 || span == 3 || span == 12) && b % span == 0
    ensures (b + span) - (b + span) % span == b + span
  {
  }

  /** A successor on dates that always moves forward. */
  ghost predicate Advances(next: CivilDate -> CivilDate) {
    forall k :: DayNumber(k) < DayNumber(next(k))
  }

  /** The dates `cur`, `next(cur)`, `next(next(cur))`, ... up to the last one not after `end`. */
  function Chain(cur: CivilDate, end: CivilDate, next: CivilDate -> CivilDate): seq<CivilDate>
    requires Advances(next)
    decreases DayNumber(end) - DayNumber(cur)
  {
    if DayNumber(cur) > DayNumber(end) then []
    else [cur] + Chain(next(cur), end, next)
  }

  /** The next bucket start. */
  function Step(g: Grain): (next: CivilDate -> CivilDate)
    ensures Advances(next)
    ensures forall k :: next(k) == NextBucket(g, k)
  {
    (k: CivilDate) => NextBucket(g, k)
  }

  /** Bucket starts from `cur` until the one after `end`. */
  function BucketsFrom(g: Grain, cur: CivilDate, end: CivilDate): seq<CivilDate> {
    Chain(cur, end, Step(g))
  }

  /**
   * `generateBuckets`: every bucket start from the bucket of `start` through the bucket of
   * `end`; none when `start` is after `end`.
   */
  function Buckets(g: Grain, start: CivilDate, end: CivilDate): seq<CivilDate> {
    if DayNumber(start) > DayNumber(end) then [] else BucketsFrom(g, BucketKey(g, start), end)
  }

  method GenerateBuckets(start: CivilDate, end: CivilDate, g: Grain) returns (buckets: seq<CivilDate>)
    ensures buckets == Buckets(g, start, end)
  {
    if DayNumber(start) > DayNumber(end) {
      return [];
    }
    buckets := BucketsUpTo(g, BucketKey(g, start), end);
  }

  /** The loop of `generateBuckets`: from bucket start `first`, one bucket at a time through `end`. */
  method BucketsUpTo(g: Grain, first: CivilDate, end: CivilDate) returns (buckets: seq<CivilDate>)
    ensures buckets == BucketsFrom(g, first, end)
  {
    ghost var next := Step(g);
    buckets := [];
    var cur := first;
    while DayNumber(cur) <= DayNumber(end)
      invariant buckets + Chain(cur, end, next) == Chain(first, end, next)
      decreases DayNumber(end) - DayNumber(cur)
    {
      ChainStep(cur, end, next, buckets);
      buckets, cur := buckets + [cur], NextBucket(g, cur);
    }
    assert buckets + [] == buckets;
  }

  /** Taking the first date of a chain onto the dates before it leaves the whole chain unchanged. */
  lemma ChainStep(cur: CivilDate, end: CivilDate, next: CivilDate -> CivilDate, before: seq<CivilDate>)
    requires Advances(next) && DayNumber(cur) <= DayNumber(end)
    ensures before + Chain(cur, end, next) == (before + [cur]) + Chain(next(cur), end, next)
  {
    assert Chain(cur, end, next) == [cur] + Chain(next(cur), end, next);
  }

  /** Each date of a chain lies between its start and `end`. */
  lemma {:induction false} ChainBounds(cur: CivilDate, end: CivilDate, next: CivilDate -> CivilDate, i: nat)
    requires Advances(next) && i < |Chain(cur, end, next)|
    ensures DayNumber(cur) <= DayNumber(Chain(cur, end, next)[i]) <= DayNumber(end)
    decreases DayNumber(end) - DayNumber(cur)
  {
    if i > 0 {
      ChainBounds(next(cur), end, next, i - 1);
    }
  }

  /** The dates of a chain are in strictly increasing order. */
  lemma {:induction false} ChainIncreasing(cur: CivilDate, end: CivilDate, next: CivilDate -> CivilDate, i: nat, j: nat)
    requires Advances(next) && i < j < |Chain(cur, end, next)|
    ensures DayNumber(Chain(cur, end, next)[i]) < DayNumber(Chain(cur, end, next)[j])
    decreases DayNumber(end) - DayNumber(cur)
  {
    var r, rest := Chain(cur, end, next), Chain(next(cur), end, next);
    assert r == [cur] + rest;
    assert r[j] == rest[j - 1];
    if i == 0 {
      ChainBounds(next(cur), end, next, j - 1);
    } else {
      assert r[i] == rest[i - 1];
      ChainIncreasing(next(cur), end, next, i - 1, j - 1);
    }
  }

  /** A property that the start of a chain has and that `next` passes on holds of every date in it. */
  lemma {:induction false} ChainKeeps(cur: CivilDate, end: CivilDate, next: CivilDate -> CivilDate,
                                      p: CivilDate -> bool, i: nat)
    requires Advances(next) && i < |Chain(cur, end, next)|
    requires p(cur) && forall k | p(k) :: p(next(k))
    ensures p(Chain(cur, end, next)[i])
    decreases DayNumber(end) - DayNumber(cur)
  {
    if i > 0 {
      ChainKeeps(next(cur), end, next, p, i - 1);
    }
  }

  /** The bucket after a bucket start is a bucket start. */
  lemma StepKeepsStarts(g: Grain)
    ensures forall k | IsBucketStart(g, k) :: IsBucketStart(g, Step(g)(k))
  {
    forall k | IsBucketStart(g, k)
      ensures IsBucketStart(g, Step(g)(k))
    {
      NextIsBucketStart(g, k);
    }
  }

  /** Every date from `cur` through `end` has its key among the generated entries. */
  lemma {:induction false} BucketsFromCover(g: Grain, cur: CivilDate, end: CivilDate, d: CivilDate)
    requires IsBucketStart(g, cur)
    requires DayNumber(cur) <= DayNumber(d) <= DayNumber(end)
    ensures BucketKey(g, d) in BucketsFrom(g, cur, end)
    decreases DayNumber(end) - DayNumber(cur)
  {
    var next := Step(g);
    assert BucketsFrom(g, cur, end) == [cur] + BucketsFrom(g, next(cur), end);
    if DayNumber(d) < DayNumber(next(cur)) {
      KeyIff(g, cur, d);
    } else {
      NextIsBucketStart(g, cur);
      BucketsFromCover(g, next(cur), end, d);
    }
  }

  predicate Distinct(bs: seq<CivilDate>) {
    forall i, j :: 0 <= i < j < |bs| ==> bs[i] != bs[j]
  }

  /**
   * The buckets are exactly the bucket starts from the bucket of `start` through `end`, once
   * each and in increasing order, and every date from `start` through `end` has its key among
   * them.
   */
  lemma BucketsSpec(g: Grain, start: CivilDate, end: CivilDate)
    ensures var bs := Buckets(g, start, end);
      && (forall i :: 0 <= i < |bs| ==>
            IsBucketStart(g, bs[i]) && DayNumber(BucketKey(g, start)) <= DayNumber(bs[i]) <= DayNumber(end))
      && (forall i, j :: 0 <= i < j < |bs| ==> DayNumber(bs[i]) < DayNumber(bs[j]))
      && Distinct(bs)
      && (forall d: CivilDate :: DayNumber(start) <= DayNumber(d) <= DayNumber(end) ==> BucketKey(g, d) in bs)
  {
    var bs := Buckets(g, start, end);
    if DayNumber(start) <= DayNumber(end) {
      var k := BucketKey(g, start);
      KeyIsBucketStart(g, start);
      InOwnBucket(g, start);
      forall i | 0 <= i < |bs|
        ensures IsBucketStart(g, bs[i]) && DayNumber(k) <= DayNumber(bs[i]) <= DayNumber(end)
      {
        ChainBounds(k, end, Step(g), i);
        StepKeepsStarts(g);
        ChainKeeps(k, end, Step(g), (b: CivilDate) => IsBucketStart(g, b), i);
      }
      forall i, j | 0 <= i < j < |bs|
        ensures DayNumber(bs[i]) < DayNumber(bs[j])
      {
        ChainIncreasing(k, end, Step(g), i, j);
      }
      forall d: CivilDate | DayNumber(start) <= DayNumber(d) <= DayNumber(end)
        ensures BucketKey(g, d) in bs
      {
        BucketsFromCover(g, k, end, d);
      }
    }
  }

  // ---- aggregation ----

  /** The running sums of one bucket. */
  datatype Totals = Totals(incomeCents: int, expenseCents: int, refundCents: int)

  const Zero := Totals(0, 0, 0)

  /** What one counted transaction adds to its bucket. */
  function AddTxn(acc: Totals, t: Txn): Totals {
    if t.direction == Inflow then
      if IsSet(t.meta.refund) then acc.(refundCents := acc.refundCents + t.amountCents)
      else acc.(incomeCents := acc.incomeCents + t.amountCents)
    else acc.(expenseCents := acc.expenseCents + t.amountCents)
  }

  /** The sums of bucket `k` after the transactions `cs` in order; transfers are skipped. */
  function BucketTotals(cs: seq<Txn>, g: Grain, k: CivilDate): Totals {
    if cs == [] then Zero
    else
      var acc := BucketTotals(cs[..|cs| - 1], g, k);
      var t := cs[|cs| - 1];
      if BucketKey(g, t.date) == k && !IsSet(t.meta.transfer) then AddTxn(acc, t) else acc
  }

  /** Transactions kept for the series: settled, and dated from `start` through `end`. */
  predicate InRange(t: Txn, start: CivilDate, end: CivilDate) {
    !t.isPending && DayNumber(start) <= DayNumber(t.date) <= DayNumber(end)
  }

  function InRangeTxns(txns: seq<Txn>, start: CivilDate, end: CivilDate): seq<Txn> {
    Seqs.Filter(txns, t => InRange(t, start, end))
  }

  /** The kept transactions, with transfers and then refunds marked (in date order). */
  function Classified(txns: seq<Txn>, start: CivilDate, end: CivilDate): seq<Txn> {
    Classify.RefundsMarked(Classify.MarkTransfers(InRangeTxns(txns, start, end)))
  }

  /** The point of bucket `k`: refunds are netted against expenses, never below zero. */
  function PointOf(k: CivilDate, tot: Totals): (p: SeriesPoint)
    ensures p.bucket == k && p.incomeCents == tot.incomeCents
    ensures p.expenseCents >= 0 && p.expenseCents >= tot.expenseCents - tot.refundCents
    ensures p.expenseCents == 0 || p.expenseCents == tot.expenseCents - tot.refundCents
    ensures p.savingsCents == p.incomeCents - p.expenseCents
  {
    var netExpenses := JsNumbers.MaxInt(0, tot.expenseCents - tot.refundCents);
    SeriesPoint(k, tot.incomeCents, netExpenses, tot.incomeCents - netExpenses)
  }

  /** The points of the buckets `bs` for the classified transactions `cs`, in bucket order. */
  function SeriesFor(g: Grain, bs: seq<CivilDate>, cs: seq<Txn>): (r: seq<SeriesPoint>)
    ensures |r| == |bs|
    ensures forall j :: 0 <= j < |bs| ==> r[j] == PointOf(bs[j], BucketTotals(cs, g, bs[j]))
  {
    if bs == [] then []
    else SeriesFor(g, bs[..|bs| - 1], cs) + [PointOf(bs[|bs| - 1], BucketTotals(cs, g, bs[|bs| - 1]))]
  }

  /** `buildIncomeExpenseSavingsSeries` with the grain defaulting to months. */
  function IncomeExpenseSavingsSeries(txns: seq<Txn>, opts: SeriesOptions): seq<SeriesPoint> {
    var g := opts.grain.GetOr(Month);
    SeriesFor(g, Buckets(g, opts.start, opts.end), Classified(txns, opts.start, opts.end))
  }

  /** The bucket map: every bucket of `buckets`, with the sums of the transactions `cs`. */
  method Aggregate(cs: seq<Txn>, g: Grain, buckets: seq<CivilDate>) returns (m: map<CivilDate, Totals>)
    ensures forall k :: k in m <==> k in buckets
    ensures forall k :: k in m ==> m[k] == BucketTotals(cs, g, k)
  {
    m := map[];
    var j := 0;
    while j < |buckets|
      invariant 0 <= j <= |buckets|
      invariant forall k :: k in m <==> k in buckets[..j]
      invariant forall k :: k in m ==> m[k] == Zero
    {
      assert buckets[..j + 1] == buckets[..j] + [buckets[j]];
      m := m[buckets[j] := Zero];
      j := j + 1;
    }
    assert buckets[..j] == buckets;
    m := AddAll(cs, g, m);
  }

  /** Adds each transaction of `cs`, in order, to its bucket in `m` when that bucket is there. */
  method AddAll(cs: seq<Txn>, g: Grain, m0: map<CivilDate, Totals>) returns (m: map<CivilDate, Totals>)
    requires forall k :: k in m0 ==> m0[k] == Zero
    ensures m.Keys == m0.Keys
    ensures forall k :: k in m ==> m[k] == BucketTotals(cs, g, k)
  {
    m := m0;
    var i := 0;
    while i < |cs|
      invariant 0 <= i <= |cs|
      invariant m.Keys == m0.Keys
      invariant forall k :: k in m ==> m[k] == BucketTotals(cs[..i], g, k)
    {
      var t := cs[i];
      var key := BucketKey(g, t.date);
      BucketTotalsStep(cs, g, i);
      if key in m && !IsSet(t.meta.transfer) {
        m := m[key := AddTxn(m[key], t)];
      }
      i := i + 1;
    }
    assert cs[..i] == cs;
  }

  /** One more transaction changes the sums of its own bucket only, and only when it is not a transfer. */
  lemma BucketTotalsStep(cs: seq<Txn>, g: Grain, i: nat)
    requires i < |cs|
    ensures forall k ::
              BucketTotals(cs[..i + 1], g, k) ==
              if BucketKey(g, cs[i].date) == k && !IsSet(cs[i].meta.transfer)
              then AddTxn(BucketTotals(cs[..i], g, k), cs[i]) else BucketTotals(cs[..i], g, k)
  {
    assert cs[..i + 1][..i] == cs[..i];
  }

  method BuildIncomeExpenseSavingsSeries(txns: seq<Txn>, opts: SeriesOptions) returns (series: seq<SeriesPoint>)
    ensures series == IncomeExpenseSavingsSeries(txns, opts)
  {
    var g := opts.grain.GetOr(Month);
    var filtered := InRangeTxns(txns, opts.start, opts.end);
    var classified := Classify.MarkRefunds(Classify.MarkTransfers(filtered));
    var buckets := GenerateBuckets(opts.start, opts.end, g);
    var m := Aggregate(classified, g, buckets);
    series := Points(classified, g, buckets, m);
  }

  /** The points of `buckets`, read from the bucket map `m` of the transactions `cs`. */
  method Points(cs: seq<Txn>, g: Grain, buckets: seq<CivilDate>, m: map<CivilDate, Totals>)
    returns (series: seq<SeriesPoint>)
    requires forall k :: k in buckets ==> k in m && m[k] == BucketTotals(cs, g, k)
    ensures series == SeriesFor(g, buckets, cs)
  {
    series := [];
    var j := 0;
    while j < |buckets|
      invariant 0 <= j <= |buckets|
      invariant series == SeriesFor(g, buckets[..j], cs)
    {
      assert buckets[..j + 1][..j] == buckets[..j];
      series := series + [PointOf(buckets[j], m[buckets[j]])];
      j := j + 1;
    }
    assert buckets[..j] == buckets;
  }

  // ---- what the series adds up to ----

  /** The three sums a transaction can feed. */
  datatype Column = IncomeColumn | ExpenseColumn | RefundColumn

  function Pick(tot: Totals, col: Column): int {
    match col
    case IncomeColumn => tot.incomeCents
    case ExpenseColumn => tot.expenseCents
    case RefundColumn => tot.refundCents
  }

  /** The amount transaction `t` contributes to column `col`: nothing for a transfer. */
  function Share(t: Txn, col: Column): int {
    if IsSet(t.meta.transfer) then 0
    else match col
      case IncomeColumn => if t.direction == Inflow && !IsSet(t.meta.refund) then t.amountCents else 0
      case ExpenseColumn => if t.direction == Outflow then t.amountCents else 0
      case RefundColumn => if t.direction == Inflow && IsSet(t.meta.refund) then t.amountCents else 0
  }

  /** The contributions of all of `cs` to column `col`. */
  function TotalShare(cs: seq<Txn>, col: Column): int {
    if cs == [] then 0 else TotalShare(cs[..|cs| - 1], col) + Share(cs[|cs| - 1], col)
  }

  /** Column `col` summed over the buckets `bs`. */
  function ColumnOver(cs: seq<Txn>, g: Grain, bs: seq<CivilDate>, col: Column): int {
    if bs == [] then 0
    else ColumnOver(cs, g, bs[..|bs| - 1], col) + Pick(BucketTotals(cs, g, bs[|bs| - 1]), col)
  }

  /** `v` counted once for each entry of `bs` equal to `key`. */
  function CountedAt(bs: seq<CivilDate>, key: CivilDate, v: int): int {
    if bs == [] then 0 else CountedAt(bs[..|bs| - 1], key, v) + (if bs[|bs| - 1] == key then v else 0)
  }

  lemma {:induction false} CountedAtOnce(bs: seq<CivilDate>, key: CivilDate, v: int)
    requires Distinct(bs)
    ensures CountedAt(bs, key, v) == if key in bs then v else 0
  {
    if bs != [] {
      var front := bs[..|bs| - 1];
      assert Distinct(front);
      CountedAtOnce(front, key, v);
      if bs[|bs| - 1] == key {
        assert key !in front;
      } else {
        assert key in bs <==> key in front;
      }
    }
  }

  /** One more transaction adds its share to the column sum of the bucket holding its key. */
  lemma {:induction false} ColumnOverStep(cs: seq<Txn>, t: Txn, g: Grain, bs: seq<CivilDate>, col: Column)
    ensures ColumnOver(cs + [t], g, bs, col) == ColumnOver(cs, g, bs, col) + CountedAt(bs, BucketKey(g, t.date), Share(t, col))
  {
    assert (cs + [t])[..|cs + [t]| - 1] == cs;
    if bs != [] {
      ColumnOverStep(cs, t, g, bs[..|bs| - 1], col);
    }
  }

  /**
   * Summed over distinct buckets that hold the key of every transaction, a column adds up to the
   * contributions of all the transactions: nothing is lost or counted twice.
   */
  lemma {:induction false} ColumnConservation(cs: seq<Txn>, g: Grain, bs: seq<CivilDate>, col: Column)
    requires Distinct(bs)
    requires forall i :: 0 <= i < |cs| ==> BucketKey(g, cs[i].date) in bs
    ensures ColumnOver(cs, g, bs, col) == TotalShare(cs, col)
  {
    if cs == [] {
      ColumnOverEmpty(g, bs, col);
    } else {
      var front := cs[..|cs| - 1];
      var t := cs[|cs| - 1];
      assert front + [t] == cs;
      ColumnConservation(front, g, bs, col);
      ColumnOverStep(front, t, g, bs, col);
      CountedAtOnce(bs, BucketKey(g, t.date), Share(t, col));
    }
  }

  lemma {:induction false} ColumnOverEmpty(g: Grain, bs: seq<CivilDate>, col: Column)
    ensures ColumnOver([], g, bs, col) == 0
  {
    if bs != [] {
      ColumnOverEmpty(g, bs[..|bs| - 1], col);
    }
  }

  /** Every classified transaction is settled and dated from `start` through `end`. */
  lemma ClassifiedInRange(txns: seq<Txn>, start: CivilDate, end: CivilDate, i: nat)
    requires i < |Classified(txns, start, end)|
    ensures InRange(Classified(txns, start, end)[i], start, end)
  {
    var f := InRangeTxns(txns, start, end);
    var marked := Classify.MarkTransfers(f);
    Classify.RefundsMarkedEntry(marked, i);
    var u := Classify.SortByDate(marked)[i];
    var j :| 0 <= j < |marked| && marked[j] == u;
    assert f[j].date == u.date && f[j].isPending == u.isPending;
  }

  /** Every classified transaction carries the amount of one of the input transactions. */
  lemma ClassifiedAmount(txns: seq<Txn>, start: CivilDate, end: CivilDate, i: nat)
    requires i < |Classified(txns, start, end)|
    ensures exists j :: 0 <= j < |txns| && Classified(txns, start, end)[i].amountCents == txns[j].amountCents
  {
    var f := InRangeTxns(txns, start, end);
    var marked := Classify.MarkTransfers(f);
    Classify.RefundsMarkedEntry(marked, i);
    var u := Classify.SortByDate(marked)[i];
    var j :| 0 <= j < |marked| && marked[j] == u;
    assert f[j].amountCents == u.amountCents;
    assert f[j] in multiset(f);
    var l :| 0 <= l < |txns| && txns[l] == f[j];
  }

  /** With no negative amount, no bucket sum is negative. */
  lemma {:induction false} BucketTotalsNonNegative(cs: seq<Txn>, g: Grain, k: CivilDate)
    requires forall i :: 0 <= i < |cs| ==> cs[i].amountCents >= 0
    ensures var tot := BucketTotals(cs, g, k);
      tot.incomeCents >= 0 && tot.expenseCents >= 0 && tot.refundCents >= 0
    decreases |cs|
  {
    if cs != [] {
      var front := cs[..|cs| - 1];
      assert forall i :: 0 <= i < |front| ==> front[i] == cs[i];
      BucketTotalsNonNegative(front, g, k);
    }
  }

  /**
   * With no negative `amountCents` in the input, every point of the series has non-negative
   * income; its expenses are never negative whatever the amounts.
   */
  lemma SeriesIncomeNonNegative(txns: seq<Txn>, opts: SeriesOptions)
    requires forall i :: 0 <= i < |txns| ==> txns[i].amountCents >= 0
    ensures var r := IncomeExpenseSavingsSeries(txns, opts);
      forall j :: 0 <= j < |r| ==> r[j].incomeCents >= 0 && r[j].expenseCents >= 0
  {
    var g := opts.grain.GetOr(Month);
    var bs := Buckets(g, opts.start, opts.end);
    var cs := Classified(txns, opts.start, opts.end);
    forall i | 0 <= i < |cs|
      ensures cs[i].amountCents >= 0
    {
      ClassifiedAmount(txns, opts.start, opts.end, i);
    }
    forall j | 0 <= j < |bs|
      ensures BucketTotals(cs, g, bs[j]).incomeCents >= 0
    {
      BucketTotalsNonNegative(cs, g, bs[j]);
    }
  }

  function IncomeSum(ps: seq<SeriesPoint>): int {
    if ps == [] then 0 else IncomeSum(ps[..|ps| - 1]) + ps[|ps| - 1].incomeCents
  }

  function ExpenseSum(ps: seq<SeriesPoint>): int {
    if ps == [] then 0 else ExpenseSum(ps[..|ps| - 1]) + ps[|ps| - 1].expenseCents
  }

  function SavingsSum(ps: seq<SeriesPoint>): int {
    if ps == [] then 0 else SavingsSum(ps[..|ps| - 1]) + ps[|ps| - 1].savingsCents
  }

  /** The series sums of the points of `bs`, against the column sums of the same buckets. */
  lemma {:induction false} SeriesForSums(g: Grain, bs: seq<CivilDate>, cs: seq<Txn>)
    ensures IncomeSum(SeriesFor(g, bs, cs)) == ColumnOver(cs, g, bs, IncomeColumn)
    ensures ExpenseSum(SeriesFor(g, bs, cs))
         >= ColumnOver(cs, g, bs, ExpenseColumn) - ColumnOver(cs, g, bs, RefundColumn)
    ensures ExpenseSum(SeriesFor(g, bs, cs)) >= 0
    ensures SavingsSum(SeriesFor(g, bs, cs)) == IncomeSum(SeriesFor(g, bs, cs)) - ExpenseSum(SeriesFor(g, bs, cs))
  {
    if bs != [] {
      var front := bs[..|bs| - 1];
      SeriesForSums(g, front, cs);
      var r := SeriesFor(g, bs, cs);
      assert r[..|r| - 1] == SeriesFor(g, front, cs);
    }
  }

  /**
   * Over the whole series, the income is the income of every settled, in-range, non-transfer,
   * non-refund inflow; the expenses are at least the non-transfer outflows less the refunds, and
   * the savings are income less expenses.
   */
  lemma SeriesTotals(txns: seq<Txn>, opts: SeriesOptions)
    ensures var r := IncomeExpenseSavingsSeries(txns, opts);
      var cs := Classified(txns, opts.start, opts.end);
      && IncomeSum(r) == TotalShare(cs, IncomeColumn)
      && ExpenseSum(r) >= TotalShare(cs, ExpenseColumn) - TotalShare(cs, RefundColumn)
      && SavingsSum(r) == IncomeSum(r) - ExpenseSum(r)
  {
    var g := opts.grain.GetOr(Month);
    var bs := Buckets(g, opts.start, opts.end);
    var cs := Classified(txns, opts.start, opts.end);
    BucketsSpec(g, opts.start, opts.end);
    forall i | 0 <= i < |cs|
      ensures BucketKey(g, cs[i].date) in bs
    {
      ClassifiedInRange(txns, opts.start, opts.end, i);
    }
    SeriesForSums(g, bs, cs);
    ColumnConservation(cs, g, bs, IncomeColumn);
    ColumnConservation(cs, g, bs, ExpenseColumn);
    ColumnConservation(cs, g, bs, RefundColumn);
  }

  /** A bucket that no counted transaction falls in has an all-zero point. */
  lemma {:induction false} QuietBucketIsZero(cs: seq<Txn>, g: Grain, k: CivilDate)
    requires forall i :: 0 <= i < |cs| ==> BucketKey(g, cs[i].date) != k || IsSet(cs[i].meta.transfer)
    ensures BucketTotals(cs, g, k) == Zero
    ensures PointOf(k, BucketTotals(cs, g, k)) == SeriesPoint(k, 0, 0, 0)
  {
    if cs != [] {
      QuietBucketIsZero(cs[..|cs| - 1], g, k);
    }
  }

  // ---- chart rows ----

  /** `centsToDollars`. */
  function CentsToDollars(cents: int): (r: real)
    ensures r * 100.0 == cents as real
  {
    cents as real / 100.0
  }

  function MonthAbbrev(m: int): (r: string)
    requires 1 <= m <= 12
    ensures |r| == 3
  {
    ["Jan", "Feb", "Mar", "Apr", "May", "Jun", "Jul", "Aug", "Sep", "Oct", "Nov", "Dec"][m - 1]
  }

  /** Four-digit year text. */
  function YearText(y: int): string {
    if y >= 0 then PadNat(y, 4) else "-" + PadNat(-y, 4)
  }

  /** `bucketLabel`: "Jan 05" for weeks, "Jan 2024" for months, "Q1 2024", "2024". */
  function BucketLabel(k: CivilDate, g: Grain): string {
    match g
    case Week => MonthAbbrev(k.month) + " " + PadNat(k.day, 2)
    case Month => MonthAbbrev(k.month) + " " + YearText(k.year)
    case Quarter =>
      "Q" + NatToString(JsNumbers.Ceil(k.month as real / 3.0) as nat) + " "
      + (if k.year >= 0 then NatToString(k.year) else "-" + NatToString(-k.year))
    case Year => YearText(k.year)
  }

  /** The label of the quarter bucket of `d` names the quarter of `d` as one digit from 1 to 4. */
  lemma QuarterLabel(d: CivilDate)
    ensures var text := BucketLabel(BucketKey(Quarter, d), Quarter);
      var q := (d.month - 1) / 3 + 1;
      1 <= q <= 4 && text[..2] == ['Q', DigitChar(q)] && text[2] == ' '
  {
    var k := BucketKey(Quarter, d);
    var q := (d.month - 1) / 3 + 1;
    assert k.month == 3 * q - 2;
    assert JsNumbers.Ceil(k.month as real / 3.0) == q;
  }

  /** One chart row. */
  datatype ChartRow = ChartRow(name: string, income: real, expenses: real, savings: real)

  /** `seriesToChartData`: one labelled row per point, amounts in dollars. */
  function SeriesToChartData(series: seq<SeriesPoint>, g: Grain): (rows: seq<ChartRow>)
    ensures |rows| == |series|
    ensures forall j :: 0 <= j < |series| ==>
      rows[j].name == BucketLabel(series[j].bucket, g)
      && rows[j].income * 100.0 == series[j].incomeCents as real
      && rows[j].expenses * 100.0 == series[j].expenseCents as real
      && rows[j].savings * 100.0 == series[j].savingsCents as real
  {
    seq(|series|, j requires 0 <= j < |series| =>
      var p := series[j];
      ChartRow(BucketLabel(p.bucket, g), CentsToDollars(p.incomeCents), CentsToDollars(p.expenseCents),
               CentsToDollars(p.savingsCents)))
  }
}
