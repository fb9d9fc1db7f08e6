/**
 * Classification of analytics transactions: transfer and refund look-alikes by keyword, token
 * similarity of descriptions, pairing of an outflow with a matching inflow within 48 hours, and
 * refunds matched against an earlier outflow within 60 days.
 */
module Classify {
  import opened Wrappers
  import opened Strings
  import opened Seqs
  import opened Calendar
  import opened AnalyticsTypes

  const TransferCategoryWords: seq<string> := ["transfer", "payment to card", "cc payment"]

  const TransferPatterns: seq<string> := [
    "transfer", "xfer", "venmo transfer", "zelle transfer", "atm cash deposit", "cash withdrawal",
    "payment to card", "cc payment", "to savings", "from savings", "brokerage", "coinbase",
    "robinhood", "401k", "investment"]

  const RefundPatterns: seq<string> := ["refund", "reversal", "return", "chargeback", "cashback"]

  /** Some word of `words` occurs in `text`. */
  predicate MentionsAny(text: string, words: seq<string>) {
    exists w | w in words :: Contains(text, w)
  }

  /** `looksLikeTransfer`: a transfer-like category or a transfer-like description, ignoring case. */
  predicate LooksLikeTransfer(t: Txn) {
    MentionsAny(ToLower(t.category.GetOr("")), TransferCategoryWords)
    || MentionsAny(ToLower(t.description), TransferPatterns)
  }

  /** `looksLikeRefund`: a refund-like description, ignoring case. */
  predicate LooksLikeRefund(t: Txn) {
    MentionsAny(ToLower(t.description), RefundPatterns)
  }

  lemma LowerOfUpper(s: string)
    ensures ToLower(ToUpper(s)) == ToLower(s)
  {
    assert forall i | 0 <= i < |s| :: ToLower(ToUpper(s))[i] == ToLower(s)[i];
  }

  /** The keyword tests ignore case: upper-casing the texts changes neither verdict. */
  lemma KeywordTestsIgnoreCase(t: Txn)
    ensures LooksLikeTransfer(t) == LooksLikeTransfer(t.(description := ToUpper(t.description)))
    ensures LooksLikeRefund(t) == LooksLikeRefund(t.(description := ToUpper(t.description)))
    ensures t.category.Some? ==>
      LooksLikeTransfer(t) == LooksLikeTransfer(t.(category := Some(ToUpper(t.category.value))))
  {
    LowerOfUpper(t.description);
    if t.category.Some? {
      LowerOfUpper(t.category.value);
    }
  }

  /** A description mentioning a transfer keyword anywhere, in any case, marks a transfer. */
  lemma KeywordInDescription(t: Txn, before: string, word: string, after: string)
    requires word in TransferPatterns
    requires ToLower(t.description) == before + word + after
    ensures LooksLikeTransfer(t)
  {
    ContainsInfix(before, word, after);
  }

  // ---- token similarity ----

  /** The maximal runs of `\w` characters of `s`, continuing the run `run`. */
  function WordsFrom(s: string, run: string): (r: seq<string>)
    requires forall i :: 0 <= i < |run| ==> IsWordChar(run[i])
    ensures forall k :: 0 <= k < |r| ==> r[k] != [] && forall i :: 0 <= i < |r[k]| ==> IsWordChar(r[k][i])
    decreases |s|
  {
    if s == [] then (if run == [] then [] else [run])
    else if IsWordChar(s[0]) then WordsFrom(s[1..], run + [s[0]])
    else (if run == [] then [] else [run]) + WordsFrom(s[1..], [])
  }

  /**
   * The tokens of `similarMerchants`: after lower-casing, every character outside `\w` and `\s`
   * becomes a space and the text is split at white space, so the pieces are the maximal runs
   * of word characters; pieces of at most two characters are dropped.
   */
  function Tokens(s: string): set<string> {
    set w | w in WordsFrom(ToLower(s), []) && |w| > 2
  }

  lemma SubsetCard<T>(a: set<T>, b: set<T>)
    requires a <= b
    ensures |a| <= |b|
  {
    assert b == a + (b - a);
    assert a * (b - a) == {};
  }

  /** `x / y` for a part `x` of a whole `y`. */
  function Ratio(x: nat, y: nat): (r: real)
    requires 0 < y && x <= y
    ensures 0.0 <= r <= 1.0
    ensures r == 1.0 <==> x == y
  {
    var r := x as real / y as real;
    assert r * (y as real) == x as real;
    r
  }

  /** `similarMerchants`: Jaccard similarity of the token sets, 0 for a missing or empty text. */
  function SimilarMerchants(a: Option<string>, b: Option<string>): (r: real)
    ensures 0.0 <= r <= 1.0
    ensures (a == None || a == Some([]) || b == None || b == Some([])) ==> r == 0.0
  {
    if a == None || a == Some([]) || b == None || b == Some([]) then 0.0
    else
      var ta, tb := Tokens(a.value), Tokens(b.value);
      if |ta + tb| > 0 then
        SubsetCard(ta * tb, ta + tb);
        Ratio(|ta * tb|, |ta + tb|)
      else 0.0
  }

  lemma SimilarMerchantsSymmetric(a: Option<string>, b: Option<string>)
    ensures SimilarMerchants(a, b) == SimilarMerchants(b, a)
  {
    if a.Some? && b.Some? {
      assert Tokens(a.value) * Tokens(b.value) == Tokens(b.value) * Tokens(a.value);
      assert Tokens(a.value) + Tokens(b.value) == Tokens(b.value) + Tokens(a.value);
    }
  }

  /** A text with at least one token is fully similar to itself. */
  lemma SimilarMerchantsSelf(s: string)
    requires Tokens(s) != {}
    ensures SimilarMerchants(Some(s), Some(s)) == 1.0
  {
    var w :| w in Tokens(s);
    assert |w| > 2;
    assert s != [];
    assert Tokens(s) * Tokens(s) == Tokens(s) + Tokens(s);
  }

  /** Texts without a common token have similarity 0. */
  lemma SimilarMerchantsDisjoint(a: string, b: string)
    requires Tokens(a) * Tokens(b) == {}
    ensures SimilarMerchants(Some(a), Some(b)) == 0.0
  {
  }

  // ---- ordering by date ----

  function DayKey(t: Txn): real {
    DayNumber(t.date) as real
  }

  /** The stable sort by date that `pairTransfers` and `markRefunds` start from. */
  function SortByDate(txns: seq<Txn>): (r: seq<Txn>)
    ensures |r| == |txns| && multiset(r) == multiset(txns)
  {
    SortBy(txns, DayKey)
  }

  lemma SortByDateSorted(txns: seq<Txn>)
    ensures SortedBy(SortByDate(txns), DayKey)
  {
    SortBySorted(txns, DayKey);
  }

  // ---- transfer pairs ----

  predicate IsTransferCategory(c: Option<string>) {
    c == Some("Transfer") || c == Some("Credit Card Payment")
  }

  /** The conditions under which inflow `b` completes a transfer from outflow `a`. */
  predicate IsTransferPair(a: Txn, b: Txn) {
    b.direction == Inflow
    && a.amountCents == b.amountCents
    && a.account != b.account
    && (SimilarMerchants(Some(a.description), Some(b.description)) >= 0.6
        || SimilarMerchants(a.merchant, b.merchant) >= 0.6
        || IsTransferCategory(a.category)
        || IsTransferCategory(b.category))
  }

  /**
   * More than 48 hours apart: dates are midnights, so the difference of their times exceeds
   * 48 hours exactly when the day numbers differ by more than 2.
   */
  predicate BeyondTwoDays(a: Txn, b: Txn) {
    DayNumber(b.date) - DayNumber(a.date) > 2
  }

  /** A rule for when inflow `b` completes a transfer from outflow `a`. */
  type PairRule = (Txn, Txn) -> bool

  /**
   * The index the inner scan of `pairTransfers` stops at for `s[i]`, scanning from `j` with
   * the rule `pairs`; the scan gives up at the first entry more than two days later.
   */
  function PartnerFrom(s: seq<Txn>, i: nat, j: nat, pairs: PairRule): (r: Option<nat>)
    requires i < j <= |s|
    ensures r.Some? ==> j <= r.value < |s| && pairs(s[i], s[r.value]) && !BeyondTwoDays(s[i], s[r.value])
    ensures r.Some? ==> forall k :: j <= k < r.value ==> !pairs(s[i], s[k])
    decreases |s| - j
  {
    if j == |s| then None
    else if BeyondTwoDays(s[i], s[j]) then None
    else if pairs(s[i], s[j]) then Some(j)
    else PartnerFrom(s, i, j + 1, pairs)
  }

  /** The inflow paired with `s[i]`, if `s[i]` is an outflow that finds one. */
  function Partner(s: seq<Txn>, i: nat, pairs: PairRule): Option<nat>
    requires i < |s|
  {
    if s[i].direction != Outflow then None else PartnerFrom(s, i, i + 1, pairs)
  }

  /** The ids collected by the first `n` rounds of the outer loop. */
  function PairIdsUpTo(s: seq<Txn>, n: nat, pairs: PairRule): set<string>
    requires n <= |s|
  {
    if n == 0 then {}
    else
      PairIdsUpTo(s, n - 1, pairs)
      + match Partner(s, n - 1, pairs) {
          case Some(j) => {s[n - 1].id, s[j].id}
          case None => {}
        }
  }

  /** The ids `pairTransfers` returns. */
  function TransferPairIds(txns: seq<Txn>): set<string> {
    PairIdsUpTo(SortByDate(txns), |txns|, IsTransferPair)
  }

  /** The inner loop of `pairTransfers`: scan forward from `s[i]` until a match or a gap. */
  method ScanForPartner(s: seq<Txn>, i: nat, pairs: PairRule) returns (found: Option<nat>)
    requires i < |s|
    ensures found == PartnerFrom(s, i, i + 1, pairs)
  {
    found := None;
    var j := i + 1;
    while j < |s|
      invariant i + 1 <= j <= |s|
      invariant PartnerFrom(s, i, j, pairs) == PartnerFrom(s, i, i + 1, pairs)
    {
      if BeyondTwoDays(s[i], s[j]) {
        return;
      }
      if pairs(s[i], s[j]) {
        found := Some(j);
        return;
      }
      j := j + 1;
    }
  }

  /** The loops of `pairTransfers` over the date-sorted list `s`, with the rule `pairs`. */
  method PairSorted(s: seq<Txn>, pairs: PairRule) returns (ids: set<string>)
    ensures ids == PairIdsUpTo(s, |s|, pairs)
  {
    ids := {};
    var i := 0;
    while i < |s|
      invariant 0 <= i <= |s|
      invariant ids == PairIdsUpTo(s, i, pairs)
    {
      if s[i].direction == Outflow {
        var found := ScanForPartner(s, i, pairs);
        if found.Some? {
          ids := ids + {s[i].id, s[found.value].id};
        }
      }
      i := i + 1;
    }
  }

  /** `pairTransfers`. */
  method PairTransfers(txns: seq<Txn>) returns (ids: set<string>)
    ensures ids == TransferPairIds(txns)
  {
    var sorted := SortByDate(txns);
    ids := PairSorted(sorted, IsTransferPair);
  }

  /**
   * The ids of `PairIdsUpTo` come in pairs: an outflow `s[i]` whose scan stopped at a matching
   * later entry `s[j]`, with both ids collected.
   */
  lemma {:induction false} PairIdsUpToSound(s: seq<Txn>, n: nat, pairs: PairRule, id: string)
    requires n <= |s| && id in PairIdsUpTo(s, n, pairs)
    ensures exists i, j :: (0 <= i < n && i < j < |s| && Partner(s, i, pairs) == Some(j)
      && s[i].direction == Outflow && pairs(s[i], s[j]) && !BeyondTwoDays(s[i], s[j])
      && s[i].id in PairIdsUpTo(s, n, pairs) && s[j].id in PairIdsUpTo(s, n, pairs)
      && (id == s[i].id || id == s[j].id))
  {
    if id in PairIdsUpTo(s, n - 1, pairs) {
      PairIdsUpToSound(s, n - 1, pairs, id);
      var i, j :| 0 <= i < n - 1 && i < j < |s| && Partner(s, i, pairs) == Some(j)
        && s[i].direction == Outflow && pairs(s[i], s[j]) && !BeyondTwoDays(s[i], s[j])
        && s[i].id in PairIdsUpTo(s, n - 1, pairs) && s[j].id in PairIdsUpTo(s, n - 1, pairs)
        && (id == s[i].id || id == s[j].id);
      assert PairIdsUpTo(s, n - 1, pairs) <= PairIdsUpTo(s, n, pairs);
    } else {
      var j := Partner(s, n - 1, pairs).value;
      assert n - 1 < j;
    }
  }

  /**
   * The ids paired over a date-sorted copy `s` of `txns` with the rule `pairs` come from matching
   * pairs of `txns`, and both ids of such a pair are collected.
   */
  lemma SortedPairIdsSound(txns: seq<Txn>, s: seq<Txn>, pairs: PairRule, id: string)
    requires SortedBy(s, DayKey) && multiset(s) == multiset(txns)
    requires id in PairIdsUpTo(s, |s|, pairs)
    ensures exists a, b :: (a in txns && b in txns && a.direction == Outflow && pairs(a, b)
      && 0 <= DayNumber(b.date) - DayNumber(a.date) <= 2 && (id == a.id || id == b.id)
      && a.id in PairIdsUpTo(s, |s|, pairs) && b.id in PairIdsUpTo(s, |s|, pairs))
  {
    PairIdsUpToSound(s, |s|, pairs, id);
    var i, j :| 0 <= i < |s| && i < j < |s| && Partner(s, i, pairs) == Some(j)
      && s[i].direction == Outflow && pairs(s[i], s[j]) && !BeyondTwoDays(s[i], s[j])
      && s[i].id in PairIdsUpTo(s, |s|, pairs) && s[j].id in PairIdsUpTo(s, |s|, pairs)
      && (id == s[i].id || id == s[j].id);
    var a, b := s[i], s[j];
    assert a in txns by { assert a in multiset(s); }
    assert b in txns by { assert b in multiset(s); }
    assert DayKey(a) <= DayKey(b);
    assert 0 <= DayNumber(b.date) - DayNumber(a.date) <= 2;
  }

  /**
   * Every id `pairTransfers` returns belongs to an outflow or to an inflow of the same amount on
   * another account, dated no earlier and at most two days later, that pair up.
   */
  lemma TransferPairIdsSound(txns: seq<Txn>, id: string)
    requires id in TransferPairIds(txns)
    ensures exists a, b :: (a in txns && b in txns && a.direction == Outflow && IsTransferPair(a, b)
      && 0 <= DayNumber(b.date) - DayNumber(a.date) <= 2 && (id == a.id || id == b.id)
      && a.id in TransferPairIds(txns) && b.id in TransferPairIds(txns))
  {
    SortByDateSorted(txns);
    SortedPairIdsSound(txns, SortByDate(txns), IsTransferPair, id);
    var a, b :| a in txns && b in txns && a.direction == Outflow && IsTransferPair(a, b)
      && 0 <= DayNumber(b.date) - DayNumber(a.date) <= 2 && (id == a.id || id == b.id)
      && a.id in TransferPairIds(txns) && b.id in TransferPairIds(txns);
  }

  /** A transfer pair: an inflow of the same amount, on another account. */
  lemma TransferPairShape(a: Txn, b: Txn)
    requires IsTransferPair(a, b)
    ensures b.direction == Inflow && a.amountCents == b.amountCents && a.account != b.account
  {
  }

  /** In a date-sorted list the scan finds a match that exists within two days. */
  lemma {:induction false} PartnerFromFinds(s: seq<Txn>, i: nat, j: nat, k: nat, pairs: PairRule)
    requires SortedBy(s, DayKey)
    requires i < j <= k < |s| && pairs(s[i], s[k]) && !BeyondTwoDays(s[i], s[k])
    ensures PartnerFrom(s, i, j, pairs).Some?
    decreases |s| - j
  {
    if j < k {
      assert DayKey(s[j]) <= DayKey(s[k]);
      if !pairs(s[i], s[j]) {
        PartnerFromFinds(s, i, j + 1, k, pairs);
      }
    }
  }

  lemma {:induction false} PairIdsUpToGrows(s: seq<Txn>, m: nat, n: nat, pairs: PairRule)
    requires m <= n <= |s|
    ensures PairIdsUpTo(s, m, pairs) <= PairIdsUpTo(s, n, pairs)
    decreases n - m
  {
    if m < n {
      PairIdsUpToGrows(s, m, n - 1, pairs);
    }
  }

  /** In a date-sorted list an outflow with a match within two days after it is paired. */
  lemma PairedWhenMatchFollows(s: seq<Txn>, i: nat, k: nat, pairs: PairRule)
    requires SortedBy(s, DayKey)
    requires i < k < |s| && s[i].direction == Outflow && pairs(s[i], s[k]) && !BeyondTwoDays(s[i], s[k])
    ensures s[i].id in PairIdsUpTo(s, |s|, pairs)
  {
    PartnerFromFinds(s, i, i + 1, k, pairs);
    assert Partner(s, i, pairs).Some?;
    assert s[i].id in PairIdsUpTo(s, i + 1, pairs);
    PairIdsUpToGrows(s, i + 1, |s|, pairs);
  }

  /** Over a date-sorted copy `s` of `txns`, an outflow with a match one or two days later is paired by the rule `pairs`. */
  lemma SortedPairIdsComplete(txns: seq<Txn>, s: seq<Txn>, pairs: PairRule, a: Txn, b: Txn)
    requires SortedBy(s, DayKey) && multiset(s) == multiset(txns)
    requires a in txns && b in txns && a.direction == Outflow && pairs(a, b)
    requires 0 < DayNumber(b.date) - DayNumber(a.date) <= 2
    ensures a.id in PairIdsUpTo(s, |s|, pairs)
  {
    assert a in multiset(s) && b in multiset(s);
    var i :| 0 <= i < |s| && s[i] == a;
    var k :| 0 <= k < |s| && s[k] == b;
    SortedByOrder(s, DayKey, i, k);
    PairedWhenMatchFollows(s, i, k, pairs);
  }

  /**
   * An outflow with a matching inflow dated one or two days later is always paired: the scan
   * cannot stop before reaching it.
   */
  lemma TransferPairIdsComplete(txns: seq<Txn>, a: Txn, b: Txn)
    requires a in txns && b in txns && a.direction == Outflow && IsTransferPair(a, b)
    requires 0 < DayNumber(b.date) - DayNumber(a.date) <= 2
    ensures a.id in TransferPairIds(txns)
  {
    SortByDateSorted(txns);
    SortedPairIdsComplete(txns, SortByDate(txns), IsTransferPair, a, b);
  }

  /** Transactions that all carry the same account never pair up. */
  lemma NoPairsOnOneAccount(txns: seq<Txn>, account: Option<string>)
    requires forall t | t in txns :: t.account == account
    ensures TransferPairIds(txns) == {}
  {
    forall id | id in TransferPairIds(txns)
      ensures false
    {
      TransferPairIdsSound(txns, id);
    }
  }

  // ---- marking ----

  /** `markTransfers`: each transaction's transfer flag set to pairing or keyword verdict. */
  function MarkTransfers(txns: seq<Txn>): (r: seq<Txn>)
    ensures |r| == |txns|
    ensures forall i :: 0 <= i < |txns| ==>
      r[i].meta.transfer == Some(txns[i].id in TransferPairIds(txns) || LooksLikeTransfer(txns[i]))
    ensures forall i :: 0 <= i < |txns| ==>
      r[i].meta.refund == txns[i].meta.refund && r[i] == txns[i].(meta := r[i].meta)
  {
    var ids := TransferPairIds(txns);
    seq(|txns|, i requires 0 <= i < |txns| =>
      txns[i].(meta := txns[i].meta.(transfer := Some(txns[i].id in ids || LooksLikeTransfer(txns[i])))))
  }

  /**
   * A transaction flagged as a transfer without a transfer keyword has a partner in the list:
   * an outflow and a same-amount inflow on another account, within two days, both flagged.
   */
  lemma MarkedTransferHasFlaggedPartner(txns: seq<Txn>, l: nat)
    requires l < |txns| && MarkTransfers(txns)[l].meta.transfer == Some(true) && !LooksLikeTransfer(txns[l])
    ensures exists ka, kb :: (0 <= ka < |txns| && 0 <= kb < |txns| && ka != kb
      && txns[ka].direction == Outflow && IsTransferPair(txns[ka], txns[kb])
      && 0 <= DayNumber(txns[kb].date) - DayNumber(txns[ka].date) <= 2
      && (txns[l].id == txns[ka].id || txns[l].id == txns[kb].id)
      && MarkTransfers(txns)[ka].meta.transfer == Some(true)
      && MarkTransfers(txns)[kb].meta.transfer == Some(true))
  {
    var id := txns[l].id;
    TransferPairIdsSound(txns, id);
    var a, b :| a in txns && b in txns && a.direction == Outflow && IsTransferPair(a, b)
      && 0 <= DayNumber(b.date) - DayNumber(a.date) <= 2 && (id == a.id || id == b.id)
      && a.id in TransferPairIds(txns) && b.id in TransferPairIds(txns);
    var ka :| 0 <= ka < |txns| && txns[ka] == a;
    var kb :| 0 <= kb < |txns| && txns[kb] == b;
    PairedIsFlagged(txns, ka);
    PairedIsFlagged(txns, kb);
    TransferPairShape(a, b);
    assert 0 <= ka < |txns| && 0 <= kb < |txns| && ka != kb
      && txns[ka].direction == Outflow && IsTransferPair(txns[ka], txns[kb])
      && 0 <= DayNumber(txns[kb].date) - DayNumber(txns[ka].date) <= 2
      && (txns[l].id == txns[ka].id || txns[l].id == txns[kb].id);
  }

  /** A transaction whose id is paired is flagged as a transfer. */
  lemma PairedIsFlagged(txns: seq<Txn>, k: nat)
    requires k < |txns| && txns[k].id in TransferPairIds(txns)
    ensures MarkTransfers(txns)[k].meta.transfer == Some(true)
  {
  }

  /** The rule `markRefunds` applies to an earlier entry `prev` for a refund `t`. */
  predicate IsRefundedExpense(t: Txn, prev: Txn) {
    prev.direction == Outflow && SimilarMerchants(Some(t.description), Some(prev.description)) >= 0.4
  }

  /** `s[k]` is at most 60 days older than `s[idx]` (the loop stops at the first older one). */
  predicate WithinSixtyDays(s: seq<Txn>, idx: nat, k: nat)
    requires idx < |s| && k < |s|
  {
    DayNumber(s[k].date) >= DayNumber(s[idx].date) - 60
  }

  /** Scanning back from `i` for an entry that `rule` accepts, until one older than 60 days. */
  function EarlierMatch(s: seq<Txn>, idx: nat, i: int, rule: PairRule): bool
    requires idx < |s| && -1 <= i < idx
    decreases i + 1
  {
    if i < 0 then false
    else if !WithinSixtyDays(s, idx, i) then false
    else if rule(s[idx], s[i]) then true
    else EarlierMatch(s, idx, i - 1, rule)
  }

  function WithRefundFlag(t: Txn): Txn {
    t.(meta := t.meta.(refund := Some(true)))
  }

  /** What `markRefunds` makes of the transaction at index `idx` of the sorted list. */
  function RefundOne(s: seq<Txn>, idx: nat, rule: PairRule): Txn
    requires idx < |s|
  {
    if s[idx].direction != Inflow || !LooksLikeRefund(s[idx]) then s[idx]
    else if EarlierMatch(s, idx, idx - 1, rule) then WithRefundFlag(s[idx])
    else s[idx]
  }

  /** The list `markRefunds` returns. */
  function RefundsMarked(txns: seq<Txn>): (r: seq<Txn>)
    ensures |r| == |txns|
  {
    var s := SortByDate(txns);
    seq(|s|, i requires 0 <= i < |s| => RefundOne(s, i, IsRefundedExpense))
  }

  /** The loops of `markRefunds` over the date-sorted list `s`, with the rule `rule`. */
  method MarkRefundsSorted(s: seq<Txn>, rule: PairRule) returns (r: seq<Txn>)
    ensures |r| == |s|
    ensures forall k :: 0 <= k < |s| ==> r[k] == RefundOne(s, k, rule)
  {
    r := [];
    var idx := 0;
    while idx < |s|
      invariant 0 <= idx <= |s| && |r| == idx
      invariant forall k :: 0 <= k < idx ==> r[k] == RefundOne(s, k, rule)
    {
      var t := s[idx];
      var out := t;
      if t.direction == Inflow && LooksLikeRefund(t) {
        var i := idx - 1;
        while i >= 0
          invariant -1 <= i < idx
          invariant out == t
          invariant EarlierMatch(s, idx, i, rule) == EarlierMatch(s, idx, idx - 1, rule)
        {
          if DayNumber(s[i].date) < DayNumber(t.date) - 60 {
            break;
          }
          if rule(t, s[i]) {
            out := WithRefundFlag(t);
            break;
          }
          i := i - 1;
        }
      }
      r := r + [out];
      idx := idx + 1;
    }
  }

  /** `markRefunds`. */
  method MarkRefunds(txns: seq<Txn>) returns (r: seq<Txn>)
    ensures r == RefundsMarked(txns)
  {
    var sorted := SortByDate(txns);
    r := MarkRefundsSorted(sorted, IsRefundedExpense);
  }

  /** An entry before `idx` in the sorted list, within 60 days, that `rule` accepts. */
  predicate HasEarlierMatch(s: seq<Txn>, idx: nat, rule: PairRule)
    requires idx < |s|
  {
    exists k :: 0 <= k < idx && WithinSixtyDays(s, idx, k) && rule(s[idx], s[k])
  }

  /** On a date-sorted list the backward scan stops early only where no match remains. */
  lemma {:induction false} EarlierMatchIff(s: seq<Txn>, idx: nat, i: int, rule: PairRule)
    requires SortedBy(s, DayKey) && idx < |s| && -1 <= i < idx
    ensures EarlierMatch(s, idx, i, rule) <==>
      exists k :: 0 <= k <= i && WithinSixtyDays(s, idx, k) && rule(s[idx], s[k])
    decreases i + 1
  {
    if i >= 0 {
      EarlierMatchIff(s, idx, i - 1, rule);
      if !WithinSixtyDays(s, idx, i) {
        forall k | 0 <= k <= i
          ensures !WithinSixtyDays(s, idx, k)
        {
          assert DayKey(s[k]) <= DayKey(s[i]);
        }
      } else if rule(s[idx], s[i]) {
        assert WithinSixtyDays(s, idx, i) && rule(s[idx], s[i]);
      }
    }
  }

  /**
   * `markRefunds` keeps the date order and changes nothing but refund flags: an inflow that
   * looks like a refund is flagged exactly when an outflow earlier in that order, at most 60
   * days older, has a description with similarity at least 0.4; no other entry changes.
   */
  lemma RefundsMarkedSpec(txns: seq<Txn>)
    ensures SortedBy(RefundsMarked(txns), DayKey)
    ensures forall i :: 0 <= i < |txns| ==>
      var s := SortByDate(txns);
      RefundsMarked(txns)[i] ==
        (if s[i].direction == Inflow && LooksLikeRefund(s[i]) && HasEarlierMatch(s, i, IsRefundedExpense)
         then WithRefundFlag(s[i]) else s[i])
  {
    var s := SortByDate(txns);
    SortByDateSorted(txns);
    var r := RefundsMarked(txns);
    forall i | 0 <= i < |txns|
      ensures r[i] == (if s[i].direction == Inflow && LooksLikeRefund(s[i]) && HasEarlierMatch(s, i, IsRefundedExpense)
                       then WithRefundFlag(s[i]) else s[i])
    {
      EarlierMatchIff(s, i, i - 1, IsRefundedExpense);
    }
    forall i, j | 0 <= i < j < |r|
      ensures DayKey(r[i]) <= DayKey(r[j])
    {
      assert DayKey(s[i]) <= DayKey(s[j]);
    }
  }

  /**
   * Entry `i` of the list `markRefunds` returns is the `i`-th transaction in date order with at
   * most its refund flag changed.
   */
  lemma RefundsMarkedEntry(txns: seq<Txn>, i: nat)
    requires i < |txns|
    ensures SortByDate(txns)[i] in txns
    ensures RefundsMarked(txns)[i] == SortByDate(txns)[i].(meta := RefundsMarked(txns)[i].meta)
    ensures RefundsMarked(txns)[i].meta.transfer == SortByDate(txns)[i].meta.transfer
  {
    var s := SortByDate(txns);
    assert s[i] in multiset(s);
  }
}
