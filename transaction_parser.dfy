/**
 * Statement import of `lib/transaction-parser.ts`: keyword categorisation, merchant clean-up,
 * a quote-aware CSV line splitter, amount parsing on a plain decimal grammar, the row rules of
 * the CSV import. The flagging passes of the same file are in `TransactionDetect`.
 */
module TransactionParser {
  import opened Wrappers
  import opened Strings
  import opened Calendar
  import opened FinanceTypes
  import Seqs

  // ---- categorisation ----

  /** The keyword table, in declaration order; the first row with a matching keyword wins. */
  const CategoryKeywords: seq<(Category, seq<string>)> := [
    (Shopping, ["TARGET", "WALMART", "AMAZON", "COSTCO", "BEST BUY", "HOLIDAY GIFT SHOP"]),
    (Dining, ["STARBUCKS", "CHIPOTLE", "MCDONALDS", "DUNKIN DONUTS", "RESTAURANT", "CAFE", "PIZZA", "BURGER"]),
    (Transportation, ["SHELL", "CHEVRON", "UBER", "LYFT", "GAS", "PARKING"]),
    (Healthcare, ["CVS", "WALGREENS", "PHARMACY", "DOCTOR", "HOSPITAL", "MEDICAL"]),
    (Subscriptions, ["SPOTIFY", "NETFLIX", "HULU", "DISNEY", "APPLE", "SUBSCRIPTION"]),
    (Fitness, ["PLANET FITNESS", "GYM", "YOGA", "PELOTON"]),
    (Housing, ["RENT", "MORTGAGE", "PROPERTY", "METRO REALTY"]),
    (Income, ["PAYROLL", "SALARY", "DEPOSIT", "ADROIT SERVICES"]),
    (Cash, ["ATM", "WITHDRAWAL", "CASH", "CHASE ATM"]),
    (Services, ["ZELLE", "VENMO", "PAYPAL", "TRANSFER"]),
    (Entertainment, ["MOVIE", "THEATER", "CONCERT", "GAME"]),
    (Groceries, ["GROCERY", "WHOLE FOODS", "TRADER JOE", "SAFEWAY"]),
    (Utilities, ["ELECTRIC", "WATER", "GAS", "INTERNET", "PHONE", "AT&T", "T-MOBILE"]),
    (Other, [])]

  /** Some keyword occurs in `text` (`keywords.some((keyword) => text.includes(keyword))`). */
  predicate MatchesSome(text: string, keywords: seq<string>) {
    exists k | k in keywords :: Contains(text, k)
  }

  /** The first row of the keyword table, from row `i` on, with a keyword occurring in `upper`. */
  function FirstMatchFrom(upper: string, i: nat): (r: nat)
    requires i <= |CategoryKeywords|
    ensures i <= r <= |CategoryKeywords|
    ensures r < |CategoryKeywords| ==> MatchesSome(upper, CategoryKeywords[r].1)
    ensures forall j :: i <= j < r ==> !MatchesSome(upper, CategoryKeywords[j].1)
    decreases |CategoryKeywords| - i
  {
    if i == |CategoryKeywords| then i
    else if MatchesSome(upper, CategoryKeywords[i].1) then i
    else FirstMatchFrom(upper, i + 1)
  }

  /** The category of a description: its first matching row, "Other" without one. */
  function Categorize(description: string): Category {
    var k := FirstMatchFrom(ToUpper(description), 0);
    if k < |CategoryKeywords| then CategoryKeywords[k].0 else Other
  }

  /** `categorizeTransaction`: the loop over the table that returns at the first match. */
  method CategorizeTransaction(description: string) returns (c: Category)
    ensures c == Categorize(description)
  {
    var upper := ToUpper(description);
    var i := 0;
    while i < |CategoryKeywords|
      invariant i <= |CategoryKeywords|
      invariant FirstMatchFrom(upper, i) == FirstMatchFrom(upper, 0)
    {
      var (category, keywords) := CategoryKeywords[i];
      if MatchesSome(upper, keywords) {
        return category;
      }
      i := i + 1;
    }
    return Other;
  }

  /**
   * The category is the one of the first row with a keyword in the upper-cased description,
   * and "Other" exactly when no row has one.
   */
  lemma CategorizeSpec(description: string)
    ensures var upper := ToUpper(description);
      var c := Categorize(description);
      && (c == Other <==> forall j :: 0 <= j < |CategoryKeywords| ==> !MatchesSome(upper, CategoryKeywords[j].1))
      && (c != Other ==>
            exists j :: 0 <= j < |CategoryKeywords| && CategoryKeywords[j].0 == c
              && MatchesSome(upper, CategoryKeywords[j].1)
              && forall i :: 0 <= i < j ==> !MatchesSome(upper, CategoryKeywords[i].1))
  {
    var upper := ToUpper(description);
    var k := FirstMatchFrom(upper, 0);
    var last := |CategoryKeywords| - 1;
    assert CategoryKeywords[last].1 == [];
    if k < |CategoryKeywords| {
      assert k != last;
      assert CategoryKeywords[k].0 != Other;
      assert CategoryKeywords[k].0 == Categorize(description);
    }
  }

  lemma UpperOfLower(s: string)
    ensures ToUpper(ToLower(s)) == ToUpper(s)
  {
    assert forall i | 0 <= i < |s| :: ToUpper(ToLower(s))[i] == ToUpper(s)[i];
  }

  /** Categorisation ignores case: lower- or upper-casing the description changes nothing. */
  lemma CategorizeIgnoresCase(description: string)
    ensures Categorize(ToLower(description)) == Categorize(description)
    ensures Categorize(ToUpper(description)) == Categorize(description)
  {
    UpperOfLower(description);
    assert ToUpper(ToUpper(description)) == ToUpper(description);
  }

  /**
   * "GAS" is a Transportation keyword listed before the Utilities row, so a description
   * mentioning it is never Utilities: only the two rows before Transportation can win.
   */
  lemma GasIsNeverUtilities(description: string)
    requires Contains(ToUpper(description), "GAS")
    ensures Categorize(description) in {Shopping, Dining, Transportation}
  {
    var upper := ToUpper(description);
    assert "GAS" in CategoryKeywords[2].1;
    assert MatchesSome(upper, CategoryKeywords[2].1);
    assert FirstMatchFrom(upper, 0) <= 2;
  }

  /** A string is never found in a shorter one. */
  lemma {:induction false} ShorterLacks(s: string, sub: string)
    requires |sub| > |s|
    ensures !Contains(s, sub)
    decreases |s|
  {
    if |s| > 0 {
      ShorterLacks(s[1..], sub);
    }
  }

  /** The description "gas" is Transportation. */
  lemma GasExample()
    ensures Categorize("gas") == Transportation
  {
    var upper := ToUpper("gas");
    assert upper == "GAS";
    forall j, k | 0 <= j < 2 && k in CategoryKeywords[j].1
      ensures !Contains(upper, k)
    {
      ShorterLacks(upper, k);
    }
    assert Contains(upper, "GAS");
    assert FirstMatchFrom(upper, 0) == 2;
  }

  // ---- merchant ----

  /** The statement prefixes the first replacement removes, in the order the pattern tries them. */
  const StatementPrefixes: seq<string> := ["DEBIT CARD PURCHASE", "CREDIT CARD", "ACH", "CHECK"]

  /** `s` begins with `p` in any case (`p` is written in capitals). */
  predicate StartsWithAnyCase(s: string, p: string) {
    |p| <= |s| && ToUpper(s[..|p|]) == p
  }

  /** `s` is a contiguous part of `t`. */
  predicate IsInfix(s: string, t: string) {
    exists i, j :: 0 <= i <= j <= |t| && s == t[i..j]
  }

  /**
   * The first replacement `^(DEBIT CARD PURCHASE|CREDIT CARD|ACH|CHECK)\s*` with the flag `i`:
   * the first alternative that starts `s` goes, with the white space after it.
   */
  function StripPrefix(s: string, prefixes: seq<string>): (r: string)
    ensures |r| <= |s| && r == s[|s| - |r|..]
  {
    if prefixes == [] then s
    else if StartsWithAnyCase(s, prefixes[0]) then TrimStart(s[|prefixes[0]|..])
    else StripPrefix(s, prefixes[1..])
  }

  /** The second replacement `\s+\d{4}$`: four final digits after white space go, with it. */
  function StripTrailingCode(s: string): (r: string)
    ensures |r| <= |s| && r == s[..|r|]
  {
    if |s| >= 5 && IsWhitespace(s[|s| - 5]) && forall i :: |s| - 4 <= i < |s| ==> IsDigit(s[i])
    then TrimEnd(s[..|s| - 4])
    else s
  }

  /** `extractMerchant`: the description without its statement prefix and trailing code, trimmed. */
  function ExtractMerchant(description: string): string {
    Trim(StripTrailingCode(StripPrefix(description, StatementPrefixes)))
  }

  /** The merchant is a part of the description, with no white space at either end. */
  lemma MerchantSpec(description: string)
    ensures IsInfix(ExtractMerchant(description), description)
    ensures Trimmed(ExtractMerchant(description))
  {
    CleanedSuffix(description, StripPrefix(description, StatementPrefixes));
  }

  /** Clean-up after the prefix: a trimmed start of a suffix is a part of the whole. */
  lemma CleanedSuffix(description: string, a: string)
    requires |a| <= |description| && a == description[|description| - |a|..]
    ensures IsInfix(Trim(StripTrailingCode(a)), description)
  {
    var b := StripTrailingCode(a);
    var c := TrimStart(b);
    NestedSlices(description, a, b, c, TrimEnd(c));
  }

  /** A prefix of a suffix of a prefix of a suffix of `d` is a part of `d`. */
  lemma NestedSlices(d: string, a: string, b: string, c: string, r: string)
    requires |a| <= |d| && a == d[|d| - |a|..]
    requires |b| <= |a| && b == a[..|b|]
    requires |c| <= |b| && c == b[|b| - |c|..]
    requires |r| <= |c| && r == c[..|r|]
    ensures IsInfix(r, d)
  {
    var i := |d| - |a|;
    SliceOfSlice(b, a, 0, |b|, d, i, |d|);
    SliceOfSlice(r, c, 0, |r|, b, |b| - |c|, |b|);
    SliceOfSlice(r, b, |b| - |c|, |b| - |c| + |r|, d, i, i + |b|);
  }

  /** A slice of a slice is a slice. */
  lemma SliceOfSlice(x: string, y: string, i: nat, j: nat, z: string, k: nat, l: nat)
    requires i <= j <= |y| && k <= l <= |z| && y == z[k..l] && x == y[i..j]
    ensures k + j <= l && x == z[k + i..k + j]
  {
    assert forall n | 0 <= n < |x| :: x[n] == z[k + i + n];
  }

  /** A description that starts with no statement prefix keeps its text through the first replacement. */
  lemma NoPrefixKept(description: string)
    requires forall p | p in StatementPrefixes :: !StartsWithAnyCase(description, p)
    ensures StripPrefix(description, StatementPrefixes) == description
  {
    forall i | 0 <= i < |StatementPrefixes|
      ensures !StartsWithAnyCase(description, StatementPrefixes[i])
    {
      assert StatementPrefixes[i] in StatementPrefixes;
    }
    NoneStripped(description, StatementPrefixes);
  }

  lemma {:induction false} NoneStripped(description: string, prefixes: seq<string>)
    requires forall i | 0 <= i < |prefixes| :: !StartsWithAnyCase(description, prefixes[i])
    ensures StripPrefix(description, prefixes) == description
    decreases |prefixes|
  {
    if prefixes != [] {
      assert !StartsWithAnyCase(description, prefixes[0]);
      NoneStripped(description, prefixes[1..]);
    }
  }

  /** A description without a statement prefix or a final code is only trimmed. */
  lemma PlainMerchant(description: string)
    requires forall p | p in StatementPrefixes :: !StartsWithAnyCase(description, p)
    requires StripTrailingCode(description) == description
    ensures ExtractMerchant(description) == Trim(description)
  {
    NoPrefixKept(description);
  }

  /** The second replacement takes " 1234" off the end of a merchant that ends in a non-blank. */
  lemma CodeDropped(m: string, code: string)
    requires m != [] && Trimmed(m)
    requires |code| == 4 && forall i :: 0 <= i < 4 ==> IsDigit(code[i])
    ensures StripTrailingCode(m + " " + code) == m
  {
    var t := m + " " + code;
    assert t[..|t| - 4] == m + " ";
    assert IsWhitespace(t[|t| - 5]);
    assert forall i :: |t| - 4 <= i < |t| ==> t[i] == code[i - |t| + 4];
    assert StripTrailingCode(t) == TrimEnd(m + " ");
    assert (m + " ")[..|m|] == m;
  }

  /** A description "merchant 1234" without a statement prefix gives the merchant. */
  lemma MerchantDropsCode(m: string, code: string)
    requires m != [] && Trimmed(m)
    requires |code| == 4 && forall i :: 0 <= i < 4 ==> IsDigit(code[i])
    requires forall p | p in StatementPrefixes :: !StartsWithAnyCase(m + " " + code, p)
    ensures ExtractMerchant(m + " " + code) == m
  {
    NoPrefixKept(m + " " + code);
    CodeDropped(m, code);
    assert TrimStart(m) == m;
    assert TrimEnd(m) == m;
  }

  // ---- one CSV line ----

  /** The state of the line scan: fields so far, the field being read, and the quote flag. */
  datatype LineScan = LineScan(fields: seq<string>, current: string, inQuotes: bool)

  /** One character of the scan: a quote flips the flag, a comma outside quotes ends a field. */
  function ScanStep(st: LineScan, c: char): LineScan {
    if c == '"' then st.(inQuotes := !st.inQuotes)
    else if c == ',' && !st.inQuotes then LineScan(st.fields + [st.current], "", st.inQuotes)
    else st.(current := st.current + [c])
  }

  /** The scan state after reading `s` from the start. */
  function Scan(s: string): LineScan
    decreases |s|
  {
    if s == [] then LineScan([], "", false) else ScanStep(Scan(s[..|s| - 1]), s[|s| - 1])
  }

  /** The fields of a line (`parseCSVLine`): the finished fields and the last one. */
  function CsvFields(line: string): (r: seq<string>)
    ensures |r| >= 1
  {
    var st := Scan(line);
    st.fields + [st.current]
  }

  /** `parseCSVLine`: the character loop with the `inQuotes` flag and the `current` buffer. */
  method ParseCsvLine(line: string) returns (result: seq<string>)
    ensures result == CsvFields(line)
  {
    result := [];
    var current := "";
    var inQuotes := false;
    for i := 0 to |line|
      invariant Scan(line[..i]) == LineScan(result, current, inQuotes)
    {
      var c := line[i];
      assert line[..i + 1][..i] == line[..i];
      if c == '"' {
        inQuotes := !inQuotes;
      } else if c == ',' && !inQuotes {
        result := result + [current];
        current := "";
      } else {
        current := current + [c];
      }
    }
    assert line[..|line|] == line;
    result := result + [current];
  }

  predicate IsQuote(c: char) {
    c == '"'
  }

  predicate NotQuote(c: char) {
    c != '"'
  }

  /** After reading `s` the scan is inside quotes: `s` has an odd number of '"'. */
  predicate InQuotes(s: string) {
    Seqs.Count(s, IsQuote) % 2 == 1
  }

  /** The number of commas of `s` outside quotes. */
  function OutsideCommas(s: string): nat
    decreases |s|
  {
    if s == [] then 0
    else
      var init := s[..|s| - 1];
      OutsideCommas(init) + (if s[|s| - 1] == ',' && !InQuotes(init) then 1 else 0)
  }

  lemma CountSnoc(s: string, c: char)
    ensures Seqs.Count(s + [c], IsQuote) == Seqs.Count(s, IsQuote) + (if c == '"' then 1 else 0)
  {
    Seqs.CountAppend(s, [c], IsQuote);
    assert [c][1..] == [];
  }

  /** The scan's flag is the parity of the quotes read. */
  lemma {:induction false} ScanParity(s: string)
    ensures Scan(s).inQuotes == InQuotes(s)
    decreases |s|
  {
    if s != [] {
      var init, c := s[..|s| - 1], s[|s| - 1];
      ScanParity(init);
      var k := Seqs.Count(init, IsQuote);
      assert Seqs.Count(s, IsQuote) == k + (if c == '"' then 1 else 0) by {
        assert init + [c] == s;
        CountSnoc(init, c);
      }
      assert Scan(s) == ScanStep(Scan(init), c);
      ParityStep(Scan(init), c, k);
    }
  }

  /** One step of the scan keeps its flag the parity of the quotes read. */
  lemma ParityStep(st: LineScan, c: char, k: nat)
    requires st.inQuotes == (k % 2 == 1)
    ensures ScanStep(st, c).inQuotes == ((k + (if c == '"' then 1 else 0)) % 2 == 1)
  {
  }

  /** The scan finishes one field per comma outside quotes. */
  lemma {:induction false} ScanFieldCount(s: string)
    ensures |Scan(s).fields| == OutsideCommas(s)
    decreases |s|
  {
    if s != [] {
      var init, c := s[..|s| - 1], s[|s| - 1];
      ScanFieldCount(init);
      ScanParity(init);
      assert Scan(s) == ScanStep(Scan(init), c);
      assert OutsideCommas(s) == OutsideCommas(init) + (if c == ',' && !InQuotes(init) then 1 else 0);
    }
  }

  /** The scan's flag is the parity of the quotes read, and it finishes one field per outside comma. */
  lemma ScanCounts(s: string)
    ensures Scan(s).inQuotes == InQuotes(s)
    ensures |Scan(s).fields| == OutsideCommas(s)
  {
    ScanParity(s);
    ScanFieldCount(s);
  }

  /** A line splits into one more field than it has commas outside quotes. */
  lemma FieldCount(line: string)
    ensures |CsvFields(line)| == OutsideCommas(line) + 1
  {
    ScanCounts(line);
  }

  /** No field holds a '"'. */
  lemma {:induction false} ScanDropsQuotes(s: string)
    ensures forall f | f in Scan(s).fields :: '"' !in f
    ensures '"' !in Scan(s).current
    decreases |s|
  {
    if s != [] {
      ScanDropsQuotes(s[..|s| - 1]);
    }
  }

  lemma JoinGrow(parts: seq<string>, x: string, y: string, sep: string)
    ensures Join(parts + [x + y], sep) == Join(parts + [x], sep) + y
  {
    if |parts| == 0 {
      assert parts + [x + y] == [x + y];
      assert parts + [x] == [x];
    } else {
      JoinAppend(parts, x + y, sep);
      JoinAppend(parts, x, sep);
    }
  }

  /** Joining the fields read so far with commas gives the text read without its quotes. */
  lemma {:induction false} ScanJoin(s: string)
    ensures Join(Scan(s).fields + [Scan(s).current], ",") == Filter(s, NotQuote)
    decreases |s|
  {
    if s != [] {
      var init, c := s[..|s| - 1], s[|s| - 1];
      ScanJoin(init);
      assert init + [c] == s;
      FilterAppend(init, [c], NotQuote);
      var st := Scan(init);
      if c == '"' {
        assert Filter([c], NotQuote) == [];
      } else if c == ',' && !st.inQuotes {
        JoinAppend(st.fields + [st.current], "", ",");
        assert Filter([c], NotQuote) == [c];
      } else {
        JoinGrow(st.fields, st.current, [c], ",");
        assert Filter([c], NotQuote) == [c];
      }
    }
  }

  /**
   * The count and content of the fields of `parseCSVLine`: one field more than there are commas
   * outside quotes, no field holding a '"', and the fields joined with "," giving the line
   * without its quotes. Where the fields split is fixed by `CsvFieldsSplit`.
   */
  lemma CsvFieldsSpec(line: string)
    ensures |CsvFields(line)| == OutsideCommas(line) + 1
    ensures forall f | f in CsvFields(line) :: '"' !in f
    ensures Join(CsvFields(line), ",") == Filter(line, NotQuote)
  {
    FieldCount(line);
    ScanDropsQuotes(line);
    ScanJoin(line);
  }

  /** The positions of the commas of `s` outside quotes, ascending: where the fields split. */
  function Separators(s: string): (r: seq<nat>)
    ensures forall k :: 0 <= k < |r| ==> r[k] < |s|
    decreases |s|
  {
    if s == [] then []
    else
      var init := s[..|s| - 1];
      Separators(init) + (if s[|s| - 1] == ',' && !InQuotes(init) then [|s| - 1] else [])
  }

  /** Where field `k` starts, for separators `seps`: at 0, or just after the `k`-th separator. */
  function FieldStart(seps: seq<nat>, k: nat): nat
    requires k <= |seps|
  {
    if k == 0 then 0 else seps[k - 1] + 1
  }

  /** Where field `k` ends, for separators `seps` in a line of length `len`: at the next separator, or at the end. */
  function FieldEnd(seps: seq<nat>, k: nat, len: nat): nat
    requires k <= |seps|
  {
    if k == |seps| then len else seps[k]
  }

  /** Each of the `fields` is the quote-free text of `s` between two consecutive separators of `seps`. */
  predicate SplitsAt(s: string, seps: seq<nat>, fields: seq<string>) {
    && |fields| == |seps|
    && forall k {:trigger fields[k]} :: 0 <= k < |seps| ==>
         && FieldStart(seps, k) <= seps[k] <= |s|
         && fields[k] == Filter(s[FieldStart(seps, k)..seps[k]], NotQuote)
  }

  /** A position is a separator exactly when it holds a comma outside quotes. */
  lemma {:induction false} SeparatorsSpec(s: string)
    ensures forall i :: 0 <= i < |s| ==> (i in Separators(s) <==> s[i] == ',' && !InQuotes(s[..i]))
    decreases |s|
  {
    if s != [] {
      var init := s[..|s| - 1];
      SeparatorsSpec(init);
      forall i | 0 <= i < |s|
        ensures i in Separators(s) <==> s[i] == ',' && !InQuotes(s[..i])
      {
        if i < |init| {
          assert s[..i] == init[..i];
          assert s[i] == init[i];
        } else {
          assert s[..i] == init;
          assert i !in Separators(init);
        }
      }
    }
  }

  /** A slice of `s` is the same slice of `s` with a character appended. */
  lemma SliceOfSnoc(s: string, c: char, a: nat, b: nat)
    requires a <= b <= |s|
    ensures (s + [c])[a..b] == s[a..b]
  {
  }

  /** Appending a separator leaves the starts of the earlier fields where they were. */
  lemma FieldStartSnoc(seps: seq<nat>, x: nat, k: nat)
    requires k <= |seps|
    ensures FieldStart(seps + [x], k) == FieldStart(seps, k)
  {
    if k > 0 {
      assert (seps + [x])[k - 1] == seps[k - 1];
    }
  }

  /** Reading one more character keeps the fields already split. */
  lemma SplitsAtExtend(s: string, c: char, seps: seq<nat>, fields: seq<string>)
    requires SplitsAt(s, seps, fields)
    ensures SplitsAt(s + [c], seps, fields)
  {
    forall k | 0 <= k < |seps|
      ensures FieldStart(seps, k) <= seps[k] <= |s + [c]|
      ensures fields[k] == Filter((s + [c])[FieldStart(seps, k)..seps[k]], NotQuote)
    {
      FieldOfSnoc(s, c, FieldStart(seps, k), seps[k], fields[k]);
    }
  }

  /** A field of `s` is the same field of `s` with a character appended. */
  lemma FieldOfSnoc(s: string, c: char, a: nat, e: nat, f: string)
    requires a <= e <= |s| && f == Filter(s[a..e], NotQuote)
    ensures e <= |s + [c]| && f == Filter((s + [c])[a..e], NotQuote)
  {
    SliceOfSnoc(s, c, a, e);
  }

  /** A separator at the end of `s` closes the field read since the last one. */
  lemma SplitsAtClose(s: string, seps: seq<nat>, fields: seq<string>, current: string)
    requires SplitsAt(s, seps, fields)
    requires FieldStart(seps, |seps|) <= |s|
    requires current == Filter(s[FieldStart(seps, |seps|)..|s|], NotQuote)
    ensures SplitsAt(s + [','], seps + [|s|], fields + [current])
  {
    var t, seps', fields' := s + [','], seps + [|s|], fields + [current];
    forall k | 0 <= k < |seps'|
      ensures FieldStart(seps', k) <= seps'[k] <= |t|
      ensures fields'[k] == Filter(t[FieldStart(seps', k)..seps'[k]], NotQuote)
    {
      FieldStartSnoc(seps, |s|, k);
      if k < |seps| {
        assert seps'[k] == seps[k] && fields'[k] == fields[k];
        FieldOfSnoc(s, ',', FieldStart(seps, k), seps[k], fields[k]);
      } else {
        assert seps'[k] == |s| && fields'[k] == current;
        FieldOfSnoc(s, ',', FieldStart(seps, k), |s|, current);
      }
    }
  }

  /** The scan's finished fields lie between the separators, and its current field runs to the end. */
  lemma {:induction false} ScanSplits(s: string)
    ensures SplitsAt(s, Separators(s), Scan(s).fields)
    ensures FieldStart(Separators(s), |Separators(s)|) <= |s|
    ensures Scan(s).current == Filter(s[FieldStart(Separators(s), |Separators(s)|)..|s|], NotQuote)
    decreases |s|
  {
    if s != [] {
      var init, c := s[..|s| - 1], s[|s| - 1];
      assert s == init + [c];
      ScanSplits(init);
      ScanParity(init);
      var st := Scan(init);
      var p := Separators(init);
      var b := FieldStart(p, |p|);
      assert Scan(s) == ScanStep(st, c);
      if c == ',' && !st.inQuotes {
        assert Separators(s) == p + [|init|];
        SplitsAtClose(init, p, st.fields, st.current);
        assert s[|s|..|s|] == [];
      } else {
        assert Separators(s) == p;
        SplitsAtExtend(init, c, p, st.fields);
        assert s[b..|s|] == init[b..|init|] + [c];
        FilterAppend(init[b..|init|], [c], NotQuote);
        assert Filter([c], NotQuote) == (if c == '"' then [] else [c]);
      }
    }
  }

  /**
   * The fields of a line are fixed by where it splits: field `k` is the text between the
   * `k`-th and the next comma outside quotes, quotes removed. A comma inside quotes is no
   * separator, so it stays inside its field.
   */
  lemma CsvFieldsSplit(line: string)
    ensures |CsvFields(line)| == |Separators(line)| + 1
    ensures forall k :: 0 <= k <= |Separators(line)| ==>
      var seps := Separators(line);
      FieldStart(seps, k) <= FieldEnd(seps, k, |line|) <= |line|
      && CsvFields(line)[k] == Filter(line[FieldStart(seps, k)..FieldEnd(seps, k, |line|)], NotQuote)
  {
    var seps, st := Separators(line), Scan(line);
    ScanSplits(line);
    forall k | 0 <= k <= |seps|
      ensures FieldStart(seps, k) <= FieldEnd(seps, k, |line|) <= |line|
      ensures CsvFields(line)[k] == Filter(line[FieldStart(seps, k)..FieldEnd(seps, k, |line|)], NotQuote)
    {
      if k < |seps| {
        assert CsvFields(line)[k] == st.fields[k];
      } else {
        assert CsvFields(line)[k] == st.current;
      }
    }
  }

  /** Example: the comma inside the quotes of `"a,b",c` stays in the first field. */
  lemma QuotedCommaExample()
    ensures CsvFields("\"a,b\",c") == ["a,b", "c"]
  {
    var line := "\"a,b\",c";
    assert line[..0] == [];
    assert Scan(line[..1]) == LineScan([], "", true) by { assert line[..1][..0] == line[..0]; }
    assert Scan(line[..2]) == LineScan([], "a", true) by { assert line[..2][..1] == line[..1]; }
    assert Scan(line[..3]) == LineScan([], "a,", true) by { assert line[..3][..2] == line[..2]; }
    assert Scan(line[..4]) == LineScan([], "a,b", true) by { assert line[..4][..3] == line[..3]; }
    assert Scan(line[..5]) == LineScan([], "a,b", false) by { assert line[..5][..4] == line[..4]; }
    assert Scan(line[..6]) == LineScan(["a,b"], "", false) by { assert line[..6][..5] == line[..5]; }
    assert Scan(line) == LineScan(["a,b"], "c", false) by { assert line[..6] == line[..|line| - 1]; }
  }

  // ---- amounts ----

  /** A character the replacement `[$,\s]` keeps. */
  predicate KeptInAmount(c: char) {
    c != '$' && c != ',' && !IsWhitespace(c)
  }

  /** The replacement `[()]` by '-' on one character. */
  function ParenToMinus(c: char): char {
    if c == '(' || c == ')' then '-' else c
  }

  function MapParens(s: string): (r: string)
    ensures |r| == |s| && forall i :: 0 <= i < |s| ==> r[i] == ParenToMinus(s[i])
  {
    seq(|s|, i requires 0 <= i < |s| => ParenToMinus(s[i]))
  }

  /** The amount text without '$', ',' and white space, each parenthesis turned into '-'. */
  function CleanAmount(s: string): string {
    MapParens(Filter(s, KeptInAmount))
  }

  /** The length of the run of digits `s` starts with. */
  function DigitRun(s: string): (n: nat)
    ensures n <= |s|
    ensures forall i :: 0 <= i < n ==> IsDigit(s[i])
    ensures n == |s| || !IsDigit(s[n])
  {
    if s != [] && IsDigit(s[0]) then 1 + DigitRun(s[1..]) else 0
  }

  predicate AllDigits(s: string) {
    forall i :: 0 <= i < |s| ==> IsDigit(s[i])
  }

  /** The value of a string of decimal digits. */
  function DigitsValue(ds: string): nat
    requires AllDigits(ds)
  {
    if ds == [] then 0 else 10 * DigitsValue(ds[..|ds| - 1]) + (ds[|ds| - 1] as int - '0' as int)
  }

  /**
   * `parseFloat` on the plain decimal grammar: digits, then optionally a point and more digits,
   * read as far as they go; `None` (NaN) when neither part has a digit.
   */
  function ParseUnsigned(s: string): Option<real> {
    var n := DigitRun(s);
    var rest := s[n..];
    var frac := if rest != [] && rest[0] == '.' then rest[1..][..DigitRun(rest[1..])] else "";
    if n == 0 && frac == [] then None else Some(Decimal(DigitsValue(s[..n]), DigitsValue(frac), |frac|))
  }

  /** The number with integer part `whole` and `places` fraction digits of value `fraction`. */
  function Decimal(whole: nat, fraction: nat, places: nat): real {
    whole as real + fraction as real / Pow10(places) as real
  }

  /** `parseFloat` with an optional sign. */
  function ParseFloat(s: string): Option<real> {
    if s != [] && s[0] == '-' then
      match ParseUnsigned(s[1..])
      case None => None
      case Some(v) => Some(-v)
    else if s != [] && s[0] == '+' then ParseUnsigned(s[1..])
    else ParseUnsigned(s)
  }

  /** `parseAmount`: the cleaned text read as a number, 0 when it is empty or not a number. */
  function ParseAmount(s: string): real {
    if s == "" then 0.0 else ParseFloat(CleanAmount(s)).GetOr(0.0)
  }

  lemma {:induction false} FilterFrom(s: string, keep: char -> bool)
    ensures forall c | c in Filter(s, keep) :: c in s
    decreases |s|
  {
    if s != [] {
      FilterFrom(s[1..], keep);
    }
  }

  /** Text without a digit reads as no number. */
  lemma NoDigitsNoNumber(t: string)
    requires forall c | c in t :: !IsDigit(c)
    ensures ParseUnsigned(t) == None
  {
    assert DigitRun(t) == 0;
    if t != [] && t[0] == '.' {
      assert t[1..] == [] || t[1..][0] in t;
    }
  }

  /** An amount without a digit is 0, as is the empty amount. */
  lemma ParseAmountWithoutDigits(s: string)
    requires forall c | c in s :: !IsDigit(c)
    ensures ParseAmount(s) == 0.0
  {
    var kept := Filter(s, KeptInAmount);
    FilterFrom(s, KeptInAmount);
    var t := CleanAmount(s);
    assert forall c | c in t :: !IsDigit(c) by {
      forall i | 0 <= i < |t|
        ensures !IsDigit(t[i])
      {
        assert kept[i] in kept;
      }
    }
    NoDigitsNoNumber(t);
    if t != [] {
      NoDigitsNoNumber(t[1..]);
    }
  }

  /** A digit string followed by a non-digit starts with a digit run of exactly its length. */
  lemma {:induction false} DigitRunOf(ds: string, x: string)
    requires AllDigits(ds)
    requires x == [] || !IsDigit(x[0])
    ensures DigitRun(ds + x) == |ds|
    decreases |ds|
  {
    if ds != [] {
      assert (ds + x)[1..] == ds[1..] + x;
      DigitRunOf(ds[1..], x);
    } else {
      assert ds + x == x;
    }
  }

  lemma AllDigitsAppend(a: string, b: string)
    requires AllDigits(a) && AllDigits(b)
    ensures AllDigits(a + b)
  {
    assert forall i | 0 <= i < |a + b| :: (a + b)[i] == if i < |a| then a[i] else b[i - |a|];
  }

  /** Digits written after others scale the value of the others by a power of ten. */
  lemma {:induction false} DigitsValueAppend(a: string, b: string)
    requires AllDigits(a) && AllDigits(b)
    ensures AllDigits(a + b)
    ensures DigitsValue(a + b) == DigitsValue(a) * Pow10(|b|) + DigitsValue(b)
    decreases |b|
  {
    AllDigitsAppend(a, b);
    if b == [] {
      assert a + b == a;
    } else {
      var b0, d := b[..|b| - 1], b[|b| - 1] as int - '0' as int;
      DigitsValueAppend(a, b0);
      var ab := a + b;
      assert ab[..|ab| - 1] == a + b0;
      assert DigitsValue(ab) == 10 * DigitsValue(a + b0) + d;
      assert DigitsValue(b) == 10 * DigitsValue(b0) + d;
      ScaleStep(DigitsValue(a), Pow10(|b0|), DigitsValue(b0), d);
    }
  }

  lemma ScaleStep(v: nat, p: nat, w: nat, d: int)
    ensures 10 * (v * p + w) + d == v * (10 * p) + (10 * w + d)
  {
  }

  /** `String(n)` reads back as `n`. */
  lemma {:induction false} DigitsOfNat(n: nat)
    ensures AllDigits(NatToString(n)) && DigitsValue(NatToString(n)) == n
  {
    if n >= 10 {
      DigitsOfNat(n / 10);
      var s := NatToString(n);
      assert s[..|s| - 1] == NatToString(n / 10);
    }
  }

  /** The leading zeros of `PadNat` add nothing to the value. */
  lemma DigitsOfPadded(n: nat, w: nat)
    ensures AllDigits(PadNat(n, w)) && DigitsValue(PadNat(n, w)) == n
  {
    DigitsOfNat(n);
    var ds := NatToString(n);
    if |ds| < w {
      var zeros := seq(w - |ds|, _ => '0');
      ZerosValue(zeros);
      DigitsValueAppend(zeros, ds);
    }
  }

  lemma {:induction false} ZerosValue(z: string)
    requires forall i :: 0 <= i < |z| ==> z[i] == '0'
    ensures AllDigits(z) && DigitsValue(z) == 0
    decreases |z|
  {
    if z != [] {
      ZerosValue(z[..|z| - 1]);
    }
  }

  /** Cleaning keeps digits, points and signs as they are. */
  lemma CleanPlain(s: string)
    requires forall c | c in s :: IsDigit(c) || c == '.' || c == '-'
    ensures Filter(s, KeptInAmount) == s && MapParens(s) == s
  {
    assert forall i | 0 <= i < |s| :: s[i] in s;
    FilterKeepsAll(s, KeptInAmount);
    assert MapParens(s) == s;
  }

  /** A string of digits reads as its value. */
  lemma ParseAmountOfDigits(ds: string)
    requires ds != [] && AllDigits(ds)
    ensures ParseAmount(ds) == DigitsValue(ds) as real
  {
    CleanPlain(ds);
    assert CleanAmount(ds) == ds;
    DigitRunOf(ds, "");
    assert ds + "" == ds;
    assert ds[..|ds|] == ds;
  }

  /** A natural number in decimal reads back as itself: the amount and its text round-trip. */
  lemma ParseAmountOfNat(n: nat)
    ensures ParseAmount(NatToString(n)) == n as real
  {
    DigitsOfNat(n);
    ParseAmountOfDigits(NatToString(n));
  }

  /** Digits, a point and digits, followed by anything but a digit, read as a decimal. */
  lemma ParseDecimal(ip: string, fp: string, x: string, s: string)
    requires ip != [] && AllDigits(ip) && AllDigits(fp)
    requires x == [] || !IsDigit(x[0])
    requires s == ip + ("." + (fp + x))
    ensures ParseUnsigned(s) == Some(Decimal(DigitsValue(ip), DigitsValue(fp), |fp|))
  {
    var tail := fp + x;
    var rest := "." + tail;
    DigitsThen(ip, rest);
    DigitsThen(fp, x);
    assert rest[1..] == tail;
    ReadDecimal(ip + rest, ip, fp);
  }

  /** Digits followed by a non-digit: the run is the digits, and the text splits there. */
  lemma DigitsThen(ds: string, rest: string)
    requires AllDigits(ds)
    requires rest == [] || !IsDigit(rest[0])
    ensures DigitRun(ds + rest) == |ds|
    ensures (ds + rest)[..|ds|] == ds && (ds + rest)[|ds|..] == rest
  {
    DigitRunOf(ds, rest);
  }

  /** The reading of `s` once its integer digits `ip` and fraction digits `fp` are known. */
  lemma ReadDecimal(s: string, ip: string, fp: string)
    requires ip != [] && DigitRun(s) == |ip| && s[..|ip|] == ip
    requires |s| > |ip| && s[|ip|] == '.'
    requires DigitRun(s[|ip| + 1..]) == |fp| && s[|ip| + 1..][..|fp|] == fp
    ensures AllDigits(ip) && AllDigits(fp)
    ensures ParseUnsigned(s) == Some(Decimal(DigitsValue(ip), DigitsValue(fp), |fp|))
  {
    var rest := s[|ip|..];
    assert rest[1..] == s[|ip| + 1..];
  }

  /** Dollar amounts with cents: "$120.00" reads as 120, and "$(41.65)" as -41.65. */
  lemma ParseDollars(d: nat, c: nat)
    requires c < 100
    ensures ParseAmount("$" + (NatToString(d) + "." + PadNat(c, 2))) == d as real + c as real / 100.0
    ensures ParseAmount("$(" + (NatToString(d) + "." + PadNat(c, 2)) + ")") == -(d as real + c as real / 100.0)
  {
    DigitsOfNat(d);
    DigitsOfPadded(c, 2);
    assert Pow10(2) == 100;
    PadNatExact(c, 2);
    DollarsOf(NatToString(d), PadNat(c, 2));
    assert Decimal(d, c, 2) == d as real + c as real / 100.0;
  }

  /** "$" before digits, a point and digits is dropped, and parentheses around them negate. */
  lemma DollarsOf(ip: string, fp: string)
    requires ip != [] && AllDigits(ip) && AllDigits(fp)
    ensures ParseAmount("$" + (ip + "." + fp)) == Decimal(DigitsValue(ip), DigitsValue(fp), |fp|)
    ensures ParseAmount("$(" + (ip + "." + fp) + ")") == -Decimal(DigitsValue(ip), DigitsValue(fp), |fp|)
  {
    var t := ip + "." + fp;
    DigitsAndPoint(ip, fp);
    assert t == ip + ("." + (fp + ""));
    assert t + "-" == ip + ("." + (fp + "-"));
    PlainDecimal(ip, fp, t);
    ParenthesisedDecimal(ip, fp, t);
  }

  lemma PlainDecimal(ip: string, fp: string, t: string)
    requires ip != [] && AllDigits(ip) && AllDigits(fp)
    requires t == ip + ("." + (fp + ""))
    requires forall ch | ch in t :: IsDigit(ch) || ch == '.'
    ensures ParseAmount("$" + t) == Decimal(DigitsValue(ip), DigitsValue(fp), |fp|)
  {
    ParseDecimal(ip, fp, "", t);
    DollarsPlain(t, Decimal(DigitsValue(ip), DigitsValue(fp), |fp|));
  }

  lemma ParenthesisedDecimal(ip: string, fp: string, t: string)
    requires ip != [] && AllDigits(ip) && AllDigits(fp)
    requires t + "-" == ip + ("." + (fp + "-"))
    requires forall ch | ch in t :: IsDigit(ch) || ch == '.'
    ensures ParseAmount("$(" + t + ")") == -Decimal(DigitsValue(ip), DigitsValue(fp), |fp|)
  {
    ParseDecimal(ip, fp, "-", t + "-");
    assert t != [] && IsDigit(t[0]) by {
      assert (t + "-")[0] == ip[0];
    }
    DollarsInParens(t, Decimal(DigitsValue(ip), DigitsValue(fp), |fp|));
  }

  /** "$" before a number is dropped. */
  lemma DollarsPlain(t: string, v: real)
    requires t != [] && IsDigit(t[0])
    requires forall ch | ch in t :: IsDigit(ch) || ch == '.'
    requires ParseUnsigned(t) == Some(v)
    ensures ParseAmount("$" + t) == v
  {
    CleanPlain(t);
    var s := "$" + t;
    assert s[1..] == t;
    assert Filter(s, KeptInAmount) == t;
  }

  /** A number in parentheses after "$" reads negated: the opening parenthesis becomes its sign. */
  lemma DollarsInParens(t: string, v: real)
    requires t != [] && IsDigit(t[0])
    requires forall ch | ch in t :: IsDigit(ch) || ch == '.'
    requires ParseUnsigned(t + "-") == Some(v)
    ensures ParseAmount("$(" + t + ")") == -v
  {
    CleanPlain(t);
    CleanInParens(t);
    NegatedAmount("$(" + t + ")", t + "-", v);
  }

  lemma CleanInParens(t: string)
    requires Filter(t, KeptInAmount) == t && MapParens(t) == t
    ensures CleanAmount("$(" + t + ")") == "-" + (t + "-")
  {
    ParensKept(t);
    ParensToMinus(t);
  }

  /** An amount that cleans to a minus sign before a number reads as that number negated. */
  lemma NegatedAmount(s: string, u: string, v: real)
    requires s != "" && CleanAmount(s) == "-" + u
    requires ParseUnsigned(u) == Some(v)
    ensures ParseAmount(s) == -v
  {
    assert ("-" + u)[1..] == u;
  }

  lemma DigitsAndPoint(ip: string, fp: string)
    requires AllDigits(ip) && AllDigits(fp)
    ensures forall ch | ch in ip + "." + fp :: IsDigit(ch) || ch == '.'
  {
    assert forall ch | ch in ip :: IsDigit(ch);
    assert forall ch | ch in fp :: IsDigit(ch);
  }

  lemma ParensKept(t: string)
    requires Filter(t, KeptInAmount) == t
    ensures Filter("$(" + t + ")", KeptInAmount) == "(" + t + ")"
  {
    FilterAppend("$(", t, KeptInAmount);
    FilterAppend("$(" + t, ")", KeptInAmount);
    assert "$("[1..] == "(";
    assert Filter("$(", KeptInAmount) == "(";
    assert Filter(")", KeptInAmount) == ")";
  }

  lemma ParensToMinus(t: string)
    requires MapParens(t) == t
    ensures MapParens("(" + t + ")") == "-" + t + "-"
  {
    var m := MapParens("(" + t + ")");
    forall i | 0 <= i < |m|
      ensures m[i] == ("-" + t + "-")[i]
    {
      if 0 < i <= |t| {
        assert ("(" + t + ")")[i] == t[i - 1] == MapParens(t)[i - 1];
      }
    }
  }

  // ---- the CSV import ----

  /** The line without a final carriage return. */
  function DropCarriageReturn(s: string): string {
    if s != [] && s[|s| - 1] == '\r' then s[..|s| - 1] else s
  }

  /** `split(/\r?\n/)`: the text cut at each line feed, with a carriage return just before it. */
  function SplitLines(text: string): (r: seq<string>)
    ensures |r| >= 1
    decreases |text|
  {
    if text == [] then [""]
    else
      var init := SplitLines(text[..|text| - 1]);
      var last := init[|init| - 1];
      if text[|text| - 1] == '\n' then init[..|init| - 1] + [DropCarriageReturn(last), ""]
      else init[..|init| - 1] + [last + [text[|text| - 1]]]
  }

  /** No line holds a line feed. */
  lemma {:induction false} LinesHaveNoFeed(text: string)
    ensures forall line | line in SplitLines(text) :: '\n' !in line
    decreases |text|
  {
    if text != [] {
      var init := SplitLines(text[..|text| - 1]);
      LinesHaveNoFeed(text[..|text| - 1]);
      assert init[|init| - 1] in init;
      assert forall line | line in init[..|init| - 1] :: line in init;
    }
  }

  /** The id of the row at index `i`, `txn-${Date.now()}-${i}`, with the clock reading `now`. */
  function RowId(now: nat, i: nat): string {
    "txn-" + NatToString(now) + "-" + NatToString(i)
  }

  /** Rows at different indices get different ids. */
  lemma RowIdInjective(now: nat, i: nat, j: nat)
    requires RowId(now, i) == RowId(now, j)
    ensures i == j
  {
    var p := "txn-" + NatToString(now) + "-";
    assert RowId(now, i)[|p|..] == NatToString(i);
    assert RowId(now, j)[|p|..] == NatToString(j);
    DigitsOfNat(i);
    DigitsOfNat(j);
  }

  /** The amount and type of a row: a withdrawal wins, a deposit otherwise, else no amount. */
  function RowAmount(withdrawal: string, deposit: string): (real, TxnKind) {
    if withdrawal != "" then (ParseAmount(withdrawal), Debit)
    else if deposit != "" then (ParseAmount(deposit), Credit)
    else (0.0, Debit)
  }

  /**
   * The transaction the fields of one data line at index `i` give, or nothing when the row is skipped;
   * `toDate` stands for the date normalisation of the calendar library.
   */
  function RowFrom(parts: seq<string>, i: nat, now: nat, toDate: string -> CivilDate): Option<Transaction> {
    if |parts| < 5 then None
    else
      var description := Trim(parts[1]);
      var (amount, kind) := RowAmount(Trim(parts[2]), Trim(parts[3]));
      if Contains(description, "BEGINNING BALANCE") || amount == 0.0 then None
      else
        Some(Transaction(RowId(now, i), toDate(Trim(parts[0])), description, ExtractMerchant(description),
          amount, kind, Categorize(description), ParseAmount(Trim(parts[4])), [], None, None))
  }

  /** The transaction one data line at index `i` gives, or nothing when the row is skipped. */
  function ParseRow(line: string, i: nat, now: nat, toDate: string -> CivilDate): Option<Transaction> {
    RowFrom(CsvFields(Trim(line)), i, now, toDate)
  }

  /**
   * The transactions of the data lines before line `n`, where `read` gives the transaction of one
   * line and its index; line 0 is the header.
   */
  function ParsedRows(lines: seq<string>, n: nat, read: (string, nat) -> Option<Transaction>): seq<Transaction>
    requires n <= |lines|
  {
    if n <= 1 then []
    else
      ParsedRows(lines, n - 1, read)
      + match read(lines[n - 1], n - 1)
        case Some(t) => [t]
        case None => []
  }

  /** The reader of one data line with the clock reading `now`. */
  function RowReader(now: nat, toDate: string -> CivilDate): (string, nat) -> Option<Transaction> {
    (line: string, j: nat) => ParseRow(line, j, now, toDate)
  }

  /** What `parseCSVTransactions` returns for a statement text. */
  function ParseCsv(csvData: string, now: nat, toDate: string -> CivilDate): seq<Transaction> {
    var lines := SplitLines(Trim(csvData));
    ParsedRows(lines, |lines|, RowReader(now, toDate))
  }

  /**
   * A row is skipped exactly when it has fewer than five fields, is an opening balance, or has no
   * nonzero amount; a row without a withdrawal and without a deposit is always skipped.
   */
  lemma RowSkipped(parts: seq<string>, i: nat, now: nat, toDate: string -> CivilDate)
    ensures RowFrom(parts, i, now, toDate) == None <==>
      (|parts| < 5 || Contains(Trim(parts[1]), "BEGINNING BALANCE")
       || (Trim(parts[2]) != "" && ParseAmount(Trim(parts[2])) == 0.0)
       || (Trim(parts[2]) == "" && Trim(parts[3]) != "" && ParseAmount(Trim(parts[3])) == 0.0)
       || (Trim(parts[2]) == "" && Trim(parts[3]) == ""))
  {
  }

  /**
   * A kept row carries a nonzero amount taken from the withdrawal (a debit) or else the deposit
   * (a credit), the trimmed description, its merchant and category, and the row's id.
   */
  lemma RowKept(parts: seq<string>, i: nat, now: nat, toDate: string -> CivilDate, t: Transaction)
    requires RowFrom(parts, i, now, toDate) == Some(t)
    ensures |parts| >= 5 && t.amount != 0.0 && t.id == RowId(now, i)
    ensures t.kind == Debit <==> Trim(parts[2]) != ""
    ensures t.amount == ParseAmount(if t.kind == Debit then Trim(parts[2]) else Trim(parts[3]))
    ensures t.description == Trim(parts[1]) && Trimmed(t.description)
    ensures !Contains(t.description, "BEGINNING BALANCE")
    ensures t.merchant == ExtractMerchant(t.description)
    ensures t.category == Categorize(t.description)
    ensures t.date == toDate(Trim(parts[0])) && t.tags == [] && t.isRecurring == None && t.isUnusual == None
  {
  }

  /**
   * The transactions read from the lines before line `n` are exactly those the data lines give:
   * each comes from one line `j` (never the header), and every line that gives one is represented.
   */
  lemma {:induction false} ParsedRowsSource(lines: seq<string>, n: nat, read: (string, nat) -> Option<Transaction>)
    requires n <= |lines|
    ensures var r := ParsedRows(lines, n, read);
      && |r| + 1 <= (if n == 0 then 1 else n)
      && (forall t | t in r :: exists j | 1 <= j < n :: read(lines[j], j) == Some(t))
      && (forall j | 1 <= j < n && read(lines[j], j).Some? :: read(lines[j], j).value in r)
  {
    if n > 1 {
      ParsedRowsSource(lines, n - 1, read);
    }
  }

  /**
   * When the reader stamps the line index into the id, no two transactions read share an id, and
   * when it keeps only nonzero amounts, so does the result.
   */
  lemma {:induction false} ParsedRowsIds(lines: seq<string>, n: nat, read: (string, nat) -> Option<Transaction>, now: nat)
    requires n <= |lines|
    requires forall line, j: nat | read(line, j).Some? ::
      read(line, j).value.id == RowId(now, j) && read(line, j).value.amount != 0.0
    ensures var r := ParsedRows(lines, n, read);
      && (forall t | t in r :: t.amount != 0.0 && exists j | 1 <= j < n :: t.id == RowId(now, j))
      && (forall a, b | 0 <= a < b < |r| :: r[a].id != r[b].id)
  {
    if n > 1 {
      var prev := ParsedRows(lines, n - 1, read);
      ParsedRowsIds(lines, n - 1, read, now);
      var row := read(lines[n - 1], n - 1);
      if row.Some? {
        var t := row.value;
        forall a | 0 <= a < |prev|
          ensures prev[a].id != t.id
        {
          assert prev[a] in prev;
          var j :| 1 <= j < n - 1 && prev[a].id == RowId(now, j);
          if prev[a].id == t.id {
            RowIdInjective(now, j, n - 1);
          }
        }
        assert ParsedRows(lines, n, read) == prev + [t];
      }
    }
  }

  /** The header line plays no part in what is read. */
  lemma {:induction false} HeaderIgnored(lines: seq<string>, other: seq<string>, n: nat,
                                         read: (string, nat) -> Option<Transaction>)
    requires |lines| == |other| && n <= |lines|
    requires forall j | 1 <= j < |lines| :: lines[j] == other[j]
    ensures ParsedRows(lines, n, read) == ParsedRows(other, n, read)
  {
    if n > 1 {
      HeaderIgnored(lines, other, n - 1, read);
    }
  }

  /** The reader of statement lines stamps the line index into the id and keeps only nonzero amounts. */
  lemma ReaderStampsIds(now: nat, toDate: string -> CivilDate)
    ensures forall line, j: nat | RowReader(now, toDate)(line, j).Some? ::
      RowReader(now, toDate)(line, j).value.id == RowId(now, j) && RowReader(now, toDate)(line, j).value.amount != 0.0
  {
    forall line, j: nat | RowReader(now, toDate)(line, j).Some?
      ensures RowReader(now, toDate)(line, j).value.id == RowId(now, j)
      ensures RowReader(now, toDate)(line, j).value.amount != 0.0
    {
      RowKept(CsvFields(Trim(line)), j, now, toDate, ParseRow(line, j, now, toDate).value);
    }
  }

  /**
   * `parseCSVTransactions` gives at most one transaction per data line, each with a nonzero amount
   * and an id of its own.
   */
  lemma ParseCsvSpec(csvData: string, now: nat, toDate: string -> CivilDate)
    ensures var r := ParseCsv(csvData, now, toDate);
      && |r| < |SplitLines(Trim(csvData))|
      && (forall t | t in r :: t.amount != 0.0)
      && (forall a, b | 0 <= a < b < |r| :: r[a].id != r[b].id)
  {
    var lines := SplitLines(Trim(csvData));
    ParsedRowsSource(lines, |lines|, RowReader(now, toDate));
    ReaderStampsIds(now, toDate);
    ParsedRowsIds(lines, |lines|, RowReader(now, toDate), now);
  }

  /** `parseCSVTransactions`: the loop over the lines after the header, skipping rows. */
  method ParseCsvTransactions(csvData: string, now: nat, toDate: string -> CivilDate)
    returns (transactions: seq<Transaction>)
    ensures transactions == ParseCsv(csvData, now, toDate)
  {
    var lines := SplitLines(Trim(csvData));
    transactions := [];
    ghost var read := RowReader(now, toDate);
    for i := 1 to |lines|
      invariant transactions == ParsedRows(lines, i, read)
    {
      var row := ParseLine(lines[i], i, now, toDate);
      assert read(lines[i], i) == row;
      ParsedRowsStep(lines, i, read);
      if row.Some? {
        transactions := transactions + [row.value];
      }
    }
  }

  /** One more data line adds its transaction, if it has one, at the end. */
  lemma ParsedRowsStep(lines: seq<string>, n: nat, read: (string, nat) -> Option<Transaction>)
    requires 1 <= n < |lines|
    ensures ParsedRows(lines, n + 1, read)
      == ParsedRows(lines, n, read) + (if read(lines[n], n).Some? then [read(lines[n], n).value] else [])
  {
  }

  /** The body of the loop of `parseCSVTransactions` for line `i`, `None` where it continues. */
  method ParseLine(rawLine: string, i: nat, now: nat, toDate: string -> CivilDate) returns (row: Option<Transaction>)
    ensures row == ParseRow(rawLine, i, now, toDate)
  {
    var parts := ParseCsvLine(Trim(rawLine));
    row := RowOfFields(parts, i, now, toDate);
  }

  /** The part of the loop body that reads the fields of line `i`. */
  method RowOfFields(parts: seq<string>, i: nat, now: nat, toDate: string -> CivilDate) returns (row: Option<Transaction>)
    ensures row == RowFrom(parts, i, now, toDate)
  {
    if |parts| < 5 {
      return None;
    }
    var dateRaw, description := Trim(parts[0]), Trim(parts[1]);
    var withdrawal, deposit, balance := Trim(parts[2]), Trim(parts[3]), Trim(parts[4]);
    if Contains(description, "BEGINNING BALANCE") {
      return None;
    }
    var amount, kind := ChooseAmount(withdrawal, deposit);
    if amount == 0.0 {
      return None;
    }
    var merchant := ExtractMerchant(description);
    var category := CategorizeTransaction(description);
    var balanceAmount := ParseAmount(balance);
    row := Some(Transaction(RowId(now, i), toDate(dateRaw), description, merchant,
      amount, kind, category, balanceAmount, [], None, None));
  }

  /** The choice of amount and type in the loop body: a withdrawal wins, a deposit otherwise. */
  method ChooseAmount(withdrawal: string, deposit: string) returns (amount: real, kind: TxnKind)
    ensures (amount, kind) == RowAmount(withdrawal, deposit)
  {
    amount, kind := 0.0, Debit;
    if withdrawal != "" {
      amount, kind := ParseAmount(withdrawal), Debit;
    } else if deposit != "" {
      amount, kind := ParseAmount(deposit), Credit;
    }
  }
}
