/** Conversion of the application's transactions into the analytics view. */
module Normalize {
  import opened Wrappers
  import opened Strings
  import opened JsNumbers
  import opened Calendar
  import opened FinanceTypes
  import opened AnalyticsTypes

  /** The `'YYYY-MM-DD'` text of a date. */
  function DateText(d: CivilDate): string {
    (if d.year >= 0 then PadNat(d.year, 4) else "-" + PadNat(-d.year, 4))
    + "-" + PadNat(d.month, 2) + "-" + PadNat(d.day, 2)
  }

  /** How JavaScript prints `c / 100` for a natural number of cents `c`: no trailing zeros. */
  function CentsText(c: nat): string {
    var whole := c / 100;
    var frac := c % 100;
    NatToString(whole)
    + (if frac == 0 then ""
       else if frac % 10 == 0 then "." + [DigitChar(frac / 10)]
       else "." + [DigitChar(frac / 10), DigitChar(frac % 10)])
  }

  /** How JavaScript prints a dollar amount, exact for whole cents. */
  function AmountText(x: real): string {
    var cents := Round(Abs(x) * 100.0);
    (if x < 0.0 && cents > 0 then "-" else "") + CentsText(cents)
  }

  function KindText(k: TxnKind): string {
    match k
    case Debit => "debit"
    case Credit => "credit"
  }

  /** The text the stable id is derived from: date, description, amount and type joined by `-`. */
  function HashInput(t: Transaction): string {
    DateText(t.date) + "-" + t.description + "-" + AmountText(t.amount) + "-" + KindText(t.kind)
  }

  /** `txn-` followed by the first 16 letters and digits of `HashInput(t)`. */
  function StableId(t: Transaction): (id: string)
    ensures 4 <= |id| <= 20 && id[..4] == "txn-"
    ensures forall i :: 4 <= i < |id| ==> IsAlnum(id[i])
  {
    "txn-" + Take(Filter(HashInput(t), IsAlnum), 16)
  }

  /** The digits of a four-digit year, month and day, in that order. */
  function DateDigits(d: CivilDate): string
    requires 0 <= d.year
  {
    PadNat(d.year, 4) + PadNat(d.month, 2) + PadNat(d.day, 2)
  }

  /** Dropping the separators from the text of a date leaves its digits. */
  lemma DateTextDigits(d: CivilDate)
    requires 0 <= d.year
    ensures Filter(DateText(d), IsAlnum) == DateDigits(d)
  {
    var y, m, dd := PadNat(d.year, 4), PadNat(d.month, 2), PadNat(d.day, 2);
    var a1 := y + "-";
    var a2 := a1 + m;
    var a3 := a2 + "-";
    assert DateText(d) == a3 + dd;
    FilterKeepsAll(y, IsAlnum);
    FilterKeepsAll(m, IsAlnum);
    FilterKeepsAll(dd, IsAlnum);
    FilterDropsAll("-", IsAlnum);
    FilterAppend(y, "-", IsAlnum);
    assert Filter(a1, IsAlnum) == y;
    FilterAppend(a1, m, IsAlnum);
    assert Filter(a2, IsAlnum) == y + m;
    FilterAppend(a2, "-", IsAlnum);
    assert Filter(a3, IsAlnum) == y + m;
    FilterAppend(a3, dd, IsAlnum);
  }

  /**
   * For a year of four digits the stable id begins with the eight digits of the date, so two
   * generated ids agree on their first twelve characters only if the dates are the same day.
   */
  lemma StableIdStartsWithDate(t: Transaction)
    requires 1000 <= t.date.year <= 9999
    ensures |StableId(t)| >= 12 && StableId(t)[4..12] == DateDigits(t.date)
  {
    var alnum := Filter(HashInput(t), IsAlnum);
    AlnumStartsWithDate(t);
    DateDigitsLength(t.date);
    assert Take(alnum, 16)[..8] == DateDigits(t.date);
  }

  /** The letters and digits of the hash input begin with those of the date. */
  lemma AlnumStartsWithDate(t: Transaction)
    requires 0 <= t.date.year
    ensures |Filter(HashInput(t), IsAlnum)| >= |DateDigits(t.date)|
    ensures Filter(HashInput(t), IsAlnum)[..|DateDigits(t.date)|] == DateDigits(t.date)
  {
    var d := t.date;
    var rest := "-" + t.description + "-" + AmountText(t.amount) + "-" + KindText(t.kind);
    DashJoin(DateText(d), t.description, AmountText(t.amount), KindText(t.kind));
    FilterAppend(DateText(d), rest, IsAlnum);
    DateTextDigits(d);
  }

  /** The four parts of the hash input joined by dashes: the first part, then the rest. */
  lemma DashJoin(a: string, b: string, c: string, e: string)
    ensures a + "-" + b + "-" + c + "-" + e == a + ("-" + b + "-" + c + "-" + e)
  {
  }

  /** A date of a four-digit year has eight digits. */
  lemma DateDigitsLength(d: CivilDate)
    requires 1000 <= d.year <= 9999
    ensures |DateDigits(d)| == 8
  {
    assert Pow10(4) == 10000 && Pow10(2) == 100;
    PadNatExact(d.year, 4);
    PadNatExact(d.month, 2);
    PadNatExact(d.day, 2);
  }

  /** `normalizeTransaction`. */
  function NormalizeTransaction(t: Transaction): (r: Txn)
    ensures r.direction == Inflow <==> t.kind == Credit
    ensures r.amountCents >= 0
    ensures r.amountCents as real - 0.5 <= Abs(t.amount) * 100.0 < r.amountCents as real + 0.5
    ensures r.description == Trim(t.description) && r.merchant == Some(Trim(t.merchant))
    ensures r.id != []
    ensures t.id != [] ==> r.id == t.id
    ensures t.id == [] ==> |r.id| >= 4 && r.id[..4] == "txn-"
    ensures r.date == t.date && r.category == Some(CategoryName(t.category))
    ensures r.account == Some("Checking") && !r.isPending && r.meta == NoFlags
  {
    Txn(
      if t.id != [] then t.id else StableId(t),
      t.date,
      Trim(t.description),
      Some(Trim(t.merchant)),
      Round(Abs(t.amount) * 100.0),
      if t.kind == Credit then Inflow else Outflow,
      Some(CategoryName(t.category)),
      Some("Checking"),
      false,
      NoFlags)
  }

  /** `normalizeTransactions`: every transaction normalized, in order. */
  function NormalizeTransactions(ts: seq<Transaction>): (r: seq<Txn>)
    ensures |r| == |ts|
    ensures forall i :: 0 <= i < |ts| ==> r[i] == NormalizeTransaction(ts[i])
  {
    seq(|ts|, i requires 0 <= i < |ts| => NormalizeTransaction(ts[i]))
  }

  /** Every normalized transaction is on the default account, pending-free and unflagged. */
  lemma NormalizedShareOneAccount(ts: seq<Transaction>)
    ensures forall t | t in NormalizeTransactions(ts) ::
      t.account == Some("Checking") && !t.isPending && t.meta == NoFlags
  {
  }
}
