/** The financial reconciliation of the master business flow: decimal strings are truncated to four
    fraction digits, summed as integers and compared. */
module Reconciliation {

  import opened Common
  import opened Decimals

  // ----- The parser -----------------------------------------------------------------------------

  function WithoutCommas(s: string): string {
    Filter(c => c != ',', s)
  }

  /** The first two parts of a split at dots; a missing second part is empty. */
  function Whole(s: string): string {
    if s == "" || s[0] == '.' then "" else [s[0]] + Whole(s[1..])
  }

  function AfterDot(s: string): string {
    if s == "" then "" else if s[0] == '.' then s[1..] else AfterDot(s[1..])
  }

  /** `BigInt` of an unsigned decimal string: blank is zero, anything but digits throws. */
  function BigIntOf(s: string): Option<nat> {
    var t := Trim(s);
    if AllDigits(t) then Some(Value(t)) else None
  }

  /** A fraction padded with zeros and cut to four characters. */
  function FirstFour(fraction: string): (s: string)
    ensures |s| == 4 && (AllDigits(fraction) ==> AllDigits(s))
  {
    (fraction + "0000")[..4]
  }

  function ParseNormalized(normalized: string): Option<nat> {
    var whole := BigIntOf(Whole(normalized));
    var fraction := BigIntOf(FirstFour(Whole(AfterDot(normalized))));
    if whole.Some? && fraction.Some? then Some(whole.value * 10_000 + fraction.value) else None
  }

  /** `None` stands for the thrown error. */
  function ParseDecimal(text: string): Option<nat> {
    ParseNormalized(Trim(WithoutCommas(text)))
  }

  // ----- Decimal texts and their exact values ---------------------------------------------------

  /** An unsigned decimal numeral. */
  datatype Numeral = Numeral(whole: string, fraction: string)

  predicate WellFormed(n: Numeral) {
    AllDigits(n.whole) && AllDigits(n.fraction)
  }

  /** `text` writes the numeral, possibly with thousands separators and surrounding blanks. */
  predicate Writes(text: string, n: Numeral) {
    WellFormed(n) && Trim(WithoutCommas(text)) == Numerals(n)
  }

  function Exact(n: Numeral): real
    requires WellFormed(n)
  {
    Value(n.whole) as real + Value(n.fraction) as real / Pow10(|n.fraction|) as real
  }

  /** The numeral in units of 10^-4, cut off. */
  function Truncated(n: Numeral): nat
    requires WellFormed(n)
  {
    Value(n.whole) * 10_000 + Value(FirstFour(n.fraction))
  }

  lemma {:induction false} DigitsUntrimmed(s: string)
    requires AllDigits(s)
    ensures Trim(s) == s
  {
  }

  /** Commas may stand anywhere in a text. */
  lemma CommasAreIgnored(before: string, after: string)
    ensures ParseDecimal(before + "," + after) == ParseDecimal(before + after)
  {
    var keep := c => c != ',';
    FilterAppend(keep, before, ",");
    FilterAppend(keep, before + ",", after);
    FilterAppend(keep, before, after);
    assert ","[1..] == "" && Filter(keep, ",") == [];
    assert WithoutCommas(before + "," + after) == WithoutCommas(before + after);
  }

  lemma {:induction false} TrimmedBehind(s: string, blank: char)
    requires IsSpace(blank)
    ensures TrimStart(s + [blank]) == if TrimStart(s) == "" then "" else TrimStart(s) + [blank]
  {
    if s == "" {
      assert [blank][1..] == "";
    } else {
      assert (s + [blank])[1..] == s[1..] + [blank];
      if IsSpace(s[0]) {
        TrimmedBehind(s[1..], blank);
      }
    }
  }

  lemma BlanksTrimmed(s: string, blank: char)
    requires IsSpace(blank)
    ensures Trim([blank] + s) == Trim(s + [blank]) == Trim(s)
  {
    TrimmedBehind(s, blank);
    assert ([blank] + s)[1..] == s;
  }

  /** So may blanks in front and behind. */
  lemma BlanksAreIgnored(text: string, blank: char)
    requires IsSpace(blank)
    ensures ParseDecimal([blank] + text) == ParseDecimal(text + [blank]) == ParseDecimal(text)
  {
    var keep := c => c != ',';
    FilterAppend(keep, [blank], text);
    FilterAppend(keep, text, [blank]);
    assert [blank][1..] == "" && Filter(keep, [blank]) == [blank];
    BlanksTrimmed(WithoutCommas(text), blank);
  }

  lemma {:induction false} WholeOfPart(part: string, rest: string)
    requires '.' !in part
    ensures Whole(part) == part && AfterDot(part) == ""
    ensures Whole(part + "." + rest) == part && AfterDot(part + "." + rest) == rest
  {
    if part != "" {
      assert (part + "." + rest)[1..] == part[1..] + "." + rest;
      WholeOfPart(part[1..], rest);
    }
  }

  function Numerals(n: Numeral): string {
    if n.fraction == "" then n.whole else n.whole + "." + n.fraction
  }

  lemma SplitNumeral(n: Numeral)
    requires WellFormed(n)
    ensures Whole(Numerals(n)) == n.whole && Whole(AfterDot(Numerals(n))) == n.fraction
  {
    WholeOfPart(n.whole, n.fraction);
    WholeOfPart(n.fraction, "");
  }

  lemma BigIntOfDigits(s: string)
    requires AllDigits(s)
    ensures BigIntOf(s) == Some(Value(s))
  {
    DigitsUntrimmed(s);
  }

  /** The parser reads every written numeral, cutting it off after four fraction digits. */
  lemma ParseTruncates(text: string, n: Numeral)
    requires Writes(text, n)
    ensures ParseDecimal(text) == Some(Truncated(n))
  {
    ParseNumeral(n);
  }

  lemma ParseParts(text: string, n: Numeral)
    requires WellFormed(n) && Whole(text) == n.whole && Whole(AfterDot(text)) == n.fraction
    ensures ParseNormalized(text) == Some(Truncated(n))
  {
    BigIntOfDigits(n.whole);
    BigIntOfDigits(FirstFour(n.fraction));
  }

  lemma ParseNumeral(n: Numeral)
    requires WellFormed(n)
    ensures ParseNormalized(Numerals(n)) == Some(Truncated(n))
  {
    SplitNumeral(n);
    ParseParts(Numerals(n), n);
  }

  /** Only the first two parts count: whatever follows a second dot is dropped. */
  lemma ThirdPartIsIgnored(whole: string, fraction: string, rest: string)
    requires '.' !in whole && '.' !in fraction
    ensures ParseNormalized(whole + "." + fraction + "." + rest) == ParseNormalized(whole + "." + fraction)
  {
    WholeOfPart(whole, fraction);
    WholeOfPart(whole, fraction + "." + rest);
    WholeOfPart(fraction, rest);
    assert whole + "." + fraction + "." + rest == whole + "." + (fraction + "." + rest);
  }

  /** A whole part with anything but digits between its first and last characters is refused. */
  lemma NonDigitIsRefused(whole: string, rest: string)
    requires '.' !in whole && Trim(whole) == whole && exists i :: 0 <= i < |whole| && !('0' <= whole[i] <= '9')
    ensures ParseNormalized(whole).None? && ParseNormalized(whole + "." + rest).None?
  {
    WholeOfPart(whole, rest);
  }

  /** What cutting off drops, in units of 10^-4: the digits from the fifth fraction digit on. */
  function Dropped(n: Numeral): real
    requires WellFormed(n)
  {
    if |n.fraction| <= 4 then 0.0 else Value(n.fraction[4..]) as real / Pow10(|n.fraction| - 4) as real
  }

  /** A numeral is what the parser reads and what it drops. */
  lemma ExactSplits(n: Numeral)
    requires WellFormed(n)
    ensures 10_000.0 * Exact(n) == Truncated(n) as real + Dropped(n)
  {
    var s := n.fraction;
    if |s| <= 4 {
      ShortFraction(s);
      ShortQuotient(Value(s), Pow10(|s|), Value(FirstFour(s)));
    } else {
      LongFraction(s);
      LongQuotient(Value(s[..4]), Value(s[4..]), Pow10(|s| - 4), Pow10(|s|), Value(s));
    }
  }

  /** Less than one unit is dropped, at most 0.99 units of six digits, and nothing of four. */
  lemma DroppedBound(n: Numeral)
    requires WellFormed(n)
    ensures 0.0 <= Dropped(n) < 1.0
    ensures |n.fraction| <= 4 ==> Dropped(n) == 0.0
    ensures |n.fraction| <= 6 ==> Dropped(n) <= 0.99
  {
    if |n.fraction| > 4 {
      var tail := n.fraction[4..];
      ValueBound(tail);
      assert |tail| == 1 ==> Pow10(|tail|) == 10;
      assert |tail| == 2 ==> Pow10(|tail|) == 100;
      ProperQuotient(Value(tail), Pow10(|tail|));
    }
  }

  lemma ProperQuotient(t: nat, q: nat)
    requires t < q
    ensures 0.0 <= t as real / q as real < 1.0 && (q <= 100 ==> t as real / q as real <= 0.99)
  {
    var x := t as real / q as real;
    assert x * q as real == t as real;
    QuotientBelowOne(x, q as real, t as real);
    if q <= 100 {
      assert (100 * t) as real <= (99 * q) as real;
      QuotientAtMost(x, q as real, t as real);
    }
  }

  lemma QuotientBelowOne(x: real, q: real, t: real)
    requires q > 0.0 && x * q == t && 0.0 <= t < q
    ensures 0.0 <= x < 1.0
  {
    RealProductLess(x, 0.0, q);
    RealProductLess(x, 1.0, q);
  }

  lemma QuotientAtMost(x: real, q: real, t: real)
    requires q > 0.0 && x * q == t && 100.0 * t <= 99.0 * q
    ensures x <= 0.99
  {
    assert (100.0 * x) * q == 100.0 * (x * q);
    NoLarger(100.0 * x, 99.0, q, 100.0 * t, 99.0 * q);
  }

  lemma NoLarger(a: real, b: real, q: real, aq: real, bq: real)
    requires q > 0.0 && a * q == aq && b * q == bq && aq <= bq
    ensures a <= b
  {
    RealProductLess(b, a, q);
  }

  lemma RealProductLess(a: real, b: real, q: real)
    requires q > 0.0
    ensures a < b <==> a * q < b * q
  {
  }

  lemma SameProduct(a: real, b: real, q: real)
    requires q > 0.0 && a * q == b * q
    ensures a == b
  {
  }

  lemma ShortQuotient(v: nat, p: nat, cut: nat)
    requires p >= 1 && cut * p == v * 10_000
    ensures 10_000.0 * (v as real / p as real) == cut as real
  {
    var x := v as real / p as real;
    assert x * p as real == v as real;
    assert (10_000.0 * x) * p as real == 10_000.0 * (x * p as real) == (v * 10_000) as real;
    assert cut as real * p as real == (cut * p) as real;
    SameProduct(10_000.0 * x, cut as real, p as real);
  }

  lemma LongQuotient(head: nat, tail: nat, q: nat, p: nat, v: nat)
    requires q >= 1 && p == q * 10_000 && v == head * q + tail
    ensures 10_000.0 * (v as real / p as real) == head as real + tail as real / q as real
  {
    var x, y := v as real / p as real, tail as real / q as real;
    assert x * p as real == v as real && y * q as real == tail as real;
    assert p as real == 10_000.0 * q as real;
    assert (10_000.0 * x) * q as real == x * (10_000.0 * q as real);
    assert (head as real + y) * q as real == head as real * q as real + y * q as real;
    assert head as real * q as real == (head * q) as real;
    SameProduct(10_000.0 * x, head as real + y, q as real);
  }

  /** Cutting off loses less than one unit of 10^-4, at most 0.99 units on six digits, and nothing at
      all on four digits or fewer. */
  lemma TruncationBound(n: Numeral)
    requires WellFormed(n)
    ensures Truncated(n) as real <= 10_000.0 * Exact(n) < Truncated(n) as real + 1.0
    ensures |n.fraction| <= 4 ==> Truncated(n) as real == 10_000.0 * Exact(n)
    ensures |n.fraction| <= 6 ==> 10_000.0 * Exact(n) <= Truncated(n) as real + 0.99
  {
    ExactSplits(n);
    DroppedBound(n);
  }

  lemma {:induction false} ShortFraction(s: string)
    requires AllDigits(s) && |s| <= 4
    ensures Value(FirstFour(s)) * Pow10(|s|) == Value(s) * 10_000
    decreases 4 - |s|
  {
    if |s| == 4 {
      assert FirstFour(s) == s && Pow10(4) == 10_000;
    } else {
      var s' := s + "0";
      assert s'[..|s|] == s && FirstFour(s') == FirstFour(s);
      ShortFraction(s');
      TenTimes(Value(FirstFour(s)), Pow10(|s|));
    }
  }

  lemma LongFraction(s: string)
    requires AllDigits(s) && |s| > 4
    ensures FirstFour(s) == s[..4] && Pow10(|s|) == Pow10(|s| - 4) * 10_000
    ensures Value(s) == Value(s[..4]) * Pow10(|s| - 4) + Value(s[4..])
  {
    assert s == s[..4] + s[4..];
    ValueAppend(s[..4], s[4..]);
    assert Pow10(4) == 10_000;
    Pow10Add(|s| - 4, 4);
  }

  // ----- Sums of lines --------------------------------------------------------------------------

  ghost predicate AllWellFormed(ns: seq<Numeral>) {
    forall i :: 0 <= i < |ns| ==> WellFormed(ns[i])
  }

  ghost predicate FourDigitsAtMost(ns: seq<Numeral>) {
    forall i :: 0 <= i < |ns| ==> |ns[i].fraction| <= 4
  }

  /** The scale of the stored quantities. */
  ghost predicate SixDigitsAtMost(ns: seq<Numeral>) {
    forall i :: 0 <= i < |ns| ==> |ns[i].fraction| <= 6
  }

  function TruncatedSum(ns: seq<Numeral>): nat
    requires AllWellFormed(ns)
  {
    if ns == [] then 0 else TruncatedSum(ns[..|ns| - 1]) + Truncated(ns[|ns| - 1])
  }

  function ExactSum(ns: seq<Numeral>): real
    requires AllWellFormed(ns)
  {
    if ns == [] then 0.0 else ExactSum(ns[..|ns| - 1]) + Exact(ns[|ns| - 1])
  }

  function DroppedSum(ns: seq<Numeral>): real
    requires AllWellFormed(ns)
  {
    if ns == [] then 0.0 else DroppedSum(ns[..|ns| - 1]) + Dropped(ns[|ns| - 1])
  }

  lemma {:induction false} SumSplits(ns: seq<Numeral>)
    requires AllWellFormed(ns)
    ensures 10_000.0 * ExactSum(ns) == TruncatedSum(ns) as real + DroppedSum(ns)
  {
    if ns != [] {
      SumSplits(ns[..|ns| - 1]);
      ExactSplits(ns[|ns| - 1]);
    }
  }

  lemma {:induction false} DroppedSumBound(ns: seq<Numeral>)
    requires AllWellFormed(ns)
    ensures 0.0 <= DroppedSum(ns) && (ns != [] ==> DroppedSum(ns) < |ns| as real)
    ensures FourDigitsAtMost(ns) ==> DroppedSum(ns) == 0.0
    ensures SixDigitsAtMost(ns) ==> DroppedSum(ns) <= 0.99 * |ns| as real
  {
    if ns != [] {
      DroppedSumBound(ns[..|ns| - 1]);
      DroppedBound(ns[|ns| - 1]);
    }
  }

  /** A sum of truncated lines undershoots the exact sum by less than one unit a line, by at most 0.99
      units a line on six digits. */
  lemma SumUndershoots(ns: seq<Numeral>)
    requires AllWellFormed(ns)
    ensures TruncatedSum(ns) as real <= 10_000.0 * ExactSum(ns)
    ensures ns != [] ==> 10_000.0 * ExactSum(ns) < TruncatedSum(ns) as real + |ns| as real
    ensures ns == [] ==> ExactSum(ns) == 0.0
    ensures FourDigitsAtMost(ns) ==>
      TruncatedSum(ns) as real == 10_000.0 * ExactSum(ns)
    ensures SixDigitsAtMost(ns) ==>
      10_000.0 * ExactSum(ns) <= TruncatedSum(ns) as real + 0.99 * |ns| as real
  {
    SumSplits(ns);
    DroppedSumBound(ns);
  }

  function Max(a: nat, b: nat): nat {
    if a < b then b else a
  }

  /** When the comparison of truncated sums tells the truth: equal truncated sums mean equal exact sums,
      and equal exact sums compare equal, exactly when the dropped digits of both lists add up to the
      same. */
  lemma ComparisonIsTruthfulIff(a: seq<Numeral>, b: seq<Numeral>)
    requires AllWellFormed(a) && AllWellFormed(b)
    ensures TruncatedSum(a) == TruncatedSum(b) ==>
      (ExactSum(a) == ExactSum(b) <==> DroppedSum(a) == DroppedSum(b))
    ensures ExactSum(a) == ExactSum(b) ==>
      (TruncatedSum(a) == TruncatedSum(b) <==> DroppedSum(a) == DroppedSum(b))
  {
    SumSplits(a);
    SumSplits(b);
  }

  /** Lists of lines whose truncated sums agree have exact sums closer than the longer list's
      length in units of 10^-4, by 0.99 units a line at most for quantities of six fraction digits;
      with four fraction digits the comparison is exact. */
  lemma EqualSumsAreClose(a: seq<Numeral>, b: seq<Numeral>)
    requires AllWellFormed(a) && AllWellFormed(b) && a != [] && b != []
    ensures TruncatedSum(a) == TruncatedSum(b) ==>
      -(Max(|a|, |b|) as real) < 10_000.0 * (ExactSum(a) - ExactSum(b)) < Max(|a|, |b|) as real
    ensures FourDigitsAtMost(a) && FourDigitsAtMost(b) ==>
      (TruncatedSum(a) == TruncatedSum(b) <==> ExactSum(a) == ExactSum(b))
    ensures TruncatedSum(a) == TruncatedSum(b) && SixDigitsAtMost(a) && SixDigitsAtMost(b) ==>
      -0.99 * Max(|a|, |b|) as real <= 10_000.0 * (ExactSum(a) - ExactSum(b)) <= 0.99 * Max(|a|, |b|) as real
    ensures TruncatedSum(a) == TruncatedSum(b) ==>
      (ExactSum(a) == ExactSum(b) <==> DroppedSum(a) == DroppedSum(b))
  {
    SumUndershoots(a);
    SumUndershoots(b);
    ComparisonIsTruthfulIff(a, b);
  }

  function Repeat(n: Numeral, times: nat): (ns: seq<Numeral>)
    requires WellFormed(n)
    ensures |ns| == times && AllWellFormed(ns) && forall i :: 0 <= i < times ==> ns[i] == n
  {
    if times == 0 then [] else Repeat(n, times - 1) + [n]
  }

  const MORE := Numeral("1", "000099")
  const LESS := Numeral("1", "000000")

  lemma OneDigit(c: char)
    requires IsDigit(c)
    ensures AllDigits([c]) && Value([c]) == DigitOf(c)
  {
    assert [c][..0] == "";
  }

  lemma FourZeros()
    ensures AllDigits("0000") && Value("0000") == 0
  {
    assert "0000"[..3] == "000" && "000"[..2] == "00" && "00"[..1] == "0";
    OneDigit('0');
  }

  lemma SampleTails()
    ensures AllDigits("99") && Value("99") == 99 && AllDigits("00") && Value("00") == 0
  {
    assert "99"[..1] == "9" && "00"[..1] == "0";
    OneDigit('9');
    OneDigit('0');
  }

  lemma SampleShapes()
    ensures AllDigits("000099") && FirstFour("000099") == "0000" && "000099"[4..] == "99"
    ensures AllDigits("000000") && FirstFour("000000") == "0000" && "000000"[4..] == "00"
  {
  }

  lemma SampleNumerals()
    ensures WellFormed(MORE) && WellFormed(LESS) && Truncated(MORE) == Truncated(LESS) == 10_000
    ensures Dropped(MORE) == 0.99 && Dropped(LESS) == 0.0
    ensures 10_000.0 * (Exact(MORE) - Exact(LESS)) == 0.99
  {
    OneDigit('1');
    FourZeros();
    SampleTails();
    SampleShapes();
    assert Pow10(2) == 100;
    ExactSplits(MORE);
    ExactSplits(LESS);
  }

  lemma {:induction false} SamplesDrift(times: nat)
    ensures WellFormed(MORE) && WellFormed(LESS)
    ensures TruncatedSum(Repeat(MORE, times)) == TruncatedSum(Repeat(LESS, times))
    ensures 10_000.0 * (ExactSum(Repeat(MORE, times)) - ExactSum(Repeat(LESS, times))) == times as real * 0.99
  {
    SampleNumerals();
    if times > 0 {
      SamplesDrift(times - 1);
      RepeatOnce(MORE, times);
      RepeatOnce(LESS, times);
    }
  }

  /** The bound is attained: with six fraction digits, lists of any length can differ by 99 hundredths
      of a unit a line and still compare equal. */
  lemma TruncationHidesDifferences(times: nat)
    ensures WellFormed(MORE) && SixDigitsAtMost(Repeat(MORE, times))
    ensures WellFormed(LESS) && SixDigitsAtMost(Repeat(LESS, times))
    ensures TruncatedSum(Repeat(MORE, times)) == TruncatedSum(Repeat(LESS, times))
    ensures 10_000.0 * (ExactSum(Repeat(MORE, times)) - ExactSum(Repeat(LESS, times))) == times as real * 0.99
  {
    SamplesDrift(times);
  }

  lemma RepeatOnce(n: Numeral, times: nat)
    requires WellFormed(n) && times > 0
    ensures TruncatedSum(Repeat(n, times)) == TruncatedSum(Repeat(n, times - 1)) + Truncated(n)
    ensures ExactSum(Repeat(n, times)) == ExactSum(Repeat(n, times - 1)) + Exact(n)
  {
    assert Repeat(n, times)[..times - 1] == Repeat(n, times - 1);
  }

  // ----- Four-digit formatting ------------------------------------------------------------------

  function FourDigits(n: nat): (s: string)
    requires n < 10_000
    ensures |s| == 4 && AllDigits(s)
  {
    [CharOf(n / 1000), CharOf(n / 100 % 10), CharOf(n / 10 % 10), CharOf(n % 10)]
  }

  function Format4(units: nat): string {
    Render(units / 10_000) + "." + FourDigits(units % 10_000)
  }

  lemma FourDigitsValue(n: nat)
    requires n < 10_000
    ensures Value(FourDigits(n)) == n
  {
    var s := FourDigits(n);
    assert s[..3][..2] == s[..2] && s[..3][2] == s[2] && s[..2][..1] == s[..1] && s[..2][1] == s[1];
    assert s[..1][..0] == "" && s[..1][0] == s[0];
    assert Value(s[..1]) == n / 1000;
    Tens(n, 100);
    Tens(n, 10);
    assert Value(s[..2]) == n / 100 && Value(s[..3]) == n / 10;
  }

  lemma Tens(n: nat, unit: nat)
    requires unit in {10, 100}
    ensures 10 * (n / (10 * unit)) + n / unit % 10 == n / unit
  {
  }

  lemma {:induction false} NoCommasToDrop(s: string)
    requires ',' !in s
    ensures WithoutCommas(s) == s
  {
    if s != "" {
      NoCommasToDrop(s[1..]);
      assert s == [s[0]] + s[1..];
    }
  }

  lemma FormatWrites(units: nat)
    ensures Writes(Format4(units), Numeral(Render(units / 10_000), FourDigits(units % 10_000)))
  {
    var text := Format4(units);
    NoCommasToDrop(text);
    assert Trim(text) == text;
  }

  lemma NothingCutOff(n: Numeral)
    requires WellFormed(n) && |n.fraction| == 4
    ensures Truncated(n) == Value(n.whole) * 10_000 + Value(n.fraction)
  {
    assert FirstFour(n.fraction) == n.fraction;
  }

  /** Parsing undoes four-digit formatting. */
  lemma ParseUndoesFormat(units: nat)
    ensures ParseDecimal(Format4(units)) == Some(units)
  {
    var n := Numeral(Render(units / 10_000), FourDigits(units % 10_000));
    FormatWrites(units);
    ParseTruncates(Format4(units), n);
    ValueOfRender(units / 10_000);
    FourDigitsValue(units % 10_000);
    NothingCutOff(n);
    Recomposed(units);
  }

  lemma Recomposed(units: nat)
    ensures units / 10_000 * 10_000 + units % 10_000 == units
  {
  }

  // ----- The reconciliation ---------------------------------------------------------------------

  datatype ExecutionEntry = ExecutionEntry(isQuantity: bool, quantityValue: Option<string>)

  datatype MeasurementItem = MeasurementItem(measuredQuantity: string, lineAmount: Option<string>)

  datatype Books = Books(
    entries: seq<ExecutionEntry>, measurement: seq<MeasurementItem>, billing: seq<string>,
    billingTotal: string, documentTotal: string, orderCompleted: bool)

  function QuantityTexts(entries: seq<ExecutionEntry>): seq<string> {
    if entries == [] then []
    else
      var last := entries[|entries| - 1];
      QuantityTexts(entries[..|entries| - 1])
      + (if last.isQuantity then [if last.quantityValue.Some? then last.quantityValue.value else "0"] else [])
  }

  function MeasuredTexts(items: seq<MeasurementItem>): seq<string> {
    if items == [] then [] else MeasuredTexts(items[..|items| - 1]) + [items[|items| - 1].measuredQuantity]
  }

  /** Lines without an amount, or with an empty one, are skipped. */
  function AmountTexts(items: seq<MeasurementItem>): seq<string> {
    if items == [] then []
    else
      var last := items[|items| - 1].lineAmount;
      AmountTexts(items[..|items| - 1]) + (if last.Some? && last.value != "" then [last.value] else [])
  }

  /** A running sum and one more number; `None` once a text did not parse. */
  function AddOne(sum: Option<nat>, parsed: Option<nat>): Option<nat> {
    if sum.Some? && parsed.Some? then Some(sum.value + parsed.value) else None
  }

  function SumParsed(parsed: seq<Option<nat>>): Option<nat> {
    if parsed == [] then Some(0) else AddOne(SumParsed(parsed[..|parsed| - 1]), parsed[|parsed| - 1])
  }

  function ParseAll(texts: seq<string>): (parsed: seq<Option<nat>>)
    ensures |parsed| == |texts|
  {
    seq(|texts|, i requires 0 <= i < |texts| => ParseDecimal(texts[i]))
  }

  function SumOf(texts: seq<string>): Option<nat> {
    SumParsed(ParseAll(texts))
  }

  lemma SumOfSnoc(texts: seq<string>, more: string)
    ensures SumOf(texts + [more]) == AddOne(SumOf(texts), ParseDecimal(more))
  {
    assert ParseAll(texts + [more])[..|texts|] == ParseAll(texts);
  }

  predicate Positive(sum: Option<nat>) {
    sum.Some? && sum.value > 0
  }

  /** The one expectation that compares the exact quantities. */
  predicate QuantitiesMatch(b: Books) {
    SumOf(MeasuredTexts(b.measurement)) == SumOf(QuantityTexts(b.entries))
  }

  /** All the other expectations. */
  predicate OtherwiseReconciles(b: Books) {
    var amount, billed := SumOf(AmountTexts(b.measurement)), SumOf(b.billing);
    && QuantityTexts(b.entries) != []
    && Positive(SumOf(QuantityTexts(b.entries)))
    && Positive(amount) && billed == amount
    && ParseDecimal(b.billingTotal) == billed && ParseDecimal(b.documentTotal) == billed
    && b.orderCompleted
  }

  /** The conditions under which no expectation of the reconciliation fails. */
  predicate Reconciles(b: Books) {
    OtherwiseReconciles(b) && QuantitiesMatch(b)
  }

  /** One of the loops that add up parsed texts; once a text has thrown, no later one matters. */
  method AddAll(texts: seq<string>) returns (sum: Option<nat>)
    ensures sum == SumOf(texts)
  {
    sum := Some(0);
    var i := 0;
    while i < |texts|
      invariant i <= |texts| && sum == SumOf(texts[..i])
    {
      assert texts[..i + 1] == texts[..i] + [texts[i]];
      SumOfSnoc(texts[..i], texts[i]);
      sum := AddOne(sum, ParseDecimal(texts[i]));
      i := i + 1;
    }
    assert texts[..i] == texts;
  }

  /** The filter for quantity entries, with the value each one parses. */
  method QuantityEntries(entries: seq<ExecutionEntry>) returns (texts: seq<string>)
    ensures texts == QuantityTexts(entries)
  {
    texts := [];
    var i := 0;
    while i < |entries|
      invariant i <= |entries| && texts == QuantityTexts(entries[..i])
    {
      assert entries[..i + 1][..i] == entries[..i];
      if entries[i].isQuantity {
        var value := entries[i].quantityValue;
        texts := texts + [if value.Some? then value.value else "0"];
      }
      i := i + 1;
    }
    assert entries[..i] == entries;
  }

  method AssertFinancialReconciliation(b: Books) returns (passed: bool)
    ensures passed <==> Reconciles(b)
  {
    var quantityEntries := QuantityEntries(b.entries);
    if quantityEntries == [] {
      return false;
    }
    var executed := AddAll(quantityEntries);
    var measured, amount := AddMeasurement(b.measurement);
    var billed := AddAll(b.billing);
    if executed.None? || measured.None? || billed.None? || executed.value == 0 || measured != executed {
      return false;
    }
    if amount.None? || amount.value == 0 || amount != billed {
      return false;
    }
    if ParseDecimal(b.billingTotal) != billed || ParseDecimal(b.documentTotal) != billed {
      return false;
    }
    return b.orderCompleted;
  }

  lemma MeasurementStep(items: seq<MeasurementItem>, i: nat)
    requires i < |items|
    ensures SumOf(MeasuredTexts(items[..i + 1]))
         == AddOne(SumOf(MeasuredTexts(items[..i])), ParseDecimal(items[i].measuredQuantity))
    ensures var line := items[i].lineAmount;
      SumOf(AmountTexts(items[..i + 1])) ==
        if line.Some? && line.value != "" then AddOne(SumOf(AmountTexts(items[..i])), ParseDecimal(line.value))
        else SumOf(AmountTexts(items[..i]))
  {
    assert items[..i + 1][..i] == items[..i];
    SumOfSnoc(MeasuredTexts(items[..i]), items[i].measuredQuantity);
    var line := items[i].lineAmount;
    if line.Some? && line.value != "" {
      SumOfSnoc(AmountTexts(items[..i]), line.value);
    } else {
      assert AmountTexts(items[..i]) + [] == AmountTexts(items[..i]);
    }
  }

  /** The loop over the measurement items, which adds quantities and amounts side by side. */
  method AddMeasurement(items: seq<MeasurementItem>) returns (quantity: Option<nat>, amount: Option<nat>)
    ensures quantity == SumOf(MeasuredTexts(items)) && amount == SumOf(AmountTexts(items))
  {
    quantity, amount := Some(0), Some(0);
    var i := 0;
    while i < |items|
      invariant i <= |items|
      invariant quantity == SumOf(MeasuredTexts(items[..i])) && amount == SumOf(AmountTexts(items[..i]))
    {
      MeasurementStep(items, i);
      quantity := AddOne(quantity, ParseDecimal(items[i].measuredQuantity));
      var line := items[i].lineAmount;
      if line.Some? && line.value != "" {
        amount := AddOne(amount, ParseDecimal(line.value));
      }
      i := i + 1;
    }
    assert items[..i] == items;
  }

  /** The texts write the numerals, one by one. */
  ghost predicate WriteAll(texts: seq<string>, ns: seq<Numeral>) {
    |texts| == |ns| && forall i :: 0 <= i < |texts| ==> Writes(texts[i], ns[i])
  }

  lemma WrittenParse(texts: seq<string>, ns: seq<Numeral>)
    requires WriteAll(texts, ns)
    ensures AllWellFormed(ns) && Parses(ParseAll(texts), ns)
  {
    forall i | 0 <= i < |ns|
      ensures WellFormed(ns[i]) && ParseAll(texts)[i] == Some(Truncated(ns[i]))
    {
      ParseTruncates(texts[i], ns[i]);
    }
  }

  ghost predicate Parses(parsed: seq<Option<nat>>, ns: seq<Numeral>)
    requires AllWellFormed(ns)
  {
    |parsed| == |ns| && forall i :: 0 <= i < |ns| ==> parsed[i] == Some(Truncated(ns[i]))
  }

  lemma {:induction false} SumOfParsed(parsed: seq<Option<nat>>, ns: seq<Numeral>)
    requires AllWellFormed(ns) && Parses(parsed, ns)
    ensures SumParsed(parsed) == Some(TruncatedSum(ns))
  {
    if parsed != [] {
      SumOfParsed(parsed[..|parsed| - 1], ns[..|ns| - 1]);
    }
  }

  lemma SumOfWritten(texts: seq<string>, ns: seq<Numeral>)
    requires WriteAll(texts, ns)
    ensures AllWellFormed(ns) && SumOf(texts) == Some(TruncatedSum(ns))
  {
    WrittenParse(texts, ns);
    SumOfParsed(ParseAll(texts), ns);
  }

  /** What a passed reconciliation says about the exact quantities: they agree up to less than one
      unit of 10^-4 a line of the longer list, up to 0.99 units at the stored scale, and exactly when
      the dropped digits add up to the same. */
  lemma ReconciledQuantities(b: Books, executed: seq<Numeral>, measured: seq<Numeral>)
    requires WriteAll(QuantityTexts(b.entries), executed) && WriteAll(MeasuredTexts(b.measurement), measured)
    requires Reconciles(b)
    ensures AllWellFormed(executed) && AllWellFormed(measured)
    ensures var gap := 10_000.0 * (ExactSum(executed) - ExactSum(measured));
      && -(Max(|executed|, |measured|) as real) < gap < Max(|executed|, |measured|) as real
      && (SixDigitsAtMost(executed) && SixDigitsAtMost(measured) ==>
            -0.99 * Max(|executed|, |measured|) as real <= gap <= 0.99 * Max(|executed|, |measured|) as real)
      && (gap == 0.0 <==> DroppedSum(executed) == DroppedSum(measured))
  {
    SumOfWritten(QuantityTexts(b.entries), executed);
    SumOfWritten(MeasuredTexts(b.measurement), measured);
    EqualSumsAreClose(executed, measured);
  }

  /** The reconciliation is right about the quantities exactly when the dropped digits of both sides add
      up to the same: then a pass means equal quantities, and equal quantities do not fail it. */
  lemma QuantitiesJudgedIff(b: Books, executed: seq<Numeral>, measured: seq<Numeral>)
    requires WriteAll(QuantityTexts(b.entries), executed) && WriteAll(MeasuredTexts(b.measurement), measured)
    ensures AllWellFormed(executed) && AllWellFormed(measured)
    ensures Reconciles(b) ==>
      (ExactSum(executed) == ExactSum(measured) <==> DroppedSum(executed) == DroppedSum(measured))
    ensures ExactSum(executed) == ExactSum(measured) && OtherwiseReconciles(b) ==>
      (Reconciles(b) <==> DroppedSum(executed) == DroppedSum(measured))
  {
    SumOfWritten(QuantityTexts(b.entries), executed);
    SumOfWritten(MeasuredTexts(b.measurement), measured);
    ComparisonIsTruthfulIff(executed, measured);
  }

  /** Money amounts have four fraction digits; a passed reconciliation makes them agree exactly:
      both line sums, the record's total and the document's total. */
  lemma ReconciledMoney(b: Books, amounts: seq<Numeral>, billed: seq<Numeral>, total: Numeral, documentTotal: Numeral)
    requires WriteAll(AmountTexts(b.measurement), amounts) && WriteAll(b.billing, billed)
    requires Writes(b.billingTotal, total) && Writes(b.documentTotal, documentTotal)
    requires FourDigitsAtMost(amounts) && FourDigitsAtMost(billed) && FourDigitsAtMost([total, documentTotal])
    requires Reconciles(b)
    ensures AllWellFormed(amounts) && AllWellFormed(billed)
    ensures ExactSum(amounts) == ExactSum(billed) == Exact(total) == Exact(documentTotal)
  {
    SumOfWritten(AmountTexts(b.measurement), amounts);
    SumOfWritten(b.billing, billed);
    ParseTruncates(b.billingTotal, total);
    ParseTruncates(b.documentTotal, documentTotal);
    SumUndershoots(amounts);
    SumUndershoots(billed);
    assert [total, documentTotal][0] == total && [total, documentTotal][1] == documentTotal;
    TruncationBound(total);
    TruncationBound(documentTotal);
  }

  // ----- Which books pass -----------------------------------------------------------------------

  /** The texts added up as executed quantities: those of the quantity entries, "0" where one has none. */
  lemma {:induction false} QuantityTextsAreFiltered(entries: seq<ExecutionEntry>)
    ensures var q := Filter((e: ExecutionEntry) => e.isQuantity, entries);
      && |QuantityTexts(entries)| == |q|
      && forall i :: 0 <= i < |q| ==>
           QuantityTexts(entries)[i] == (match q[i].quantityValue case Some(text) => text case None => "0")
  {
    if entries != [] {
      var n := |entries| - 1;
      QuantityTextsAreFiltered(entries[..n]);
      assert entries == entries[..n] + [entries[n]] && [entries[n]][1..] == [];
      FilterAppend((e: ExecutionEntry) => e.isQuantity, entries[..n], [entries[n]]);
    }
  }

  /** The amounts added up: those of the items that have one that is not empty. */
  lemma {:induction false} AmountTextsAreFiltered(items: seq<MeasurementItem>)
    ensures var q := Filter((i: MeasurementItem) => i.lineAmount.Some? && i.lineAmount.value != "", items);
      |AmountTexts(items)| == |q| && forall i :: 0 <= i < |q| ==> Some(AmountTexts(items)[i]) == q[i].lineAmount
  {
    if items != [] {
      var n := |items| - 1;
      AmountTextsAreFiltered(items[..n]);
      assert items == items[..n] + [items[n]] && [items[n]][1..] == [];
      FilterAppend((i: MeasurementItem) => i.lineAmount.Some? && i.lineAmount.value != "", items[..n], [items[n]]);
    }
  }

  lemma {:induction false} MeasuredTextsOfItems(items: seq<MeasurementItem>)
    ensures |MeasuredTexts(items)| == |items|
    ensures forall i :: 0 <= i < |items| ==> MeasuredTexts(items)[i] == items[i].measuredQuantity
  {
    if items != [] {
      MeasuredTextsOfItems(items[..|items| - 1]);
    }
  }

  lemma QuantitiesPass(b: Books, executed: seq<Numeral>, measured: seq<Numeral>)
    requires WriteAll(QuantityTexts(b.entries), executed) && WriteAll(MeasuredTexts(b.measurement), measured)
    ensures AllWellFormed(executed) && AllWellFormed(measured)
    ensures QuantityTexts(b.entries) != [] && Positive(SumOf(QuantityTexts(b.entries))) && QuantitiesMatch(b) <==>
      TruncatedSum(executed) == TruncatedSum(measured) > 0
  {
    SumOfWritten(QuantityTexts(b.entries), executed);
    SumOfWritten(MeasuredTexts(b.measurement), measured);
  }

  lemma MoneyPasses(b: Books, amounts: seq<Numeral>, billed: seq<Numeral>, total: Numeral, documentTotal: Numeral)
    requires WriteAll(AmountTexts(b.measurement), amounts) && WriteAll(b.billing, billed)
    requires Writes(b.billingTotal, total) && Writes(b.documentTotal, documentTotal)
    ensures AllWellFormed(amounts) && AllWellFormed(billed)
    ensures var amount, sum := SumOf(AmountTexts(b.measurement)), SumOf(b.billing);
      (Positive(amount) && sum == amount && ParseDecimal(b.billingTotal) == sum && ParseDecimal(b.documentTotal) == sum)
      <==> TruncatedSum(amounts) == TruncatedSum(billed) == Truncated(total) == Truncated(documentTotal) > 0
  {
    SumOfWritten(AmountTexts(b.measurement), amounts);
    SumOfWritten(b.billing, billed);
    ParseTruncates(b.billingTotal, total);
    ParseTruncates(b.documentTotal, documentTotal);
  }

  /** Books whose texts are numerals pass exactly when something was executed, as much was measured, the
      amounts are positive and equal on all four sides, and the order is completed. */
  lemma PassesIff(b: Books, executed: seq<Numeral>, measured: seq<Numeral>, amounts: seq<Numeral>,
                  billed: seq<Numeral>, total: Numeral, documentTotal: Numeral)
    requires WriteAll(QuantityTexts(b.entries), executed) && WriteAll(MeasuredTexts(b.measurement), measured)
    requires WriteAll(AmountTexts(b.measurement), amounts) && WriteAll(b.billing, billed)
    requires Writes(b.billingTotal, total) && Writes(b.documentTotal, documentTotal)
    ensures AllWellFormed(executed) && AllWellFormed(measured) && AllWellFormed(amounts) && AllWellFormed(billed)
    ensures Reconciles(b) <==>
      && TruncatedSum(executed) == TruncatedSum(measured) > 0
      && TruncatedSum(amounts) == TruncatedSum(billed) == Truncated(total) == Truncated(documentTotal) > 0
      && b.orderCompleted
  {
    QuantitiesPass(b, executed, measured);
    MoneyPasses(b, amounts, billed, total, documentTotal);
  }

  lemma {:induction false} OneUnreadable(parsed: seq<Option<nat>>, i: nat)
    requires i < |parsed| && parsed[i].None?
    ensures SumParsed(parsed).None?
  {
    if i < |parsed| - 1 {
      OneUnreadable(parsed[..|parsed| - 1], i);
    }
  }

  predicate Unreadable(texts: seq<string>) {
    exists i :: 0 <= i < |texts| && ParseDecimal(texts[i]).None?
  }

  lemma UnreadableSum(texts: seq<string>)
    requires Unreadable(texts)
    ensures SumOf(texts).None?
  {
    var i :| 0 <= i < |texts| && ParseDecimal(texts[i]).None?;
    OneUnreadable(ParseAll(texts), i);
  }

  /** Books with a text that the parser refuses never pass. */
  lemma UnreadableBooksFail(b: Books)
    requires Unreadable(QuantityTexts(b.entries) + MeasuredTexts(b.measurement) + AmountTexts(b.measurement)
                        + b.billing + [b.billingTotal, b.documentTotal])
    ensures !Reconciles(b)
  {
    var (q, m, a) := (QuantityTexts(b.entries), MeasuredTexts(b.measurement), AmountTexts(b.measurement));
    UnreadableInOne(q + m + a + b.billing, [b.billingTotal, b.documentTotal]);
    if Unreadable(q + m + a + b.billing) {
      UnreadableInOne(q + m + a, b.billing);
      if Unreadable(b.billing) {
        UnreadableSum(b.billing);
      } else {
        UnreadableInOne(q + m, a);
        if Unreadable(a) {
          UnreadableSum(a);
        } else {
          UnreadableInOne(q, m);
          UnreadableSum(if Unreadable(q) then q else m);
        }
      }
    }
  }

  lemma UnreadableInOne(a: seq<string>, b: seq<string>)
    requires Unreadable(a + b)
    ensures Unreadable(a) || Unreadable(b)
  {
    var i :| 0 <= i < |a + b| && ParseDecimal((a + b)[i]).None?;
    if i < |a| {
      assert a[i] == (a + b)[i];
    } else {
      assert b[i - |a|] == (a + b)[i];
    }
  }

  // ----- Books that are misjudged ---------------------------------------------------------------

  lemma PlainWrites(n: Numeral)
    requires WellFormed(n) && n.whole != ""
    ensures Writes(Numerals(n), n)
  {
    var text := Numerals(n);
    NoCommasToDrop(text);
    assert Trim(text) == text;
  }

  const FEE := Numeral("1", "0000")
  const HALF := Numeral("1", "00005")
  const TWO := Numeral("2", "0001")

  function QuantityEntry(n: Numeral): ExecutionEntry {
    ExecutionEntry(true, Some(Numerals(n)))
  }

  /** A completed order with the given quantities; one fee is measured, billed and documented. */
  function BooksOf(entries: seq<ExecutionEntry>, measured: Numeral): Books {
    Books(entries, [MeasurementItem(Numerals(measured), Some(Numerals(FEE)))], [Numerals(FEE)], Numerals(FEE),
          Numerals(FEE), true)
  }

  lemma FeeIsFine()
    ensures WellFormed(FEE) && Writes(Numerals(FEE), FEE) && Truncated(FEE) == 10_000
  {
    OneDigit('1');
    FourZeros();
    NothingCutOff(FEE);
    PlainWrites(FEE);
  }

  lemma OneText(text: string, n: Numeral)
    requires Writes(text, n)
    ensures SumOf([text]) == Some(Truncated(n))
  {
    ParseTruncates(text, n);
    assert ParseAll([]) == [] && [] + [text] == [text];
    SumOfSnoc([], text);
  }

  /** Books with positive quantities have all the other expectations met. */
  lemma OnlyQuantitiesMatter(entries: seq<ExecutionEntry>, measured: Numeral)
    requires QuantityTexts(entries) != [] && Positive(SumOf(QuantityTexts(entries)))
    ensures OtherwiseReconciles(BooksOf(entries, measured))
    ensures MeasuredTexts(BooksOf(entries, measured).measurement) == [Numerals(measured)]
  {
    var b := BooksOf(entries, measured);
    FeeIsFine();
    OneText(Numerals(FEE), FEE);
    ParseTruncates(Numerals(FEE), FEE);
    assert b.measurement[..0] == [];
    assert AmountTexts(b.measurement) == [] + [Numerals(FEE)] == b.billing;
    assert MeasuredTexts(b.measurement) == [] + [Numerals(measured)] == [Numerals(measured)];
  }

  lemma OneEntry(n: Numeral)
    ensures QuantityTexts([QuantityEntry(n)]) == [Numerals(n)]
  {
    var entries := [QuantityEntry(n)];
    assert entries[..0] == [] && QuantityTexts(entries) == [] + [Numerals(n)];
  }

  lemma OneLine(n: Numeral)
    requires WellFormed(n)
    ensures AllWellFormed([n]) && ExactSum([n]) == Exact(n)
    ensures TruncatedSum([n]) == Truncated(n) && DroppedSum([n]) == Dropped(n)
  {
    assert [n][..0] == [];
  }

  lemma TwoLines(n: Numeral)
    requires WellFormed(n)
    ensures AllWellFormed([n, n])
    ensures TruncatedSum([n, n]) == 2 * Truncated(n) && DroppedSum([n, n]) == 2.0 * Dropped(n)
  {
    OneLine(n);
    assert [n, n][..1] == [n];
  }

  lemma OneAgainstOne(executed: Numeral, measured: Numeral)
    requires Writes(Numerals(executed), executed) && Writes(Numerals(measured), measured)
    requires Truncated(executed) == Truncated(measured) > 0
    ensures var b := BooksOf([QuantityEntry(executed)], measured);
      && WriteAll(QuantityTexts(b.entries), [executed]) && WriteAll(MeasuredTexts(b.measurement), [measured])
      && Reconciles(b)
  {
    OneText(Numerals(executed), executed);
    OneText(Numerals(measured), measured);
    OneEntry(executed);
    OnlyQuantitiesMatter([QuantityEntry(executed)], measured);
  }

  /** Unequal quantities that pass: 1.000099 executed against 1.000000 measured. */
  lemma UnequalQuantitiesPass()
    ensures var b := BooksOf([QuantityEntry(MORE)], LESS);
      && WriteAll(QuantityTexts(b.entries), [MORE]) && WriteAll(MeasuredTexts(b.measurement), [LESS])
      && Reconciles(b) && AllWellFormed([MORE]) && AllWellFormed([LESS]) && ExactSum([MORE]) != ExactSum([LESS])
  {
    SampleNumerals();
    PlainWrites(MORE);
    PlainWrites(LESS);
    OneAgainstOne(MORE, LESS);
    OneLine(MORE);
    OneLine(LESS);
  }

  lemma HalfAndTwo()
    ensures WellFormed(HALF) && Truncated(HALF) == 10_000 && Dropped(HALF) == 0.5
    ensures WellFormed(TWO) && Truncated(TWO) == 20_001 && Dropped(TWO) == 0.0
  {
    OneDigit('1');
    OneDigit('2');
    OneDigit('5');
    FourZeros();
    assert FirstFour("00005") == "0000" && "00005"[4..] == "5";
    assert Pow10(1) == 10;
    assert "0001"[..3] == "000" == "0000"[..3] && FirstFour("0001") == "0001";
  }

  lemma TwoAgainstOne(executed: Numeral, measured: Numeral)
    requires Writes(Numerals(executed), executed) && Writes(Numerals(measured), measured)
    requires TruncatedSum([executed, executed]) > 0
    ensures var b := BooksOf([QuantityEntry(executed), QuantityEntry(executed)], measured);
      && WriteAll(QuantityTexts(b.entries), [executed, executed]) && WriteAll(MeasuredTexts(b.measurement), [measured])
      && OtherwiseReconciles(b)
  {
    var entries := [QuantityEntry(executed), QuantityEntry(executed)];
    TwoEntries(executed);
    SumOfWritten(QuantityTexts(entries), [executed, executed]);
    OnlyQuantitiesMatter(entries, measured);
  }

  /** Equal quantities that are refused: 1.00005 and 1.00005 executed against 2.0001 measured. */
  lemma EqualQuantitiesRefused()
    ensures var b := BooksOf([QuantityEntry(HALF), QuantityEntry(HALF)], TWO);
      && WriteAll(QuantityTexts(b.entries), [HALF, HALF]) && WriteAll(MeasuredTexts(b.measurement), [TWO])
      && OtherwiseReconciles(b) && !Reconciles(b)
      && AllWellFormed([HALF, HALF]) && AllWellFormed([TWO]) && ExactSum([HALF, HALF]) == ExactSum([TWO])
  {
    HalfAndTwo();
    PlainWrites(HALF);
    PlainWrites(TWO);
    HalvesAddUp();
    TwoAgainstOne(HALF, TWO);
    QuantitiesJudgedIff(BooksOf([QuantityEntry(HALF), QuantityEntry(HALF)], TWO), [HALF, HALF], [TWO]);
  }

  lemma TwoEntries(n: Numeral)
    ensures QuantityTexts([QuantityEntry(n), QuantityEntry(n)]) == [Numerals(n), Numerals(n)]
  {
    var entries := [QuantityEntry(n), QuantityEntry(n)];
    assert entries[..1] == [QuantityEntry(n)] && entries[..1][..0] == [];
    assert QuantityTexts(entries[..1]) == [] + [Numerals(n)];
  }

  lemma HalvesAddUp()
    ensures AllWellFormed([HALF, HALF]) && AllWellFormed([TWO])
    ensures TruncatedSum([HALF, HALF]) == 20_000 && DroppedSum([HALF, HALF]) == 1.0
    ensures DroppedSum([TWO]) == 0.0 && ExactSum([HALF, HALF]) == ExactSum([TWO])
  {
    HalfAndTwo();
    OneLine(TWO);
    TwoLines(HALF);
    SumSplits([HALF, HALF]);
    SumSplits([TWO]);
  }
}
