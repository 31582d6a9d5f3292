/** Synthetic CNPJ numbers: modulo-11 check digits and the stateful generator. */
module Cnpj {

  import opened Common
  import opened Decimals

  const FIRST_WEIGHTS: seq<nat> := [5, 4, 3, 2, 9, 8, 7, 6, 5, 4, 3, 2]
  const SECOND_WEIGHTS: seq<nat> := [6, 5, 4, 3, 2, 9, 8, 7, 6, 5, 4, 3, 2]

  predicate Digits(ds: seq<nat>) {
    forall i :: 0 <= i < |ds| ==> ds[i] < 10
  }

  function WeightedSum(ds: seq<nat>, weights: seq<nat>): nat
    requires |ds| <= |weights|
  {
    if ds == [] then 0
    else
      var last := |ds| - 1;
      WeightedSum(ds[..last], weights) + ds[last] * weights[last]
  }

  function FromRemainder(r: nat): nat
    requires r < 11
  {
    if r < 2 then 0 else 11 - r
  }

  function CheckDigit(ds: seq<nat>, weights: seq<nat>): (d: nat)
    requires |ds| <= |weights|
    ensures d < 10
  {
    FromRemainder(WeightedSum(ds, weights) % 11)
  }

  function FirstDigit(twelve: seq<nat>): nat
    requires |twelve| == 12
  {
    CheckDigit(twelve, FIRST_WEIGHTS)
  }

  function SecondDigit(thirteen: seq<nat>): nat
    requires |thirteen| == 13
  {
    CheckDigit(thirteen, SECOND_WEIGHTS)
  }

  function WithCheckDigits(twelve: seq<nat>): (ds: seq<nat>)
    requires |twelve| == 12
    ensures |ds| == 14
  {
    var first := FirstDigit(twelve);
    twelve + [first, SecondDigit(twelve + [first])]
  }

  /** What a reader of a CNPJ checks. */
  predicate Valid(ds: seq<nat>) {
    |ds| == 14 && Digits(ds) && ds[12] == FirstDigit(ds[..12]) && ds[13] == SecondDigit(ds[..13])
  }

  // ----- The law of the check digits ------------------------------------------------------------

  /** A digit completes a weighted sum to a multiple of eleven, or is zero where only ten would. */
  predicate Completes(sum: nat, d: nat) {
    (sum + d) % 11 == 0 || (sum % 11 == 1 && d == 0)
  }

  lemma RemainderLaw(sum: nat, d: nat)
    requires d < 10
    ensures d == FromRemainder(sum % 11) <==> Completes(sum, d)
  {
  }

  lemma CheckDigitLaw(ds: seq<nat>, weights: seq<nat>, d: nat)
    requires |ds| <= |weights| && d < 10
    ensures d == CheckDigit(ds, weights) <==> Completes(WeightedSum(ds, weights), d)
  {
    RemainderLaw(WeightedSum(ds, weights), d);
  }

  lemma NextTerm(ds: seq<nat>, weights: seq<nat>, k: nat)
    requires k < |ds| <= |weights|
    ensures WeightedSum(ds[..k + 1], weights) == WeightedSum(ds[..k], weights) + ds[k] * weights[k]
  {
    assert ds[..k + 1][..k] == ds[..k];
  }

  /** Four terms of a sum. */
  function Four(ds: seq<nat>, k: nat, a: nat, b: nat, c: nat, d: nat): nat
    requires k + 4 <= |ds|
  {
    a * ds[k] + b * ds[k + 1] + c * ds[k + 2] + d * ds[k + 3]
  }

  lemma Terms(ds: seq<nat>, weights: seq<nat>, k: nat, a: nat, b: nat, c: nat, d: nat)
    requires k + 4 <= |ds| <= |weights|
    requires a == weights[k] && b == weights[k + 1] && c == weights[k + 2] && d == weights[k + 3]
    ensures WeightedSum(ds[..k + 4], weights) == WeightedSum(ds[..k], weights) + Four(ds, k, a, b, c, d)
  {
    NextTerm(ds, weights, k);
    NextTerm(ds, weights, k + 1);
    NextTerm(ds, weights, k + 2);
    NextTerm(ds, weights, k + 3);
  }

  /** The sums of the two check digits, written out. */
  function FirstTotal(ds: seq<nat>): nat
    requires |ds| >= 12
  {
    Four(ds, 0, 5, 4, 3, 2) + Four(ds, 4, 9, 8, 7, 6) + Four(ds, 8, 5, 4, 3, 2)
  }

  function SecondTotal(ds: seq<nat>): nat
    requires |ds| >= 13
  {
    Four(ds, 0, 6, 5, 4, 3) + Four(ds, 4, 2, 9, 8, 7) + Four(ds, 8, 6, 5, 4, 3) + 2 * ds[12]
  }

  lemma FirstSum(ds: seq<nat>)
    requires |ds| >= 12
    ensures WeightedSum(ds[..12], FIRST_WEIGHTS) == FirstTotal(ds)
  {
    var twelve := ds[..12];
    Terms(twelve, FIRST_WEIGHTS, 0, 5, 4, 3, 2);
    Terms(twelve, FIRST_WEIGHTS, 4, 9, 8, 7, 6);
    Terms(twelve, FIRST_WEIGHTS, 8, 5, 4, 3, 2);
    assert twelve[..0] == [] && twelve[..12] == twelve;
  }

  lemma SecondSum(ds: seq<nat>)
    requires |ds| >= 13
    ensures WeightedSum(ds[..13], SECOND_WEIGHTS) == SecondTotal(ds)
  {
    var thirteen := ds[..13];
    Terms(thirteen, SECOND_WEIGHTS, 0, 6, 5, 4, 3);
    Terms(thirteen, SECOND_WEIGHTS, 4, 2, 9, 8, 7);
    Terms(thirteen, SECOND_WEIGHTS, 8, 6, 5, 4, 3);
    NextTerm(thirteen, SECOND_WEIGHTS, 12);
    assert thirteen[..0] == [] && thirteen[..13] == thirteen;
  }

  /** A number is valid exactly when each check digit completes its sum. */
  lemma ValidIff(ds: seq<nat>)
    ensures Valid(ds) <==>
      |ds| == 14 && Digits(ds) && Completes(FirstTotal(ds), ds[12]) && Completes(SecondTotal(ds), ds[13])
  {
    if |ds| == 14 && Digits(ds) {
      FirstSum(ds);
      SecondSum(ds);
      CheckDigitLaw(ds[..12], FIRST_WEIGHTS, ds[12]);
      CheckDigitLaw(ds[..13], SECOND_WEIGHTS, ds[13]);
    }
  }

  // ----- Error detection ------------------------------------------------------------------------

  /** Changing one digit changes the weighted sum by its weight times the change. */
  lemma {:induction false} SumAfterChange(ds: seq<nat>, weights: seq<nat>, i: nat, x: nat)
    requires |ds| <= |weights| && i < |ds|
    ensures WeightedSum(ds[i := x], weights) == WeightedSum(ds, weights) + (x - ds[i]) * weights[i]
    decreases |ds|
  {
    var last := |ds| - 1;
    if i == last {
      assert ds[i := x][..last] == ds[..last];
      assert x * weights[i] == ds[i] * weights[i] + (x - ds[i]) * weights[i];
    } else {
      assert ds[i := x][..last] == ds[..last][i := x];
      SumAfterChange(ds[..last], weights, i, x);
    }
  }

  lemma NoMultiple(change: int, weight: nat)
    requires change != 0 && -10 < change < 10 && 2 <= weight <= 9
    ensures (change * weight) % 11 != 0
    decreases weight
  {
    match weight
    case 2 => assert (change * 2) % 11 != 0;
    case 3 => assert (change * 3) % 11 != 0;
    case 4 => assert (change * 4) % 11 != 0;
    case 5 => assert (change * 5) % 11 != 0;
    case _ => Complement(change, weight); NoMultiple(change, 11 - weight);
  }

  lemma Complement(change: int, weight: int)
    ensures (change * weight) % 11 == 0 <==> (change * (11 - weight)) % 11 == 0
  {
    var m := change * weight;
    assert change * (11 - weight) == 11 * change - m;
    assert (11 * change - m) % 11 == 0 <==> m % 11 == 0;
  }

  /** Adding keeps the remainder exactly when a multiple of 11 is added. */
  lemma RemainderKept(sum: nat, move: int)
    ensures (sum + move) % 11 == sum % 11 <==> move % 11 == 0
  {
  }

  /** A nonzero change of one digit never keeps the remainder, for weights 2 to 9. */
  lemma RemainderMoves(sum: nat, change: int, weight: nat)
    requires change != 0 && -10 < change < 10 && 2 <= weight <= 9
    ensures (sum + change * weight) % 11 != sum % 11
  {
    NoMultiple(change, weight);
    RemainderKept(sum, change * weight);
  }

  /** The same check digit from different remainders can only be the digit zero. */
  lemma SameDigitIsZero(r: nat, r': nat)
    requires r < 11 && r' < 11 && r != r' && FromRemainder(r) == FromRemainder(r')
    ensures r < 2 && r' < 2 && FromRemainder(r) == 0
  {
  }

  /** Remainders 0 and 1 on both sides: the change moves the sum by plus or minus one modulo 11. */
  lemma MovesByOne(sum: nat, change: int, weight: nat)
    requires sum + change * weight >= 0
    requires sum % 11 < 2 && (sum + change * weight) % 11 < 2 && (sum + change * weight) % 11 != sum % 11
    ensures (change * weight) % 11 == 1 || (change * weight) % 11 == 10
  {
    var move := change * weight;
    assert (sum + move) % 11 == (sum % 11 + move % 11) % 11;
  }

  /** The two weights of a place allow such a move in both sums at places 0, 4 and 8 only. */
  lemma PlaceOfDoubleMove(i: nat, change: int)
    requires i < 12 && -10 < change < 10
    requires var m := change * FIRST_WEIGHTS[i]; m % 11 == 1 || m % 11 == 10
    requires var m := change * SECOND_WEIGHTS[i]; m % 11 == 1 || m % 11 == 10
    ensures i in {0, 4, 8}
  {
    if i == 1 { Unrelated(change, 4, 5); }
    else if i == 2 { Unrelated(change, 3, 4); }
    else if i == 3 { Unrelated(change, 2, 3); }
    else if i == 5 { Unrelated(change, 8, 9); }
    else if i == 6 { Unrelated(change, 7, 8); }
    else if i == 7 { Unrelated(change, 6, 7); }
    else if i == 9 { Unrelated(change, 4, 5); }
    else if i == 10 { Unrelated(change, 3, 4); }
    else if i == 11 { Unrelated(change, 2, 3); }
  }

  /** Weights `v` and `w` of one place cannot both turn a change into plus or minus one modulo 11
      when their sum and difference are no multiples of 11. */
  lemma Unrelated(change: int, v: nat, w: nat)
    requires -10 < change < 10 && 2 <= v <= 9 && w == v + 1 && v != 5
    requires (change * v) % 11 == 1 || (change * v) % 11 == 10
    ensures (change * w) % 11 != 1 && (change * w) % 11 != 10
  {
    assert change * w == change * v + change;
    if (change * w) % 11 == 1 || (change * w) % 11 == 10 {
      UnitsApart(change * v, change);
      NoUnit(change, v);
    }
  }

  lemma UnitsApart(m: int, change: int)
    requires -10 < change < 10
    requires (m % 11 == 1 || m % 11 == 10) && ((m + change) % 11 == 1 || (m + change) % 11 == 10)
    ensures change in {-9, -2, 0, 2, 9}
  {
  }

  /** Such a change times a weight other than 5, or else times the next weight, is not plus or minus
      one modulo 11. */
  lemma NoUnit(change: int, v: nat)
    requires change in {-9, -2, 0, 2, 9} && 2 <= v <= 8 && v != 5
    ensures !((change * v) % 11 == 1 || (change * v) % 11 == 10)
         || !((change * (v + 1)) % 11 == 1 || (change * (v + 1)) % 11 == 10)
  {
    match change
    case -9 => assert (-9 * v) % 11 == (2 * v) % 11 && (-9 * (v + 1)) % 11 == (2 * (v + 1)) % 11;
    case -2 =>
    case 0 =>
    case 2 =>
    case _ => assert (9 * v) % 11 == (-2 * v) % 11 && (9 * (v + 1)) % 11 == (-2 * (v + 1)) % 11;
  }

  /** What a change of one base digit means when the check digits stay the same. */
  lemma SilentChange(ds: seq<nat>, weights: seq<nat>, i: nat, x: nat)
    requires |ds| <= |weights| && i < |ds| && Digits(ds) && x < 10 && x != ds[i] && 2 <= weights[i] <= 9
    requires CheckDigit(ds[i := x], weights) == CheckDigit(ds, weights)
    ensures CheckDigit(ds, weights) == 0
    ensures var m := (x - ds[i]) * weights[i]; m % 11 == 1 || m % 11 == 10
  {
    var sum, change := WeightedSum(ds, weights), x - ds[i];
    SumAfterChange(ds, weights, i, x);
    RemainderMoves(sum, change, weights[i]);
    SameDigitIsZero(sum % 11, (sum + change * weights[i]) % 11);
    MovesByOne(sum, change, weights[i]);
  }

  lemma WeightsInRange(i: nat)
    requires i < 13
    ensures i < 12 ==> 2 <= FIRST_WEIGHTS[i] <= 9
    ensures 2 <= SECOND_WEIGHTS[i] <= 9
  {
  }

  /** Two bases that differ in exactly one digit have different check digit pairs, except possibly
      at places 0, 4 and 8, and then all check digits are zero. */
  lemma SingleErrorDetected(twelve: seq<nat>, i: nat, x: nat)
    requires |twelve| == 12 && Digits(twelve) && i < 12 && x < 10 && x != twelve[i]
    ensures WithCheckDigits(twelve[i := x])[12..] == WithCheckDigits(twelve)[12..] ==>
      i in {0, 4, 8} && WithCheckDigits(twelve)[12..] == [0, 0]
  {
    var a, b := WithCheckDigits(twelve), WithCheckDigits(twelve[i := x]);
    if b[12..] == a[12..] {
      assert a[12..][0] == a[12] && b[12..][0] == b[12] && a[12..][1] == a[13] && b[12..][1] == b[13];
      var first := FirstDigit(twelve);
      WeightsInRange(i);
      SilentChange(twelve, FIRST_WEIGHTS, i, x);
      assert twelve[i := x] + [first] == (twelve + [first])[i := x];
      SilentChange(twelve + [first], SECOND_WEIGHTS, i, x);
      PlaceOfDoubleMove(i, x - twelve[i]);
    }
  }

  /** The changes that move remainder 0 to 1 in the first sum and 1 to 0 in the second; the opposite
      changes move 1 to 0 and 0 to 1. */
  function SilentChanges(i: nat): set<int> {
    if i == 4 then {5, -6} else {9, -2}
  }

  /** A change of the digit at place `i` that the check digits miss, told from the two remainders of
      the number before the change. */
  predicate Undetectable(i: nat, first: nat, second: nat, change: int) {
    i in {0, 4, 8} &&
    ((first == 0 && second == 1 && change in SilentChanges(i))
     || (first == 1 && second == 0 && -change in SilentChanges(i)))
  }

  lemma SilentTable(i: nat, first: nat, second: nat, change: int)
    requires i in {0, 4, 8} && first < 11 && second < 11 && change != 0 && -10 < change < 10
    ensures first < 2 && second < 2 && (first + change * FIRST_WEIGHTS[i]) % 11 < 2
            && (second + change * SECOND_WEIGHTS[i]) % 11 < 2
        <==> Undetectable(i, first, second, change)
  {
    if i == 4 {
      TableAtFour(first, second, change);
    } else {
      TableElsewhere(first, second, change);
    }
  }

  lemma TableAtFour(first: nat, second: nat, change: int)
    requires first < 11 && second < 11 && change != 0 && -10 < change < 10
    ensures first < 2 && second < 2 && (first + change * 9) % 11 < 2 && (second + change * 2) % 11 < 2
        <==> Undetectable(4, first, second, change)
  {
  }

  lemma TableElsewhere(first: nat, second: nat, change: int)
    requires first < 11 && second < 11 && change != 0 && -10 < change < 10
    ensures first < 2 && second < 2 && (first + change * 5) % 11 < 2 && (second + change * 6) % 11 < 2
        <==> Undetectable(0, first, second, change)
  {
  }

  function FirstRemainder(ds: seq<nat>): (r: nat)
    requires |ds| >= 12
    ensures r < 11
  {
    WeightedSum(ds[..12], FIRST_WEIGHTS) % 11
  }

  function SecondRemainder(ds: seq<nat>): (r: nat)
    requires |ds| >= 13
    ensures r < 11
  {
    WeightedSum(ds[..13], SECOND_WEIGHTS) % 11
  }

  lemma AddedRemainder(sum: nat, move: int)
    requires sum + move >= 0
    ensures (sum + move) % 11 == (sum % 11 + move) % 11
  {
  }

  /** The check digits of a number with its digit at `i` changed. */
  lemma RemaindersMove(ds: seq<nat>, i: nat, x: nat)
    requires |ds| == 14 && i < 12
    ensures FirstRemainder(ds[i := x]) == (FirstRemainder(ds) + (x - ds[i]) * FIRST_WEIGHTS[i]) % 11
    ensures SecondRemainder(ds[i := x]) == (SecondRemainder(ds) + (x - ds[i]) * SECOND_WEIGHTS[i]) % 11
  {
    assert ds[i := x][..12] == ds[..12][i := x] && ds[i := x][..13] == ds[..13][i := x];
    SumAfterChange(ds[..12], FIRST_WEIGHTS, i, x);
    SumAfterChange(ds[..13], SECOND_WEIGHTS, i, x);
    AddedRemainder(WeightedSum(ds[..12], FIRST_WEIGHTS), (x - ds[i]) * FIRST_WEIGHTS[i]);
    AddedRemainder(WeightedSum(ds[..13], SECOND_WEIGHTS), (x - ds[i]) * SECOND_WEIGHTS[i]);
  }

  lemma ValidByRemainders(ds: seq<nat>)
    requires |ds| == 14 && Digits(ds)
    ensures Valid(ds) <==>
      ds[12] == FromRemainder(FirstRemainder(ds)) && ds[13] == FromRemainder(SecondRemainder(ds))
  {
  }

  /** A valid number whose check digit pair survives a change of a base digit had zero check digits,
      at one of the places 0, 4 and 8. */
  lemma SurvivingChange(ds: seq<nat>, i: nat, x: nat)
    requires Valid(ds) && i < 12 && x < 10 && x != ds[i] && Valid(ds[i := x])
    ensures i in {0, 4, 8} && ds[12] == 0 && ds[13] == 0
  {
    var altered := ds[i := x];
    assert ds[..12] + [ds[12]] == ds[..13] && altered[..12] + [ds[12]] == altered[..13];
    assert WithCheckDigits(ds[..12]) == ds && WithCheckDigits(altered[..12]) == altered;
    assert altered[..12] == ds[..12][i := x] && altered[12..] == ds[12..];
    SingleErrorDetected(ds[..12], i, x);
    assert ds[12..][0] == ds[12] && ds[12..][1] == ds[13];
  }

  /** A valid number altered at one place is valid again exactly when the change is one that its two
      remainders cannot show. */
  lemma AlteredIsValidIff(ds: seq<nat>, i: nat, x: nat)
    requires Valid(ds) && i < 14 && x < 10 && x != ds[i]
    ensures Valid(ds[i := x]) <==> Undetectable(i, FirstRemainder(ds), SecondRemainder(ds), x - ds[i])
  {
    var altered := ds[i := x];
    if i < 12 {
      RemaindersMove(ds, i, x);
      ValidByRemainders(ds);
      ValidByRemainders(altered);
      if i in {0, 4, 8} {
        SilentTable(i, FirstRemainder(ds), SecondRemainder(ds), x - ds[i]);
      }
      if Valid(altered) {
        SurvivingChange(ds, i, x);
      }
    } else {
      assert altered[..12] == ds[..12] && (i == 13 ==> altered[..13] == ds[..13]);
    }
  }

  lemma CheckedIsValid(twelve: seq<nat>)
    requires |twelve| == 12 && Digits(twelve)
    ensures Valid(WithCheckDigits(twelve)) && WithCheckDigits(twelve)[..12] == twelve
  {
    var ds := WithCheckDigits(twelve);
    assert ds[..12] == twelve && ds[..13] == twelve + [FirstDigit(twelve)];
  }

  lemma ValidIsChecked(ds: seq<nat>)
    requires Valid(ds)
    ensures WithCheckDigits(ds[..12]) == ds
  {
    assert ds[..12] + [ds[12]] == ds[..13];
  }

  /** Two bases that differ in one digit get the same check digit pair exactly when the change is one
      that the remainders of the first cannot show. */
  lemma SamePairIff(twelve: seq<nat>, i: nat, x: nat)
    requires |twelve| == 12 && Digits(twelve) && i < 12 && x < 10 && x != twelve[i]
    ensures var ds := WithCheckDigits(twelve);
      WithCheckDigits(twelve[i := x])[12..] == ds[12..]
      <==> Undetectable(i, FirstRemainder(ds), SecondRemainder(ds), x - twelve[i])
  {
    var ds, other := WithCheckDigits(twelve), WithCheckDigits(twelve[i := x]);
    CheckedIsValid(twelve);
    CheckedIsValid(twelve[i := x]);
    AlteredIsValidIff(ds, i, x);
    assert ds[i := x][..12] == twelve[i := x] && ds[i := x][12..] == ds[12..];
    if Valid(ds[i := x]) {
      ValidIsChecked(ds[i := x]);
    }
    if other[12..] == ds[12..] {
      assert other == other[..12] + other[12..] && ds[i := x] == ds[i := x][..12] + ds[i := x][12..];
    }
  }

  lemma {:induction false} ZerosSum(n: nat, weights: seq<nat>)
    requires n <= |weights|
    ensures WeightedSum(seq(n, _ => 0), weights) == 0
  {
    if n > 0 {
      assert seq(n, _ => 0)[..n - 1] == seq(n - 1, _ => 0);
      ZerosSum(n - 1, weights);
    }
  }

  // ----- The generator --------------------------------------------------------------------------

  const PERIOD: nat := 89_999_999

  function DigitsOf(s: string): (ds: seq<nat>)
    requires AllDigits(s)
    ensures |ds| == |s| && Digits(ds) && forall i :: 0 <= i < |s| ==> ds[i] == DigitOf(s[i])
  {
    seq(|s|, i requires 0 <= i < |s| => DigitOf(s[i]))
  }

  function TextOf(ds: seq<nat>): (s: string)
    requires Digits(ds)
    ensures |s| == |ds| && AllDigits(s) && forall i :: 0 <= i < |ds| ==> DigitOf(s[i]) == ds[i]
  {
    seq(|ds|, i requires 0 <= i < |ds| => CharOf(ds[i]))
  }

  function PadStart(s: string, width: nat): string
    decreases width - |s|
  {
    if |s| >= width then s else PadStart("0" + s, width)
  }

  function Base(sequence: nat): string {
    PadStart(Render(10_000_000 + sequence % PERIOD), 8)
  }

  /** The prefix always has its eight digits; the padding never adds one. */
  lemma BaseNeedsNoPadding(sequence: nat)
    ensures |Base(sequence)| == 8 && AllDigits(Base(sequence))
    ensures Base(sequence) == Render(10_000_000 + sequence % PERIOD)
  {
    assert Pow10(3) == 1_000;
    Pow10Add(3, 3);
    assert Pow10(7) == 10 * Pow10(6) && Pow10(8) == 10 * Pow10(7);
    RenderLength(10_000_000 + sequence % PERIOD, 8);
  }

  /** The number generated when the sequence stands at `sequence`. */
  function CnpjAt(sequence: nat): string {
    BaseNeedsNoPadding(sequence);
    var twelve := DigitsOf(Base(sequence)) + [0, 0, 0, 1];
    TextOf(WithCheckDigits(twelve))
  }

  /** The numbers a module hands out, in the order of the calls. */
  class CnpjGenerator {
    var cnpjSequence: nat

    constructor ()
      ensures cnpjSequence == 0
    {
      cnpjSequence := 0;
    }

    method NextSyntheticCnpj() returns (cnpj: string)
      modifies this
      ensures cnpjSequence == old(cnpjSequence) + 1 && cnpj == CnpjAt(cnpjSequence)
    {
      cnpjSequence := cnpjSequence + 1;
      BaseNeedsNoPadding(cnpjSequence);
      var base := PadStart(Render(10_000_000 + cnpjSequence % PERIOD), 8);
      var twelve := DigitsOf(base) + [0, 0, 0, 1];
      var first := CheckDigit(twelve, FIRST_WEIGHTS);
      var second := CheckDigit(twelve + [first], SECOND_WEIGHTS);
      cnpj := TextOf(twelve + [first, second]);
    }

    method DeterministicCnpjFromIndex(index: nat) returns (cnpj: string)
      modifies this
      ensures cnpjSequence == index + 1 && cnpj == CnpjAt(index + 1)
    {
      cnpjSequence := index;
      cnpj := NextSyntheticCnpj();
    }

    method ResetSyntheticCnpjSequence()
      modifies this
      ensures cnpjSequence == 0
    {
      cnpjSequence := 0;
    }
  }

  /** Every generated number has 14 digits and passes the check. */
  lemma GeneratedIsValid(sequence: nat)
    ensures AllDigits(CnpjAt(sequence)) && Valid(DigitsOf(CnpjAt(sequence)))
  {
    BaseNeedsNoPadding(sequence);
    var twelve := DigitsOf(Base(sequence)) + [0, 0, 0, 1];
    var all := WithCheckDigits(twelve);
    assert DigitsOf(TextOf(all)) == all;
    assert all[..12] == twelve && all[..13] == twelve + [FirstDigit(twelve)];
  }

  /** Two positions of the sequence give the same number exactly when they are congruent modulo the
      period. */
  lemma SameNumberIff(m: nat, n: nat)
    ensures CnpjAt(m) == CnpjAt(n) <==> m % PERIOD == n % PERIOD
  {
    BaseNeedsNoPadding(m);
    BaseNeedsNoPadding(n);
    if CnpjAt(m) == CnpjAt(n) {
      PrefixIsBase(m);
      PrefixIsBase(n);
      ValueOfRender(10_000_000 + m % PERIOD);
      ValueOfRender(10_000_000 + n % PERIOD);
    }
  }

  lemma PrefixIsBase(sequence: nat)
    ensures |CnpjAt(sequence)| == 14 && CnpjAt(sequence)[..8] == Base(sequence)
  {
    BaseNeedsNoPadding(sequence);
    var base := Base(sequence);
    var all := WithCheckDigits(DigitsOf(base) + [0, 0, 0, 1]);
    forall i | 0 <= i < 8
      ensures TextOf(all)[i] == base[i]
    {
      assert all[i] == DigitsOf(base)[i] == DigitOf(base[i]);
      assert DigitOf(TextOf(all)[i]) == DigitOf(base[i]);
    }
  }

  /** Consecutive numbers repeat only after a whole period. */
  lemma DistinctWithinPeriod(start: nat, i: nat, j: nat)
    requires i < j < i + PERIOD
    ensures CnpjAt(start + i) != CnpjAt(start + j)
  {
    SameNumberIff(start + i, start + j);
    CloserThanPeriod(start + i, start + j);
  }

  lemma CloserThanPeriod(m: nat, n: nat)
    requires m < n < m + PERIOD
    ensures m % PERIOD != n % PERIOD
  {
  }

  // ----- Two generated numbers one digit apart --------------------------------------------------

  /** The base of a generated number whose prefix is 1000`x`017. */
  function Sample(x: nat): seq<nat> {
    [1, 0, 0, 0, x, 0, 1, 7, 0, 0, 0, 1]
  }

  lemma SampleFirstSum(x: nat)
    ensures WeightedSum(Sample(x), FIRST_WEIGHTS) == 56 + 9 * x
  {
    var zeros: seq<nat> := seq(12, _ => 0);
    var a := zeros[0 := 1];
    var b := a[4 := x];
    var c := b[6 := 1];
    var d := c[7 := 7];
    ZerosSum(12, FIRST_WEIGHTS);
    SumAfterChange(zeros, FIRST_WEIGHTS, 0, 1);
    SumAfterChange(a, FIRST_WEIGHTS, 4, x);
    SumAfterChange(b, FIRST_WEIGHTS, 6, 1);
    SumAfterChange(c, FIRST_WEIGHTS, 7, 7);
    SumAfterChange(d, FIRST_WEIGHTS, 11, 1);
    assert Sample(x) == d[11 := 1];
  }

  lemma SampleSecondSum(x: nat)
    ensures WeightedSum(Sample(x) + [0], SECOND_WEIGHTS) == 66 + 2 * x
  {
    var zeros: seq<nat> := seq(13, _ => 0);
    var a := zeros[0 := 1];
    var b := a[4 := x];
    var c := b[6 := 1];
    var d := c[7 := 7];
    ZerosSum(13, SECOND_WEIGHTS);
    SumAfterChange(zeros, SECOND_WEIGHTS, 0, 1);
    SumAfterChange(a, SECOND_WEIGHTS, 4, x);
    SumAfterChange(b, SECOND_WEIGHTS, 6, 1);
    SumAfterChange(c, SECOND_WEIGHTS, 7, 7);
    SumAfterChange(d, SECOND_WEIGHTS, 11, 1);
    assert Sample(x) + [0] == d[11 := 1];
  }

  lemma OneDigitMore(n: nat, d: nat)
    requires n >= 1 && d < 10
    ensures Render(10 * n + d) == Render(n) + [CharOf(d)]
  {
    assert (10 * n + d) / 10 == n && (10 * n + d) % 10 == d;
  }

  lemma TwoDigitsMore(n: nat, c: nat, d: nat)
    requires n >= 1 && c < 10 && d < 10
    ensures Render(100 * n + 10 * c + d) == Render(n) + [CharOf(c), CharOf(d)]
  {
    OneDigitMore(n, c);
    OneDigitMore(10 * n + c, d);
    assert Render(n) + [CharOf(c)] + [CharOf(d)] == Render(n) + [CharOf(c), CharOf(d)];
  }

  lemma Thousand()
    ensures Render(1_000) == [CharOf(1), CharOf(0), CharOf(0), CharOf(0)]
  {
    OneDigitMore(1, 0);
    TwoDigitsMore(10, 0, 0);
    assert Render(1) == [CharOf(1)];
  }

  lemma PrefixDigits(x: nat)
    requires x < 10
    ensures Render(10_000_017 + 1_000 * x)
         == [CharOf(1), CharOf(0), CharOf(0), CharOf(0), CharOf(x), CharOf(0), CharOf(1), CharOf(7)]
  {
    Thousand();
    JoinedDigits(Render(1_000), x);
    TwoDigitsMore(1_000, x, 0);
    TwoDigitsMore(100_000 + 10 * x, 1, 7);
  }

  lemma JoinedDigits(thousand: string, x: nat)
    requires x < 10 && thousand == [CharOf(1), CharOf(0), CharOf(0), CharOf(0)]
    ensures thousand + [CharOf(x), CharOf(0)] + [CharOf(1), CharOf(7)]
         == [CharOf(1), CharOf(0), CharOf(0), CharOf(0), CharOf(x), CharOf(0), CharOf(1), CharOf(7)]
  {
  }

  lemma SampleIsGenerated(x: nat)
    requires x < 10
    ensures |CnpjAt(17 + 1_000 * x)| == 14 && AllDigits(CnpjAt(17 + 1_000 * x))
    ensures DigitsOf(CnpjAt(17 + 1_000 * x)) == WithCheckDigits(Sample(x))
  {
    var sequence := 17 + 1_000 * x;
    BaseNeedsNoPadding(sequence);
    GeneratedIsValid(sequence);
    PrefixDigits(x);
    assert DigitsOf(Base(sequence)) + [0, 0, 0, 1] == Sample(x);
    assert DigitsOf(TextOf(WithCheckDigits(Sample(x)))) == WithCheckDigits(Sample(x));
  }

  lemma SampleChecksAreZero(x: nat)
    requires x in {0, 6}
    ensures WithCheckDigits(Sample(x)) == Sample(x) + [0, 0]
  {
    SampleFirstSum(x);
    SampleSecondSum(x);
  }

  lemma SampleNumber(x: nat)
    requires x in {0, 6}
    ensures AllDigits(CnpjAt(17 + 1_000 * x)) && Valid(DigitsOf(CnpjAt(17 + 1_000 * x)))
    ensures DigitsOf(CnpjAt(17 + 1_000 * x)) == Sample(x) + [0, 0]
  {
    SampleIsGenerated(x);
    SampleChecksAreZero(x);
    GeneratedIsValid(17 + 1_000 * x);
  }

  lemma SampleRemainders(ds: seq<nat>)
    requires ds == Sample(0) + [0, 0]
    ensures FirstRemainder(ds) == 1 && SecondRemainder(ds) == 0
  {
    assert ds[..12] == Sample(0) && ds[..13] == Sample(0) + [0];
    SampleFirstSum(0);
    SampleSecondSum(0);
  }

  /** The exception is real: the generator's numbers at positions 17 and 6017 differ in one digit. */
  lemma UndetectedError()
    ensures AllDigits(CnpjAt(17)) && AllDigits(CnpjAt(6_017))
    ensures var (a, b) := (DigitsOf(CnpjAt(17)), DigitsOf(CnpjAt(6_017)));
      && Valid(a) && Valid(b) && b == a[4 := 6] && a[4] == 0
      && Undetectable(4, FirstRemainder(a), SecondRemainder(a), 6)
  {
    SampleNumber(0);
    SampleNumber(6);
    SampleRemainders(DigitsOf(CnpjAt(17)));
  }

  // ----- The first number -----------------------------------------------------------------------

  /** The digits in front of the check digits: the position in the cycle, and branch 0001. */
  predicate Numbered(s: string, sequence: nat) {
    && |s| == 14 && AllDigits(s)
    && Value(s[..8]) == 10_000_000 + sequence % 89_999_999
    && s[8..12] == "0001"
  }

  lemma NumberedTwelve(s: string, sequence: nat)
    requires Numbered(s, sequence)
    ensures |Base(sequence)| == 8 && AllDigits(Base(sequence))
    ensures DigitsOf(s)[..12] == DigitsOf(Base(sequence)) + [0, 0, 0, 1]
  {
    BaseNeedsNoPadding(sequence);
    ValueOfRender(10_000_000 + sequence % PERIOD);
    ValueInjective(s[..8], Base(sequence));
    forall i | 0 <= i < 12
      ensures DigitsOf(s)[i] == (DigitsOf(Base(sequence)) + [0, 0, 0, 1])[i]
    {
      if i < 8 {
        assert s[i] == s[..8][i] == Base(sequence)[i];
      } else {
        assert s[i] == s[8..12][i - 8];
      }
    }
  }

  lemma GeneratedIsNumbered(sequence: nat)
    ensures Numbered(CnpjAt(sequence), sequence)
  {
    var s := CnpjAt(sequence);
    PrefixIsBase(sequence);
    ValueOfRender(10_000_000 + sequence % PERIOD);
    BaseNeedsNoPadding(sequence);
    var all := WithCheckDigits(DigitsOf(Base(sequence)) + [0, 0, 0, 1]);
    forall i | 8 <= i < 12
      ensures s[i] == "0001"[i - 8]
    {
      assert DigitOf(s[i]) == all[i] == [0, 0, 0, 1][i - 8];
    }
  }

  lemma NumberedIsGenerated(s: string, sequence: nat)
    requires Numbered(s, sequence) && Valid(DigitsOf(s))
    ensures s == CnpjAt(sequence)
  {
    NumberedTwelve(s, sequence);
    ValidIsChecked(DigitsOf(s));
    assert s == TextOf(DigitsOf(s));
  }

  /** Every call returns the one text that continues the numbering and whose last two digits complete
      their weighted sums to multiples of eleven. */
  lemma GeneratedIff(s: string, sequence: nat)
    ensures s == CnpjAt(sequence) <==>
      && Numbered(s, sequence)
      && Completes(FirstTotal(DigitsOf(s)), DigitsOf(s)[12]) && Completes(SecondTotal(DigitsOf(s)), DigitsOf(s)[13])
  {
    GeneratedIsNumbered(sequence);
    GeneratedIsValid(sequence);
    if Numbered(s, sequence) {
      ValidIff(DigitsOf(s));
      if Valid(DigitsOf(s)) {
        NumberedIsGenerated(s, sequence);
      }
    }
  }

  lemma FirstPrefix()
    ensures Render(10_000_001)
         == [CharOf(1), CharOf(0), CharOf(0), CharOf(0), CharOf(0), CharOf(0), CharOf(0), CharOf(1)]
  {
    Thousand();
    TwoDigitsMore(1_000, 0, 0);
    TwoDigitsMore(100_000, 0, 1);
  }

  const FIRST_NUMBER: seq<nat> := [1, 0, 0, 0, 0, 0, 0, 1, 0, 0, 0, 1, 9, 0]

  lemma FirstDigits()
    ensures WithCheckDigits(FIRST_NUMBER[..12]) == FIRST_NUMBER
  {
    assert FirstTotal(FIRST_NUMBER) == 13 && SecondTotal(FIRST_NUMBER) == 34;
    ValidIff(FIRST_NUMBER);
    assert FIRST_NUMBER[..12] + [9] == FIRST_NUMBER[..13];
  }

  /** The first number a fresh generator hands out. */
  lemma FirstNumber()
    ensures CnpjAt(1) == "10000001000190"
  {
    BaseNeedsNoPadding(1);
    FirstPrefix();
    FirstDigits();
    assert DigitsOf(Base(1)) + [0, 0, 0, 1] == FIRST_NUMBER[..12];
    assert TextOf(FIRST_NUMBER) == "10000001000190";
  }
}
