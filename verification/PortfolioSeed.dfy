/** The idempotent seed of the service portfolio into the catalogue of service definitions. */
module PortfolioSeed {

  import opened Common

  datatype Archetype =
    | Rental | Transport | CivilWork | Installation | Maintenance | IndustrialService | FacilityService
    | CommercialRepresentation | GoodsTrade | LaborService | WasteService | MaritimeSupport

  datatype MeasurementMode = ByPeriod | ByEvent | ByQuantity

  datatype Entry = Entry(cnaeDisplay: string, name: string, archetype: Archetype)

  /** A definition with its published version and its legal classification. */
  datatype Definition = Definition(
    code: string, name: string, archetype: Archetype, measurementMode: MeasurementMode, cnaeCode: string)

  // ----- CNAE codes -----------------------------------------------------------------------------

  function NormalizeCnaeCode(display: string): Option<string> {
    var digits := Filter(IsDigit, display);
    if |digits| != 7 then None else Some(digits)
  }

  function DefinitionCode(display: string): Option<string> {
    match NormalizeCnaeCode(display)
    case None => None
    case Some(digits) => Some("CNAE-" + digits)
  }

  lemma {:induction false} FilterHolds(keep: char -> bool, s: string)
    ensures forall i :: 0 <= i < |Filter(keep, s)| ==> keep(Filter(keep, s)[i])
  {
    if s != "" {
      FilterHolds(keep, s[1..]);
    }
  }

  function ModeOf(a: Archetype): MeasurementMode {
    match a
    case Rental => ByPeriod
    case FacilityService => ByPeriod
    case GoodsTrade => ByQuantity
    case _ => ByEvent
  }

  function NewDefinition(e: Entry): Definition
    requires DefinitionCode(e.cnaeDisplay).Some?
  {
    Definition(DefinitionCode(e.cnaeDisplay).value, e.name, e.archetype, ModeOf(e.archetype),
               NormalizeCnaeCode(e.cnaeDisplay).value)
  }

  // ----- The seed -------------------------------------------------------------------------------

  predicate Exists(defs: seq<Definition>, code: string) {
    exists i :: 0 <= i < |defs| && defs[i].code == code
  }

  /** `Threw` carries the catalogue at the moment an entry with a malformed code was met. */
  datatype SeedRun = Finished(defs: seq<Definition>, created: nat, skipped: nat) | Threw(defs: seq<Definition>)

  function SeedAll(defs: seq<Definition>, list: seq<Entry>): SeedRun {
    if list == [] then Finished(defs, 0, 0)
    else match SeedAll(defs, list[..|list| - 1])
      case Threw(d) => Threw(d)
      case Finished(d, created, skipped) =>
        var e := list[|list| - 1];
        match DefinitionCode(e.cnaeDisplay)
        case None => Threw(d)
        case Some(code) =>
          if Exists(d, code) then Finished(d, created, skipped + 1)
          else Finished(d + [NewDefinition(e)], created + 1, skipped)
  }

  datatype SeedOutcome = Applied | AlreadyPresent

  datatype SeedResult = SeedResult(outcome: SeedOutcome, created: nat, skipped: nat, total: nat)

  class ServiceCatalog {
    var definitions: seq<Definition>

    constructor (definitions: seq<Definition>)
      ensures this.definitions == definitions
    {
      this.definitions := definitions;
    }

    method EnsureServicePortfolioBaseline(portfolio: seq<Entry>) returns (result: Option<SeedResult>)
      modifies this
      ensures match SeedAll(old(definitions), portfolio)
        case Threw(d) => result == None && definitions == d
        case Finished(d, created, skipped) =>
          && definitions == d
          && result == Some(SeedResult(if created == 0 then AlreadyPresent else Applied, created, skipped, |portfolio|))
    {
      var created, skipped := 0, 0;
      var i := 0;
      while i < |portfolio|
        invariant i <= |portfolio|
        invariant SeedAll(old(definitions), portfolio[..i]) == Finished(definitions, created, skipped)
      {
        assert portfolio[..i + 1][..i] == portfolio[..i];
        var code := DefinitionCode(portfolio[i].cnaeDisplay);
        if code.None? {
          ThrownStays(old(definitions), portfolio, i + 1);
          return None;
        }
        if Exists(definitions, code.value) {
          skipped := skipped + 1;
        } else {
          definitions := definitions + [NewDefinition(portfolio[i])];
          created := created + 1;
        }
        i := i + 1;
      }
      assert portfolio[..i] == portfolio;
      return Some(SeedResult(if created == 0 then AlreadyPresent else Applied, created, skipped, |portfolio|));
    }
  }

  lemma {:induction false} ThrownStays(defs: seq<Definition>, list: seq<Entry>, n: nat)
    requires n <= |list| && SeedAll(defs, list[..n]).Threw?
    ensures SeedAll(defs, list) == SeedAll(defs, list[..n])
    decreases |list|
  {
    if n == |list| {
      assert list[..n] == list;
    } else {
      assert list[..|list| - 1][..n] == list[..n];
      ThrownStays(defs, list[..|list| - 1], n);
    }
  }

  /** A malformed entry stops the seed; what the entries before it added stays. */
  lemma MalformedStops(defs: seq<Definition>, list: seq<Entry>, n: nat)
    requires n < |list| && SeedAll(defs, list[..n]).Finished? && DefinitionCode(list[n].cnaeDisplay).None?
    ensures SeedAll(defs, list) == Threw(SeedAll(defs, list[..n]).defs)
  {
    assert list[..n + 1][..n] == list[..n];
    ThrownStays(defs, list, n + 1);
  }

  // ----- What the seed guarantees ---------------------------------------------------------------

  ghost predicate UniqueCodes(defs: seq<Definition>) {
    forall i, j :: 0 <= i < j < |defs| ==> defs[i].code != defs[j].code
  }

  ghost predicate AllWellFormed(list: seq<Entry>) {
    forall i :: 0 <= i < |list| ==> DefinitionCode(list[i].cnaeDisplay).Some?
  }

  function Codes(defs: seq<Definition>): set<string> {
    if defs == [] then {} else Codes(defs[..|defs| - 1]) + {defs[|defs| - 1].code}
  }

  lemma {:induction false} ExistsIffCode(defs: seq<Definition>, code: string)
    ensures Exists(defs, code) <==> code in Codes(defs)
  {
    if defs != [] {
      var n := |defs| - 1;
      ExistsIffCode(defs[..n], code);
      if Exists(defs, code) {
        var i :| 0 <= i < |defs| && defs[i].code == code;
        assert i < n ==> defs[..n][i].code == code;
      } else {
        assert defs[n].code != code;
      }
    }
  }

  /** The definitions the entries stand for. */
  function Candidates(list: seq<Entry>): (ds: seq<Definition>)
    requires AllWellFormed(list)
    ensures |ds| == |list|
  {
    seq(|list|, i requires 0 <= i < |list| => NewDefinition(list[i]))
  }

  datatype Added = Added(defs: seq<Definition>, created: nat, skipped: nat)

  /** The seed without its error path: append the candidates whose code is not there yet. */
  function AddAll(defs: seq<Definition>, candidates: seq<Definition>): Added {
    if candidates == [] then Added(defs, 0, 0)
    else
      var before, d := AddAll(defs, candidates[..|candidates| - 1]), candidates[|candidates| - 1];
      if Exists(before.defs, d.code) then before.(skipped := before.skipped + 1)
      else Added(before.defs + [d], before.created + 1, before.skipped)
  }

  /** The seed throws exactly when some entry's code is malformed; otherwise it adds. */
  lemma {:induction false} SeedAdds(defs: seq<Definition>, list: seq<Entry>)
    ensures SeedAll(defs, list).Threw? <==> !AllWellFormed(list)
    ensures AllWellFormed(list) ==>
      var added := AddAll(defs, Candidates(list));
      SeedAll(defs, list) == Finished(added.defs, added.created, added.skipped)
  {
    if list != [] {
      var init := list[..|list| - 1];
      SeedAdds(defs, init);
      assert forall i :: 0 <= i < |init| ==> init[i] == list[i];
      if AllWellFormed(list) {
        assert Candidates(list)[..|init|] == Candidates(init);
      }
    }
  }

  lemma CodesSnoc(defs: seq<Definition>, d: Definition)
    ensures Codes(defs + [d]) == Codes(defs) + {d.code}
  {
    assert (defs + [d])[..|defs|] == defs;
  }

  lemma UniqueSnoc(defs: seq<Definition>, d: Definition)
    requires UniqueCodes(defs) && !Exists(defs, d.code)
    ensures UniqueCodes(defs + [d])
  {
  }

  lemma {:induction false} AddCovers(defs: seq<Definition>, candidates: seq<Definition>)
    ensures var r := AddAll(defs, candidates);
      && defs <= r.defs && Codes(r.defs) == Codes(defs) + Codes(candidates)
      && r.created == |r.defs| - |defs| && r.created + r.skipped == |candidates|
  {
    if candidates != [] {
      var init, d := candidates[..|candidates| - 1], candidates[|candidates| - 1];
      AddCovers(defs, init);
      var before := AddAll(defs, init);
      ExistsIffCode(before.defs, d.code);
      if !Exists(before.defs, d.code) {
        CodesSnoc(before.defs, d);
      }
    }
  }

  lemma {:induction false} AddCompletes(defs: seq<Definition>, candidates: seq<Definition>)
    requires UniqueCodes(defs)
    ensures var r := AddAll(defs, candidates);
      && defs <= r.defs && UniqueCodes(r.defs) && Codes(r.defs) == Codes(defs) + Codes(candidates)
      && r.created == |r.defs| - |defs| && r.created + r.skipped == |candidates|
  {
    AddCovers(defs, candidates);
    if candidates != [] {
      var init, d := candidates[..|candidates| - 1], candidates[|candidates| - 1];
      AddCompletes(defs, init);
      var before := AddAll(defs, init);
      if !Exists(before.defs, d.code) {
        UniqueSnoc(before.defs, d);
      }
    }
  }

  lemma {:induction false} AddCounts(defs: seq<Definition>, candidates: seq<Definition>)
    requires UniqueCodes(defs)
    ensures AddAll(defs, candidates).created == |Codes(candidates) - Codes(defs)|
  {
    if candidates != [] {
      var init, d := candidates[..|candidates| - 1], candidates[|candidates| - 1];
      AddCounts(defs, init);
      AddCompletes(defs, init);
      var before := AddAll(defs, init);
      ExistsIffCode(before.defs, d.code);
      if Exists(before.defs, d.code) {
        assert Codes(candidates) - Codes(defs) == Codes(init) - Codes(defs);
      } else {
        assert Codes(candidates) - Codes(defs) == (Codes(init) - Codes(defs)) + {d.code};
      }
    }
  }

  lemma {:induction false} AddNothing(defs: seq<Definition>, candidates: seq<Definition>)
    requires Codes(candidates) <= Codes(defs)
    ensures AddAll(defs, candidates) == Added(defs, 0, |candidates|)
  {
    if candidates != [] {
      var init, d := candidates[..|candidates| - 1], candidates[|candidates| - 1];
      AddNothing(defs, init);
      ExistsIffCode(defs, d.code);
    }
  }

  /** Starting again from a catalogue that already holds the first candidates changes nothing in the
      result. */
  lemma {:induction false} AddCatchesUp(defs: seq<Definition>, first: seq<Definition>, more: seq<Definition>)
    requires UniqueCodes(defs)
    ensures AddAll(AddAll(defs, first).defs, first + more).defs == AddAll(defs, first + more).defs
    decreases |more|
  {
    var cut := AddAll(defs, first).defs;
    AddCompletes(defs, first);
    if more == [] {
      assert first + more == first;
      AddNothing(cut, first);
    } else {
      assert (first + more)[..|first + more| - 1] == first + more[..|more| - 1];
      AddCatchesUp(defs, first, more[..|more| - 1]);
    }
  }

  /** For any list, duplicates allowed, over any catalogue with unique codes: the existing
      definitions stay in place, every listed code ends with exactly one definition, the created ones
      are as many as the distinct listed codes that were absent, and every entry is counted once. */
  lemma SeedCompletes(defs: seq<Definition>, list: seq<Entry>)
    requires UniqueCodes(defs) && AllWellFormed(list)
    ensures var run, listed := SeedAll(defs, list), Codes(Candidates(list));
      && run.Finished?
      && defs <= run.defs
      && UniqueCodes(run.defs)
      && Codes(run.defs) == Codes(defs) + listed
      && run.created == |listed - Codes(defs)| == |run.defs| - |defs|
      && run.created + run.skipped == |list|
  {
    SeedAdds(defs, list);
    AddCompletes(defs, Candidates(list));
    AddCounts(defs, Candidates(list));
  }

  /** A second run creates nothing. */
  lemma SecondRunCreatesNothing(defs: seq<Definition>, list: seq<Entry>)
    requires UniqueCodes(defs) && AllWellFormed(list)
    ensures var once := SeedAll(defs, list);
      once.Finished? && SeedAll(once.defs, list) == Finished(once.defs, 0, |list|)
  {
    SeedCompletes(defs, list);
    SeedAdds(SeedAll(defs, list).defs, list);
    AddNothing(SeedAll(defs, list).defs, Candidates(list));
  }

  /** A run that is cut after any prefix and started again ends with the very catalogue of one
      uninterrupted run. */
  lemma InterruptedRunConverges(defs: seq<Definition>, list: seq<Entry>, n: nat)
    requires UniqueCodes(defs) && AllWellFormed(list) && n <= |list|
    ensures SeedAll(SeedAll(defs, list[..n]).defs, list).defs == SeedAll(defs, list).defs
  {
    var candidates := Candidates(list);
    assert Candidates(list[..n]) == candidates[..n];
    SeedAdds(defs, list[..n]);
    SeedAdds(defs, list);
    SeedAdds(SeedAll(defs, list[..n]).defs, list);
    assert candidates[..n] + candidates[n..] == candidates;
    AddCatchesUp(defs, candidates[..n], candidates[n..]);
  }

  // ----- What a new definition says -------------------------------------------------------------

  /** Punctuation and any other character that is no digit may stand anywhere in a code. */
  lemma PunctuationIsIgnored(before: string, c: char, after: string)
    requires !('0' <= c <= '9')
    ensures DefinitionCode(before + [c] + after) == DefinitionCode(before + after)
  {
    FilterAppend(IsDigit, before, [c]);
    FilterAppend(IsDigit, before + [c], after);
    FilterAppend(IsDigit, before, after);
    assert [c][1..] == "" && !IsDigit([c][0]);
    assert Filter(IsDigit, [c]) == [];
    assert Filter(IsDigit, before + [c] + after) == Filter(IsDigit, before + after);
  }

  lemma {:induction false} DigitsAreKept(s: string)
    requires forall i :: 0 <= i < |s| ==> '0' <= s[i] <= '9'
    ensures Filter(IsDigit, s) == s
  {
    if s != "" {
      DigitsAreKept(s[1..]);
    }
  }

  /** Of digits alone, exactly seven make a code. */
  lemma SevenDigitsMakeACode(s: string)
    requires forall i :: 0 <= i < |s| ==> '0' <= s[i] <= '9'
    ensures DefinitionCode(s) == if |s| == 7 then Some("CNAE-" + s) else None
  {
    DigitsAreKept(s);
  }

  /** The definition carries the entry's name and archetype and its seven digits, its code is those
      digits after "CNAE-", and it is measured as its archetype is. */
  ghost predicate MadeFrom(d: Definition, e: Entry) {
    && d.name == e.name && d.archetype == e.archetype
    && |d.cnaeCode| == 7 && (forall i :: 0 <= i < 7 ==> '0' <= d.cnaeCode[i] <= '9')
    && d.cnaeCode == Filter(IsDigit, e.cnaeDisplay)
    && d.code == "CNAE-" + d.cnaeCode
    && (d.measurementMode == ByPeriod <==> e.archetype in {Rental, FacilityService})
    && (d.measurementMode == ByQuantity <==> e.archetype == GoodsTrade)
  }

  lemma CandidateMadeFrom(e: Entry)
    requires DefinitionCode(e.cnaeDisplay).Some?
    ensures MadeFrom(NewDefinition(e), e)
  {
    FilterHolds(IsDigit, e.cnaeDisplay);
  }

  /** The entries whose candidates an addition appends, in the order of the list. */
  ghost predicate FirstOfItsCode(list: seq<Definition>, defs: seq<Definition>, i: nat) {
    i < |list| && (forall j :: 0 <= j < |defs| ==> defs[j].code != list[i].code)
    && forall j :: 0 <= j < i ==> list[j].code != list[i].code
  }

  /** Each appended definition is the first candidate of its code. */
  lemma {:induction false} AddedIsFirst(defs: seq<Definition>, candidates: seq<Definition>, k: nat) returns (i: nat)
    requires |defs| <= k < |AddAll(defs, candidates).defs|
    ensures FirstOfItsCode(candidates, defs, i) && AddAll(defs, candidates).defs[k] == candidates[i]
  {
    var n := |candidates| - 1;
    var before := AddAll(defs, candidates[..n]);
    AddCovers(defs, candidates[..n]);
    if k < |before.defs| {
      i := AddedIsFirst(defs, candidates[..n], k);
      assert forall j :: 0 <= j < i ==> candidates[j] == candidates[..n][j];
    } else {
      i := n;
      ExistsIffCode(before.defs, candidates[n].code);
      NotAmong(defs, candidates[n].code);
      forall j | 0 <= j < n
        ensures candidates[j].code != candidates[n].code
      {
        assert candidates[..n][j] == candidates[j];
        ExistsIffCode(candidates[..n], candidates[j].code);
      }
    }
  }

  lemma NotAmong(defs: seq<Definition>, code: string)
    ensures code !in Codes(defs) ==> forall j :: 0 <= j < |defs| ==> defs[j].code != code
  {
    ExistsIffCode(defs, code);
  }

  /** Every definition the seed adds is made from an entry of the list: the first one with its code, and
      one whose code the catalogue did not have. */
  lemma NewDefinitionsAreMadeFromEntries(defs: seq<Definition>, list: seq<Entry>, k: nat) returns (i: nat)
    requires AllWellFormed(list) && |defs| <= k < |SeedAll(defs, list).defs|
    ensures i < |list| && MadeFrom(SeedAll(defs, list).defs[k], list[i])
    ensures FirstOfItsCode(Candidates(list), defs, i)
  {
    SeedAdds(defs, list);
    i := AddedIsFirst(defs, Candidates(list), k);
    CandidateMadeFrom(list[i]);
  }
}
