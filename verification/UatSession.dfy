/** The manual UAT session: a checklist built from the scenario catalogue, and the record that moves
    from not started, through a session in progress, to one final status. */
module UatSession {

  import opened Common

  datatype Verdict = Pass | Fail | Observation | Blocker

  datatype Dimension = Dimension(id: string, title: string)

  const DIMENSION_COUNT: nat := 9

  function DimensionAt(i: nat): Dimension
    requires i < DIMENSION_COUNT
  {
    match i
    case 0 => Dimension("screen_clarity", "Clareza das telas")
    case 1 => Dimension("operational_ease", "Facilidade operacional")
    case 2 => Dimension("real_workflow", "Fluxo real de trabalho")
    case 3 => Dimension("perceived_blockers", "Percepção de bloqueios")
    case 4 => Dimension("error_messages", "Mensagens de erro")
    case 5 => Dimension("state_visibility", "Visibilidade de estados")
    case 6 => Dimension("document_usage", "Uso dos documentos")
    case 7 => Dimension("allowed_actions", "Ações permitidas e proibidas")
    case _ => Dimension("user_comprehension", "Compreensão do usuário")
  }

  const VIEWPORTS: seq<string> := ["desktop", "mobile"]

  datatype CatalogEntry = CatalogEntry(id: string, title: string)

  datatype Item = Item(
    id: string, scenarioId: string, scenarioTitle: string, dimension: string, dimensionTitle: string, viewport: string,
    verdict: Option<Verdict>, notes: Option<string>)

  datatype ChecklistStatus = Template | ChecklistInProgress | ChecklistClosed

  datatype Checklist = Checklist(
    status: ChecklistStatus, sessionId: Option<string>, performedBy: Option<string>, environment: Option<string>,
    items: seq<Item>)

  datatype UatStatus = NotStarted | InProgress | Passed | PassedWithObservations | Failed

  datatype HistoryEntry = HistoryEntry(actor: string, action: string, newValue: string)

  datatype Record = Record(
    status: UatStatus, completed: bool, sessionId: Option<string>, performedBy: Option<string>,
    environment: Option<string>, scenarios: seq<string>, result: Option<UatStatus>,
    issuesFound: seq<string>, blockingIssues: seq<string>, approval: Option<string>, history: seq<HistoryEntry>)

  datatype Session = Session(record: Record, checklist: Checklist)

  datatype Update = Update(id: string, verdict: Option<Verdict>, notes: Option<string>)

  datatype Error = NotStartable | MissingOperator | NotInProgress | Unresolved(count: nat)

  /** A rejected command returns the record and the checklist it was given. */
  datatype Reply = Changed(session: Session) | Rejected(error: Error)

  // ----- Building the checklist -----------------------------------------------------------------

  const PER_SCENARIO: nat := 18

  function ItemId(scenario: string, dimension: string, viewport: string): string {
    scenario + ":" + dimension + ":" + viewport
  }

  function NewItem(entry: CatalogEntry, d: Dimension, viewport: string): Item {
    Item(ItemId(entry.id, d.id, viewport), entry.id, entry.title, d.id, d.title, viewport, None, None)
  }

  /** All items: one for each scenario, dimension and viewport, in that nesting. */
  function AllItems(catalog: seq<CatalogEntry>): (items: seq<Item>)
    ensures |items| == PER_SCENARIO * |catalog|
  {
    seq(PER_SCENARIO * |catalog|, k requires 0 <= k < PER_SCENARIO * |catalog| =>
      NewItem(catalog[k / PER_SCENARIO], DimensionAt(k % PER_SCENARIO / 2), VIEWPORTS[k % 2]))
  }

  method BuildUatSessionChecklist(catalog: seq<CatalogEntry>) returns (checklist: Checklist)
    ensures checklist == Checklist(Template, None, None, None, AllItems(catalog))
  {
    var items := [];
    ghost var all := AllItems(catalog);
    for s := 0 to |catalog|
      invariant |items| == PER_SCENARIO * s && items == all[..|items|]
    {
      for d := 0 to DIMENSION_COUNT
        invariant |items| == PER_SCENARIO * s + 2 * d && items == all[..|items|]
      {
        for v := 0 to |VIEWPORTS|
          invariant |items| == PER_SCENARIO * s + 2 * d + v && items == all[..|items|]
        {
          ItemPosition(catalog, s, d, v);
          items := items + [NewItem(catalog[s], DimensionAt(d), VIEWPORTS[v])];
        }
      }
    }
    checklist := Checklist(Template, None, None, None, items);
  }

  lemma ItemPosition(catalog: seq<CatalogEntry>, s: nat, d: nat, v: nat)
    requires s < |catalog| && d < 9 && v < 2
    ensures var k := PER_SCENARIO * s + 2 * d + v;
      k < |AllItems(catalog)| && AllItems(catalog)[k] == NewItem(catalog[s], DimensionAt(d), VIEWPORTS[v])
  {
    PositionParts(s, d, v);
  }

  /** The item for one scenario, dimension and viewport carries their names and has no verdict yet. */
  lemma ItemNamesItsParts(catalog: seq<CatalogEntry>, s: nat, d: nat, v: nat)
    requires s < |catalog| && d < 9 && v < 2
    ensures var k := 18 * s + 2 * d + v;
      k < |AllItems(catalog)| && var item := AllItems(catalog)[k];
      && item.id == catalog[s].id + ":" + DimensionAt(d).id + ":" + (if v == 0 then "desktop" else "mobile")
      && item.scenarioId == catalog[s].id && item.scenarioTitle == catalog[s].title
      && item.dimension == DimensionAt(d).id && item.dimensionTitle == DimensionAt(d).title
      && item.viewport == (if v == 0 then "desktop" else "mobile")
      && item.verdict == None && item.notes == None
  {
    ItemPosition(catalog, s, d, v);
  }

  lemma PositionParts(s: nat, d: nat, v: nat)
    requires d < 9 && v < 2
    ensures var k := PER_SCENARIO * s + 2 * d + v;
      k / PER_SCENARIO == s && k % PER_SCENARIO / 2 == d && k % 2 == v
  {
    ScenarioPart(s, 2 * d + v);
    ViewportPart(PER_SCENARIO / 2 * s + d, v);
  }

  lemma ScenarioPart(s: nat, r: nat)
    requires r < PER_SCENARIO
    ensures (PER_SCENARIO * s + r) / PER_SCENARIO == s && (PER_SCENARIO * s + r) % PER_SCENARIO == r
  {
  }

  lemma ViewportPart(m: nat, v: nat)
    requires v < 2
    ensures (2 * m + v) % 2 == v && (2 * m + v) / 2 == m
  {
  }

  lemma SamePosition(k: nat, l: nat)
    requires k / PER_SCENARIO == l / PER_SCENARIO && k % PER_SCENARIO / 2 == l % PER_SCENARIO / 2 && k % 2 == l % 2
    ensures k == l
  {
    Recompose(k);
    Recompose(l);
  }

  lemma Recompose(k: nat)
    ensures k == PER_SCENARIO * (k / PER_SCENARIO) + 2 * (k % PER_SCENARIO / 2) + k % 2
  {
    assert k % PER_SCENARIO % 2 == k % 2;
  }

  lemma LastPart(a: string, b: string, a': string, b': string)
    requires ':' !in b && ':' !in b' && a + ":" + b == a' + ":" + b'
    ensures a == a' && b == b'
  {
    var whole := a + ":" + b;
    assert whole[|a|] == ':' && whole[|a'|] == ':';
    assert whole[..|a|] == a && whole[|a| + 1..] == b;
    assert (a' + ":" + b')[..|a'|] == a' && (a' + ":" + b')[|a'| + 1..] == b';
  }

  lemma DimensionHasNoColon(i: nat)
    requires i < 9
    ensures ':' !in DimensionAt(i).id
  {
    assert ':' !in "screen_clarity" && ':' !in "operational_ease" by { NoColonInFirst(); }
    assert ':' !in "real_workflow" && ':' !in "perceived_blockers" by { NoColonInSecond(); }
    assert ':' !in "error_messages" && ':' !in "state_visibility" by { NoColonInThird(); }
    assert ':' !in "document_usage" && ':' !in "allowed_actions" by { NoColonInFourth(); }
    assert ':' !in "user_comprehension" by { NoColonInLast(); }
  }

  lemma NoColonInFirst()
    ensures ':' !in "screen_clarity" && ':' !in "operational_ease"
  {
  }

  lemma NoColonInSecond()
    ensures ':' !in "real_workflow" && ':' !in "perceived_blockers"
  {
  }

  lemma NoColonInThird()
    ensures ':' !in "error_messages" && ':' !in "state_visibility"
  {
  }

  lemma NoColonInFourth()
    ensures ':' !in "document_usage" && ':' !in "allowed_actions"
  {
  }

  lemma NoColonInLast()
    ensures ':' !in "user_comprehension"
  {
  }

  /** The dimension ids differ in their first two letters. */
  lemma DimensionIdsDistinct(i: nat, j: nat)
    requires i < 9 && j < 9 && DimensionAt(i).id == DimensionAt(j).id
    ensures i == j
  {
    assert |DimensionAt(i).id| >= 2;
    var c, d := DimensionAt(i).id[0], DimensionAt(i).id[1];
    assert DimensionAt(j).id[0] == c && DimensionAt(j).id[1] == d;
  }

  ghost predicate DistinctScenarios(catalog: seq<CatalogEntry>) {
    forall i, j :: 0 <= i < j < |catalog| ==> catalog[i].id != catalog[j].id
  }

  /** Item ids are distinct for any distinct scenario ids, even ones that contain the separator. */
  lemma ItemIdsDistinct(catalog: seq<CatalogEntry>, k: nat, l: nat)
    requires DistinctScenarios(catalog) && k < |AllItems(catalog)| && l < |AllItems(catalog)|
    requires AllItems(catalog)[k].id == AllItems(catalog)[l].id
    ensures k == l
  {
    var (s, d, v) := (k / PER_SCENARIO, k % PER_SCENARIO / 2, k % 2);
    var (s', d', v') := (l / PER_SCENARIO, l % PER_SCENARIO / 2, l % 2);
    ViewportsPlain(v, v');
    DimensionHasNoColon(d);
    DimensionHasNoColon(d');
    IdParts(catalog[s].id, DimensionAt(d).id, VIEWPORTS[v], catalog[s'].id, DimensionAt(d').id, VIEWPORTS[v']);
    DimensionIdsDistinct(d, d');
    SamePosition(k, l);
  }

  lemma ViewportsPlain(v: nat, v': nat)
    requires v < 2 && v' < 2
    ensures ':' !in VIEWPORTS[v] && ':' !in VIEWPORTS[v'] && (VIEWPORTS[v] == VIEWPORTS[v'] ==> v == v')
  {
    assert VIEWPORTS[0][0] != VIEWPORTS[1][0];
  }

  lemma IdParts(a: string, d: string, v: string, a': string, d': string, v': string)
    requires ':' !in d && ':' !in d' && ':' !in v && ':' !in v' && ItemId(a, d, v) == ItemId(a', d', v')
    ensures a == a' && d == d' && v == v'
  {
    LastPart(a + ":" + d, v, a' + ":" + d', v');
    LastPart(a, d, a', d');
  }

  // ----- Summary --------------------------------------------------------------------------------

  datatype Summary = Summary(total: nat, pass: nat, fail: nat, observation: nat, blocker: nat, pending: nat)

  function CountOf(items: seq<Item>, v: Option<Verdict>): nat {
    if items == [] then 0
    else CountOf(items[..|items| - 1], v) + (if items[|items| - 1].verdict == v then 1 else 0)
  }

  method SummarizeUatSession(checklist: Checklist) returns (s: Summary)
    ensures s == SummaryOf(checklist.items)
  {
    s := Summary(|checklist.items|, 0, 0, 0, 0, 0);
    var i := 0;
    while i < |checklist.items|
      invariant i <= |checklist.items|
      invariant s == SummaryOf(checklist.items[..i]).(total := |checklist.items|)
    {
      assert checklist.items[..i + 1][..i] == checklist.items[..i];
      match checklist.items[i].verdict {
        case Some(Pass) => s := s.(pass := s.pass + 1);
        case Some(Fail) => s := s.(fail := s.fail + 1);
        case Some(Observation) => s := s.(observation := s.observation + 1);
        case Some(Blocker) => s := s.(blocker := s.blocker + 1);
        case None => s := s.(pending := s.pending + 1);
      }
      i := i + 1;
    }
    assert checklist.items[..i] == checklist.items;
  }

  function SummaryOf(items: seq<Item>): Summary {
    Summary(|items|, CountOf(items, Some(Pass)), CountOf(items, Some(Fail)), CountOf(items, Some(Observation)),
            CountOf(items, Some(Blocker)), CountOf(items, None))
  }

  /** Every item is counted exactly once. */
  lemma {:induction false} SummaryAddsUp(items: seq<Item>)
    ensures var s := SummaryOf(items); s.pass + s.fail + s.observation + s.blocker + s.pending == s.total
  {
    if items != [] {
      SummaryAddsUp(items[..|items| - 1]);
      match items[|items| - 1].verdict {
        case None =>
        case Some(v) =>
          match v {
            case Pass =>
            case Fail =>
            case Observation =>
            case Blocker =>
          }
      }
    }
  }

  // ----- Begin and close ------------------------------------------------------------------------

  /** The scenario ids in order of first appearance. */
  function FirstAppearances(items: seq<Item>): seq<string> {
    if items == [] then []
    else
      var before, last := FirstAppearances(items[..|items| - 1]), items[|items| - 1].scenarioId;
      if last in before then before else before + [last]
  }

  function BeginUatSession(s: Session, performedBy: string, environment: string, sessionId: Option<string>,
                           drawnId: string): Reply
  {
    if s.record.status != NotStarted then Rejected(NotStartable)
    else if Trim(performedBy) == "" || Trim(environment) == "" then Rejected(MissingOperator)
    else
      var id := if sessionId.Some? && Trim(sessionId.value) != "" then Trim(sessionId.value) else drawnId;
      var checklist := s.checklist.(status := ChecklistInProgress, sessionId := Some(id),
                                    performedBy := Some(Trim(performedBy)), environment := Some(Trim(environment)));
      var record := s.record.(status := InProgress, completed := false, sessionId := Some(id),
                              performedBy := Some(Trim(performedBy)), environment := Some(Trim(environment)),
                              scenarios := FirstAppearances(s.checklist.items),
                              history := s.record.history
                                         + [HistoryEntry(Trim(performedBy), "UAT_SESSION_STARTED", id)]);
      Changed(Session(record, checklist))
  }

  /** The last update for an id wins. */
  function LastUpdate(updates: seq<Update>, id: string): Option<Update> {
    if updates == [] then None
    else if updates[|updates| - 1].id == id then Some(updates[|updates| - 1])
    else LastUpdate(updates[..|updates| - 1], id)
  }

  function Updated(item: Item, updates: seq<Update>): Item {
    match LastUpdate(updates, item.id)
    case None => item
    case Some(u) => item.(verdict := u.verdict, notes := u.notes)
  }

  function UpdatedItems(items: seq<Item>, updates: seq<Update>): (r: seq<Item>)
    ensures |r| == |items|
  {
    seq(|items|, i requires 0 <= i < |items| => Updated(items[i], updates))
  }

  function IssueText(item: Item): string {
    item.id + ": " + (if item.notes.Some? then item.notes.value else item.dimensionTitle)
  }

  function IssueTexts(items: seq<Item>): (r: seq<string>)
    ensures |r| == |items|
  {
    seq(|items|, i requires 0 <= i < |items| => IssueText(items[i]))
  }

  function StatusName(s: UatStatus): string {
    match s
    case NotStarted => "NOT_STARTED"
    case InProgress => "IN_PROGRESS"
    case Passed => "PASSED"
    case PassedWithObservations => "PASSED_WITH_OBSERVATIONS"
    case Failed => "FAILED"
  }

  function CloseUatSession(s: Session, closedBy: string, updates: seq<Update>): Reply {
    if s.record.status != InProgress || s.checklist.status != ChecklistInProgress then Rejected(NotInProgress)
    else
      var items := UpdatedItems(s.checklist.items, updates);
      var unresolved := Filter((i: Item) => i.verdict == None, items);
      if unresolved != [] then Rejected(Unresolved(|unresolved|))
      else
        var blockers := Filter((i: Item) => i.verdict == Some(Blocker) || i.verdict == Some(Fail), items);
        var observations := Filter((i: Item) => i.verdict == Some(Observation), items);
        var final := if blockers != [] then Failed else if observations != [] then PassedWithObservations else Passed;
        var record := s.record.(status := final, completed := true, result := Some(final),
                                issuesFound := IssueTexts(observations), blockingIssues := IssueTexts(blockers),
                                approval := if blockers != [] then None else Some(Trim(closedBy)),
                                history := s.record.history
                                           + [HistoryEntry(Trim(closedBy), "UAT_SESSION_CLOSED", StatusName(final))]);
        Changed(Session(record, s.checklist.(status := ChecklistClosed, items := items)))
  }

  lemma {:induction false} FilterCounts(items: seq<Item>)
    ensures |Filter((i: Item) => i.verdict == None, items)| == CountOf(items, None)
    ensures |Filter((i: Item) => i.verdict == Some(Observation), items)| == CountOf(items, Some(Observation))
    ensures |Filter((i: Item) => i.verdict == Some(Blocker) || i.verdict == Some(Fail), items)|
      == CountOf(items, Some(Blocker)) + CountOf(items, Some(Fail))
  {
    if items != [] {
      var init, last := items[..|items| - 1], items[|items| - 1];
      FilterCounts(init);
      assert items == init + [last];
      FilterAppend((i: Item) => i.verdict == None, init, [last]);
      FilterAppend((i: Item) => i.verdict == Some(Observation), init, [last]);
      FilterAppend((i: Item) => i.verdict == Some(Blocker) || i.verdict == Some(Fail), init, [last]);
    }
  }

  lemma {:induction false} NonePendingIff(items: seq<Item>)
    ensures CountOf(items, None) == 0 <==> forall i :: 0 <= i < |items| ==> items[i].verdict.Some?
  {
    if items != [] {
      var n := |items| - 1;
      NonePendingIff(items[..n]);
      assert (forall i :: 0 <= i < |items| ==> items[i].verdict.Some?) <==>
        items[n].verdict.Some? && forall i :: 0 <= i < n ==> items[..n][i].verdict.Some?;
    }
  }

  lemma {:induction false} FirstAppearancesExact(items: seq<Item>)
    ensures NoDuplicates(FirstAppearances(items))
    ensures forall id :: id in FirstAppearances(items) <==> exists i :: 0 <= i < |items| && items[i].scenarioId == id
  {
    if items != [] {
      var n := |items| - 1;
      FirstAppearancesExact(items[..n]);
      assert forall i :: 0 <= i < n ==> items[..n][i] == items[i];
      forall id
        ensures id in FirstAppearances(items) <==> exists i :: 0 <= i < |items| && items[i].scenarioId == id
      {
        if exists i :: 0 <= i < |items| && items[i].scenarioId == id {
          var i :| 0 <= i < |items| && items[i].scenarioId == id;
          assert i < n ==> items[..n][i].scenarioId == id;
        }
        if id in FirstAppearances(items) {
          assert id in FirstAppearances(items[..n]) || items[n].scenarioId == id;
        }
      }
    }
  }

  /** Beginning succeeds exactly when nothing was started and an operator and an environment are
      named.  Record and checklist then agree on who, where and which session, and the record lists
      every scenario of the checklist once; no verdict changes. */
  lemma BeginsIff(s: Session, performedBy: string, environment: string, sessionId: Option<string>, drawnId: string)
    ensures var reply := BeginUatSession(s, performedBy, environment, sessionId, drawnId);
      && (reply.Changed? <==> s.record.status == NotStarted && Trim(performedBy) != "" && Trim(environment) != "")
      && (reply.Changed? ==>
            var (r, c) := (reply.session.record, reply.session.checklist);
            && r.performedBy == c.performedBy == Some(Trim(performedBy))
            && r.environment == c.environment == Some(Trim(environment))
            && r.sessionId == c.sessionId && r.sessionId.Some?
            && (sessionId.Some? && Trim(sessionId.value) != "" ==> r.sessionId == Some(Trim(sessionId.value)))
            && (sessionId.None? || Trim(sessionId.value) == "" ==> r.sessionId == Some(drawnId))
            && r.history == s.record.history
                            + [HistoryEntry(Trim(performedBy), "UAT_SESSION_STARTED", r.sessionId.value)]
            && c.items == s.checklist.items && NoDuplicates(r.scenarios)
            && forall id :: id in r.scenarios <==> exists i :: 0 <= i < |c.items| && c.items[i].scenarioId == id)
  {
    FirstAppearancesExact(s.checklist.items);
  }

  // ----- Which update an item takes -------------------------------------------------------------

  /** The update at `k` is the last one that names the item. */
  ghost predicate LastNaming(updates: seq<Update>, id: string, k: nat) {
    k < |updates| && updates[k].id == id && forall j :: k < j < |updates| ==> updates[j].id != id
  }

  lemma {:induction false} LastUpdateWins(updates: seq<Update>, id: string, k: nat)
    requires LastNaming(updates, id, k)
    ensures LastUpdate(updates, id) == Some(updates[k])
  {
    var n := |updates| - 1;
    if k < n {
      LastUpdateWins(updates[..n], id, k);
    }
  }

  lemma {:induction false} LastNamingExists(updates: seq<Update>, id: string) returns (k: nat)
    requires LastUpdate(updates, id).Some?
    ensures LastNaming(updates, id, k)
  {
    var n := |updates| - 1;
    if updates[n].id == id {
      k := n;
    } else {
      k := LastNamingExists(updates[..n], id);
    }
  }

  /** The item ends with a verdict: the last update that names it gives one, or none names it and it
      had one. */
  ghost predicate EndsWithVerdict(item: Item, updates: seq<Update>) {
    && (forall k: nat :: LastNaming(updates, item.id, k) ==> updates[k].verdict.Some?)
    && ((forall u :: u in updates ==> u.id != item.id) ==> item.verdict.Some?)
  }

  lemma VerdictDecided(item: Item, updates: seq<Update>)
    ensures Updated(item, updates).verdict.Some? <==> EndsWithVerdict(item, updates)
  {
    LastUpdateGiven(updates, item.id);
    if LastUpdate(updates, item.id).Some? {
      var last := LastNamingExists(updates, item.id);
      LastUpdateWins(updates, item.id, last);
      assert last < |updates| && updates[last] in updates;
      forall k: nat | LastNaming(updates, item.id, k)
        ensures k == last
      {
      }
    } else {
      forall k: nat | LastNaming(updates, item.id, k)
        ensures false
      {
        LastUpdateWins(updates, item.id, k);
      }
    }
  }

  /** Closing succeeds exactly when the session is in progress and every item then has a verdict. */
  lemma ClosesIff(s: Session, closedBy: string, updates: seq<Update>)
    ensures CloseUatSession(s, closedBy, updates).Changed? <==>
      && s.record.status == InProgress && s.checklist.status == ChecklistInProgress
      && forall i :: 0 <= i < |s.checklist.items| ==> EndsWithVerdict(s.checklist.items[i], updates)
  {
    var was, items := s.checklist.items, UpdatedItems(s.checklist.items, updates);
    FilterCounts(items);
    NonePendingIff(items);
    forall i | 0 <= i < |items|
      ensures items[i].verdict.Some? <==> EndsWithVerdict(was[i], updates)
    {
      VerdictDecided(was[i], updates);
    }
  }

  /** A command is rejected for the first of its reasons; a close with items left open counts them. */
  lemma RejectedIff(s: Session, c: Command, n: nat)
    ensures var reply, idle := Answer(s, c), s.record.status != InProgress || s.checklist.status != ChecklistInProgress;
      && (reply == Rejected(NotStartable) <==> c.Begin? && s.record.status != NotStarted)
      && (reply == Rejected(MissingOperator) <==>
            c.Begin? && s.record.status == NotStarted && (Trim(c.performedBy) == "" || Trim(c.environment) == ""))
      && (reply == Rejected(NotInProgress) <==> c.Close? && idle)
      && (reply == Rejected(Unresolved(n)) <==>
            c.Close? && !idle && n > 0 && n == SummaryOf(UpdatedItems(s.checklist.items, c.updates)).pending)
  {
    if c.Close? {
      FilterCounts(UpdatedItems(s.checklist.items, c.updates));
    }
  }

  /** An item ends with the verdict and notes of the last update that names it. */
  lemma ClosedTakesLastUpdate(s: Session, closedBy: string, updates: seq<Update>, i: nat, k: nat)
    requires CloseUatSession(s, closedBy, updates).Changed? && i < |s.checklist.items|
    requires LastNaming(updates, s.checklist.items[i].id, k)
    ensures var now := CloseUatSession(s, closedBy, updates).session.checklist.items;
      |now| == |s.checklist.items|
      && now[i] == s.checklist.items[i].(verdict := updates[k].verdict, notes := updates[k].notes)
  {
    LastUpdateWins(updates, s.checklist.items[i].id, k);
  }

  lemma {:induction false} FilterMember<T(!new)>(keep: T -> bool, s: seq<T>, x: T)
    ensures x in Filter(keep, s) <==> x in s && keep(x)
  {
    if s != [] {
      FilterMember(keep, s[1..], x);
      assert s == [s[0]] + s[1..];
    }
  }

  /** What a report says of an item: its id with its notes, or else with the title of its dimension. */
  ghost predicate Describes(text: string, item: Item) {
    text == item.id + ": " + (match item.notes case Some(notes) => notes case None => item.dimensionTitle)
  }

  lemma TextsOfItems(items: seq<Item>, text: string)
    ensures text in IssueTexts(items) <==> exists item :: item in items && Describes(text, item)
  {
    var texts := IssueTexts(items);
    if text in texts {
      var i :| 0 <= i < |texts| && texts[i] == text;
      assert items[i] in items && Describes(text, items[i]);
    }
    if exists item :: item in items && Describes(text, item) {
      var item :| item in items && Describes(text, item);
      var i :| 0 <= i < |items| && items[i] == item;
      assert texts[i] == text;
    }
  }

  /** The blocking issues describe exactly the failed and blocked items, the others the observations. */
  lemma IssuesDescribeItems(s: Session, closedBy: string, updates: seq<Update>, text: string)
    requires CloseUatSession(s, closedBy, updates).Changed?
    ensures var (r, items) := (CloseUatSession(s, closedBy, updates).session.record,
                               CloseUatSession(s, closedBy, updates).session.checklist.items);
      && (text in r.blockingIssues <==>
            exists item :: item in items && item.verdict in {Some(Fail), Some(Blocker)} && Describes(text, item))
      && (text in r.issuesFound <==>
            exists item :: item in items && item.verdict == Some(Observation) && Describes(text, item))
  {
    var items := UpdatedItems(s.checklist.items, updates);
    var blocking, observed := (i: Item) => i.verdict == Some(Blocker) || i.verdict == Some(Fail),
                              (i: Item) => i.verdict == Some(Observation);
    TextsOfItems(Filter(blocking, items), text);
    TextsOfItems(Filter(observed, items), text);
    forall item: Item
      ensures item in Filter(blocking, items) <==> item in items && item.verdict in {Some(Fail), Some(Blocker)}
      ensures item in Filter(observed, items) <==> item in items && item.verdict == Some(Observation)
    {
      FilterMember(blocking, items, item);
      FilterMember(observed, items, item);
    }
  }

  /** A closed checklist has the same items in the same places; only verdicts and notes are new, and
      only where an update named the item. */
  lemma ClosedKeepsItems(s: Session, closedBy: string, updates: seq<Update>, i: nat)
    requires CloseUatSession(s, closedBy, updates).Changed? && i < |s.checklist.items|
    ensures var (was, now) := (s.checklist.items, CloseUatSession(s, closedBy, updates).session.checklist.items);
      && |now| == |was| && now[i].(verdict := was[i].verdict, notes := was[i].notes) == was[i]
      && ((forall u :: u in updates ==> u.id != was[i].id) ==> now[i] == was[i])
      && (now[i] != was[i] ==>
            exists u :: u in updates && u.id == was[i].id && now[i].verdict == u.verdict && now[i].notes == u.notes)
  {
    LastUpdateGiven(updates, s.checklist.items[i].id);
  }

  lemma {:induction false} LastUpdateGiven(updates: seq<Update>, id: string)
    ensures LastUpdate(updates, id).Some? ==>
      LastUpdate(updates, id).value in updates && LastUpdate(updates, id).value.id == id
    ensures LastUpdate(updates, id).None? <==> forall u :: u in updates ==> u.id != id
  {
    if updates != [] {
      var n := |updates| - 1;
      LastUpdateGiven(updates[..n], id);
      assert updates == updates[..n] + [updates[n]];
    }
  }

  /** A closed session's status, issue lists and approval agree with the summary of its checklist. */
  lemma ClosedAgreesWithSummary(s: Session, closedBy: string, updates: seq<Update>)
    requires CloseUatSession(s, closedBy, updates).Changed?
    ensures var closed := CloseUatSession(s, closedBy, updates).session;
      var (r, sum) := (closed.record, SummaryOf(closed.checklist.items));
      && sum.pending == 0 && sum.total == |s.checklist.items|
      && (r.status == Failed <==> sum.fail + sum.blocker > 0)
      && (r.status == Passed <==> sum.pass == sum.total)
      && (r.status == PassedWithObservations <==> sum.fail + sum.blocker == 0 && sum.observation > 0)
      && r.status in {Passed, PassedWithObservations, Failed} && r.result == Some(r.status)
      && |r.issuesFound| == sum.observation && |r.blockingIssues| == sum.fail + sum.blocker
      && r.approval == (if r.status == Failed then None else Some(Trim(closedBy)))
      && r.history == s.record.history + [HistoryEntry(Trim(closedBy), "UAT_SESSION_CLOSED", StatusName(r.status))]
  {
    var items := UpdatedItems(s.checklist.items, updates);
    FilterCounts(items);
    SummaryAddsUp(items);
  }

  // ----- Whole runs -----------------------------------------------------------------------------

  datatype Command =
    | Begin(performedBy: string, environment: string, sessionId: Option<string>, drawnId: string)
    | Close(closedBy: string, updates: seq<Update>)

  function Answer(s: Session, c: Command): Reply {
    match c
    case Begin(who, environment, id, drawn) => BeginUatSession(s, who, environment, id, drawn)
    case Close(who, updates) => CloseUatSession(s, who, updates)
  }

  function After(s: Session, c: Command): Session {
    var reply := Answer(s, c);
    if reply.Changed? then reply.session else s
  }

  function Run(s: Session, cs: seq<Command>): Session {
    if cs == [] then s else After(Run(s, cs[..|cs| - 1]), cs[|cs| - 1])
  }

  /** The commands of a run that were accepted. */
  function AcceptedCommands(s: Session, cs: seq<Command>): seq<Command> {
    if cs == [] then []
    else
      var before := cs[..|cs| - 1];
      AcceptedCommands(s, before)
      + (if Answer(Run(s, before), cs[|cs| - 1]).Changed? then [cs[|cs| - 1]] else [])
  }

  predicate Final(status: UatStatus) {
    status in {Passed, PassedWithObservations, Failed}
  }

  /** A run from a fresh record and template accepts nothing, one begin, or one begin and one close,
      and its state says which; the history records exactly the accepted commands. */
  lemma {:induction false} SessionRun(s: Session, cs: seq<Command>)
    requires s.record.status == NotStarted && s.checklist.status == Template
    ensures var (now, accepted) := (Run(s, cs), AcceptedCommands(s, cs));
      && |now.record.history| == |s.record.history| + |accepted|
      && |now.checklist.items| == |s.checklist.items|
      && |accepted| <= 2
      && (|accepted| == 0 ==> now == s)
      && (|accepted| == 1 ==>
            accepted[0].Begin? && now.record.status == InProgress && now.checklist.status == ChecklistInProgress)
      && (|accepted| == 2 ==>
            accepted[0].Begin? && accepted[1].Close? && Final(now.record.status)
            && now.checklist.status == ChecklistClosed && now.record.completed)
  {
    if cs != [] {
      var before, c := cs[..|cs| - 1], cs[|cs| - 1];
      SessionRun(s, before);
      if c.Close? && Answer(Run(s, before), c).Changed? {
        ClosedAgreesWithSummary(Run(s, before), c.closedBy, c.updates);
      }
    }
  }

  /** A finished session is never changed again. */
  lemma {:induction false} FinalAbsorbs(s: Session, cs: seq<Command>)
    requires Final(s.record.status)
    ensures Run(s, cs) == s && AcceptedCommands(s, cs) == []
  {
    if cs != [] {
      FinalAbsorbs(s, cs[..|cs| - 1]);
    }
  }
}
