/** What whole runs of the synthetic seed guarantee: idempotence, and convergence of a rerun after a
    failure or an interruption. */
module SyntheticSeedRuns {

  import opened Common
  import opened SyntheticScenarios
  import opened SyntheticSeed
  import opened SyntheticWork

  /** The scenarios of one key agree on the flow (the declared list even has distinct keys). */
  ghost predicate Consistent(list: seq<Scenario>) {
    forall i, j :: 0 <= i < |list| && 0 <= j < |list| && list[i].key == list[j].key ==> list[i].flow == list[j].flow
  }

  ghost function Keys(list: seq<Scenario>): set<Key> {
    set i | 0 <= i < |list| :: list[i].key
  }

  /** The rows a scenario should end with: those of a complete earlier run, else freshly made ones. */
  function Settled(w: World, s: Scenario): Rows {
    if Present(w, s) then w[s.key] else Build(Plan(s.flow))
  }

  function Settle(w: World, list: seq<Scenario>): World
    decreases list
  {
    if list == [] then w else Settle(w[list[0].key := Settled(w, list[0])], list[1..])
  }

  function Reports(w: World, list: seq<Scenario>): (r: seq<Outcome>)
    ensures |r| == |list|
    decreases list
  {
    if list == [] then []
    else [if Present(w, list[0]) then AlreadyPresent else Created]
         + Reports(w[list[0].key := Settled(w, list[0])], list[1..])
  }

  function NoFaults(n: nat): (f: seq<Fault>)
    ensures |f| == n
  {
    seq(n, _ => NoFault)
  }

  lemma PlanCompletes(flow: Flow)
    ensures |Plan(flow)| >= 1 && IsComplete(flow, Build(Plan(flow)))
  {
    assert Plan(flow)[..|Plan(flow)|] == Plan(flow);
    TestExact(flow, |Plan(flow)|);
  }

  /** One scenario that returns leaves its settled rows, complete; `Skipped` is never returned. */
  lemma ReturnedScenario(w: World, s: Scenario, fault: Fault)
    ensures var (w', run) := ScenarioStep(w, s, fault);
      run.Returned? && !run.outcome.Failed? ==>
        && w' == w[s.key := Settled(w, s)]
        && Present(w', s)
        && run.outcome == (if Present(w, s) then AlreadyPresent else Created)
  {
    PlanCompletes(s.flow);
    assert Plan(s.flow)[..|Plan(s.flow)|] == Plan(s.flow);
    var (w', run) := ScenarioStep(w, s, fault);
    if run.Returned? && !run.outcome.Failed? {
      assert w' == w[s.key := Settled(w, s)];
    }
  }

  // ----- Settling, key by key -------------------------------------------------------------------

  lemma {:induction false} SettleOutside(w: World, list: seq<Scenario>, k: Key)
    requires k !in Keys(list)
    ensures (k in Settle(w, list) <==> k in w) && (k in w ==> Settle(w, list)[k] == w[k])
    decreases list
  {
    if list != [] {
      assert list[0].key in Keys(list);
      assert forall i :: 0 <= i < |list[1..]| ==> list[1..][i] == list[i + 1];
      SettleOutside(w[list[0].key := Settled(w, list[0])], list[1..], k);
    }
  }

  lemma {:induction false} SettleInside(w: World, list: seq<Scenario>, j: nat)
    requires Consistent(list) && j < |list|
    ensures list[j].key in Settle(w, list) && Settle(w, list)[list[j].key] == Settled(w, list[j])
    ensures Present(Settle(w, list), list[j])
    decreases list
  {
    var w1, rest := w[list[0].key := Settled(w, list[0])], list[1..];
    var k := list[j].key;
    PlanCompletes(list[j].flow);
    if j > 0 {
      assert rest[j - 1] == list[j];
      SettleInside(w1, rest, j - 1);
    } else if k in Keys(rest) {
      var i :| 0 <= i < |rest| && rest[i].key == k;
      assert rest[i] == list[i + 1];
      SettleInside(w1, rest, i);
    } else {
      SettleOutside(w1, rest, k);
    }
  }

  lemma {:induction false} SettleAppend(w: World, list: seq<Scenario>, n: nat)
    requires n < |list|
    ensures Settle(w, list[..n + 1]) ==
      (var before := Settle(w, list[..n]); before[list[n].key := Settled(before, list[n])])
    decreases n
  {
    if n > 0 {
      var w1 := w[list[0].key := Settled(w, list[0])];
      assert list[..n + 1][1..] == list[1..][..n] && list[..n][1..] == list[1..][..n - 1];
      SettleAppend(w1, list[1..], n - 1);
    }
  }

  // ----- Runs -----------------------------------------------------------------------------------

  /** What a run leaves when it throws at scenario `at`. */
  function Wreck(w: World, s: Scenario, fault: Fault, undoWorks: bool): World {
    if fault.StopBefore? then w
    else if undoWorks then w - {s.key}
    else ScenarioStep(w, s, fault).0
  }

  predicate Breaks(w: World, s: Scenario, fault: Fault) {
    fault.StopBefore? || ScenarioStep(w, s, fault).1 in {Raised, Returned(Failed)}
  }

  /** A run that has reached scenario `i` in the world `now` either settles the rest of the list or
      settles it up to the scenario at which it throws. */
  ghost predicate RunShape(w: World, list: seq<Scenario>, faults: seq<Fault>, undoWorks: bool, i: nat,
                           results: seq<Outcome>, run: SeedRun)
    requires i <= |list| == |faults|
  {
    match run
    case Finished(w', r) => w' == Settle(w, list) && r == results + Reports(Settle(w, list[..i]), list[i..])
    case Abandoned(w', at) =>
      && i <= at < |list| && Breaks(Settle(w, list[..at]), list[at], faults[at])
      && w' == Wreck(Settle(w, list[..at]), list[at], faults[at], undoWorks)
  }

  lemma ReportStep(w: World, list: seq<Scenario>, i: nat, results: seq<Outcome>, outcome: Outcome)
    requires i < |list|
    requires outcome == (if Present(Settle(w, list[..i]), list[i]) then AlreadyPresent else Created)
    ensures results + [outcome] + Reports(Settle(w, list[..i + 1]), list[i + 1..])
         == results + Reports(Settle(w, list[..i]), list[i..])
  {
    SettleAppend(w, list, i);
    assert list[i..][0] == list[i] && list[i..][1..] == list[i + 1..];
  }

  /** One turn of the loop. */
  lemma SeedTurn(w: World, list: seq<Scenario>, faults: seq<Fault>, undoWorks: bool, i: nat, results: seq<Outcome>)
    requires i < |list| == |faults|
    ensures SeedFrom(w, list, faults, undoWorks, i, results) ==
      if Breaks(w, list[i], faults[i]) then Abandoned(Wreck(w, list[i], faults[i], undoWorks), i)
      else
        var outcome := if Present(w, list[i]) then AlreadyPresent else Created;
        SeedFrom(w[list[i].key := Settled(w, list[i])], list, faults, undoWorks, i + 1, results + [outcome])
  {
    var s := list[i];
    if Breaks(w, s, faults[i]) {
      KeyRemoved(w, s, faults[i]);
    } else {
      ReturnedScenario(w, s, faults[i]);
    }
  }

  /** A scenario touches no key but its own. */
  lemma KeyRemoved(w: World, s: Scenario, fault: Fault)
    ensures ScenarioStep(w, s, fault).0 - {s.key} == w - {s.key}
  {
  }

  lemma {:induction false} RunSettles(w: World, list: seq<Scenario>, faults: seq<Fault>, undoWorks: bool,
                                      i: nat, results: seq<Outcome>)
    requires i <= |list| == |faults|
    ensures RunShape(w, list, faults, undoWorks, i, results,
                     SeedFrom(Settle(w, list[..i]), list, faults, undoWorks, i, results))
    decreases |list| - i
  {
    var now := Settle(w, list[..i]);
    if i == |list| {
      assert list[..i] == list && list[i..] == [];
    } else {
      SeedTurn(now, list, faults, undoWorks, i, results);
      if !Breaks(now, list[i], faults[i]) {
        var outcome := if Present(now, list[i]) then AlreadyPresent else Created;
        SettleAppend(w, list, i);
        ReportStep(w, list, i, results, outcome);
        RunSettles(w, list, faults, undoWorks, i + 1, results + [outcome]);
      }
    }
  }

  lemma NothingBreaks(w: World, s: Scenario)
    ensures !Breaks(w, s, NoFault)
  {
  }

  /** A fault-free run settles the list; every report is `Created` or `AlreadyPresent`. */
  lemma CleanRun(w: World, list: seq<Scenario>, undoWorks: bool)
    ensures Seed(w, list, NoFaults(|list|), undoWorks) == Finished(Settle(w, list), Reports(w, list))
  {
    RunSettles(w, list, NoFaults(|list|), undoWorks, 0, []);
    assert list[..0] == [] && list[0..] == list && [] + Reports(w, list) == Reports(w, list);
    CleanNeverThrows(w, list, undoWorks, 0, []);
  }

  lemma {:induction false} CleanNeverThrows(w: World, list: seq<Scenario>, undoWorks: bool, i: nat,
                                            results: seq<Outcome>)
    requires i <= |list|
    ensures SeedFrom(w, list, NoFaults(|list|), undoWorks, i, results).Finished?
    decreases |list| - i
  {
    if i < |list| {
      NothingBreaks(w, list[i]);
      SeedTurn(w, list, NoFaults(|list|), undoWorks, i, results);
      CleanNeverThrows(w[list[i].key := Settled(w, list[i])], list, undoWorks, i + 1,
                       results + [if Present(w, list[i]) then AlreadyPresent else Created]);
    }
  }

  /** A report says `AlreadyPresent` exactly for a scenario that was complete before the run, or
      whose key the run has already dealt with. */
  lemma {:induction false} ReportExact(w: World, list: seq<Scenario>, j: nat)
    requires Consistent(list) && j < |list|
    ensures Reports(w, list)[j] == AlreadyPresent <==>
      Present(w, list[j]) || exists i :: 0 <= i < j && list[i].key == list[j].key
    decreases j
  {
    if j > 0 {
      var w1, rest := w[list[0].key := Settled(w, list[0])], list[1..];
      assert rest[j - 1] == list[j];
      ReportExact(w1, rest, j - 1);
      PlanCompletes(list[0].flow);
      if exists i :: 0 <= i < j && list[i].key == list[j].key {
        var i :| 0 <= i < j && list[i].key == list[j].key;
        if i > 0 {
          assert rest[i - 1].key == rest[j - 1].key;
        }
      }
    }
  }

  /** Idempotence: a second run changes nothing and reports only `AlreadyPresent`. */
  lemma SecondRunChangesNothing(w: World, list: seq<Scenario>, undoWorks: bool)
    requires Consistent(list)
    ensures var once := Settle(w, list);
      Seed(once, list, NoFaults(|list|), undoWorks) == Finished(once, seq(|list|, _ => AlreadyPresent))
  {
    var once := Settle(w, list);
    CleanRun(once, list, undoWorks);
    forall j | 0 <= j < |list|
      ensures Present(once, list[j]) && Reports(once, list)[j] == AlreadyPresent
    {
      SettleInside(w, list, j);
      ReportExact(once, list, j);
    }
    assert Reports(once, list) == seq(|list|, _ => AlreadyPresent);
    SettledIsFixed(once, list);
  }

  lemma {:induction false} SettledIsFixed(w: World, list: seq<Scenario>)
    requires forall j :: 0 <= j < |list| ==> Present(w, list[j])
    ensures Settle(w, list) == w
    decreases list
  {
    if list != [] {
      assert w[list[0].key := Settled(w, list[0])] == w;
      assert forall j :: 0 <= j < |list[1..]| ==> list[1..][j] == list[j + 1];
      SettledIsFixed(w, list[1..]);
    }
  }

  // ----- The rows a run leaves ------------------------------------------------------------------

  /** On an empty world a fault-free run leaves, for each scenario, exactly the rows its flow is meant
      to end with, and nothing else. */
  lemma CleanRunLeaves(list: seq<Scenario>, undoWorks: bool)
    requires Consistent(list)
    ensures var run := Seed(map[], list, NoFaults(|list|), undoWorks);
      && run.Finished?
      && (forall k :: k in run.world <==> k in Keys(list))
      && forall i :: 0 <= i < |list| ==> list[i].key in run.world && run.world[list[i].key] == EndRows(list[i].flow)
  {
    CleanRun(map[], list, undoWorks);
    var w := Settle(map[], list);
    forall i | 0 <= i < |list|
      ensures list[i].key in w && w[list[i].key] == EndRows(list[i].flow)
    {
      SettleInside(map[], list, i);
      FinalRows(list[i].flow);
    }
    forall k
      ensures k in w <==> k in Keys(list)
    {
      if k !in Keys(list) {
        SettleOutside(map[], list, k);
      }
    }
  }

  ghost predicate AllInOrder(w: World) {
    forall k :: k in w ==> InOrder(w[k])
  }

  lemma ScenarioKeepsOrder(w: World, s: Scenario, fault: Fault)
    requires AllInOrder(w)
    ensures AllInOrder(ScenarioStep(w, s, fault).0) && AllInOrder(ScenarioStep(w, s, fault).0 - {s.key})
  {
    var plan := Plan(s.flow);
    WorkIsOrderly(s.flow, |plan|);
    if Interrupts(fault, plan) {
      WorkIsOrderly(s.flow, fault.step);
    }
  }

  lemma StoppedTurnKeepsOrder(w: World, list: seq<Scenario>, faults: seq<Fault>, undoWorks: bool, i: nat,
                              results: seq<Outcome>)
    requires AllInOrder(w) && i < |list| == |faults|
    requires Breaks(w, list[i], faults[i])
    ensures AllInOrder(SeedFrom(w, list, faults, undoWorks, i, results).world)
  {
    ScenarioKeepsOrder(w, list[i], faults[i]);
  }

  /** Whatever fails and wherever a run stops, the rows it leaves are those of orderly work. */
  lemma {:induction false} RunKeepsOrder(w: World, list: seq<Scenario>, faults: seq<Fault>, undoWorks: bool, i: nat,
                                         results: seq<Outcome>)
    requires AllInOrder(w) && i <= |list| == |faults|
    ensures AllInOrder(SeedFrom(w, list, faults, undoWorks, i, results).world)
    decreases |list| - i
  {
    if i < |list| {
      if Breaks(w, list[i], faults[i]) {
        StoppedTurnKeepsOrder(w, list, faults, undoWorks, i, results);
      } else {
        ScenarioKeepsOrder(w, list[i], faults[i]);
        var (w', run) := ScenarioStep(w, list[i], faults[i]);
        RunKeepsOrder(w', list, faults, undoWorks, i + 1, results + [run.outcome]);
      }
    }
  }

  // ----- Failure, interruption and rerun --------------------------------------------------------

  /** After a failed run whose undo worked: earlier scenarios are complete and as a fault-free run
      leaves them, the failed one has no rows, keys further on are untouched. */
  lemma FailureIsContained(w: World, list: seq<Scenario>, faults: seq<Fault>, w': World, at: nat)
    requires at < |list| == |faults| && Consistent(list)
    requires Seed(w, list, faults, true) == Abandoned(w', at) && !faults[at].StopBefore?
    ensures list[at].key !in w'
    ensures forall i :: 0 <= i < at && list[i].key != list[at].key ==>
      Present(w', list[i]) && w'[list[i].key] == Settled(w, list[i])
    ensures forall k :: k !in Keys(list[..at + 1]) ==> (k in w' <==> k in w) && (k in w ==> w'[k] == w[k])
  {
    assert list[..0] == [];
    RunSettles(w, list, faults, true, 0, []);
    var before := list[..at];
    forall i | 0 <= i < at && list[i].key != list[at].key
      ensures Present(w', list[i]) && w'[list[i].key] == Settled(w, list[i])
    {
      assert before[i] == list[i];
      SettleInside(w, before, i);
    }
    forall k | k !in Keys(list[..at + 1])
      ensures (k in w' <==> k in w) && (k in w ==> w'[k] == w[k])
    {
      assert list[..at + 1][at] == list[at];
      assert forall i :: 0 <= i < |before| ==> before[i] == list[..at + 1][i];
      SettleOutside(w, before, k);
    }
  }

  /** A world that agrees with a half-settled one except at one scenario's key settles to the same
      world exactly when that scenario does. */
  lemma SameExceptAt(w: World, w': World, list: seq<Scenario>, at: nat)
    requires Consistent(list) && at < |list|
    requires w' - {list[at].key} == Settle(w, list[..at]) - {list[at].key}
    ensures Settle(w', list) == Settle(w, list) <==> Settled(w', list[at]) == Settled(w, list[at])
  {
    SettleInside(w, list, at);
    SettleInside(w', list, at);
    if Settled(w', list[at]) == Settled(w, list[at]) {
      forall k
        ensures k in Settle(w', list) <==> k in Settle(w, list)
        ensures k in Settle(w, list) ==> Settle(w', list)[k] == Settle(w, list)[k]
      {
        SameAtKey(w, w', list, at, k);
      }
      assert Settle(w', list) == Settle(w, list);
    }
  }

  lemma SameAtKey(w: World, w': World, list: seq<Scenario>, at: nat, k: Key)
    requires Consistent(list) && at < |list|
    requires w' - {list[at].key} == Settle(w, list[..at]) - {list[at].key}
    requires Settled(w', list[at]) == Settled(w, list[at])
    ensures k in Settle(w', list) <==> k in Settle(w, list)
    ensures k in Settle(w, list) ==> Settle(w', list)[k] == Settle(w, list)[k]
  {
    var before := list[..at];
    if k != list[at].key {
      assert k in w' <==> k in w' - {list[at].key};
      assert k in Settle(w, before) <==> k in Settle(w, before) - {list[at].key};
      assert k in w' ==> w'[k] == (w' - {list[at].key})[k];
      BeforeOrUntouched(w, list, at, k);
    }
    if k in Keys(list) {
      var j :| 0 <= j < |list| && list[j].key == k;
      SettleInside(w, list, j);
      SettleInside(w', list, j);
      if k == list[at].key {
        assert list[j].flow == list[at].flow;
      }
    } else {
      assert list[at].key in Keys(list);
      SettleOutside(w, list, k);
      SettleOutside(w', list, k);
    }
  }

  /** Settling the first scenarios gives a key its settled rows, or leaves it alone. */
  lemma BeforeOrUntouched(w: World, list: seq<Scenario>, at: nat, k: Key)
    requires Consistent(list) && at <= |list|
    ensures var now := Settle(w, list[..at]);
      if k in Keys(list[..at]) then
        forall j :: 0 <= j < |list| && list[j].key == k ==>
          k in now && now[k] == Settled(w, list[j]) && Present(now, list[j])
      else (k in now <==> k in w) && (k in w ==> now[k] == w[k])
    ensures k in Keys(list[..at]) ==> k in Keys(list)
  {
    var before := list[..at];
    if k in Keys(before) {
      var i :| 0 <= i < |before| && before[i].key == k;
      assert before[i] == list[i];
      SettleInside(w, before, i);
    } else {
      SettleOutside(w, before, k);
    }
  }

  /** The flows whose completion test asks for less than the flow does. */
  predicate TestAsksTooLittle(flow: Flow) {
    flow in {ProposalIssuedFlow, ProposalRejectedFlow, ProposalExpiredFlow}
  }

  /** When a fault-free rerun repairs a run that threw: always after a working undo, except that a
      failing read may have removed a complete scenario whose rows were not the fresh ones; without
      the undo, unless the flow was cut between its proposal and its last step and its test is one
      that asks too little. */
  predicate RerunRepairs(fault: Fault, s: Scenario, undoWorks: bool, settled: Rows) {
    match fault
    case ReadFails => undoWorks ==> settled == Build(Plan(s.flow))
    case ThrowsBefore(n) => undoWorks || !TestAsksTooLittle(s.flow) || n < |OPENING|
    case _ => true
  }

  lemma CutRowsDiffer(flow: Flow, n: nat)
    requires Milestone(flow) <= n < |Plan(flow)|
    ensures Build(Plan(flow)[..n]) == Build(Plan(flow)) <==> !TestAsksTooLittle(flow)
  {
    if TestAsksTooLittle(flow) {
      CutTooLittle(flow, n);
    } else {
      CutElsewhere(flow, n);
    }
  }

  lemma CutTooLittle(flow: Flow, n: nat)
    requires TestAsksTooLittle(flow) && Milestone(flow) <= n < |Plan(flow)|
    ensures Build(Plan(flow)[..n]) != Build(Plan(flow))
  {
    TooLittleShape(flow, n);
    StatusesDiffer(Plan(flow), n);
  }

  lemma CutElsewhere(flow: Flow, n: nat)
    requires !TestAsksTooLittle(flow) && Milestone(flow) <= n < |Plan(flow)|
    ensures Build(Plan(flow)[..n]) == Build(Plan(flow))
  {
    LastIsDownload(flow);
    LastStepIdle(Plan(flow), n);
  }

  /** The last step run and the last step planned leave different statuses. */
  ghost predicate EndsApart(plan: seq<Step>, n: nat) {
    && 0 < n < |plan| && SetsProposal(plan[n - 1]) && SetsProposal(plan[|plan| - 1])
    && ProposalAfter(None, plan[n - 1]) != ProposalAfter(None, plan[|plan| - 1])
  }

  lemma StatusesDiffer(plan: seq<Step>, n: nat)
    requires EndsApart(plan, n)
    ensures Build(plan[..n]) != Build(plan)
  {
    ProposalStatusOf(plan[..n]);
    ProposalStatusOf(plan);
  }

  lemma LastStepIdle(plan: seq<Step>, n: nat)
    requires n + 1 == |plan| && plan[n] == DownloadPdf
    ensures Build(plan[..n]) == Build(plan)
  {
  }

  predicate SetsProposal(step: Step) {
    step in {CreateProposal, IssueProposal, RejectProposal, ExpireProposal}
  }

  lemma ProposalStatusOf(steps: seq<Step>)
    requires steps != [] && SetsProposal(steps[|steps| - 1])
    ensures Build(steps).proposal == ProposalAfter(None, steps[|steps| - 1])
  {
  }

  lemma TooLittleShape(flow: Flow, n: nat)
    requires TestAsksTooLittle(flow) && Milestone(flow) <= n < |Plan(flow)|
    ensures EndsApart(Plan(flow), n)
  {
  }

  /** Where the test of any other flow holds before the last step, that step changes no row. */
  lemma LastIsDownload(flow: Flow)
    requires !TestAsksTooLittle(flow) && Milestone(flow) < |Plan(flow)|
    ensures Milestone(flow) == |Plan(flow)| - 1 && Plan(flow)[|Plan(flow)| - 1] == DownloadPdf
  {
  }

  /** Settling the scenarios before `at` does not change what `at` should end with. */
  lemma SettledSoFar(w: World, list: seq<Scenario>, at: nat)
    requires Consistent(list) && at < |list|
    ensures Settled(Settle(w, list[..at]), list[at]) == Settled(w, list[at])
  {
    BeforeOrUntouched(w, list, at, list[at].key);
  }

  /** The world left by a throw, at the key of the scenario that threw. */
  lemma WreckSettles(w: World, s: Scenario, fault: Fault, undoWorks: bool)
    requires Breaks(w, s, fault)
    ensures var w' := Wreck(w, s, fault, undoWorks);
      && w' - {s.key} == w - {s.key}
      && (Settled(w', s) == Settled(w, s) <==> RerunRepairs(fault, s, undoWorks, Settled(w, s)))
  {
    PlanCompletes(s.flow);
    var w' := Wreck(w, s, fault, undoWorks);
    assert w' - {s.key} == w - {s.key};
    if fault.ThrowsBefore? && !undoWorks && fault.step > 0 {
      assert w'[s.key] == Build(Plan(s.flow)[..fault.step]);
      TestExact(s.flow, fault.step);
      if Milestone(s.flow) <= fault.step {
        CutRowsDiffer(s.flow, fault.step);
      }
    }
  }

  /** Convergence: the rerun of an abandoned run ends in the same world as one fault-free run if and
      only if `RerunRepairs`.  A process that dies at some step is the case of an undo that fails. */
  lemma RerunConvergesIff(w: World, list: seq<Scenario>, faults: seq<Fault>, undoWorks: bool, w': World, at: nat)
    requires at < |list| == |faults| && Consistent(list)
    requires Seed(w, list, faults, undoWorks) == Abandoned(w', at)
    ensures Seed(w', list, NoFaults(|list|), undoWorks).world == Seed(w, list, NoFaults(|list|), undoWorks).world
      <==> RerunRepairs(faults[at], list[at], undoWorks, Settled(w, list[at]))
  {
    assert list[..0] == [];
    RunSettles(w, list, faults, undoWorks, 0, []);
    CleanRun(w, list, undoWorks);
    CleanRun(w', list, undoWorks);
    SettledSoFar(w, list, at);
    WreckSettles(Settle(w, list[..at]), list[at], faults[at], undoWorks);
    SameExceptAt(w, w', list, at);
  }

  /** The trap is real: a process that dies after the proposal of an issued-proposal scenario leaves
      rows that the rerun takes for complete. */
  lemma CrashIsNotRepaired(key: Key)
    ensures var list := [Scenario(key, ProposalIssuedFlow)];
      var crashed := Seed(map[], list, [ThrowsBefore(|OPENING|)], false);
      crashed.Abandoned? && crashed.at == 0
      && Seed(crashed.world, list, NoFaults(1), false).world != Seed(map[], list, NoFaults(1), false).world
  {
    var list := [Scenario(key, ProposalIssuedFlow)];
    var faults := [ThrowsBefore(|OPENING|)];
    var crashed := Seed(map[], list, faults, false);
    RerunConvergesIff(map[], list, faults, false, crashed.world, 0);
  }
}
