/** The synthetic business seed as a saga: it creates one scenario after another, skips complete
    ones, and removes partial ones before a retry and after a failure.

    The world maps a scenario key to the rows that hang off its namespace client; a key is present
    exactly when that client exists. */
module SyntheticSeed {

  import opened Common
  import opened SyntheticScenarios

  type World = map<Key, Rows>

  /** What goes wrong while one scenario runs. */
  datatype Fault =
    | NoFault
    | StopBefore                  // the runner is told to fail before this scenario is tried
    | ReadFails                   // the look-up or the completion test throws
    | CleanupFails                // the removal of a partial earlier attempt throws
    | ThrowsBefore(step: nat)     // the flow throws just before its step number `step`

  datatype Outcome = Created | AlreadyPresent | Skipped | Failed

  datatype Run = Returned(outcome: Outcome) | Raised

  datatype CallStatus = Passed | Thrown {
    predicate IsFailure() { Thrown? }
    function PropagateFailure(): Run
      requires Thrown?
    {
      Raised
    }
  }

  // ----- Specification --------------------------------------------------------------------------

  /** The world after the first `n` calls of a plan. */
  function After(w: World, key: Key, plan: seq<Step>, n: nat): World
    requires n <= |plan|
  {
    if n == 0 then w else w[key := Build(plan[..n])]
  }

  predicate Interrupts(fault: Fault, plan: seq<Step>) {
    fault.ThrowsBefore? && fault.step < |plan|
  }

  predicate Present(w: World, s: Scenario) {
    s.key in w && IsComplete(s.flow, w[s.key])
  }

  function ScenarioStep(w: World, s: Scenario, fault: Fault): (World, Run) {
    if fault.ReadFails? then (w, Raised)
    else if Present(w, s) then (w, Returned(AlreadyPresent))
    else if s.key in w && fault.CleanupFails? then (w, Raised)
    else if Interrupts(fault, Plan(s.flow)) then
      (After(w - {s.key}, s.key, Plan(s.flow), fault.step),
       if s.flow.Vertical? then Returned(Failed) else Raised)
    else (After(w - {s.key}, s.key, Plan(s.flow), |Plan(s.flow)|), Returned(Created))
  }

  datatype SeedRun = Finished(world: World, results: seq<Outcome>) | Abandoned(world: World, at: nat)

  function SeedFrom(w: World, list: seq<Scenario>, faults: seq<Fault>, undoWorks: bool,
                    i: nat, results: seq<Outcome>): SeedRun
    requires i <= |list| == |faults|
    decreases |list| - i
  {
    if i == |list| then Finished(w, results)
    else if faults[i].StopBefore? then Abandoned(w, i)
    else
      var (w', run) := ScenarioStep(w, list[i], faults[i]);
      if run.Returned? && !run.outcome.Failed? then
        SeedFrom(w', list, faults, undoWorks, i + 1, results + [run.outcome])
      else Abandoned(if undoWorks then w' - {list[i].key} else w', i)
  }

  function Seed(w: World, list: seq<Scenario>, faults: seq<Fault>, undoWorks: bool): SeedRun
    requires |list| == |faults|
  {
    SeedFrom(w, list, faults, undoWorks, 0, [])
  }

  // ----- The runner -----------------------------------------------------------------------------

  /** What `runPartialFlow` still does after the order is prepared, after the purchase order is
      registered, after the proposal is created, and after the client is created.  A vertical flow
      falls through all the exits. */
  function AfterPrepared(flow: Flow): seq<Step> {
    match flow
    case ServiceOrderCancelledFlow => [CancelOrder]
    case MeasurementPendingFlow => [ReleaseOrder] + (ALLOCATION + (EXECUTING + [CreateMeasurement]))
    case _ => [ReleaseOrder] + (EXECUTING + [])
  }

  function AfterOrdering(flow: Flow): seq<Step> {
    if flow.PurchaseOrderCancelledFlow? then [CancelPurchaseOrder]
    else REQUESTING + ([ConvertRequest] + ([PrepareOrder] + AfterPrepared(flow)))
  }

  function AfterProposal(flow: Flow): seq<Step> {
    match flow
    case ProposalDraftFlow => []
    case ProposalIssuedFlow => [IssueProposal] + []
    case ProposalRejectedFlow => [IssueProposal] + [RejectProposal]
    case ProposalExpiredFlow => [IssueProposal] + [ExpireProposal]
    case _ => [IssueProposal] + (ORDERING + AfterOrdering(flow))
  }

  function AfterClient(flow: Flow): seq<Step> {
    if flow.ClientInactiveFlow? then [DeactivateClient] else PROPOSING + AfterProposal(flow)
  }

  function PartialPlan(flow: Flow): seq<Step> {
    [CreateClient] + AfterClient(flow)
  }

  lemma Grouped<T>(a: seq<T>, b: seq<T>, c: seq<T>, d: seq<T>, e: seq<T>, f: seq<T>, g: seq<T>)
    ensures a + b + c + d + e + f + g == a + (b + (c + (d + (e + (f + g)))))
  {
  }

  lemma GroupedByThree<T>(a: seq<T>, b: seq<T>, c: seq<T>)
    ensures a + (b + c) == a + b + c
  {
  }

  /** Split into its exits, a partial flow makes the calls of its plan. */
  lemma PartialPlanIsPlan(flow: Flow)
    requires !flow.Vertical?
    ensures PartialPlan(flow) == Plan(flow)
  {
    if !flow.ClientInactiveFlow? {
      GroupedByThree([CreateClient], PROPOSING, AfterProposal(flow));
      if !ProposalOnly(flow) {
        PlanFromOrdering(flow);
      } else if !flow.ProposalDraftFlow? {
        assert PartialPlan(flow) == OPENING + AfterProposal(flow);
      }
    }
  }

  lemma PlanFromOrdering(flow: Flow)
    requires !ProposalOnly(flow) && !flow.ClientInactiveFlow? && !flow.Vertical?
    ensures OPENING + AfterProposal(flow) == Plan(flow)
  {
    var issued := OPENING + [IssueProposal];
    GroupedByThree(OPENING, [IssueProposal], ORDERING + AfterOrdering(flow));
    GroupedByThree(issued, ORDERING, AfterOrdering(flow));
    if !flow.PurchaseOrderCancelledFlow? {
      Grouped(issued, ORDERING, REQUESTING, [ConvertRequest], [PrepareOrder], AfterPrepared(flow), []);
      PlanFromPrepared(flow);
      PreparedInSteps(issued + ORDERING + REQUESTING, AfterPrepared(flow));
    }
  }

  lemma PreparedInSteps(before: seq<Step>, after: seq<Step>)
    ensures before + [ConvertRequest] + [PrepareOrder] + after + [] == before + [ConvertRequest, PrepareOrder] + after
    ensures after + [] == after
  {
  }

  lemma PlanFromPrepared(flow: Flow)
    requires flow.ServiceOrderCancelledFlow? || flow.MeasurementPendingFlow?
    ensures PARTIAL_TO_PREPARED + AfterPrepared(flow) == Plan(flow)
  {
    if flow.MeasurementPendingFlow? {
      Grouped(PARTIAL_TO_PREPARED, [ReleaseOrder], ALLOCATION, EXECUTING, [CreateMeasurement], [], []);
      assert [CreateMeasurement] + ([] + []) == [CreateMeasurement];
    }
  }

  /** What the vertical pipeline still does after the execution, and after the order is prepared. */
  function AfterExecution(stop: Stop): seq<Step> {
    match stop
    case StopMeasurementApproved => MEASURING + []
    case StopComplete => MEASURING + (BILLING + [])
    case _ => []
  }

  function AfterVerticalPrepared(resources: seq<string>, stop: Stop): seq<Step> {
    match stop
    case StopPrepared => []
    case StopReleased => [ReleaseOrder] + []
    case _ => [ReleaseOrder] + (Allocations(resources) + (EXECUTING + AfterExecution(stop)))
  }

  function VerticalPlan(transport: bool, resources: seq<string>, stop: Stop): seq<Step> {
    VERTICAL_TO_CONVERTED
    + ((if transport then [UpdateRoute] else []) + ([PrepareOrder] + AfterVerticalPrepared(resources, stop)))
  }

  lemma VerticalPlanIsPlan(transport: bool, resources: seq<string>, stop: Stop)
    ensures VerticalPlan(transport, resources, stop) == Plan(Vertical(transport, resources, stop))
  {
    var route := if transport then [UpdateRoute] else [];
    var (a, x) := (Allocations(resources), AfterExecution(stop));
    Grouped(VERTICAL_TO_CONVERTED, route, [PrepareOrder], [ReleaseOrder], a, EXECUTING, x);
    match stop
    case StopPrepared =>
      assert VERTICAL_TO_CONVERTED + (route + ([PrepareOrder] + [])) == VERTICAL_TO_CONVERTED + route + [PrepareOrder];
    case StopReleased =>
      assert VERTICAL_TO_CONVERTED + (route + ([PrepareOrder] + ([ReleaseOrder] + [])))
          == VERTICAL_TO_CONVERTED + route + [PrepareOrder] + [ReleaseOrder];
    case StopCompletedExecution =>
      assert VerticalToCompleted(transport, resources) + [] == VerticalToCompleted(transport, resources);
    case StopMeasurementApproved =>
      assert MEASURING + [] == MEASURING;
    case StopComplete =>
      assert VerticalToCompleted(transport, resources) + (MEASURING + (BILLING + []))
          == VerticalToCompleted(transport, resources) + MEASURING + BILLING;
  }

  lemma {:induction false} AllocationsInOrder(resources: seq<string>)
    requires resources != []
    ensures Allocations(resources) == ALLOCATION + Allocations(resources[1..])
  {
    var last := |resources| - 1;
    if last > 0 {
      AllocationsInOrder(resources[..last]);
      assert resources[1..][..last - 1] == resources[..last][1..];
    }
  }

  /** The calls still to be made. */
  ghost predicate Left(plan: seq<Step>, calls: nat, steps: seq<Step>) {
    calls <= |plan| && plan[calls..] == steps
  }

  lemma LeftStep(plan: seq<Step>, calls: nat, step: Step, rest: seq<Step>)
    requires Left(plan, calls, [step] + rest)
    ensures calls < |plan| && plan[calls] == step && Left(plan, calls + 1, rest)
  {
    assert plan[calls] == plan[calls..][0] && plan[calls + 1..] == plan[calls..][1..];
  }

  lemma AfterStep(w: World, key: Key, plan: seq<Step>, n: nat)
    requires key !in w && n < |plan|
    ensures var now := After(w, key, plan, n);
      After(w, key, plan, n + 1) == now[key := Apply(if key in now then now[key] else NEW_CLIENT, plan[n])]
  {
    var done, now := plan[..n + 1], After(w, key, plan, n);
    assert done[..|done| - 1] == plan[..n];
    assert Build(done) == Apply(Build(plan[..n]), plan[n]);
    assert Build(plan[..n]) == if key in now then now[key] else NEW_CLIENT;
    assert w[key := Build(done)] == now[key := Build(done)];
  }

  /** The services behind the runner, with the fault of the scenario at hand. */
  class SeedServices {
    var rows: World
    var fault: Fault
    var calls: nat

    constructor (rows: World)
      ensures this.rows == rows
    {
      this.rows := rows;
      fault := NoFault;
      calls := 0;
    }

    /** The flow has made `calls` calls of `plan` on top of the world `w`. */
    ghost predicate Tracks(w: World, key: Key, plan: seq<Step>)
      reads this
    {
      && key !in w
      && calls <= |plan|
      && rows == After(w, key, plan, calls)
      && (fault.ThrowsBefore? ==> calls <= fault.step)
    }

    method Call(ghost w: World, key: Key, ghost plan: seq<Step>, step: Step, ghost rest: seq<Step>)
      returns (status: CallStatus)
      requires Tracks(w, key, plan) && Left(plan, calls, [step] + rest)
      modifies this`rows, this`calls
      ensures Tracks(w, key, plan)
      ensures status.Passed? ==> calls == old(calls) + 1 && Left(plan, calls, rest)
      ensures status.Thrown? ==> calls == old(calls) < |plan| && fault == ThrowsBefore(calls)
    {
      LeftStep(plan, calls, step, rest);
      if fault == ThrowsBefore(calls) {
        return Thrown;
      }
      AfterStep(w, key, plan, calls);
      rows := rows[key := Apply(if key in rows then rows[key] else NEW_CLIENT, step)];
      calls := calls + 1;
      return Passed;
    }

    /** The consecutive calls of one stage. */
    method CallEach(ghost w: World, key: Key, ghost plan: seq<Step>, steps: seq<Step>, ghost rest: seq<Step>)
      returns (status: CallStatus)
      requires Tracks(w, key, plan) && Left(plan, calls, steps + rest)
      modifies this`rows, this`calls
      ensures Tracks(w, key, plan)
      ensures status.Passed? ==> calls == old(calls) + |steps| && Left(plan, calls, rest)
      ensures status.Thrown? ==> fault == ThrowsBefore(calls) && calls < |plan|
    {
      status := Passed;
      var i := 0;
      while i < |steps|
        invariant i <= |steps| && status.Passed? && calls == old(calls) + i
        invariant Tracks(w, key, plan) && Left(plan, calls, steps[i..] + rest)
      {
        assert steps[i..] + rest == [steps[i]] + (steps[i + 1..] + rest);
        status := Call(w, key, plan, steps[i], steps[i + 1..] + rest);
        if status.Thrown? { return; }
        i := i + 1;
      }
      assert steps[i..] + rest == rest;
    }

    /** The outcome of a flow that made the calls of `plan` on top of `w`. */
    ghost predicate Ran(w: World, key: Key, plan: seq<Step>, run: Run, finished: Outcome, thrown: Run)
      reads this
    {
      if Interrupts(fault, plan) then run == thrown && rows == After(w, key, plan, fault.step)
      else run == Returned(finished) && rows == After(w, key, plan, |plan|)
    }

    method RunPartialFlow(s: Scenario) returns (run: Run)
      requires s.key !in rows
      modifies this`rows, this`calls
      ensures Ran(old(rows), s.key, PartialPlan(s.flow), run, if s.flow.Vertical? then Skipped else Created, Raised)
    {
      ghost var w := rows;
      ghost var plan := PartialPlan(s.flow);
      calls := 0;
      assert Left(plan, 0, plan);
      :- Call(w, s.key, plan, CreateClient, AfterClient(s.flow));
      run := RunFromClient(w, s, plan);
    }

    method RunFromClient(ghost w: World, s: Scenario, ghost plan: seq<Step>) returns (run: Run)
      requires Tracks(w, s.key, plan) && Left(plan, calls, AfterClient(s.flow))
      modifies this`rows, this`calls
      ensures Ran(w, s.key, plan, run, if s.flow.Vertical? then Skipped else Created, Raised)
    {
      if s.flow.ClientInactiveFlow? {
        :- Call(w, s.key, plan, DeactivateClient, []);
        return Returned(Created);
      }
      :- CallEach(w, s.key, plan, PROPOSING, AfterProposal(s.flow));
      if s.flow.ProposalDraftFlow? {
        return Returned(Created);
      }
      run := RunFromProposal(w, s, plan);
    }

    /** The rest of a partial flow, from the issue of the proposal on. */
    method RunFromProposal(ghost w: World, s: Scenario, ghost plan: seq<Step>) returns (run: Run)
      requires Tracks(w, s.key, plan) && Left(plan, calls, AfterProposal(s.flow))
      requires !s.flow.ProposalDraftFlow? && !s.flow.ClientInactiveFlow?
      modifies this`rows, this`calls
      ensures Ran(w, s.key, plan, run, if s.flow.Vertical? then Skipped else Created, Raised)
    {
      var status := Call(w, s.key, plan, IssueProposal, AfterProposal(s.flow)[1..]);
      :- status;
      if s.flow.ProposalIssuedFlow? {
        return Returned(Created);
      }
      if s.flow.ProposalRejectedFlow? {
        :- Call(w, s.key, plan, RejectProposal, []);
        return Returned(Created);
      }
      if s.flow.ProposalExpiredFlow? {
        :- Call(w, s.key, plan, ExpireProposal, []);
        return Returned(Created);
      }
      run := RunFromAcceptance(w, s, plan);
    }

    /** The rest of a partial flow, from the acceptance of the proposal on. */
    method RunFromAcceptance(ghost w: World, s: Scenario, ghost plan: seq<Step>) returns (run: Run)
      requires Tracks(w, s.key, plan) && Left(plan, calls, ORDERING + AfterOrdering(s.flow))
      requires !ProposalOnly(s.flow) && !s.flow.ClientInactiveFlow?
      modifies this`rows, this`calls
      ensures Ran(w, s.key, plan, run, if s.flow.Vertical? then Skipped else Created, Raised)
    {
      var status := CallEach(w, s.key, plan, ORDERING, AfterOrdering(s.flow));
      :- status;
      if s.flow.PurchaseOrderCancelledFlow? {
        :- Call(w, s.key, plan, CancelPurchaseOrder, []);
        return Returned(Created);
      }
      run := RunFromRequest(w, s, plan, AfterPrepared(s.flow));
    }

    method RunFromRequest(ghost w: World, s: Scenario, ghost plan: seq<Step>, ghost rest: seq<Step>)
      returns (run: Run)
      requires Tracks(w, s.key, plan) && rest == AfterPrepared(s.flow)
      requires Left(plan, calls, REQUESTING + ([ConvertRequest] + ([PrepareOrder] + rest)))
      requires s.flow.ServiceOrderCancelledFlow? || s.flow.MeasurementPendingFlow? || s.flow.Vertical?
      modifies this`rows, this`calls
      ensures Ran(w, s.key, plan, run, if s.flow.Vertical? then Skipped else Created, Raised)
    {
      var status := CallEach(w, s.key, plan, REQUESTING, [ConvertRequest] + ([PrepareOrder] + rest));
      :- status;
      :- Call(w, s.key, plan, ConvertRequest, [PrepareOrder] + rest);
      :- Call(w, s.key, plan, PrepareOrder, rest);
      run := RunFromPrepared(w, s, plan);
    }

    method RunFromPrepared(ghost w: World, s: Scenario, ghost plan: seq<Step>) returns (run: Run)
      requires Tracks(w, s.key, plan) && Left(plan, calls, AfterPrepared(s.flow))
      requires s.flow.ServiceOrderCancelledFlow? || s.flow.MeasurementPendingFlow? || s.flow.Vertical?
      modifies this`rows, this`calls
      ensures Ran(w, s.key, plan, run, if s.flow.Vertical? then Skipped else Created, Raised)
    {
      if s.flow.ServiceOrderCancelledFlow? {
        :- Call(w, s.key, plan, CancelOrder, []);
        return Returned(Created);
      }
      ghost var last := if s.flow.Vertical? then [] else [CreateMeasurement];
      ghost var rest := EXECUTING + last;
      :- Call(w, s.key, plan, ReleaseOrder, if s.flow.Vertical? then rest else ALLOCATION + rest);
      if s.flow.MeasurementPendingFlow? {
        :- CallEach(w, s.key, plan, ALLOCATION, rest);
      }
      run := RunFromAllocated(w, s, plan, last);
    }

    method RunFromAllocated(ghost w: World, s: Scenario, ghost plan: seq<Step>, ghost last: seq<Step>)
      returns (run: Run)
      requires s.flow.MeasurementPendingFlow? || s.flow.Vertical?
      requires last == if s.flow.Vertical? then [] else [CreateMeasurement]
      requires Tracks(w, s.key, plan) && Left(plan, calls, EXECUTING + last)
      modifies this`rows, this`calls
      ensures Ran(w, s.key, plan, run, if s.flow.Vertical? then Skipped else Created, Raised)
    {
      var status := CallEach(w, s.key, plan, EXECUTING, last);
      :- status;
      if s.flow.MeasurementPendingFlow? {
        :- Call(w, s.key, plan, CreateMeasurement, []);
        return Returned(Created);
      }
      return Returned(Skipped);
    }

    /** The vertical pipeline; every throw is turned into a FAIL result. */
    method RunUatVerticalScenario(s: Scenario) returns (run: Run)
      requires s.key !in rows && s.flow.Vertical?
      modifies this`rows, this`calls
      ensures Ran(old(rows), s.key, Plan(s.flow), run, Created, Returned(Failed))
    {
      ghost var w := rows;
      ghost var plan := VerticalPlan(s.flow.transport, s.flow.resources, s.flow.stopAfter);
      VerticalPlanIsPlan(s.flow.transport, s.flow.resources, s.flow.stopAfter);
      calls := 0;
      assert Left(plan, 0, plan);
      run := VerticalStages(w, s, plan, AfterVerticalPrepared(s.flow.resources, s.flow.stopAfter));
      if run.Raised? {
        run := Returned(Failed);
      }
    }

    method VerticalStages(ghost w: World, s: Scenario, ghost plan: seq<Step>, ghost rest: seq<Step>)
      returns (run: Run)
      requires Tracks(w, s.key, plan) && s.flow.Vertical?
      requires rest == AfterVerticalPrepared(s.flow.resources, s.flow.stopAfter)
      requires Left(plan, calls, VERTICAL_TO_CONVERTED
                                 + ((if s.flow.transport then [UpdateRoute] else []) + ([PrepareOrder] + rest)))
      modifies this`rows, this`calls
      ensures Ran(w, s.key, plan, run, Created, Raised)
    {
      ghost var route := if s.flow.transport then [UpdateRoute] else [];
      :- CallEach(w, s.key, plan, VERTICAL_TO_CONVERTED, route + ([PrepareOrder] + rest));
      run := VerticalFromConverted(w, s, plan, route, rest);
    }

    method VerticalFromConverted(ghost w: World, s: Scenario, ghost plan: seq<Step>, ghost route: seq<Step>,
                                 ghost rest: seq<Step>)
      returns (run: Run)
      requires Tracks(w, s.key, plan) && s.flow.Vertical?
      requires rest == AfterVerticalPrepared(s.flow.resources, s.flow.stopAfter)
      requires route == if s.flow.transport then [UpdateRoute] else []
      requires Left(plan, calls, route + ([PrepareOrder] + rest))
      modifies this`rows, this`calls
      ensures Ran(w, s.key, plan, run, Created, Raised)
    {
      if s.flow.transport {
        :- Call(w, s.key, plan, UpdateRoute, [PrepareOrder] + rest);
      } else {
        assert route + ([PrepareOrder] + rest) == [PrepareOrder] + rest;
      }
      :- Call(w, s.key, plan, PrepareOrder, rest);
      if s.flow.stopAfter.StopPrepared? {
        return Returned(Created);
      }
      run := VerticalFromPrepared(w, s, plan);
    }

    method VerticalFromPrepared(ghost w: World, s: Scenario, ghost plan: seq<Step>) returns (run: Run)
      requires Tracks(w, s.key, plan) && s.flow.Vertical? && !s.flow.stopAfter.StopPrepared?
      requires Left(plan, calls, AfterVerticalPrepared(s.flow.resources, s.flow.stopAfter))
      modifies this`rows, this`calls
      ensures Ran(w, s.key, plan, run, Created, Raised)
    {
      ghost var rest := EXECUTING + AfterExecution(s.flow.stopAfter);
      :- Call(w, s.key, plan, ReleaseOrder,
              if s.flow.stopAfter.StopReleased? then [] else Allocations(s.flow.resources) + rest);
      if s.flow.stopAfter.StopReleased? {
        return Returned(Created);
      }
      :- AllocateResources(w, s.key, plan, s.flow.resources, rest);
      run := VerticalFromAllocated(w, s, plan);
    }

    /** One round of allocation for each resource of the scenario. */
    method AllocateResources(ghost w: World, key: Key, ghost plan: seq<Step>, resources: seq<string>,
                             ghost rest: seq<Step>)
      returns (status: CallStatus)
      requires Tracks(w, key, plan) && Left(plan, calls, Allocations(resources) + rest)
      modifies this`rows, this`calls
      ensures Tracks(w, key, plan)
      ensures status.Passed? ==> calls == old(calls) + |Allocations(resources)| && Left(plan, calls, rest)
      ensures status.Thrown? ==> fault == ThrowsBefore(calls) && calls < |plan|
    {
      status := Passed;
      var i := 0;
      while i < |resources|
        invariant i <= |resources| && status.Passed? && Tracks(w, key, plan)
        invariant calls + |Allocations(resources[i..])| == old(calls) + |Allocations(resources)|
        invariant Left(plan, calls, Allocations(resources[i..]) + rest)
      {
        ghost var later := Allocations(resources[i + 1..]);
        AllocationsInOrder(resources[i..]);
        assert resources[i..][1..] == resources[i + 1..];
        assert ALLOCATION + later + rest == ALLOCATION + (later + rest);
        status := CallEach(w, key, plan, ALLOCATION, later + rest);
        if status.Thrown? { return; }
        i := i + 1;
      }
      assert Allocations(resources[i..]) + rest == rest;
    }

    method VerticalFromAllocated(ghost w: World, s: Scenario, ghost plan: seq<Step>) returns (run: Run)
      requires Tracks(w, s.key, plan) && s.flow.Vertical? && Rank(s.flow.stopAfter) >= 2
      requires Left(plan, calls, EXECUTING + AfterExecution(s.flow.stopAfter))
      modifies this`rows, this`calls
      ensures Ran(w, s.key, plan, run, Created, Raised)
    {
      var status := CallEach(w, s.key, plan, EXECUTING, AfterExecution(s.flow.stopAfter));
      :- status;
      if s.flow.stopAfter.StopCompletedExecution? {
        return Returned(Created);
      }
      run := VerticalFromCompleted(w, s, plan);
    }

    method VerticalFromCompleted(ghost w: World, s: Scenario, ghost plan: seq<Step>) returns (run: Run)
      requires Tracks(w, s.key, plan) && s.flow.Vertical? && Rank(s.flow.stopAfter) >= 3
      requires Left(plan, calls, AfterExecution(s.flow.stopAfter))
      modifies this`rows, this`calls
      ensures Ran(w, s.key, plan, run, Created, Raised)
    {
      ghost var rest := if s.flow.stopAfter.StopComplete? then BILLING + [] else [];
      :- CallEach(w, s.key, plan, MEASURING, rest);
      if s.flow.stopAfter.StopMeasurementApproved? {
        return Returned(Created);
      }
      :- CallEach(w, s.key, plan, BILLING, []);
      return Returned(Created);
    }

    /** Look up, skip, clean up, run. */
    method RunScenario(s: Scenario) returns (run: Run)
      modifies this`rows, this`calls
      ensures (rows, run) == ScenarioStep(old(rows), s, fault)
    {
      if fault.ReadFails? {
        return Raised;
      }
      if s.key in rows {
        if IsComplete(s.flow, rows[s.key]) {
          return Returned(AlreadyPresent);
        }
        if fault.CleanupFails? {
          return Raised;
        }
        rows := rows - {s.key};
      }
      assert rows == old(rows) - {s.key};
      if s.flow.Vertical? {
        run := RunUatVerticalScenario(s);
      } else {
        PartialPlanIsPlan(s.flow);
        run := RunPartialFlow(s);
      }
    }

    /** The whole seed; `abandoned` is the index at which it threw, if it did. */
    method RunSyntheticBusinessSeed(list: seq<Scenario>, faults: seq<Fault>, undoWorks: bool)
      returns (results: seq<Outcome>, abandoned: Option<nat>)
      requires |list| == |faults|
      modifies this
      ensures Seed(old(rows), list, faults, undoWorks) ==
        match abandoned
        case None => Finished(rows, results)
        case Some(at) => Abandoned(rows, at)
    {
      results := [];
      var i := 0;
      while i < |list|
        invariant i <= |list|
        invariant Seed(old(rows), list, faults, undoWorks) == SeedFrom(rows, list, faults, undoWorks, i, results)
      {
        fault := faults[i];
        if fault.StopBefore? {
          return results, Some(i);
        }
        var run := RunScenario(list[i]);
        if run.Returned? && !run.outcome.Failed? {
          results := results + [run.outcome];
        } else {
          if undoWorks {
            rows := rows - {list[i].key};
          }
          return results, Some(i);
        }
        i := i + 1;
      }
      abandoned := None;
    }
  }
}
