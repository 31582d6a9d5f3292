/** The scenarios of the synthetic business seed: the service calls each flow makes, the rows they
    leave, and the test that decides whether a scenario is complete. */
module SyntheticScenarios {

  import opened Common

  type Key = string

  // ----- Rows and service calls -----------------------------------------------------------------

  datatype ClientStatus = ClientActive | ClientInactive
  datatype ServiceStatus = ServiceDraft | ServicePublished
  datatype ProposalStatus = ProposalDraft | ProposalIssued | ProposalRejected | ProposalExpired | ProposalAccepted
  datatype PurchaseOrderStatus = OrderedDraft | OrderedRegistered | OrderedCancelled
  datatype RequestStatus = RequestCreated | RequestSubmitted | RequestInReview | RequestApproved | RequestConverted
  datatype ServiceOrderStatus = Draft | Prepared | Released | InExecution | Completed | Cancelled
  datatype MeasurementStatus = MeasurementCreated | MeasurementSubmitted | MeasurementInReview | MeasurementApproved

  datatype Rows = Rows(
    client: ClientStatus,
    category: bool,
    service: Option<ServiceStatus>,
    proposal: Option<ProposalStatus>,
    purchaseOrder: Option<PurchaseOrderStatus>,
    request: Option<RequestStatus>,
    requestDocuments: nat,
    order: Option<ServiceOrderStatus>,
    routeUpdated: bool,
    plannedResources: nat,
    assets: nat,
    allocations: nat,
    executionEntries: nat,
    measurement: Option<MeasurementStatus>,
    billingRecord: bool,
    billingDocument: bool)

  const NEW_CLIENT: Rows :=
    Rows(ClientActive, false, None, None, None, None, 0, None, false, 0, 0, 0, 0, None, false, false)

  /** One call to an access service.  Reads between calls are not steps: a failing read is a throw
      before the next step. */
  datatype Step =
    | CreateClient | DeactivateClient
    | EnsureCategory | CreateService | PublishService
    | CreateProposal | IssueProposal | RejectProposal | ExpireProposal | AcceptProposal
    | CreatePurchaseOrder | RegisterPurchaseOrder | CancelPurchaseOrder
    | CreateRequest | SubmitRequest | ReviewRequest | ApproveRequest | AttachDocument | ConvertRequest
    | UpdateRoute | PrepareOrder | CancelOrder | ReleaseOrder
    | PlanResource | CreateAsset | AllocateResource
    | StartExecution | RecordObservation | RecordQuantity | CompleteExecution
    | CreateMeasurement | SubmitMeasurement | ReviewMeasurement | ApproveMeasurement
    | PrepareBilling | IssueBillingDocument | DownloadPdf

  function ServiceAfter(before: Option<ServiceStatus>, step: Step): Option<ServiceStatus> {
    match step
    case CreateService => Some(ServiceDraft)
    case PublishService => Some(ServicePublished)
    case _ => before
  }

  function ProposalAfter(before: Option<ProposalStatus>, step: Step): Option<ProposalStatus> {
    match step
    case CreateProposal => Some(ProposalDraft)
    case IssueProposal => Some(ProposalIssued)
    case RejectProposal => Some(ProposalRejected)
    case ExpireProposal => Some(ProposalExpired)
    case AcceptProposal => Some(ProposalAccepted)
    case _ => before
  }

  function PurchaseOrderAfter(before: Option<PurchaseOrderStatus>, step: Step): Option<PurchaseOrderStatus> {
    match step
    case CreatePurchaseOrder => Some(OrderedDraft)
    case RegisterPurchaseOrder => Some(OrderedRegistered)
    case CancelPurchaseOrder => Some(OrderedCancelled)
    case _ => before
  }

  function RequestAfter(before: Option<RequestStatus>, step: Step): Option<RequestStatus> {
    match step
    case CreateRequest => Some(RequestCreated)
    case SubmitRequest => Some(RequestSubmitted)
    case ReviewRequest => Some(RequestInReview)
    case ApproveRequest => Some(RequestApproved)
    case ConvertRequest => Some(RequestConverted)
    case _ => before
  }

  function OrderAfter(before: Option<ServiceOrderStatus>, step: Step): Option<ServiceOrderStatus> {
    match step
    case ConvertRequest => Some(Draft)
    case PrepareOrder => Some(Prepared)
    case ReleaseOrder => Some(Released)
    case StartExecution => Some(InExecution)
    case CompleteExecution => Some(Completed)
    case CancelOrder => Some(Cancelled)
    case _ => before
  }

  function MeasurementAfter(before: Option<MeasurementStatus>, step: Step): Option<MeasurementStatus> {
    match step
    case CreateMeasurement => Some(MeasurementCreated)
    case SubmitMeasurement => Some(MeasurementSubmitted)
    case ReviewMeasurement => Some(MeasurementInReview)
    case ApproveMeasurement => Some(MeasurementApproved)
    case _ => before
  }

  function Plus(n: nat, counts: bool): nat {
    if counts then n + 1 else n
  }

  /** What a call leaves, table by table; `DownloadPdf` writes nothing. */
  function Apply(r: Rows, step: Step): Rows {
    if step.CreateClient? then NEW_CLIENT
    else
      Rows(if step.DeactivateClient? then ClientInactive else r.client,
           r.category || step.EnsureCategory?,
           ServiceAfter(r.service, step),
           ProposalAfter(r.proposal, step),
           PurchaseOrderAfter(r.purchaseOrder, step),
           RequestAfter(r.request, step),
           Plus(r.requestDocuments, step.AttachDocument?),
           OrderAfter(r.order, step),
           r.routeUpdated || step.UpdateRoute?,
           Plus(r.plannedResources, step.PlanResource?),
           Plus(r.assets, step.CreateAsset?),
           Plus(r.allocations, step.AllocateResource?),
           Plus(r.executionEntries, step.RecordObservation? || step.RecordQuantity?),
           MeasurementAfter(r.measurement, step),
           r.billingRecord || step.PrepareBilling?,
           r.billingDocument || step.IssueBillingDocument?)
  }

  /** The rows after some steps; the last step is applied last. */
  function Build(steps: seq<Step>): Rows {
    if steps == [] then NEW_CLIENT else Apply(Build(steps[..|steps| - 1]), steps[|steps| - 1])
  }

  // ----- Scenarios and their plans --------------------------------------------------------------

  datatype Stop = StopPrepared | StopReleased | StopCompletedExecution | StopMeasurementApproved | StopComplete

  function Rank(stop: Stop): nat {
    match stop
    case StopPrepared => 0
    case StopReleased => 1
    case StopCompletedExecution => 2
    case StopMeasurementApproved => 3
    case StopComplete => 4
  }

  datatype Flow =
    | Vertical(transport: bool, resources: seq<string>, stopAfter: Stop)
    | ProposalDraftFlow
    | ProposalIssuedFlow
    | ProposalRejectedFlow
    | ProposalExpiredFlow
    | PurchaseOrderCancelledFlow
    | ServiceOrderCancelledFlow
    | ClientInactiveFlow
    | MeasurementPendingFlow

  datatype Scenario = Scenario(key: Key, flow: Flow)

  const PROPOSING: seq<Step> := [EnsureCategory, CreateService, PublishService, CreateProposal]
  const OPENING: seq<Step> := [CreateClient] + PROPOSING
  const ORDERING: seq<Step> := [AcceptProposal, CreatePurchaseOrder, RegisterPurchaseOrder]
  const REQUESTING: seq<Step> := [CreateRequest, SubmitRequest, ReviewRequest, ApproveRequest]
  const ALLOCATION: seq<Step> := [PlanResource, CreateAsset, AllocateResource]
  const EXECUTING: seq<Step> := [StartExecution, RecordObservation, RecordQuantity, CompleteExecution]
  const MEASURING: seq<Step> := [CreateMeasurement, SubmitMeasurement, ReviewMeasurement, ApproveMeasurement]
  const BILLING: seq<Step> := [PrepareBilling, IssueBillingDocument, DownloadPdf]

  function Allocations(resources: seq<string>): seq<Step> {
    if resources == [] then [] else Allocations(resources[..|resources| - 1]) + ALLOCATION
  }

  const VERTICAL_TO_CONVERTED: seq<Step> :=
    OPENING + [IssueProposal] + ORDERING + REQUESTING + [AttachDocument, ConvertRequest]

  function VerticalToPrepared(transport: bool): seq<Step> {
    VERTICAL_TO_CONVERTED + (if transport then [UpdateRoute] else []) + [PrepareOrder]
  }

  function VerticalToCompleted(transport: bool, resources: seq<string>): seq<Step> {
    VerticalToPrepared(transport) + [ReleaseOrder] + Allocations(resources) + EXECUTING
  }

  const PARTIAL_TO_PREPARED: seq<Step> :=
    OPENING + [IssueProposal] + ORDERING + REQUESTING + [ConvertRequest, PrepareOrder]

  /** The service calls of a scenario, in order. */
  function Plan(flow: Flow): seq<Step> {
    match flow
    case ClientInactiveFlow => [CreateClient, DeactivateClient]
    case ProposalDraftFlow => OPENING
    case ProposalIssuedFlow => OPENING + [IssueProposal]
    case ProposalRejectedFlow => OPENING + [IssueProposal, RejectProposal]
    case ProposalExpiredFlow => OPENING + [IssueProposal, ExpireProposal]
    case PurchaseOrderCancelledFlow => OPENING + [IssueProposal] + ORDERING + [CancelPurchaseOrder]
    case ServiceOrderCancelledFlow => PARTIAL_TO_PREPARED + [CancelOrder]
    case MeasurementPendingFlow =>
      PARTIAL_TO_PREPARED + [ReleaseOrder] + ALLOCATION + EXECUTING + [CreateMeasurement]
    case Vertical(transport, resources, stop) =>
      match stop
      case StopPrepared => VerticalToPrepared(transport)
      case StopReleased => VerticalToPrepared(transport) + [ReleaseOrder]
      case StopCompletedExecution => VerticalToCompleted(transport, resources)
      case StopMeasurementApproved => VerticalToCompleted(transport, resources) + MEASURING
      case StopComplete => VerticalToCompleted(transport, resources) + MEASURING + BILLING
  }

  // ----- The completion test --------------------------------------------------------------------

  /** What the first three stops ask of the order's status. */
  predicate OrderMeets(stop: Stop, order: Option<ServiceOrderStatus>) {
    order.Some? &&
    match stop
    case StopPrepared => order.value in {Prepared, Released, InExecution, Completed}
    case StopReleased => order.value in {Released, InExecution, Completed}
    case _ => order.value == Completed
  }

  predicate IsComplete(flow: Flow, r: Rows) {
    match flow
    case ClientInactiveFlow => r.client == ClientInactive
    case ProposalDraftFlow => r.proposal.Some?
    // Version 1 exists as soon as the proposal does; its status is not asked.
    case ProposalIssuedFlow => r.proposal.Some?
    case ProposalRejectedFlow => r.proposal.Some?
    case ProposalExpiredFlow => r.proposal.Some?
    case PurchaseOrderCancelledFlow => r.purchaseOrder == Some(OrderedCancelled)
    case ServiceOrderCancelledFlow => r.order == Some(Cancelled)
    case MeasurementPendingFlow => r.order.Some? && r.measurement.Some?
    case Vertical(_, _, stop) =>
      r.order.Some? &&
      match stop
      case StopMeasurementApproved => r.measurement == Some(MeasurementApproved)
      case StopComplete => r.billingDocument
      case _ => OrderMeets(stop, r.order)
  }

  /** How many steps of its plan a scenario needs before the test holds. */
  function Milestone(flow: Flow): nat {
    match flow
    case ProposalIssuedFlow => |OPENING|
    case ProposalRejectedFlow => |OPENING|
    case ProposalExpiredFlow => |OPENING|
    case Vertical(transport, resources, StopComplete) =>
      |VerticalToCompleted(transport, resources)| + |MEASURING| + 2
    case _ => |Plan(flow)|
  }

  // ----- The test against the plan --------------------------------------------------------------

  /** The part of the test that the plan decides last; the test also asks that the order exists. */
  predicate Decisive(flow: Flow, r: Rows) {
    match flow
    case MeasurementPendingFlow => r.measurement.Some?
    case Vertical(_, _, StopMeasurementApproved) => r.measurement == Some(MeasurementApproved)
    case Vertical(_, _, StopComplete) => r.billingDocument
    case _ => IsComplete(flow, r)
  }

  predicate AsksForOrder(flow: Flow) {
    flow.MeasurementPendingFlow? || flow.Vertical?
  }

  predicate SetsMeasurement(step: Step) {
    step.CreateMeasurement? || step.SubmitMeasurement? || step.ReviewMeasurement? || step.ApproveMeasurement?
  }

  /** The steps that can make the decisive part true. */
  predicate Completing(flow: Flow, step: Step) {
    match flow
    case ClientInactiveFlow => step.DeactivateClient?
    case PurchaseOrderCancelledFlow => step.CancelPurchaseOrder?
    case ServiceOrderCancelledFlow => step.CancelOrder?
    case MeasurementPendingFlow => SetsMeasurement(step)
    case Vertical(_, _, stop) =>
      (match stop
       case StopPrepared => step in {PrepareOrder, ReleaseOrder, StartExecution, CompleteExecution}
       case StopReleased => step in {ReleaseOrder, StartExecution, CompleteExecution}
       case StopCompletedExecution => step.CompleteExecution?
       case StopMeasurementApproved => step.ApproveMeasurement?
       case StopComplete => step.IssueBillingDocument?)
    case _ => step in {CreateProposal, IssueProposal, RejectProposal, ExpireProposal, AcceptProposal}
  }

  /** The steps that can make it false again. */
  predicate Breaking(flow: Flow, step: Step) {
    step.CreateClient? || step in {ConvertRequest, CancelOrder, PrepareOrder} ||
    (flow.Vertical? && flow.stopAfter.StopCompletedExecution? && step in {ReleaseOrder, StartExecution}) ||
    (flow.Vertical? && flow.stopAfter.StopMeasurementApproved? && SetsMeasurement(step)) ||
    (!flow.Vertical? &&
     step in {CreatePurchaseOrder, RegisterPurchaseOrder, ReleaseOrder, StartExecution, CompleteExecution})
  }

  /** The step that makes it true whatever the rows were. */
  function Deciding(flow: Flow): Step {
    match flow
    case ClientInactiveFlow => DeactivateClient
    case PurchaseOrderCancelledFlow => CancelPurchaseOrder
    case ServiceOrderCancelledFlow => CancelOrder
    case MeasurementPendingFlow => CreateMeasurement
    case Vertical(_, _, StopPrepared) => PrepareOrder
    case Vertical(_, _, StopReleased) => ReleaseOrder
    case Vertical(_, _, StopCompletedExecution) => CompleteExecution
    case Vertical(_, _, StopMeasurementApproved) => ApproveMeasurement
    case Vertical(_, _, StopComplete) => IssueBillingDocument
    case _ => CreateProposal
  }

  lemma CompletingNeeded(flow: Flow, r: Rows, step: Step)
    requires !Decisive(flow, r) && !Completing(flow, step)
    ensures !Decisive(flow, Apply(r, step))
  {
    if flow.Vertical? {
      VerticalNeeded(flow, r, step);
    }
  }

  lemma VerticalNeeded(flow: Flow, r: Rows, step: Step)
    requires flow.Vertical? && !Decisive(flow, r) && !Completing(flow, step)
    ensures !Decisive(flow, Apply(r, step))
  {
    if Rank(flow.stopAfter) <= 2 {
      OrderNeeded(flow.stopAfter, r.order, step);
    }
  }

  lemma OrderNeeded(stop: Stop, order: Option<ServiceOrderStatus>, step: Step)
    requires Rank(stop) <= 2 && !OrderMeets(stop, order) && !Completing(Vertical(false, [], stop), step)
    ensures !OrderMeets(stop, OrderAfter(order, step))
  {
  }

  lemma DecisionStands(flow: Flow, r: Rows, step: Step)
    requires Decisive(flow, r) && !Breaking(flow, step)
    ensures Decisive(flow, Apply(r, step))
  {
  }

  lemma DecidingDecides(flow: Flow, r: Rows)
    ensures Decisive(flow, Apply(r, Deciding(flow)))
  {
  }

  ghost predicate NoneCompleting(flow: Flow, steps: seq<Step>) {
    forall step :: step in steps ==> !Completing(flow, step)
  }

  ghost predicate NoneBreaking(flow: Flow, steps: seq<Step>) {
    forall step :: step in steps ==> !Breaking(flow, step)
  }

  lemma {:induction false} StaysUndecided(flow: Flow, steps: seq<Step>)
    requires NoneCompleting(flow, steps)
    ensures !Decisive(flow, Build(steps))
  {
    if steps != [] {
      StaysUndecided(flow, steps[..|steps| - 1]);
      CompletingNeeded(flow, Build(steps[..|steps| - 1]), steps[|steps| - 1]);
    }
  }

  lemma {:induction false} StaysDecided(flow: Flow, done: seq<Step>, more: seq<Step>)
    requires Decisive(flow, Build(done)) && NoneBreaking(flow, more)
    ensures Decisive(flow, Build(done + more))
  {
    if more == [] {
      assert done + more == done;
    } else {
      var earlier := more[..|more| - 1];
      StaysDecided(flow, done, earlier);
      assert (done + more)[..|done + more| - 1] == done + earlier;
      DecisionStands(flow, Build(done + earlier), more[|more| - 1]);
    }
  }

  lemma OrderStep(r: Rows, step: Step)
    requires r.order.Some? && step != CreateClient
    ensures Apply(r, step).order.Some?
  {
  }

  lemma {:induction false} OrderStays(done: seq<Step>, more: seq<Step>)
    requires Build(done).order.Some? && CreateClient !in more
    ensures Build(done + more).order.Some?
  {
    if more == [] {
      assert done + more == done;
    } else {
      var earlier := more[..|more| - 1];
      OrderStays(done, earlier);
      assert (done + more)[..|done + more| - 1] == done + earlier;
      OrderStep(Build(done + earlier), more[|more| - 1]);
    }
  }

  lemma BuildMore(steps: seq<Step>, step: Step)
    ensures Build(steps + [step]) == Apply(Build(steps), step)
  {
    assert (steps + [step])[..|steps|] == steps;
  }

  lemma DecisiveIsComplete(flow: Flow, r: Rows)
    ensures IsComplete(flow, r) <==> Decisive(flow, r) && (AsksForOrder(flow) ==> r.order.Some?)
  {
  }

  lemma CompleteAfter(flow: Flow, before: seq<Step>, more: seq<Step>)
    requires NoneBreaking(flow, more)
    requires AsksForOrder(flow) ==> Build(before + [Deciding(flow)]).order.Some?
    ensures IsComplete(flow, Build(before + [Deciding(flow)] + more))
  {
    var middle := before + [Deciding(flow)];
    BuildMore(before, Deciding(flow));
    DecidingDecides(flow, Build(before));
    StaysDecided(flow, middle, more);
    if AsksForOrder(flow) {
      assert CreateClient !in more by {
        assert Breaking(flow, CreateClient);
      }
      OrderStays(middle, more);
    }
    DecisiveIsComplete(flow, Build(middle + more));
  }

  lemma CutAround<T>(before: seq<T>, x: T, after: seq<T>, n: nat)
    requires n <= |before| + 1 + |after|
    ensures (before + [x] + after)[..n] ==
      if n <= |before| then before[..n] else before + [x] + after[..n - |before| - 1]
  {
  }

  /** A plan around its deciding step: the test holds from there on, and not before. */
  lemma TestFlipsOnce(flow: Flow, before: seq<Step>, after: seq<Step>, n: nat)
    requires NoneCompleting(flow, before) && NoneBreaking(flow, after)
    requires AsksForOrder(flow) ==> Build(before + [Deciding(flow)]).order.Some?
    requires n <= |before| + 1 + |after|
    ensures var steps := before + [Deciding(flow)] + after;
      IsComplete(flow, Build(steps[..n])) <==> n > |before|
  {
    CutAround(before, Deciding(flow), after, n);
    if n <= |before| {
      StaysUndecided(flow, before[..n]);
      DecisiveIsComplete(flow, Build(before[..n]));
    } else {
      CompleteAfter(flow, before, after[..n - |before| - 1]);
    }
  }

  lemma {:induction false} AllocationSteps(resources: seq<string>)
    ensures forall step :: step in Allocations(resources) ==> step in ALLOCATION
  {
    if resources != [] {
      AllocationSteps(resources[..|resources| - 1]);
    }
  }

  /** The steps of a full vertical run before and after the deciding step of each stop. */
  ghost function VerticalBefore(transport: bool, resources: seq<string>, stop: Stop): seq<Step> {
    match stop
    case StopPrepared =>
      VERTICAL_TO_CONVERTED + (if transport then [UpdateRoute] else [])
    case StopReleased => VerticalToPrepared(transport)
    case StopCompletedExecution =>
      VerticalToPrepared(transport) + [ReleaseOrder] + Allocations(resources)
      + [StartExecution, RecordObservation, RecordQuantity]
    case StopMeasurementApproved =>
      VerticalToCompleted(transport, resources) + [CreateMeasurement, SubmitMeasurement, ReviewMeasurement]
    case StopComplete => VerticalToCompleted(transport, resources) + MEASURING + [PrepareBilling]
  }

  ghost function VerticalAfter(resources: seq<string>, stop: Stop): seq<Step> {
    match stop
    case StopPrepared => [ReleaseOrder] + Allocations(resources) + EXECUTING + MEASURING + BILLING
    case StopReleased => Allocations(resources) + EXECUTING + MEASURING + BILLING
    case StopCompletedExecution => MEASURING + BILLING
    case StopMeasurementApproved => BILLING
    case StopComplete => [DownloadPdf]
  }

  function FullRun(transport: bool, resources: seq<string>): seq<Step> {
    Plan(Vertical(transport, resources, StopComplete))
  }

  /** The stretches of a full run, grouped around each place where a test is decided. */
  lemma Regroup<T>(p: seq<T>, r: seq<T>, a: seq<T>, x: seq<T>, m: seq<T>, b: seq<T>)
    ensures p + r + a + x + m + b == p + (r + a + x + m + b)
    ensures p + r + a + x + m + b == p + r + (a + x + m + b)
    ensures p + r + a + x + m + b == p + r + a + x + (m + b)
  {
  }

  lemma SplitLast<T>(p: seq<T>, x: seq<T>, x': seq<T>, last: T, rest: seq<T>)
    requires x == x' + [last]
    ensures p + x + rest == p + x' + [last] + rest
  {
  }

  lemma SplitMiddle<T>(p: seq<T>, x: seq<T>, first: T, middle: T, last: T)
    requires x == [first, middle, last]
    ensures p + x == p + [first] + [middle] + [last]
  {
  }

  lemma VerticalSplit(transport: bool, resources: seq<string>, stop: Stop)
    ensures FullRun(transport, resources) == VerticalBefore(transport, resources, stop)
      + [Deciding(Vertical(transport, resources, stop))] + VerticalAfter(resources, stop)
  {
    var p, r, a := VerticalToPrepared(transport), [ReleaseOrder], Allocations(resources);
    Regroup(p, r, a, EXECUTING, MEASURING, BILLING);
    match stop
    case StopPrepared =>
    case StopReleased =>
    case StopCompletedExecution =>
      SplitLast(p + r + a, EXECUTING, [StartExecution, RecordObservation, RecordQuantity], CompleteExecution,
                MEASURING + BILLING);
    case StopMeasurementApproved =>
      SplitLast(p + r + a + EXECUTING, MEASURING, [CreateMeasurement, SubmitMeasurement, ReviewMeasurement],
                ApproveMeasurement, BILLING);
    case StopComplete =>
      SplitMiddle(p + r + a + EXECUTING + MEASURING, BILLING, PrepareBilling, IssueBillingDocument, DownloadPdf);
  }

  lemma MilestoneIsDeciding(transport: bool, resources: seq<string>, stop: Stop)
    ensures |VerticalBefore(transport, resources, stop)| + 1 == Milestone(Vertical(transport, resources, stop))
  {
  }

  lemma ConvertedQuiet(flow: Flow)
    requires flow.Vertical?
    ensures NoneCompleting(flow, VERTICAL_TO_CONVERTED)
  {
  }

  lemma QuietTogether(flow: Flow, a: seq<Step>, b: seq<Step>)
    requires NoneCompleting(flow, a) && NoneCompleting(flow, b)
    ensures NoneCompleting(flow, a + b)
  {
  }

  lemma StagesQuiet(flow: Flow)
    requires flow.Vertical?
    ensures Rank(flow.stopAfter) >= 2 ==> NoneCompleting(flow, ALLOCATION)
    ensures Rank(flow.stopAfter) >= 3 ==> NoneCompleting(flow, EXECUTING)
    ensures Rank(flow.stopAfter) == 4 ==> NoneCompleting(flow, MEASURING)
  {
  }

  lemma NothingDecidedBefore(transport: bool, resources: seq<string>, stop: Stop)
    ensures NoneCompleting(Vertical(transport, resources, stop), VerticalBefore(transport, resources, stop))
  {
    var flow := Vertical(transport, resources, stop);
    var route, a := if transport then [UpdateRoute] else [], Allocations(resources);
    var p := VerticalToPrepared(transport);
    AllocationSteps(resources);
    ConvertedQuiet(flow);
    StagesQuiet(flow);
    QuietTogether(flow, VERTICAL_TO_CONVERTED, route);
    if !stop.StopPrepared? {
      QuietTogether(flow, VERTICAL_TO_CONVERTED + route, [PrepareOrder]);
      if !stop.StopReleased? {
        QuietTogether(flow, p, [ReleaseOrder]);
        QuietTogether(flow, p + [ReleaseOrder], a);
        if stop.StopCompletedExecution? {
          QuietTogether(flow, p + [ReleaseOrder] + a, [StartExecution, RecordObservation, RecordQuantity]);
        } else {
          QuietTogether(flow, p + [ReleaseOrder] + a, EXECUTING);
          QuietAfterExecution(flow, VerticalToCompleted(transport, resources));
        }
      }
    }
  }

  lemma QuietAfterExecution(flow: Flow, completed: seq<Step>)
    requires flow.Vertical? && NoneCompleting(flow, completed)
    ensures flow.stopAfter.StopMeasurementApproved? ==>
      NoneCompleting(flow, completed + [CreateMeasurement, SubmitMeasurement, ReviewMeasurement])
    ensures flow.stopAfter.StopComplete? ==> NoneCompleting(flow, completed + MEASURING + [PrepareBilling])
  {
  }

  lemma NothingUndoneAfter(transport: bool, resources: seq<string>, stop: Stop)
    ensures NoneBreaking(Vertical(transport, resources, stop), VerticalAfter(resources, stop))
    ensures CreateClient !in VerticalAfter(resources, stop)
  {
    AllocationSteps(resources);
  }

  lemma ConvertedHasOrder(before: seq<Step>)
    ensures Build(before + [ConvertRequest]).order.Some?
  {
    assert (before + [ConvertRequest])[..|before|] == before;
  }

  lemma PreparedHasOrder(transport: bool)
    ensures Build(VerticalToPrepared(transport)).order.Some?
  {
    var route := if transport then [UpdateRoute] else [];
    assert VERTICAL_TO_CONVERTED == VERTICAL_TO_CONVERTED[..|VERTICAL_TO_CONVERTED| - 1] + [ConvertRequest];
    ConvertedHasOrder(VERTICAL_TO_CONVERTED[..|VERTICAL_TO_CONVERTED| - 1]);
    OrderStays(VERTICAL_TO_CONVERTED, route);
    OrderStays(VERTICAL_TO_CONVERTED + route, [PrepareOrder]);
  }

  lemma CompletedHasOrder(transport: bool, resources: seq<string>)
    ensures Build(VerticalToCompleted(transport, resources)).order.Some?
  {
    PreparedHasOrder(transport);
    AllocationSteps(resources);
    var released := VerticalToPrepared(transport) + [ReleaseOrder];
    OrderStays(VerticalToPrepared(transport), [ReleaseOrder]);
    OrderStays(released, Allocations(resources));
    OrderStays(released + Allocations(resources), EXECUTING);
  }

  lemma OrderExists(transport: bool, resources: seq<string>, stop: Stop)
    ensures var flow := Vertical(transport, resources, stop);
      Build(VerticalBefore(transport, resources, stop) + [Deciding(flow)]).order.Some?
  {
    var completed := VerticalToCompleted(transport, resources);
    PreparedHasOrder(transport);
    CompletedHasOrder(transport, resources);
    match stop
    case StopPrepared =>
    case StopReleased =>
      OrderStays(VerticalToPrepared(transport), [ReleaseOrder]);
    case StopCompletedExecution =>
      SplitLast(VerticalToPrepared(transport) + [ReleaseOrder] + Allocations(resources), EXECUTING,
                [StartExecution, RecordObservation, RecordQuantity], CompleteExecution, []);
      assert VerticalBefore(transport, resources, stop) + [CompleteExecution] + [] == completed + [];
      assert VerticalBefore(transport, resources, stop) + [CompleteExecution] == completed;
    case StopMeasurementApproved =>
      OrderStays(completed, [CreateMeasurement, SubmitMeasurement, ReviewMeasurement]);
      OrderStays(completed + [CreateMeasurement, SubmitMeasurement, ReviewMeasurement], [ApproveMeasurement]);
    case StopComplete =>
      OrderStays(completed, MEASURING);
      OrderStays(completed + MEASURING, [PrepareBilling]);
      OrderStays(completed + MEASURING + [PrepareBilling], [IssueBillingDocument]);
  }

  /** After the pipeline has run `n` steps of a full run, the test for a stop holds exactly when the
      steps of that stop have all run (for a complete run, when the billing document is issued). */
  lemma VerticalTestExact(transport: bool, resources: seq<string>, stop: Stop, n: nat)
    requires n <= |FullRun(transport, resources)|
    ensures var flow := Vertical(transport, resources, stop);
      IsComplete(flow, Build(FullRun(transport, resources)[..n])) <==> n >= Milestone(flow)
  {
    VerticalSplit(transport, resources, stop);
    MilestoneIsDeciding(transport, resources, stop);
    NothingDecidedBefore(transport, resources, stop);
    NothingUndoneAfter(transport, resources, stop);
    OrderExists(transport, resources, stop);
    TestFlipsOnce(Vertical(transport, resources, stop), VerticalBefore(transport, resources, stop),
      VerticalAfter(resources, stop), n);
  }

  lemma StopIsPrefix(transport: bool, resources: seq<string>, stop: Stop)
    ensures var plan := Plan(Vertical(transport, resources, stop));
      |plan| <= |FullRun(transport, resources)| && plan == FullRun(transport, resources)[..|plan|]
  {
    Regroup(VerticalToPrepared(transport), [ReleaseOrder], Allocations(resources), EXECUTING, MEASURING, BILLING);
    var full, plan := FullRun(transport, resources), Plan(Vertical(transport, resources, stop));
    assert exists rest :: full == plan + rest by {
      match stop
      case StopPrepared =>
        assert full == plan + ([ReleaseOrder] + Allocations(resources) + EXECUTING + MEASURING + BILLING);
      case StopReleased => assert full == plan + (Allocations(resources) + EXECUTING + MEASURING + BILLING);
      case StopCompletedExecution => assert full == plan + (MEASURING + BILLING);
      case StopMeasurementApproved => assert full == plan + BILLING;
      case StopComplete => assert full == plan + [];
    }
  }

  /** The pipeline stopped at `ran` satisfies the test for stop `asked` exactly when `ran` is at or
      past `asked`. */
  lemma StopSatisfiesTest(transport: bool, resources: seq<string>, ran: Stop, asked: Stop)
    ensures IsComplete(Vertical(transport, resources, asked), Build(Plan(Vertical(transport, resources, ran))))
      <==> Rank(ran) >= Rank(asked)
  {
    StopIsPrefix(transport, resources, ran);
    VerticalTestExact(transport, resources, asked, |Plan(Vertical(transport, resources, ran))|);
  }

  predicate ProposalOnly(flow: Flow) {
    flow in {ProposalDraftFlow, ProposalIssuedFlow, ProposalRejectedFlow, ProposalExpiredFlow}
  }

  lemma ProposalTestExact(flow: Flow, n: nat)
    requires ProposalOnly(flow) && n <= |Plan(flow)|
    ensures IsComplete(flow, Build(Plan(flow)[..n])) <==> n >= |OPENING|
  {
    var before := [CreateClient, EnsureCategory, CreateService, PublishService];
    var after :=
      if flow.ProposalDraftFlow? then []
      else if flow.ProposalIssuedFlow? then [IssueProposal]
      else if flow.ProposalRejectedFlow? then [IssueProposal, RejectProposal]
      else [IssueProposal, ExpireProposal];
    assert OPENING == before + [CreateProposal];
    assert Plan(flow) == before + [CreateProposal] + after;
    TestFlipsOnce(flow, before, after, n);
  }

  /** A plan whose last step decides. */
  lemma LastStepDecides(flow: Flow, before: seq<Step>, n: nat)
    requires Plan(flow) == before + [Deciding(flow)] && n <= |Plan(flow)|
    requires NoneCompleting(flow, before)
    requires AsksForOrder(flow) ==> Build(Plan(flow)).order.Some?
    ensures IsComplete(flow, Build(Plan(flow)[..n])) <==> n >= |Plan(flow)|
  {
    assert Plan(flow) == before + [Deciding(flow)] + [];
    TestFlipsOnce(flow, before, [], n);
  }

  /** The steps before the last one, for the flows whose last step decides. */
  ghost function LastStepBefore(flow: Flow): seq<Step> {
    match flow
    case PurchaseOrderCancelledFlow => OPENING + [IssueProposal] + ORDERING
    case ServiceOrderCancelledFlow => PARTIAL_TO_PREPARED
    case MeasurementPendingFlow => PARTIAL_TO_PREPARED + [ReleaseOrder] + ALLOCATION + EXECUTING
    case _ => [CreateClient]
  }

  lemma LastStepShape(flow: Flow)
    requires !ProposalOnly(flow) && !flow.Vertical?
    ensures Plan(flow) == LastStepBefore(flow) + [Deciding(flow)]
  {
  }

  lemma LastStepQuiet(flow: Flow)
    requires !ProposalOnly(flow) && !flow.Vertical?
    ensures NoneCompleting(flow, LastStepBefore(flow))
  {
  }

  lemma LastStepTestExact(flow: Flow, n: nat)
    requires n <= |Plan(flow)| && !ProposalOnly(flow) && !flow.Vertical?
    ensures IsComplete(flow, Build(Plan(flow)[..n])) <==> n >= |Plan(flow)|
  {
    LastStepShape(flow);
    LastStepQuiet(flow);
    if flow.MeasurementPendingFlow? {
      MeasurementPendingOrder();
    }
    LastStepDecides(flow, LastStepBefore(flow), n);
  }

  /** For every flow and every interruption point: the test says "complete" exactly from the
      milestone on. */
  lemma TestExact(flow: Flow, n: nat)
    requires n <= |Plan(flow)|
    ensures IsComplete(flow, Build(Plan(flow)[..n])) <==> n >= Milestone(flow)
  {
    if flow.Vertical? {
      StopIsPrefix(flow.transport, flow.resources, flow.stopAfter);
      assert Plan(flow)[..n] == FullRun(flow.transport, flow.resources)[..n];
      VerticalTestExact(flow.transport, flow.resources, flow.stopAfter, n);
    } else if ProposalOnly(flow) {
      ProposalTestExact(flow, n);
    } else {
      LastStepTestExact(flow, n);
    }
  }

  lemma MeasurementPendingOrder()
    ensures Build(PARTIAL_TO_PREPARED + [ReleaseOrder] + ALLOCATION + EXECUTING + [CreateMeasurement]).order.Some?
  {
    var prepared := PARTIAL_TO_PREPARED;
    assert prepared[..|prepared| - 1] + [PrepareOrder] == prepared;
    OrderStays(prepared, [ReleaseOrder]);
    OrderStays(prepared + [ReleaseOrder], ALLOCATION);
    OrderStays(prepared + [ReleaseOrder] + ALLOCATION, EXECUTING);
    OrderStays(prepared + [ReleaseOrder] + ALLOCATION + EXECUTING, [CreateMeasurement]);
  }
}
