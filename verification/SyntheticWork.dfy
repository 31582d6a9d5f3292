/** What the flows of the synthetic seed leave behind, and the order in which they work. */
module SyntheticWork {

  import opened Common
  import opened SyntheticScenarios

  // ----- The final rows of every flow -----------------------------------------------------------

  /** Proposal flows: a published service and a proposal in the given status. */
  function Offered(status: ProposalStatus): Rows {
    Rows(ClientActive, true, Some(ServicePublished), Some(status), None, None, 0, None, false, 0, 0, 0, 0, None,
         false, false)
  }

  function OrderAt(stop: Stop): ServiceOrderStatus {
    match stop
    case StopPrepared => Prepared
    case StopReleased => Released
    case _ => Completed
  }

  /** The rows with which a flow is meant to end, whatever resources it uses. */
  function EndRows(flow: Flow): Rows {
    match flow
    case ClientInactiveFlow =>
      Rows(ClientInactive, false, None, None, None, None, 0, None, false, 0, 0, 0, 0, None, false, false)
    case ProposalDraftFlow => Offered(ProposalDraft)
    case ProposalIssuedFlow => Offered(ProposalIssued)
    case ProposalRejectedFlow => Offered(ProposalRejected)
    case ProposalExpiredFlow => Offered(ProposalExpired)
    case PurchaseOrderCancelledFlow =>
      Rows(ClientActive, true, Some(ServicePublished), Some(ProposalAccepted), Some(OrderedCancelled), None, 0, None,
           false, 0, 0, 0, 0, None, false, false)
    case ServiceOrderCancelledFlow =>
      Rows(ClientActive, true, Some(ServicePublished), Some(ProposalAccepted), Some(OrderedRegistered),
           Some(RequestConverted), 0, Some(Cancelled), false, 0, 0, 0, 0, None, false, false)
    case MeasurementPendingFlow =>
      Rows(ClientActive, true, Some(ServicePublished), Some(ProposalAccepted), Some(OrderedRegistered),
           Some(RequestConverted), 0, Some(Completed), false, 1, 1, 1, 2, Some(MeasurementCreated), false, false)
    case Vertical(transport, resources, stop) =>
      var executed := stop.StopCompletedExecution? || stop.StopMeasurementApproved? || stop.StopComplete?;
      var measured := stop.StopMeasurementApproved? || stop.StopComplete?;
      var n := if executed then |resources| else 0;
      Rows(ClientActive, true, Some(ServicePublished), Some(ProposalAccepted), Some(OrderedRegistered),
           Some(RequestConverted), 1, Some(OrderAt(stop)), transport, n, n, n, if executed then 2 else 0,
           if measured then Some(MeasurementApproved) else None, stop.StopComplete?, stop.StopComplete?)
  }

  // ----- The order of work ----------------------------------------------------------------------

  // What each call needs from the calls before it.

  predicate CatalogueReady(r: Rows, step: Step) {
    match step
    case CreateClient => r == NEW_CLIENT
    case DeactivateClient => r.client == ClientActive && r.proposal.None?
    case EnsureCategory => r.service.None?
    case CreateService => r.category && r.service.None?
    case PublishService => r.service == Some(ServiceDraft)
    case _ => false
  }

  predicate ProposalReady(r: Rows, step: Step) {
    match step
    case CreateProposal => r.service == Some(ServicePublished) && r.proposal.None?
    case IssueProposal => r.proposal == Some(ProposalDraft)
    case RejectProposal => r.proposal == Some(ProposalIssued)
    case ExpireProposal => r.proposal == Some(ProposalIssued)
    case AcceptProposal => r.proposal == Some(ProposalIssued)
    case _ => false
  }

  predicate PurchaseOrderReady(r: Rows, step: Step) {
    match step
    case CreatePurchaseOrder => r.proposal == Some(ProposalAccepted) && r.purchaseOrder.None?
    case RegisterPurchaseOrder => r.purchaseOrder == Some(OrderedDraft)
    case CancelPurchaseOrder => r.purchaseOrder == Some(OrderedRegistered) && r.request.None?
    case _ => false
  }

  predicate RequestReady(r: Rows, step: Step) {
    match step
    case CreateRequest => r.purchaseOrder == Some(OrderedRegistered) && r.request.None?
    case SubmitRequest => r.request == Some(RequestCreated)
    case ReviewRequest => r.request == Some(RequestSubmitted)
    case ApproveRequest => r.request == Some(RequestInReview)
    case AttachDocument => r.request == Some(RequestApproved)
    case ConvertRequest => r.request == Some(RequestApproved) && r.order.None?
    case _ => false
  }

  predicate OrderReady(r: Rows, step: Step) {
    match step
    case UpdateRoute => r.order == Some(Draft)
    case PrepareOrder => r.order == Some(Draft)
    case CancelOrder => r.order == Some(Prepared)
    case ReleaseOrder => r.order == Some(Prepared)
    case StartExecution => r.order == Some(Released) && r.allocations == r.plannedResources
    case RecordObservation => r.order == Some(InExecution)
    case RecordQuantity => r.order == Some(InExecution)
    case CompleteExecution => r.order == Some(InExecution) && r.executionEntries >= 1
    case _ => false
  }

  predicate ResourceReady(r: Rows, step: Step) {
    match step
    case PlanResource => r.order == Some(Released) && r.plannedResources == r.allocations
    case CreateAsset => r.assets < r.plannedResources
    case AllocateResource => r.allocations < r.plannedResources && r.allocations < r.assets
    case _ => false
  }

  predicate MeasurementReady(r: Rows, step: Step) {
    match step
    case CreateMeasurement => r.order == Some(Completed) && r.measurement.None?
    case SubmitMeasurement => r.measurement == Some(MeasurementCreated)
    case ReviewMeasurement => r.measurement == Some(MeasurementSubmitted)
    case ApproveMeasurement => r.measurement == Some(MeasurementInReview)
    case _ => false
  }

  predicate BillingReady(r: Rows, step: Step) {
    match step
    case PrepareBilling => r.measurement == Some(MeasurementApproved) && !r.billingRecord
    case IssueBillingDocument => r.billingRecord && !r.billingDocument
    case DownloadPdf => r.billingDocument
    case _ => false
  }

  predicate Ready(r: Rows, step: Step) {
    || CatalogueReady(r, step) || ProposalReady(r, step) || PurchaseOrderReady(r, step) || RequestReady(r, step)
    || OrderReady(r, step) || ResourceReady(r, step) || MeasurementReady(r, step) || BillingReady(r, step)
  }

  /** What the rows of orderly work look like at any moment. */
  ghost predicate InOrder(r: Rows) {
    && (r.proposal.Some? ==> r.service == Some(ServicePublished))
    && (r.purchaseOrder.Some? ==> r.proposal == Some(ProposalAccepted))
    && (r.request.Some? ==> r.purchaseOrder == Some(OrderedRegistered))
    && (r.order.Some? ==> r.request == Some(RequestConverted))
    && (r.measurement.Some? ==> r.order == Some(Completed))
    && (r.billingRecord ==> r.measurement == Some(MeasurementApproved))
    && (r.billingDocument ==> r.billingRecord)
    && r.allocations <= r.assets && r.allocations <= r.plannedResources
    && (r.plannedResources > 0 ==> r.order.Some?) && (r.requestDocuments > 0 ==> r.request.Some?)
  }

  lemma CatalogueKeepsOrder(r: Rows, step: Step)
    requires InOrder(r) && CatalogueReady(r, step)
    ensures InOrder(Apply(r, step))
  {
  }

  lemma ProposalKeepsOrder(r: Rows, step: Step)
    requires InOrder(r) && ProposalReady(r, step)
    ensures InOrder(Apply(r, step))
  {
  }

  lemma PurchaseOrderKeepsOrder(r: Rows, step: Step)
    requires InOrder(r) && PurchaseOrderReady(r, step)
    ensures InOrder(Apply(r, step))
  {
  }

  lemma RequestKeepsOrder(r: Rows, step: Step)
    requires InOrder(r) && RequestReady(r, step)
    ensures InOrder(Apply(r, step))
  {
  }

  lemma OrderKeepsOrder(r: Rows, step: Step)
    requires InOrder(r) && OrderReady(r, step)
    ensures InOrder(Apply(r, step))
  {
  }

  lemma ResourceKeepsOrder(r: Rows, step: Step)
    requires InOrder(r) && ResourceReady(r, step)
    ensures InOrder(Apply(r, step))
  {
  }

  lemma MeasurementKeepsOrder(r: Rows, step: Step)
    requires InOrder(r) && MeasurementReady(r, step)
    ensures InOrder(Apply(r, step))
  {
  }

  lemma BillingKeepsOrder(r: Rows, step: Step)
    requires InOrder(r) && BillingReady(r, step)
    ensures InOrder(Apply(r, step))
  {
  }

  lemma ReadyKeepsOrder(r: Rows, step: Step)
    requires InOrder(r) && Ready(r, step)
    ensures InOrder(Apply(r, step))
  {
    if
    case CatalogueReady(r, step) => CatalogueKeepsOrder(r, step);
    case ProposalReady(r, step) => ProposalKeepsOrder(r, step);
    case PurchaseOrderReady(r, step) => PurchaseOrderKeepsOrder(r, step);
    case RequestReady(r, step) => RequestKeepsOrder(r, step);
    case OrderReady(r, step) => OrderKeepsOrder(r, step);
    case ResourceReady(r, step) => ResourceKeepsOrder(r, step);
    case MeasurementReady(r, step) => MeasurementKeepsOrder(r, step);
    case BillingReady(r, step) => BillingKeepsOrder(r, step);
  }

  /** Calls that lead from the rows `r` to the rows `r'`, each ready when it is made. */
  ghost predicate Leads(r: Rows, steps: seq<Step>, r': Rows)
    decreases steps
  {
    if steps == [] then r == r' else Ready(r, steps[0]) && Leads(Apply(r, steps[0]), steps[1..], r')
  }

  lemma {:induction false} Chain(r: Rows, a: seq<Step>, r1: Rows, b: seq<Step>, r2: Rows)
    requires Leads(r, a, r1) && Leads(r1, b, r2)
    ensures Leads(r, a + b, r2)
    decreases a
  {
    if a == [] {
      assert a + b == b;
    } else {
      assert (a + b)[0] == a[0] && (a + b)[1..] == a[1..] + b;
      Chain(Apply(r, a[0]), a[1..], r1, b, r2);
    }
  }

  lemma {:induction false} LeadsBuilds(done: seq<Step>, r: Rows, more: seq<Step>, r': Rows)
    requires Build(done) == r && Leads(r, more, r')
    ensures Build(done + more) == r'
    decreases more
  {
    if more == [] {
      assert done + more == done;
    } else {
      BuildMore(done, more[0]);
      LeadsBuilds(done + [more[0]], Apply(r, more[0]), more[1..], r');
      assert done + [more[0]] + more[1..] == done + more;
    }
  }

  lemma PrefixMovesOn<T>(done: seq<T>, more: seq<T>, n: nat)
    requires 0 < n <= |more|
    ensures done + [more[0]] + more[1..][..n - 1] == done + more[..n]
    ensures n < |more| ==> more[1..][n - 1] == more[n]
  {
  }

  lemma FirstOfOrderly(r: Rows, more: seq<Step>, r': Rows)
    requires InOrder(r) && Leads(r, more, r') && more != []
    ensures Ready(r, more[0]) && InOrder(Apply(r, more[0])) && Leads(Apply(r, more[0]), more[1..], r')
  {
    ReadyKeepsOrder(r, more[0]);
  }

  /** Orderly work is orderly at every prefix. */
  lemma {:induction false} OrderlyThroughout(done: seq<Step>, r: Rows, more: seq<Step>, r': Rows, n: nat)
    requires Build(done) == r && InOrder(r) && Leads(r, more, r') && n <= |more|
    ensures InOrder(Build(done + more[..n])) && (n < |more| ==> Ready(Build(done + more[..n]), more[n]))
    decreases more
  {
    if more != [] {
      FirstOfOrderly(r, more, r');
    }
    if n == 0 {
      assert done + more[..n] == done;
    } else {
      BuildMore(done, more[0]);
      OrderlyThroughout(done + [more[0]], Apply(r, more[0]), more[1..], r', n - 1);
      PrefixMovesOn(done, more, n);
    }
  }

  // ----- One call -------------------------------------------------------------------------------

  lemma One(r: Rows, step: Step)
    requires Ready(r, step)
    ensures Leads(r, [step], Apply(r, step))
  {
    assert [step][1..] == [];
  }

  lemma CatalogueLeads(r: Rows, step: Step)
    requires CatalogueReady(r, step)
    ensures Leads(r, [step], Apply(r, step))
  {
    One(r, step);
  }

  lemma ProposalLeads(r: Rows, step: Step)
    requires ProposalReady(r, step)
    ensures Leads(r, [step], r.(proposal := ProposalAfter(None, step)))
  {
    One(r, step);
  }

  lemma PurchaseOrderLeads(r: Rows, step: Step)
    requires PurchaseOrderReady(r, step)
    ensures Leads(r, [step], r.(purchaseOrder := PurchaseOrderAfter(None, step)))
  {
    One(r, step);
  }

  lemma RequestLeads(r: Rows, step: Step)
    requires RequestReady(r, step)
    ensures Leads(r, [step], r.(request := RequestAfter(r.request, step), order := OrderAfter(r.order, step),
                                requestDocuments := Plus(r.requestDocuments, step.AttachDocument?)))
  {
    One(r, step);
  }

  lemma OrderLeads(r: Rows, step: Step)
    requires OrderReady(r, step)
    ensures Leads(r, [step], r.(order := OrderAfter(r.order, step), routeUpdated := r.routeUpdated || step.UpdateRoute?,
                                executionEntries := Plus(r.executionEntries,
                                                         step.RecordObservation? || step.RecordQuantity?)))
  {
    One(r, step);
  }

  lemma ResourceLeads(r: Rows, step: Step)
    requires ResourceReady(r, step)
    ensures Leads(r, [step], r.(plannedResources := Plus(r.plannedResources, step.PlanResource?),
                                assets := Plus(r.assets, step.CreateAsset?),
                                allocations := Plus(r.allocations, step.AllocateResource?)))
  {
    One(r, step);
  }

  lemma MeasurementLeads(r: Rows, step: Step)
    requires MeasurementReady(r, step)
    ensures Leads(r, [step], r.(measurement := MeasurementAfter(None, step)))
  {
    One(r, step);
  }

  lemma PreparesBilling(r: Rows)
    requires r.measurement == Some(MeasurementApproved) && !r.billingRecord
    ensures Leads(r, [PrepareBilling], r.(billingRecord := true))
  {
    One(r, PrepareBilling);
  }

  lemma IssuesBilling(r: Rows)
    requires r.billingRecord && !r.billingDocument
    ensures Leads(r, [IssueBillingDocument], r.(billingDocument := true))
  {
    One(r, IssueBillingDocument);
  }

  lemma DownloadsBilling(r: Rows)
    requires r.billingDocument
    ensures Leads(r, [DownloadPdf], r)
  {
    One(r, DownloadPdf);
  }

  lemma Two(r: Rows, a: Step, r1: Rows, b: Step, r2: Rows)
    requires Leads(r, [a], r1) && Leads(r1, [b], r2)
    ensures Leads(r, [a, b], r2)
  {
    Chain(r, [a], r1, [b], r2);
    assert [a] + [b] == [a, b];
  }

  lemma Three(r: Rows, a: Step, r1: Rows, b: Step, r2: Rows, c: Step, r3: Rows)
    requires Leads(r, [a], r1) && Leads(r1, [b], r2) && Leads(r2, [c], r3)
    ensures Leads(r, [a, b, c], r3)
  {
    Two(r, a, r1, b, r2);
    Chain(r, [a, b], r2, [c], r3);
    assert [a, b] + [c] == [a, b, c];
  }

  lemma Join(r: Rows, a: seq<Step>, r1: Rows, b: seq<Step>, r2: Rows, steps: seq<Step>)
    requires Leads(r, a, r1) && Leads(r1, b, r2) && steps == a + b
    ensures Leads(r, steps, r2)
  {
    Chain(r, a, r1, b, r2);
  }

  lemma TwoPairs(a: Step, b: Step, c: Step, d: Step)
    ensures [a, b, c, d] == [a, b] + [c, d]
  {
  }

  // ----- One stage ------------------------------------------------------------------------------

  const DRAFTED: Rows := NEW_CLIENT.(category := true, service := Some(ServiceDraft))

  lemma CatalogueHalf()
    ensures Leads(NEW_CLIENT, [EnsureCategory, CreateService], DRAFTED)
  {
    CatalogueLeads(NEW_CLIENT, EnsureCategory);
    CatalogueLeads(NEW_CLIENT.(category := true), CreateService);
    Two(NEW_CLIENT, EnsureCategory, NEW_CLIENT.(category := true), CreateService, DRAFTED);
  }

  lemma ProposalHalf()
    ensures Leads(DRAFTED, [PublishService, CreateProposal], Offered(ProposalDraft))
  {
    var published := DRAFTED.(service := Some(ServicePublished));
    CatalogueLeads(DRAFTED, PublishService);
    ProposalLeads(published, CreateProposal);
    Two(DRAFTED, PublishService, published, CreateProposal, Offered(ProposalDraft));
  }

  lemma ProposingLeads()
    ensures Leads(NEW_CLIENT, PROPOSING, Offered(ProposalDraft))
  {
    CatalogueHalf();
    ProposalHalf();
    TwoPairs(EnsureCategory, CreateService, PublishService, CreateProposal);
    Join(NEW_CLIENT, [EnsureCategory, CreateService], DRAFTED, [PublishService, CreateProposal],
         Offered(ProposalDraft), PROPOSING);
  }

  function Ordered(): Rows {
    Offered(ProposalAccepted).(purchaseOrder := Some(OrderedRegistered))
  }

  lemma OrderingLeads()
    ensures Leads(Offered(ProposalIssued), ORDERING, Ordered())
  {
    var r1 := Offered(ProposalAccepted);
    var r2 := r1.(purchaseOrder := Some(OrderedDraft));
    ProposalLeads(Offered(ProposalIssued), AcceptProposal);
    PurchaseOrderLeads(r1, CreatePurchaseOrder);
    PurchaseOrderLeads(r2, RegisterPurchaseOrder);
    Three(Offered(ProposalIssued), AcceptProposal, r1, CreatePurchaseOrder, r2, RegisterPurchaseOrder, Ordered());
  }

  function Requested(status: RequestStatus): Rows {
    Ordered().(request := Some(status))
  }

  lemma RequestPair(before: Rows, first: Step, second: Step)
    requires RequestReady(before, first) && !first.AttachDocument? && !first.ConvertRequest?
    requires RequestReady(before.(request := RequestAfter(None, first)), second)
    requires !second.AttachDocument? && !second.ConvertRequest?
    ensures Leads(before, [first, second], before.(request := RequestAfter(None, second)))
  {
    var middle := before.(request := RequestAfter(None, first));
    RequestLeads(before, first);
    RequestLeads(middle, second);
    Two(before, first, middle, second, before.(request := RequestAfter(None, second)));
  }

  lemma RequestingLeads()
    ensures Leads(Ordered(), REQUESTING, Requested(RequestApproved))
  {
    RequestPair(Ordered(), CreateRequest, SubmitRequest);
    RequestPair(Requested(RequestSubmitted), ReviewRequest, ApproveRequest);
    TwoPairs(CreateRequest, SubmitRequest, ReviewRequest, ApproveRequest);
    Join(Ordered(), [CreateRequest, SubmitRequest], Requested(RequestSubmitted), [ReviewRequest, ApproveRequest],
         Requested(RequestApproved), REQUESTING);
  }

  function Converted(documents: nat): Rows {
    Ordered().(request := Some(RequestConverted), order := Some(Draft), requestDocuments := documents)
  }

  function PartialPrepared(): Rows {
    Converted(0).(order := Some(Prepared))
  }

  lemma ConvertingLeads()
    ensures Leads(Requested(RequestApproved), [ConvertRequest, PrepareOrder], PartialPrepared())
    ensures Leads(Requested(RequestApproved), [AttachDocument, ConvertRequest], Converted(1))
  {
    RequestLeads(Requested(RequestApproved), ConvertRequest);
    OrderLeads(Converted(0), PrepareOrder);
    Two(Requested(RequestApproved), ConvertRequest, Converted(0), PrepareOrder, PartialPrepared());
    var attached := Requested(RequestApproved).(requestDocuments := 1);
    RequestLeads(Requested(RequestApproved), AttachDocument);
    RequestLeads(attached, ConvertRequest);
    Two(Requested(RequestApproved), AttachDocument, attached, ConvertRequest, Converted(1));
  }

  /** Released, with `n` resources allocated. */
  function Staffed(prepared: Rows, n: nat): Rows {
    prepared.(order := Some(Released), plannedResources := n, assets := n, allocations := n)
  }

  lemma OneAllocation(prepared: Rows, n: nat)
    ensures Leads(Staffed(prepared, n), ALLOCATION, Staffed(prepared, n + 1))
  {
    var r1 := Staffed(prepared, n).(plannedResources := n + 1);
    var r2 := r1.(assets := n + 1);
    ResourceLeads(Staffed(prepared, n), PlanResource);
    ResourceLeads(r1, CreateAsset);
    ResourceLeads(r2, AllocateResource);
    Three(Staffed(prepared, n), PlanResource, r1, CreateAsset, r2, AllocateResource, Staffed(prepared, n + 1));
  }

  lemma {:induction false} AllocationsLead(prepared: Rows, resources: seq<string>)
    ensures Leads(Staffed(prepared, 0), Allocations(resources), Staffed(prepared, |resources|))
  {
    if resources != [] {
      var n := |resources| - 1;
      AllocationsLead(prepared, resources[..n]);
      OneAllocation(prepared, n);
      Chain(Staffed(prepared, 0), Allocations(resources[..n]), Staffed(prepared, n), ALLOCATION,
            Staffed(prepared, n + 1));
    }
  }

  function Executed(prepared: Rows, n: nat): Rows {
    Staffed(prepared, n).(order := Some(Completed), executionEntries := 2)
  }

  /** Half way through the execution. */
  function Observed(prepared: Rows, n: nat): Rows {
    Staffed(prepared, n).(order := Some(InExecution), executionEntries := 1)
  }

  lemma StartingLeads(prepared: Rows, n: nat)
    requires prepared.executionEntries == 0
    ensures Leads(Staffed(prepared, n), [StartExecution, RecordObservation], Observed(prepared, n))
  {
    var started := Staffed(prepared, n).(order := Some(InExecution));
    OrderLeads(Staffed(prepared, n), StartExecution);
    OrderLeads(started, RecordObservation);
    Two(Staffed(prepared, n), StartExecution, started, RecordObservation, Observed(prepared, n));
  }

  lemma FinishingLeads(prepared: Rows, n: nat)
    ensures Leads(Observed(prepared, n), [RecordQuantity, CompleteExecution], Executed(prepared, n))
  {
    var recorded := Observed(prepared, n).(executionEntries := 2);
    OrderLeads(Observed(prepared, n), RecordQuantity);
    OrderLeads(recorded, CompleteExecution);
    Two(Observed(prepared, n), RecordQuantity, recorded, CompleteExecution, Executed(prepared, n));
  }

  lemma ExecutingLeads(prepared: Rows, n: nat)
    requires prepared.executionEntries == 0
    ensures Leads(Staffed(prepared, n), EXECUTING, Executed(prepared, n))
  {
    StartingLeads(prepared, n);
    FinishingLeads(prepared, n);
    TwoPairs(StartExecution, RecordObservation, RecordQuantity, CompleteExecution);
    Join(Staffed(prepared, n), [StartExecution, RecordObservation], Observed(prepared, n),
         [RecordQuantity, CompleteExecution], Executed(prepared, n), EXECUTING);
  }

  function Measured(done: Rows, status: MeasurementStatus): Rows {
    done.(measurement := Some(status))
  }

  lemma MeasuringHalf(done: Rows)
    requires done.order == Some(Completed) && done.measurement.None?
    ensures Leads(done, [CreateMeasurement, SubmitMeasurement], Measured(done, MeasurementSubmitted))
  {
    var created := Measured(done, MeasurementCreated);
    MeasurementLeads(done, CreateMeasurement);
    MeasurementLeads(created, SubmitMeasurement);
    Two(done, CreateMeasurement, created, SubmitMeasurement, Measured(done, MeasurementSubmitted));
  }

  lemma ApprovingHalf(done: Rows)
    ensures Leads(Measured(done, MeasurementSubmitted), [ReviewMeasurement, ApproveMeasurement],
                  Measured(done, MeasurementApproved))
  {
    var reviewed := Measured(done, MeasurementInReview);
    MeasurementLeads(Measured(done, MeasurementSubmitted), ReviewMeasurement);
    MeasurementLeads(reviewed, ApproveMeasurement);
    Two(Measured(done, MeasurementSubmitted), ReviewMeasurement, reviewed, ApproveMeasurement,
        Measured(done, MeasurementApproved));
  }

  lemma MeasuringLeads(done: Rows)
    requires done.order == Some(Completed) && done.measurement.None?
    ensures Leads(done, MEASURING, Measured(done, MeasurementApproved))
  {
    MeasuringHalf(done);
    ApprovingHalf(done);
    TwoPairs(CreateMeasurement, SubmitMeasurement, ReviewMeasurement, ApproveMeasurement);
    Join(done, [CreateMeasurement, SubmitMeasurement], Measured(done, MeasurementSubmitted),
         [ReviewMeasurement, ApproveMeasurement], Measured(done, MeasurementApproved), MEASURING);
  }

  lemma BillingStageLeads(done: Rows)
    requires done.measurement == Some(MeasurementApproved) && !done.billingRecord && !done.billingDocument
    ensures Leads(done, BILLING, done.(billingRecord := true, billingDocument := true))
  {
    var r1, r2 := done.(billingRecord := true), done.(billingRecord := true, billingDocument := true);
    PreparesBilling(done);
    IssuesBilling(r1);
    DownloadsBilling(r2);
    Three(done, PrepareBilling, r1, IssueBillingDocument, r2, DownloadPdf, r2);
  }

  // ----- From the new client to the end of each stage -------------------------------------------

  lemma OpeningLeads()
    ensures Leads(NEW_CLIENT, OPENING, Offered(ProposalDraft))
  {
    CatalogueLeads(NEW_CLIENT, CreateClient);
    ProposingLeads();
    Chain(NEW_CLIENT, [CreateClient], NEW_CLIENT, PROPOSING, Offered(ProposalDraft));
  }

  lemma IssuedLeads()
    ensures Leads(NEW_CLIENT, OPENING + [IssueProposal], Offered(ProposalIssued))
  {
    OpeningLeads();
    ProposalLeads(Offered(ProposalDraft), IssueProposal);
    Chain(NEW_CLIENT, OPENING, Offered(ProposalDraft), [IssueProposal], Offered(ProposalIssued));
  }

  lemma OrderedLeads()
    ensures Leads(NEW_CLIENT, OPENING + [IssueProposal] + ORDERING, Ordered())
  {
    IssuedLeads();
    OrderingLeads();
    Chain(NEW_CLIENT, OPENING + [IssueProposal], Offered(ProposalIssued), ORDERING, Ordered());
  }

  lemma ApprovedLeads()
    ensures Leads(NEW_CLIENT, OPENING + [IssueProposal] + ORDERING + REQUESTING, Requested(RequestApproved))
  {
    OrderedLeads();
    RequestingLeads();
    Chain(NEW_CLIENT, OPENING + [IssueProposal] + ORDERING, Ordered(), REQUESTING, Requested(RequestApproved));
  }

  lemma PartialPreparedLeads()
    ensures Leads(NEW_CLIENT, PARTIAL_TO_PREPARED, PartialPrepared())
  {
    ApprovedLeads();
    ConvertingLeads();
    Chain(NEW_CLIENT, OPENING + [IssueProposal] + ORDERING + REQUESTING, Requested(RequestApproved),
          [ConvertRequest, PrepareOrder], PartialPrepared());
  }

  lemma VerticalConvertedLeads()
    ensures Leads(NEW_CLIENT, VERTICAL_TO_CONVERTED, Converted(1))
  {
    ApprovedLeads();
    ConvertingLeads();
    Chain(NEW_CLIENT, OPENING + [IssueProposal] + ORDERING + REQUESTING, Requested(RequestApproved),
          [AttachDocument, ConvertRequest], Converted(1));
  }

  function VerticalPrepared(transport: bool): Rows {
    Converted(1).(routeUpdated := transport, order := Some(Prepared))
  }

  lemma RouteLeads(transport: bool)
    ensures Leads(Converted(1), if transport then [UpdateRoute] else [], Converted(1).(routeUpdated := transport))
    ensures Leads(Converted(1).(routeUpdated := transport), [PrepareOrder], VerticalPrepared(transport))
  {
    if transport {
      OrderLeads(Converted(1), UpdateRoute);
    }
    OrderLeads(Converted(1).(routeUpdated := transport), PrepareOrder);
  }

  lemma VerticalPreparedLeads(transport: bool)
    ensures Leads(NEW_CLIENT, VerticalToPrepared(transport), VerticalPrepared(transport))
  {
    var route, routed := if transport then [UpdateRoute] else [], Converted(1).(routeUpdated := transport);
    VerticalConvertedLeads();
    RouteLeads(transport);
    Chain(NEW_CLIENT, VERTICAL_TO_CONVERTED, Converted(1), route, routed);
    Chain(NEW_CLIENT, VERTICAL_TO_CONVERTED + route, routed, [PrepareOrder], VerticalPrepared(transport));
  }

  lemma ReleasedLeads(steps: seq<Step>, prepared: Rows)
    requires Leads(NEW_CLIENT, steps, prepared) && prepared.order == Some(Prepared)
    requires prepared.plannedResources == prepared.assets == prepared.allocations == 0
    ensures Leads(NEW_CLIENT, steps + [ReleaseOrder], Staffed(prepared, 0))
  {
    OrderLeads(prepared, ReleaseOrder);
    Chain(NEW_CLIENT, steps, prepared, [ReleaseOrder], Staffed(prepared, 0));
  }

  lemma ExecutedLeads(steps: seq<Step>, prepared: Rows, n: nat)
    requires Leads(NEW_CLIENT, steps, Staffed(prepared, n)) && prepared.executionEntries == 0
    ensures Leads(NEW_CLIENT, steps + EXECUTING, Executed(prepared, n))
  {
    ExecutingLeads(prepared, n);
    Chain(NEW_CLIENT, steps, Staffed(prepared, n), EXECUTING, Executed(prepared, n));
  }

  lemma VerticalCompletedLeads(transport: bool, resources: seq<string>)
    ensures Leads(NEW_CLIENT, VerticalToPrepared(transport) + [ReleaseOrder], Staffed(VerticalPrepared(transport), 0))
    ensures Leads(NEW_CLIENT, VerticalToCompleted(transport, resources),
                  Executed(VerticalPrepared(transport), |resources|))
  {
    var prepared, steps := VerticalPrepared(transport), VerticalToPrepared(transport);
    VerticalPreparedLeads(transport);
    ReleasedLeads(steps, prepared);
    AllocationsLead(prepared, resources);
    Chain(NEW_CLIENT, steps + [ReleaseOrder], Staffed(prepared, 0), Allocations(resources),
          Staffed(prepared, |resources|));
    ExecutedLeads(steps + [ReleaseOrder] + Allocations(resources), prepared, |resources|);
  }

  lemma MeasuredLeads(steps: seq<Step>, done: Rows)
    requires Leads(NEW_CLIENT, steps, done) && done.order == Some(Completed) && done.measurement.None?
    ensures Leads(NEW_CLIENT, steps + MEASURING, Measured(done, MeasurementApproved))
  {
    MeasuringLeads(done);
    Chain(NEW_CLIENT, steps, done, MEASURING, Measured(done, MeasurementApproved));
  }

  lemma BilledLeads(steps: seq<Step>, done: Rows)
    requires Leads(NEW_CLIENT, steps, done) && done.measurement == Some(MeasurementApproved)
    requires !done.billingRecord && !done.billingDocument
    ensures Leads(NEW_CLIENT, steps + BILLING, done.(billingRecord := true, billingDocument := true))
  {
    BillingStageLeads(done);
    Chain(NEW_CLIENT, steps, done, BILLING, done.(billingRecord := true, billingDocument := true));
  }

  // ----- Every flow -----------------------------------------------------------------------------

  lemma VerticalLeads(transport: bool, resources: seq<string>, stop: Stop)
    ensures var flow := Vertical(transport, resources, stop); Leads(NEW_CLIENT, Plan(flow), EndRows(flow))
  {
    var steps, done := VerticalToCompleted(transport, resources), Executed(VerticalPrepared(transport), |resources|);
    VerticalPreparedLeads(transport);
    VerticalCompletedLeads(transport, resources);
    MeasuredLeads(steps, done);
    BilledLeads(steps + MEASURING, Measured(done, MeasurementApproved));
  }

  /** Released, one resource allocated and executed, from the end of the preparation on. */
  lemma PendingExecutedLeads(steps: seq<Step>, prepared: Rows)
    requires Leads(NEW_CLIENT, steps, prepared) && prepared.order == Some(Prepared) && prepared.executionEntries == 0
    requires prepared.plannedResources == prepared.assets == prepared.allocations == 0
    ensures Leads(NEW_CLIENT, steps + [ReleaseOrder] + ALLOCATION + EXECUTING, Executed(prepared, 1))
  {
    ReleasedLeads(steps, prepared);
    OneAllocation(prepared, 0);
    Chain(NEW_CLIENT, steps + [ReleaseOrder], Staffed(prepared, 0), ALLOCATION, Staffed(prepared, 1));
    ExecutedLeads(steps + [ReleaseOrder] + ALLOCATION, prepared, 1);
  }

  lemma PendingMeasuredLeads(steps: seq<Step>, done: Rows)
    requires Leads(NEW_CLIENT, steps, done) && done.order == Some(Completed) && done.measurement.None?
    ensures Leads(NEW_CLIENT, steps + [CreateMeasurement], Measured(done, MeasurementCreated))
  {
    MeasurementLeads(done, CreateMeasurement);
    Chain(NEW_CLIENT, steps, done, [CreateMeasurement], Measured(done, MeasurementCreated));
  }

  lemma PendingLeads()
    ensures Leads(NEW_CLIENT, Plan(MeasurementPendingFlow), EndRows(MeasurementPendingFlow))
  {
    PartialPreparedLeads();
    PendingExecutedLeads(PARTIAL_TO_PREPARED, PartialPrepared());
    PendingMeasuredLeads(PARTIAL_TO_PREPARED + [ReleaseOrder] + ALLOCATION + EXECUTING,
                         Executed(PartialPrepared(), 1));
  }

  lemma DecidedLeads(step: Step, status: ProposalStatus)
    requires step in {RejectProposal, ExpireProposal}
    requires status == if step.RejectProposal? then ProposalRejected else ProposalExpired
    ensures Leads(NEW_CLIENT, OPENING + [IssueProposal, step], Offered(status))
  {
    OpeningLeads();
    ProposalLeads(Offered(ProposalDraft), IssueProposal);
    ProposalLeads(Offered(ProposalIssued), step);
    Two(Offered(ProposalDraft), IssueProposal, Offered(ProposalIssued), step, Offered(status));
    Chain(NEW_CLIENT, OPENING, Offered(ProposalDraft), [IssueProposal, step], Offered(status));
  }

  lemma PurchaseOrderCancelledLeads()
    ensures Leads(NEW_CLIENT, Plan(PurchaseOrderCancelledFlow), EndRows(PurchaseOrderCancelledFlow))
  {
    OrderedLeads();
    PurchaseOrderLeads(Ordered(), CancelPurchaseOrder);
    Chain(NEW_CLIENT, OPENING + [IssueProposal] + ORDERING, Ordered(), [CancelPurchaseOrder],
          EndRows(PurchaseOrderCancelledFlow));
  }

  lemma ServiceOrderCancelledLeads()
    ensures Leads(NEW_CLIENT, Plan(ServiceOrderCancelledFlow), EndRows(ServiceOrderCancelledFlow))
  {
    PartialPreparedLeads();
    OrderLeads(PartialPrepared(), CancelOrder);
    Chain(NEW_CLIENT, PARTIAL_TO_PREPARED, PartialPrepared(), [CancelOrder], EndRows(ServiceOrderCancelledFlow));
  }

  lemma ClientInactiveLeads()
    ensures Leads(NEW_CLIENT, Plan(ClientInactiveFlow), EndRows(ClientInactiveFlow))
  {
    CatalogueLeads(NEW_CLIENT, CreateClient);
    CatalogueLeads(NEW_CLIENT, DeactivateClient);
    Two(NEW_CLIENT, CreateClient, NEW_CLIENT, DeactivateClient, EndRows(ClientInactiveFlow));
  }

  lemma PlanLeads(flow: Flow)
    ensures Leads(NEW_CLIENT, Plan(flow), EndRows(flow))
  {
    match flow
    case Vertical(transport, resources, stop) => VerticalLeads(transport, resources, stop);
    case MeasurementPendingFlow => PendingLeads();
    case PurchaseOrderCancelledFlow => PurchaseOrderCancelledLeads();
    case ServiceOrderCancelledFlow => ServiceOrderCancelledLeads();
    case ClientInactiveFlow => ClientInactiveLeads();
    case ProposalDraftFlow => OpeningLeads();
    case ProposalIssuedFlow => IssuedLeads();
    case ProposalRejectedFlow => DecidedLeads(RejectProposal, ProposalRejected);
    case ProposalExpiredFlow => DecidedLeads(ExpireProposal, ProposalExpired);
  }

  /** Every flow ends with exactly the rows it is meant to leave, for every list of resources. */
  lemma FinalRows(flow: Flow)
    ensures Build(Plan(flow)) == EndRows(flow)
  {
    PlanLeads(flow);
    LeadsBuilds([], NEW_CLIENT, Plan(flow), EndRows(flow));
    assert [] + Plan(flow) == Plan(flow);
  }

  /** At every point of every flow the rows are in order, and the next call finds what it needs: a
      proposal only over a published service, a request only with a registered purchase order,
      conversion only after approval, a measurement only of a completed order. */
  lemma WorkIsOrderly(flow: Flow, n: nat)
    requires n <= |Plan(flow)|
    ensures InOrder(Build(Plan(flow)[..n]))
    ensures n < |Plan(flow)| ==> Ready(Build(Plan(flow)[..n]), Plan(flow)[n])
  {
    PlanLeads(flow);
    OrderlyThroughout([], NEW_CLIENT, Plan(flow), EndRows(flow), n);
    assert [] + Plan(flow)[..n] == Plan(flow)[..n];
  }
}
