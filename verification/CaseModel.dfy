/** The rows of one case (nodes, documents, approvals, requests, escalations, outbox) and the event catalogue. */
module CaseModel {
  import opened Wrappers
  import opened StateMachine
  import opened LifeEventGraph

  type Time = int
  type DocType = string

  const CHILD_PASSPORT: DocType := "CHILD_PASSPORT"

  // --- nodes ---

  datatype NodeType = EntityFiling | ParentReported

  /** The template columns of a node; no service changes them. slaHours is 0 for a step without an SLA. */
  datatype NodeSpec = NodeSpec(
    key: string, kind: NodeType, requiredDocuments: seq<DocType>, outputs: seq<DocType>, success: NodeState,
    slaHours: nat)

  datatype Milestone = AppointmentBooked | ApplicationSubmitted | PassportIssued | Delayed

  datatype MilestoneReport = MilestoneReport(milestone: Milestone, passportNumberPresent: bool)

  datatype ApprovalState = Undecided | Approved | Declined | Cancelled

  datatype Node = Node(
    spec: NodeSpec, state: NodeState, approvalState: Option<ApprovalState>, attempts: nat,
    submittedAt: Option<Time>, slaDueAt: Option<Time>, clearedAt: Option<Time>, stalledSince: Option<Time>,
    blockedReason: Option<string>, reports: seq<MilestoneReport>)

  // --- documents ---

  datatype DocumentStatus = Required | Uploaded | Verified | Missing | Expired | NotApplicable

  datatype Source = Resident | GovernmentMock

  datatype Document = Document(status: DocumentStatus, source: Source)

  predicate Outstanding(status: DocumentStatus) {
    status == Missing || status == Expired
  }

  // --- the officer gate and the filings ---

  /** A user, and whether the access policy lets them officiate on this case. */
  datatype Officer = Officer(id: nat, officiates: bool)

  datatype Approval = Approval(node: nat, state: ApprovalState, decidedBy: Option<Officer>)

  /** The idempotency key of a filing: one per node and attempt. */
  datatype FilingKey = FilingKey(node: nat, attempt: nat)

  /** What an authority may answer (the published contract also lets it say that a request was cancelled). */
  datatype AuthorityStatus =
    | InProcess | ClearedStatus | CompletedStatus | SubmittedStatus | BlockedStatus | DocumentMissingStatus
    | StalledStatus | RejectedStatus | WaitingForParentStatus | CancelledStatus

  predicate Successful(status: AuthorityStatus) {
    status == ClearedStatus || status == CompletedStatus
  }

  datatype RequestState = BeingSubmitted | Refused | Reported(status: AuthorityStatus)

  datatype EntityRequest = EntityRequest(
    node: nat, approval: nat, key: FilingKey, state: RequestState, externalRef: Option<FilingKey>, attempts: nat)

  datatype EntityStatus = EntityStatus(request: nat, status: AuthorityStatus)

  // --- escalations ---

  datatype EscalationReason = SlaStall | ConsulateStall | EntityRejection | OtherReason(code: nat)

  datatype EscalationStatus = Open | InProgress | Resolved

  datatype Escalation = Escalation(reason: EscalationReason, node: Option<nat>, status: EscalationStatus)

  // --- events ---

  datatype CaseStatus = Intake | Active | AwaitingParent | AwaitingOfficer | Escalated | AllComplete | Closed

  datatype StallKind = NoStall | SlaKind | ConsulateKind | DependencyDown

  datatype CallbackReason =
    | CallCleared | CallCompleted | CallBlocked | CallDocumentMissing | CallStalled | CallParentInput | CallBiometrics
    | CallEscalation | CallCaseComplete

  datatype Event =
    | CaseCreated
    | IntakeCompleted
    | CaseStatusChanged(before: CaseStatus, after: CaseStatus)
    | CaseCompleted
    | NodeMoved(node: nat, from: NodeState, to: NodeState, stall: StallKind)
    | ApprovalRequested(approval: nat)
    | OfficerApproved(approval: nat)
    | OfficerRejected(approval: nat)
    | OfficerRequestedDocuments(node: nat)
    | EntityRequestReleased(request: nat)
    | EntityStatusReceived(request: nat, status: AuthorityStatus, detail: string, missing: seq<DocType>)
    | ConsulateMilestoneReported(milestone: Milestone)
    | DocumentUploaded(doc: DocType)
    | DocumentVerified(doc: DocType)
    | HumanEscalationRequired(escalation: nat, warmTransfer: bool)
    | EscalationResolved(escalation: nat)
    | CallbackRequired(reason: CallbackReason, about: Option<nat>)
    | CallbackScheduled
    | CallbackBlocked
    | NotificationRequested

  datatype Category =
    | CaseCategory | NodeTransition | OfficerCategory | CallbackCategory | EntityRequestCategory
    | EntityStatusCategory | NotificationCategory

  datatype Topic = CaseEvents | CaseCallbacks | EntityRequests | EntityStatuses | Notifications

  function CategoryOf(e: Event): Category {
    match e
    case NodeMoved(_, _, _, _) => NodeTransition
    case ApprovalRequested(_) => OfficerCategory
    case OfficerApproved(_) => OfficerCategory
    case OfficerRejected(_) => OfficerCategory
    case OfficerRequestedDocuments(_) => OfficerCategory
    case EntityRequestReleased(_) => EntityRequestCategory
    case EntityStatusReceived(_, _, _, _) => EntityStatusCategory
    case CallbackRequired(_, _) => CallbackCategory
    case CallbackScheduled => CallbackCategory
    case CallbackBlocked => CallbackCategory
    case NotificationRequested => NotificationCategory
    case _ => CaseCategory
  }

  function TopicOf(e: Event): Topic {
    match CategoryOf(e)
    case CaseCategory => CaseEvents
    case NodeTransition => CaseEvents
    case OfficerCategory => CaseEvents
    case CallbackCategory => CaseCallbacks
    case EntityRequestCategory => EntityRequests
    case EntityStatusCategory => EntityStatuses
    case NotificationCategory => Notifications
  }

  datatype Consumer =
    | Orchestrator | GraphProjection | CallbackScheduler | EntitySubmitter | EntityStatusApplier | Notifier

  /** The events the orchestrator runs on. */
  predicate Trigger(e: Event) {
    e.IntakeCompleted? || e.HumanEscalationRequired? || e.CaseCompleted? || e.NodeMoved?
  }

  function ListensOn(c: Consumer): Topic {
    match c
    case Orchestrator => CaseEvents
    case GraphProjection => CaseEvents
    case CallbackScheduler => CaseCallbacks
    case EntitySubmitter => EntityRequests
    case EntityStatusApplier => EntityStatuses
    case Notifier => Notifications
  }

  /** The event names, or the categories, a consumer filters its topic on. */
  predicate Accepts(c: Consumer, e: Event) {
    match c
    case Orchestrator => Trigger(e)
    case GraphProjection => CategoryOf(e) == NodeTransition || CategoryOf(e) == CaseCategory
    case CallbackScheduler => e.CallbackRequired?
    case EntitySubmitter => e.EntityRequestReleased?
    case EntityStatusApplier => e.EntityStatusReceived?
    case Notifier => e.NotificationRequested?
  }

  predicate Registered(c: Consumer, e: Event) {
    ListensOn(c) == TopicOf(e) && Accepts(c, e)
  }

  /** Idempotency keys of outbox rows; a callback's key names the event that asked for it. */
  datatype IdempotencyKey = ReleaseKey(filing: FilingKey) | CaseCompletedKey | CallbackKey(trigger: nat)

  datatype OutboxRow = OutboxRow(event: Event, key: Option<IdempotencyKey>)

  // --- the case ---

  /**
   * Everything the database holds about one case. The columns up to catalogue never change: the edges, the node the
   * parent reports on, and the known document types. An outbox row's position is its event id.
   */
  datatype CaseState = CaseState(
    edges: seq<Edge>, consulate: Option<nat>, catalogue: set<DocType>,
    status: CaseStatus, nodes: seq<Node>, docs: map<DocType, Document>, approvals: seq<Approval>,
    requests: seq<EntityRequest>, statuses: seq<EntityStatus>, escalations: seq<Escalation>,
    outbox: seq<OutboxRow>, receipts: set<(Consumer, nat)>)
}
