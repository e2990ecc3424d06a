/**
 * What one unit of work of each service does to a case, as functions on the case's rows. A Failure is an exception:
 * the unit of work is rolled back. CaseSession carries the same services out step by step.
 */
module CaseServices {
  import opened Wrappers
  import opened StateMachine
  import opened LifeEventGraph
  import opened CaseModel

  // --- event recorder ---

  predicate KeyUsed(outbox: seq<OutboxRow>, key: Option<IdempotencyKey>) {
    key.Some? && exists e :: 0 <= e < |outbox| && outbox[e].key == key
  }

  function EmitOnce(s: CaseState, event: Event, key: Option<IdempotencyKey>): CaseState {
    if KeyUsed(s.outbox, key) then s else s.(outbox := s.outbox + [OutboxRow(event, key)])
  }

  function Emit(s: CaseState, event: Event): CaseState {
    s.(outbox := s.outbox + [OutboxRow(event, None)])
  }

  // --- case status ---

  predicate AllDone(nodes: seq<Node>) {
    nodes != [] && forall i :: 0 <= i < |nodes| ==> Done(nodes[i].state)
  }

  predicate AnyIn(nodes: seq<Node>, states: set<NodeState>) {
    exists i :: 0 <= i < |nodes| && nodes[i].state in states
  }

  predicate AnyOpen(escalations: seq<Escalation>) {
    exists k :: 0 <= k < |escalations| && escalations[k].status != Resolved
  }

  function DerivedStatus(s: CaseState): CaseStatus {
    if s.status == Closed || s.status == Intake then s.status
    else if AllDone(s.nodes) then AllComplete
    else if AnyOpen(s.escalations) then Escalated
    else if AnyIn(s.nodes, {WaitingForParent, NodeState.DocumentMissing}) then AwaitingParent
    else if AnyIn(s.nodes, {WaitingForHuman}) then AwaitingOfficer
    else Active
  }

  function Refresh(s: CaseState): CaseState {
    var status := DerivedStatus(s);
    if status == s.status then s
    else
      var changed := Emit(s.(status := status), CaseStatusChanged(s.status, status));
      if status == AllComplete then EmitOnce(changed, CaseCompleted, Some(CaseCompletedKey)) else changed
  }

  // --- life-event graph ---

  /** A reason that is absent or empty counts as no reason. */
  predicate Given(reason: Option<string>) {
    reason.Some? && reason.value != ""
  }

  /** The columns a transition writes on the node. */
  function Stamp(n: Node, target: NodeState, reason: Option<string>, now: Time): Node {
    var done := Done(target);
    n.(state := target,
       submittedAt := if target == Submitted && n.submittedAt.None? then Some(now) else n.submittedAt,
       slaDueAt :=
         if done then None
         else if target == Submitted && n.spec.slaHours > 0 then Some(now + n.spec.slaHours)
         else n.slaDueAt,
       clearedAt := if done then Some(now) else n.clearedAt,
       stalledSince :=
         if target == Stalled then (if n.stalledSince.Some? then n.stalledSince else Some(now))
         else if done || n.state == Stalled then None
         else n.stalledSince,
       blockedReason :=
         if done then None
         else if Attention(target) then (if Given(reason) then reason else n.blockedReason)
         else if reason.None? then None
         else n.blockedReason)
  }

  function Transition(s: CaseState, i: nat, target: NodeState, reason: Option<string>, stall: StallKind, now: Time)
    : (r: Result<CaseState>)
    requires i < |s.nodes|
    ensures r.Success? ==> |r.value.nodes| == |s.nodes|
  {
    var n := s.nodes[i];
    if n.state == target && !Given(reason) then Success(s)
    else if !CanMove(n.state, target) then Failure(InvalidTransition)
    else
      var stamped := s.(nodes := s.nodes[i := Stamp(n, target, reason, now)]);
      Success(Refresh(Emit(stamped, NodeMoved(i, n.state, target, stall))))
  }

  predicate DependenciesDone(s: CaseState, i: nat)
    requires Within(|s.nodes|, s.edges)
  {
    forall e :: e in s.edges && e.1 == i ==> Done(s.nodes[e.0].state)
  }

  predicate CanUnlock(s: CaseState, i: nat)
    requires Within(|s.nodes|, s.edges)
  {
    i < |s.nodes| && s.nodes[i].state == Pending && DependenciesDone(s, i)
  }

  /** The nodes below k that can be unlocked, in node order. */
  function Unlockable(s: CaseState, k: nat): (keys: seq<nat>)
    requires Within(|s.nodes|, s.edges) && k <= |s.nodes|
    ensures forall i: nat :: i in keys <==> i < k && CanUnlock(s, i)
  {
    if k == 0 then [] else Unlockable(s, k - 1) + (if CanUnlock(s, k - 1) then [k - 1] else [])
  }

  // --- documents ---

  /** Those of the given types that the case holds as missing or expired. */
  function MissingOf(docs: map<DocType, Document>, types: seq<DocType>): (missing: seq<DocType>)
    ensures forall d :: d in missing <==> d in types && d in docs && Outstanding(docs[d].status)
  {
    if types == [] then []
    else
      var rest := MissingOf(docs, types[1..]);
      if types[0] in docs && Outstanding(docs[types[0]].status) then [types[0]] + rest else rest
  }

  function MissingForNode(s: CaseState, i: nat): seq<DocType>
    requires i < |s.nodes|
  {
    MissingOf(s.docs, s.nodes[i].spec.requiredDocuments)
  }

  /** The titles of a document list, joined for a reason line. */
  function Titles(types: seq<DocType>): string {
    if types == [] then "" else if |types| == 1 then types[0] else types[0] + ", " + Titles(types[1..])
  }

  predicate Markable(docs: map<DocType, Document>, catalogue: set<DocType>, d: DocType) {
    d in docs || d in catalogue
  }

  function MarkedMissing(docs: map<DocType, Document>, d: DocType): Document {
    if d in docs then docs[d].(status := DocumentStatus.Missing) else Document(DocumentStatus.Missing, Resident)
  }

  /** mark_missing: known document types become MISSING, created when the case has no such row; others are skipped. */
  function MarkMissing(docs: map<DocType, Document>, catalogue: set<DocType>, types: seq<DocType>)
    : map<DocType, Document>
  {
    if types == [] then docs
    else
      var before := MarkMissing(docs, catalogue, types[..|types| - 1]);
      var d := types[|types| - 1];
      if Markable(before, catalogue, d) then before[d := MarkedMissing(before, d)] else before
  }

  function Marked(docs: map<DocType, Document>, catalogue: set<DocType>, types: seq<DocType>): seq<DocType> {
    if types == [] then []
    else
      var d := types[|types| - 1];
      Marked(docs, catalogue, types[..|types| - 1]) + (if Markable(docs, catalogue, d) then [d] else [])
  }

  function RegisterOutputs(docs: map<DocType, Document>, outputs: seq<DocType>): map<DocType, Document> {
    if outputs == [] then docs
    else
      var before := RegisterOutputs(docs, outputs[..|outputs| - 1]);
      var d := outputs[|outputs| - 1];
      if d in before then before[d := Document(Uploaded, GovernmentMock)] else before
  }

  // --- officer gate ---

  predicate HasPending(s: CaseState, i: nat) {
    exists a :: 0 <= a < |s.approvals| && s.approvals[a].node == i && s.approvals[a].state == Undecided
  }

  predicate Requestable(state: NodeState) {
    state == Ready || Attention(state)
  }

  function RequestApproval(s: CaseState, i: nat, now: Time): (r: Result<CaseState>)
    requires i < |s.nodes|
    ensures r.Success? ==> |r.value.nodes| == |s.nodes|
  {
    if HasPending(s, i) then Success(s)
    else if !Requestable(s.nodes[i].state) then Failure(Conflict)
    else
      var ready :- if s.nodes[i].state == Stalled then Transition(s, i, Ready, None, NoStall, now) else Success(s);
      var asked := ready.(approvals := ready.approvals + [Approval(i, Undecided, None)],
                          nodes := ready.nodes[i := ready.nodes[i].(approvalState := Some(Undecided))]);
      var parked :- Transition(asked, i, WaitingForHuman, None, NoStall, now);
      Success(Emit(parked, ApprovalRequested(|s.approvals|)))
  }

  function Decide(s: CaseState, a: nat, decision: ApprovalState, officer: Officer): CaseState
    requires a < |s.approvals| && s.approvals[a].node < |s.nodes|
  {
    var i := s.approvals[a].node;
    s.(approvals := s.approvals[a := s.approvals[a].(state := decision, decidedBy := Some(officer))],
       nodes := s.nodes[i := s.nodes[i].(approvalState := if decision == Cancelled then None else Some(decision))])
  }

  function Approve(s: CaseState, a: nat, officer: Officer, now: Time): Result<CaseState>
    requires RowsLinked(s)
  {
    if a >= |s.approvals| then Failure(NotFound)
    else if !officer.officiates then Failure(Forbidden)
    else
      var i := s.approvals[a].node;
      if s.approvals[a].state != Undecided || s.nodes[i].state != WaitingForHuman then Failure(Conflict)
      else if MissingForNode(s, i) != [] then Failure(Conflict)
      else Release(Emit(Decide(s, a, Approved, officer), OfficerApproved(a)), i, a, now)
  }

  predicate KeyFiled(requests: seq<EntityRequest>, key: FilingKey) {
    exists r :: 0 <= r < |requests| && requests[r].key == key
  }

  function RequestWithKey(requests: seq<EntityRequest>, key: FilingKey): (r: nat)
    requires KeyFiled(requests, key)
    ensures r < |requests| && requests[r].key == key
  {
    if requests[|requests| - 1].key == key then |requests| - 1
    else RequestWithKey(requests[..|requests| - 1], key)
  }

  /** The first half of a release: count the attempt and file its request, unless its key is already filed. */
  function FileRequest(s: CaseState, i: nat, a: nat): (t: CaseState)
    requires i < |s.nodes|
    ensures |t.nodes| == |s.nodes| && KeyFiled(t.requests, FilingKey(i, t.nodes[i].attempts))
  {
    var attempt := s.nodes[i].attempts + 1;
    var key := FilingKey(i, attempt);
    var counted := s.(nodes := s.nodes[i := s.nodes[i].(attempts := attempt)]);
    if KeyFiled(s.requests, key) then counted
    else
      var filed := counted.(requests := s.requests + [EntityRequest(i, a, key, BeingSubmitted, None, 0)]);
      assert filed.requests[|s.requests|].key == key;
      filed
  }

  /** The second half: the node is submitting, and the submitter is told once. */
  function SendOff(s: CaseState, i: nat, now: Time): Result<CaseState>
    requires i < |s.nodes| && KeyFiled(s.requests, FilingKey(i, s.nodes[i].attempts))
  {
    var key := FilingKey(i, s.nodes[i].attempts);
    var moved :- Transition(s, i, Submitting, None, NoStall, now);
    Success(EmitOnce(moved, EntityRequestReleased(RequestWithKey(s.requests, key)), Some(ReleaseKey(key))))
  }

  function Release(s: CaseState, i: nat, a: nat, now: Time): Result<CaseState>
    requires i < |s.nodes|
  {
    SendOff(FileRequest(s, i, a), i, now)
  }

  /** A text of nothing but white space. */
  predicate Blank(text: string) {
    forall c :: c in text ==> c == ' ' || c == '\t' || c == '\n' || c == '\r'
  }

  function Reject(s: CaseState, a: nat, officer: Officer, reason: string, now: Time): Result<CaseState>
    requires RowsLinked(s)
  {
    if Blank(reason) then Failure(ValidationFailed)
    else if a >= |s.approvals| then Failure(NotFound)
    else if !officer.officiates then Failure(Forbidden)
    else if s.approvals[a].state != Undecided then Failure(Conflict)
    else
      Transition(Emit(Decide(s, a, Declined, officer), OfficerRejected(a)), s.approvals[a].node, Blocked,
                 Some("Officer did not release: " + reason), NoStall, now)
  }

  /** The node's pending approval: the first one, as there is never more than one. */
  function PendingApproval(approvals: seq<Approval>, i: nat): (a: nat)
    requires exists b :: 0 <= b < |approvals| && approvals[b].node == i && approvals[b].state == Undecided
    ensures a < |approvals| && approvals[a].node == i && approvals[a].state == Undecided
    ensures forall b :: 0 <= b < a ==> !(approvals[b].node == i && approvals[b].state == Undecided)
    decreases |approvals|
  {
    if approvals[0].node == i && approvals[0].state == Undecided then 0
    else
      assert forall b :: 1 <= b < |approvals| ==> approvals[1..][b - 1] == approvals[b];
      1 + PendingApproval(approvals[1..], i)
  }

  function CancelPending(s: CaseState, i: nat, officer: Officer): CaseState
    requires i < |s.nodes|
  {
    if HasPending(s, i) then Decide(s, PendingApproval(s.approvals, i), Cancelled, officer) else s
  }

  function RequestDocuments(s: CaseState, i: nat, types: seq<DocType>, officer: Officer, now: Time)
    : Result<CaseState>
  {
    if !officer.officiates then Failure(Forbidden)
    else if i >= |s.nodes| then Failure(NotFound)
    else if types == [] || exists d :: d in types && d !in s.catalogue then Failure(ValidationFailed)
    else
      var marked := CancelPending(s, i, officer).(docs := MarkMissing(s.docs, s.catalogue, types));
      var told := Emit(marked, OfficerRequestedDocuments(i));
      if s.nodes[i].state == NodeState.DocumentMissing then Success(told)
      else
        var titles := Titles(Marked(s.docs, s.catalogue, types));
        Transition(told, i, NodeState.DocumentMissing, Some(titles), NoStall, now)
  }

  // --- filing ---

  /** One answer of an authority's adapter to a submission. */
  datatype AdapterReply = Accepted | TimedOut | Unavailable | Malformed | NotAllowed

  predicate Retriable(reply: AdapterReply) {
    reply == TimedOut || reply == Unavailable
  }

  /** The retry loop of submit: the answer that ends it, and the number of calls made. */
  function FinalReply(replies: seq<AdapterReply>, maxAttempts: nat, attempt: nat): (r: (AdapterReply, nat))
    requires 1 <= attempt <= maxAttempts <= |replies|
    ensures attempt <= r.1 <= maxAttempts && r.0 == replies[r.1 - 1]
    ensures r.1 == maxAttempts || !Retriable(r.0)
    ensures forall k :: attempt - 1 <= k < r.1 - 1 ==> Retriable(replies[k])
    decreases maxAttempts - attempt
  {
    if Retriable(replies[attempt - 1]) && attempt < maxAttempts then FinalReply(replies, maxAttempts, attempt + 1)
    else (replies[attempt - 1], attempt)
  }

  /** A setting: the calls a submission may take; with none allowed the authority counts as unavailable. */
  const MAX_ATTEMPTS: nat

  /** The answer to a request's submission, and the calls it took; the consulate's adapter refuses at once. */
  function SubmissionOf(s: CaseState, r: nat, replies: seq<AdapterReply>): (AdapterReply, nat)
    requires r < |s.requests| && s.requests[r].node < |s.nodes| && |replies| >= MAX_ATTEMPTS
  {
    if s.nodes[s.requests[r].node].spec.kind == ParentReported then (NotAllowed, 1)
    else if MAX_ATTEMPTS == 0 then (Unavailable, 0)
    else FinalReply(replies, MAX_ATTEMPTS, 1)
  }

  function Submit(s: CaseState, r: nat, replies: seq<AdapterReply>, now: Time): Result<CaseState>
    requires RowsLinked(s) && |replies| >= MAX_ATTEMPTS
  {
    if r >= |s.requests| || s.requests[r].state != BeingSubmitted then Success(s)
    else
      var (reply, calls) := SubmissionOf(s, r, replies);
      RecordReply(s, r, reply, calls, now)
  }

  function RecordReply(s: CaseState, r: nat, reply: AdapterReply, calls: nat, now: Time): Result<CaseState>
    requires r < |s.requests| && s.requests[r].node < |s.nodes|
  {
    var i := s.requests[r].node;
    var tried := s.requests[r].(attempts := s.requests[r].attempts + calls);
    match reply
    case NotAllowed =>
      Transition(s.(requests := s.requests[r := tried.(state := Refused)]), i, Blocked,
                 Some("Integration refused the request"), NoStall, now)
    case Accepted =>
      var filed := tried.(state := Reported(SubmittedStatus), externalRef := Some(tried.key));
      var submitted := s.(requests := s.requests[r := filed],
                          statuses := s.statuses + [EntityStatus(r, SubmittedStatus)]);
      Transition(submitted, i, Submitted, None, NoStall, now)
    case _ =>
      Transition(s.(requests := s.requests[r := tried.(state := Reported(StalledStatus))]), i, Stalled,
                 Some("Unavailable - not cleared yet"), DependencyDown, now)
  }

  predicate HasRequest(s: CaseState, i: nat) {
    exists r :: 0 <= r < |s.requests| && s.requests[r].node == i
  }

  function LatestRequest(requests: seq<EntityRequest>, i: nat): (r: nat)
    requires exists q :: 0 <= q < |requests| && requests[q].node == i
    ensures r < |requests| && requests[r].node == i
    ensures forall q :: r < q < |requests| ==> requests[q].node != i
  {
    if requests[|requests| - 1].node == i then |requests| - 1 else LatestRequest(requests[..|requests| - 1], i)
  }

  function Retry(s: CaseState, i: nat, officer: Officer, now: Time): Result<CaseState>
    requires RowsLinked(s)
  {
    if !officer.officiates then Failure(Forbidden)
    else if i >= |s.nodes| then Failure(NotFound)
    else if s.nodes[i].state != Stalled || !HasRequest(s, i) then Failure(Conflict)
    else
      var r := LatestRequest(s.requests, i);
      if s.requests[r].externalRef.Some? then Failure(Conflict)
      else
        var reopened := s.(requests := s.requests[r := s.requests[r].(state := BeingSubmitted)]);
        var moved :- Transition(reopened, i, Submitting, None, NoStall, now);
        Success(Emit(moved, EntityRequestReleased(r)))
  }

  /** An authority's answer to a status question; an application it does not know is filed again with its key. */
  datatype StatusAnswer =
    | UnknownApplication
    | NoAnswer
    | Answer(status: AuthorityStatus, detail: string, missing: seq<DocType>)

  function Poll(s: CaseState, r: nat, answer: StatusAnswer, routine: bool): Result<CaseState> {
    if r >= |s.requests| || s.requests[r].externalRef.None? || !answer.Answer? then Success(s)
    else if routine && s.requests[r].state == Reported(answer.status) then Success(s)
    else
      var received := s.(statuses := s.statuses + [EntityStatus(r, answer.status)]);
      Success(Emit(received, EntityStatusReceived(r, answer.status, answer.detail, answer.missing)))
  }

  /** A transition asked for by an authority: an invalid one is ignored, and what was written before it stays. */
  function TryTransition(s: CaseState, i: nat, target: NodeState, reason: Option<string>, stall: StallKind, now: Time)
    : (r: (CaseState, bool))
    requires i < |s.nodes|
  {
    match Transition(s, i, target, reason, stall, now)
    case Success(moved) => (moved, true)
    case Failure(_) => (s, false)
  }

  function SuccessTarget(n: Node): NodeState {
    if n.spec.success == Completed then Completed else Cleared
  }

  function ApplyStatus(s: CaseState, r: nat, status: AuthorityStatus, detail: string, missing: seq<DocType>, now: Time)
    : CaseState
    requires RowsLinked(s)
  {
    if r >= |s.requests| then s
    else
      var noted := s.(requests := s.requests[r := s.requests[r].(state := Reported(status))]);
      ApplyToNode(noted, s.requests[r].node, status, detail, missing, now)
  }

  function ApplyToNode(s: CaseState, i: nat, status: AuthorityStatus, detail: string, missing: seq<DocType>, now: Time)
    : CaseState
    requires i < |s.nodes|
  {
    match status
    case InProcess => TryTransition(s, i, Processing, None, NoStall, now).0
    case ClearedStatus => ApplySuccess(s, i, now)
    case CompletedStatus => ApplySuccess(s, i, now)
    case DocumentMissingStatus => ApplyMissing(s, i, RequestedDocuments(s.nodes[i], missing), now)
    case BlockedStatus => TryTransition(s, i, Blocked, Some(detail), NoStall, now).0
    case StalledStatus =>
      TryTransition(s, i, Stalled, Some(if detail == "" then "Not cleared yet" else detail), SlaKind, now).0
    case RejectedStatus => TryTransition(s, i, Rejected, Some(detail), NoStall, now).0
    case WaitingForParentStatus => TryTransition(s, i, WaitingForParent, None, NoStall, now).0
    case _ => s
  }

  /** The documents an authority asks for: those it names, or else the first one the node requires. */
  function RequestedDocuments(n: Node, missing: seq<DocType>): seq<DocType> {
    var required := n.spec.requiredDocuments;
    if missing != [] then missing else required[..if required == [] then 0 else 1]
  }

  function ApplyMissing(s: CaseState, i: nat, types: seq<DocType>, now: Time): CaseState
    requires i < |s.nodes|
  {
    var marked := s.(docs := MarkMissing(s.docs, s.catalogue, types));
    TryTransition(marked, i, NodeState.DocumentMissing, Some(Titles(Marked(s.docs, s.catalogue, types))), NoStall, now).0
  }

  function ApplySuccess(s: CaseState, i: nat, now: Time): CaseState
    requires i < |s.nodes|
  {
    var (moved, ok) := TryTransition(s, i, SuccessTarget(s.nodes[i]), None, NoStall, now);
    if ok then moved.(docs := RegisterOutputs(moved.docs, s.nodes[i].spec.outputs)) else moved
  }

  // --- document centre ---

  /** Nodes below k that wait for documents and miss none go back to the officer gate, or to the parent. */
  function ResumeAfterDocuments(s: CaseState, k: nat, now: Time): (r: Result<CaseState>)
    requires k <= |s.nodes|
    ensures r.Success? ==> |r.value.nodes| == |s.nodes|
  {
    if k == 0 then Success(s)
    else
      var before :- ResumeAfterDocuments(s, k - 1, now);
      Resume(before, k - 1, now)
  }

  function Resume(s: CaseState, i: nat, now: Time): (r: Result<CaseState>)
    requires i < |s.nodes|
    ensures r.Success? ==> |r.value.nodes| == |s.nodes|
  {
    if s.nodes[i].state != NodeState.DocumentMissing || MissingForNode(s, i) != [] then Success(s)
    else if s.nodes[i].spec.kind == ParentReported then Transition(s, i, WaitingForParent, None, NoStall, now)
    else RequestApproval(s, i, now)
  }

  predicate IsOutput(s: CaseState, d: DocType) {
    exists i :: 0 <= i < |s.nodes| && d in s.nodes[i].spec.outputs
  }

  function Upload(s: CaseState, d: DocType, now: Time): Result<CaseState> {
    if d !in s.docs then Failure(NotFound)
    else if IsOutput(s, d) && s.docs[d] == Document(Uploaded, GovernmentMock) then Failure(Conflict)
    else
      var stored := s.(docs := s.docs[d := Document(Uploaded, Resident)]);
      ResumeAfterDocuments(Emit(stored, DocumentUploaded(d)), |s.nodes|, now)
  }

  function Verify(s: CaseState, d: DocType, officer: Officer): Result<CaseState> {
    if !officer.officiates then Failure(Forbidden)
    else if d !in s.docs then Failure(NotFound)
    else if s.docs[d].status != Uploaded then Failure(ValidationFailed)
    else Success(Emit(s.(docs := s.docs[d := s.docs[d].(status := Verified)]), DocumentVerified(d)))
  }

  function SetStatus(s: CaseState, d: DocType, status: DocumentStatus, officer: Officer, now: Time)
    : Result<CaseState>
  {
    if !officer.officiates then Failure(Forbidden)
    else if d !in s.docs then Failure(NotFound)
    else
      var changed := s.(docs := s.docs[d := s.docs[d].(status := status)]);
      if status == NotApplicable || status == Uploaded || status == Verified
      then ResumeAfterDocuments(changed, |s.nodes|, now)
      else Success(changed)
  }

  // --- escalations ---

  predicate OpenFor(s: CaseState, reason: EscalationReason, node: Option<nat>) {
    exists k :: 0 <= k < |s.escalations| && s.escalations[k].reason == reason && s.escalations[k].node == node
                && s.escalations[k].status != Resolved
  }

  function Escalate(s: CaseState, reason: EscalationReason, node: Option<nat>, warmTransfer: bool): CaseState {
    if OpenFor(s, reason, node) then s
    else
      var raised := s.(escalations := s.escalations + [Escalation(reason, node, Open)]);
      Refresh(Emit(raised, HumanEscalationRequired(|s.escalations|, warmTransfer)))
  }

  function Resolve(s: CaseState, k: nat, officer: Officer): Result<CaseState> {
    if k >= |s.escalations| then Failure(NotFound)
    else if !officer.officiates then Failure(Forbidden)
    else if s.escalations[k].status == Resolved then Failure(Conflict)
    else
      var resolved := s.(escalations := s.escalations[k := s.escalations[k].(status := Resolved)]);
      Success(Refresh(Emit(resolved, EscalationResolved(k))))
  }

  function Take(s: CaseState, k: nat, officer: Officer): Result<CaseState> {
    if k >= |s.escalations| then Failure(NotFound)
    else if !officer.officiates then Failure(Forbidden)
    else Success(s.(escalations := s.escalations[k := s.escalations[k].(status := InProgress)]))
  }

  // --- consulate ---

  predicate OpenToReports(state: NodeState) {
    state == WaitingForParent || state == Processing || state == Stalled
  }

  function MilestoneState(m: Milestone): NodeState {
    match m
    case AppointmentBooked => WaitingForParent
    case ApplicationSubmitted => Processing
    case PassportIssued => Completed
    case Delayed => Stalled
  }

  function ReportMilestone(s: CaseState, m: Milestone, passportNumberPresent: bool, now: Time): Result<CaseState>
    requires RowsLinked(s)
  {
    if s.consulate.None? || Done(s.nodes[s.consulate.value].state) then Failure(Conflict)
    else
      var i := s.consulate.value;
      if !OpenToReports(s.nodes[i].state) then Failure(Conflict)
      else if m == PassportIssued && !passportNumberPresent then Failure(ValidationFailed)
      else MoveOnReport(NoteReport(s, i, MilestoneReport(m, passportNumberPresent)), i, m, now)
  }

  function NoteReport(s: CaseState, i: nat, report: MilestoneReport): CaseState
    requires i < |s.nodes|
  {
    var noted := s.(nodes := s.nodes[i := s.nodes[i].(reports := s.nodes[i].reports + [report])]);
    Emit(noted, ConsulateMilestoneReported(report.milestone))
  }

  function MoveOnReport(s: CaseState, i: nat, m: Milestone, now: Time): Result<CaseState>
    requires i < |s.nodes|
  {
    if m == Delayed then
      var reason := Some("Parent reports no progress at the consulate");
      var moved :- Transition(s, i, Stalled, reason, ConsulateKind, now);
      Success(Escalate(moved, ConsulateStall, Some(i), false))
    else
      var moved :- if MilestoneState(m) != s.nodes[i].state
                   then Transition(s, i, MilestoneState(m), None, NoStall, now) else Success(s);
      Success(if m == PassportIssued then ExpectPassport(moved) else moved)
  }

  /** Once the passport is reported, a child passport not yet held is required again, no longer missing. */
  function ExpectPassport(s: CaseState): CaseState {
    if CHILD_PASSPORT in s.docs && (s.docs[CHILD_PASSPORT].status == Required || s.docs[CHILD_PASSPORT].status == Missing)
    then s.(docs := s.docs[CHILD_PASSPORT := s.docs[CHILD_PASSPORT].(status := Required)])
    else s
  }

  // --- watchdog ---

  predicate Overdue(n: Node, now: Time) {
    (n.state == Submitted || n.state == Processing) && n.slaDueAt.Some? && n.slaDueAt.value < now
  }

  function StallIfOverdue(s: CaseState, i: nat, now: Time): (r: Result<CaseState>)
    requires i < |s.nodes|
    ensures r.Success? ==> |r.value.nodes| == |s.nodes|
  {
    if Overdue(s.nodes[i], now)
    then Transition(s, i, Stalled, Some("Past the expected hours - not cleared yet"), SlaKind, now)
    else Success(s)
  }

  /** The first loop of the watchdog over the nodes below k: those past their SLA are stalled. */
  function StallOverdue(s: CaseState, k: nat, now: Time): (r: Result<CaseState>)
    requires k <= |s.nodes|
    ensures r.Success? ==> |r.value.nodes| == |s.nodes|
  {
    if k == 0 then Success(s)
    else
      var before :- StallOverdue(s, k - 1, now);
      StallIfOverdue(before, k - 1, now)
  }

  /** silent says that the consulate row has not been touched for the stall period. */
  function Watchdog(s: CaseState, silent: bool, now: Time): Result<CaseState>
    requires RowsLinked(s)
  {
    var stalled :- StallOverdue(s, |s.nodes|, now);
    Success(
      if s.consulate.None? then stalled
      else
        var n := stalled.nodes[s.consulate.value];
        if (n.state == WaitingForParent || n.state == Processing) && n.reports == [] && silent
        then Escalate(stalled, ConsulateStall, s.consulate, false)
        else stalled)
  }

  // --- case orchestrator ---

  datatype Action = AskParent | ReportMissing | PrepareForOfficer

  function ActionFor(s: CaseState, i: nat): Action
    requires i < |s.nodes|
  {
    if s.nodes[i].spec.kind == ParentReported then AskParent
    else if MissingForNode(s, i) != [] then ReportMissing
    else PrepareForOfficer
  }

  function PlanFor(s: CaseState, keys: seq<nat>): (plan: seq<(nat, Action)>)
    requires forall i :: i in keys ==> i < |s.nodes|
    ensures forall p :: p in plan <==> p.0 in keys && p.1 == ActionFor(s, p.0)
  {
    if keys == [] then []
    else
      assert keys[0] in keys && forall i :: i in keys[1..] ==> i in keys;
      [(keys[0], ActionFor(s, keys[0]))] + PlanFor(s, keys[1..])
  }

  function Plan(s: CaseState): (plan: seq<(nat, Action)>)
    requires Within(|s.nodes|, s.edges)
    ensures forall p :: p in plan ==> CanUnlock(s, p.0) && p.1 == ActionFor(s, p.0)
    ensures s.status != Closed && s.status != Intake ==>
              forall i: nat :: CanUnlock(s, i) ==> (i, ActionFor(s, i)) in plan
  {
    if s.status == Closed || s.status == Intake then []
    else
      PlanFor(s, Unlockable(s, |s.nodes|))
  }

  function Act(s: CaseState, i: nat, action: Action, now: Time): (r: Result<CaseState>)
    requires i < |s.nodes|
    ensures r.Success? ==> |r.value.nodes| == |s.nodes|
  {
    if s.nodes[i].state != Pending then Success(s)
    else
      match action
      case AskParent => Transition(s, i, WaitingForParent, None, NoStall, now)
      case ReportMissing =>
        Transition(s, i, NodeState.DocumentMissing, Some(Titles(MissingForNode(s, i))), NoStall, now)
      case PrepareForOfficer =>
        var ready :- Transition(s, i, Ready, None, NoStall, now);
        RequestApproval(ready, i, now)
  }

  /** entity_action on the first k steps of the plan. */
  function EntityAction(s: CaseState, plan: seq<(nat, Action)>, k: nat, now: Time): (r: Result<CaseState>)
    requires k <= |plan| && forall p :: p in plan ==> p.0 < |s.nodes|
    ensures r.Success? ==> |r.value.nodes| == |s.nodes|
  {
    if k == 0 then Success(s)
    else
      var before :- EntityAction(s, plan, k - 1, now);
      assert plan[k - 1] in plan;
      Act(before, plan[k - 1].0, plan[k - 1].1, now)
  }

  datatype Verdict = Verdict(escalate: Option<EscalationReason>, callback: Option<CallbackReason>, complete: bool)

  function NodeVerdict(n: Node, to: NodeState, stall: StallKind, isConsulate: bool)
    : (v: (Option<EscalationReason>, Option<CallbackReason>))
  {
    if Done(to) && n.spec.kind == EntityFiling && n.state == to then
      (None, Some(if to == Cleared then CallCleared else CallCompleted))
    else
      match to
      case Blocked => (None, Some(CallBlocked))
      case DocumentMissing => (None, Some(CallDocumentMissing))
      case Stalled => if stall == SlaKind then (Some(SlaStall), Some(CallStalled)) else (None, None)
      case Rejected => (Some(EntityRejection), Some(CallBlocked))
      case WaitingForParent =>
        (None, if n.state == WaitingForParent then Some(if isConsulate then CallParentInput else CallBiometrics)
               else None)
      case _ => (None, None)
  }

  function Evaluate(s: CaseState, trigger: Event): Verdict {
    var (escalate, callback) :=
      match trigger
      case NodeMoved(i, _, to, stall) =>
        if i < |s.nodes| then NodeVerdict(s.nodes[i], to, stall, s.consulate == Some(i)) else (None, None)
      case HumanEscalationRequired(_, warm) => (None, if warm then None else Some(CallEscalation))
      case _ => (None, None);
    Verdict(escalate, if trigger.CaseCompleted? then Some(CallCaseComplete) else callback,
            AllDone(s.nodes) && !trigger.CaseCompleted?)
  }

  function SubjectOf(trigger: Event): Option<nat> {
    if trigger.NodeMoved? then Some(trigger.node) else None
  }

  /** One run of the orchestrator on outbox event e: check, plan, act, evaluate, then the routed steps. */
  function Orchestrate(s: CaseState, e: nat, now: Time): Result<CaseState>
    requires RowsLinked(s) && e < |s.outbox|
  {
    var plan := Plan(s);
    var acted :- EntityAction(s, plan, |plan|, now);
    var trigger := s.outbox[e].event;
    var verdict := Evaluate(acted, trigger);
    var escalated :=
      if verdict.escalate.Some? then Escalate(acted, verdict.escalate.value, SubjectOf(trigger), false) else acted;
    var called :=
      if verdict.callback.Some?
      then EmitOnce(escalated, CallbackRequired(verdict.callback.value, SubjectOf(trigger)), Some(CallbackKey(e)))
      else escalated;
    Success(if verdict.complete && (verdict.escalate.None? || verdict.callback.Some?) then Refresh(called) else called)
  }

  // --- consumers ---

  /** What the callback engine did with a request; its own rows are modelled by CallbackDesk. */
  datatype CallbackOutcome = Scheduled | Coalesced | SentBySms | NoConsent

  function RecordCallback(s: CaseState, outcome: CallbackOutcome): CaseState {
    match outcome
    case Scheduled => Emit(s, CallbackScheduled)
    case Coalesced => s
    case SentBySms => Emit(Emit(s, NotificationRequested), CallbackBlocked)
    case NoConsent => Emit(s, CallbackBlocked)
  }

  /** What a consumer run takes from outside: the clock, the authority's replies, the callback engine's decision. */
  datatype Input = Input(now: Time, replies: seq<AdapterReply>, outcome: CallbackOutcome)

  type FullInput = i: Input | |i.replies| >= MAX_ATTEMPTS
    witness Input(0, seq(MAX_ATTEMPTS, _ => TimedOut), Coalesced)

  function Handle(s: CaseState, c: Consumer, e: nat, input: FullInput): Result<CaseState>
    requires RowsLinked(s) && e < |s.outbox| && Registered(c, s.outbox[e].event)
  {
    var event := s.outbox[e].event;
    match c
    case Orchestrator => Orchestrate(s, e, input.now)
    case GraphProjection => Success(s)
    case CallbackScheduler => Success(RecordCallback(s, input.outcome))
    case EntitySubmitter => Submit(s, event.request, input.replies, input.now)
    case EntityStatusApplier =>
      Success(ApplyStatus(s, event.request, event.status, event.detail, event.missing, input.now))
    case Notifier => Success(s)
  }

  /** A delivery: an event already receipted is acknowledged, otherwise the handler and its receipt commit together. */
  function Deliver(s: CaseState, c: Consumer, e: nat, input: FullInput): Result<CaseState>
    requires RowsLinked(s)
  {
    if e >= |s.outbox| || !Registered(c, s.outbox[e].event) then Failure(NotFound)
    else if (c, e) in s.receipts then Success(s)
    else
      var handled :- Handle(s, c, e, input);
      Success(handled.(receipts := handled.receipts + {(c, e)}))
  }

  // --- well-formed rows ---

  /** The foreign keys between the rows of a case. */
  ghost predicate RowsLinked(s: CaseState) {
    && Within(|s.nodes|, s.edges)
    && (s.consulate.Some? ==> s.consulate.value < |s.nodes|)
    && (forall a :: 0 <= a < |s.approvals| ==> s.approvals[a].node < |s.nodes|)
    && (forall r :: 0 <= r < |s.requests| ==> s.requests[r].node < |s.nodes|)
  }
}
