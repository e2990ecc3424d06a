/** Which unit of work may move a node into which states. */
module CaseTargets {
  import opened Wrappers
  import opened StateMachine
  import opened LifeEventGraph
  import opened CaseModel
  import opened CaseServices
  import opened CaseEvolution
  import opened CaseInvariants
  import opened CaseSteps
  import opened CaseRuns

  /** Nodes are moved into the given states only, and no receipt is written. */
  predicate MovesOnlyTo(s: CaseState, t: CaseState, targets: set<NodeState>) {
    t.receipts == s.receipts && |t.nodes| == |s.nodes|
    && forall i :: 0 <= i < |s.nodes| ==> t.nodes[i].state == s.nodes[i].state || t.nodes[i].state in targets
  }

  /** Only a release writes an event under a release key. */
  predicate ReleasesNothing(before: seq<OutboxRow>, after: seq<OutboxRow>) {
    before <= after
    && forall e :: |before| <= e < |after| ==> after[e].key.None? || !after[e].key.value.ReleaseKey?
  }

  /** No callback is asked for, and no key of one is used up. */
  predicate CallsForNobody(before: seq<OutboxRow>, after: seq<OutboxRow>) {
    before <= after
    && forall e :: |before| <= e < |after| ==>
         !after[e].event.CallbackRequired? && (after[e].key.None? || !after[e].key.value.CallbackKey?)
  }

  /** No filing is written or told of. */
  predicate FilesNothing(s: CaseState, t: CaseState) {
    t.requests == s.requests && ReleasesNothing(s.outbox, t.outbox)
  }

  /** The states a node may be moved into by each unit of work. */
  function TargetsOf(s: CaseState, step: Step): set<NodeState> {
    match step
    case OfficerApproves(_, _, _) => {Submitting}
    case OfficerRejects(_, _, _, _) => {Blocked}
    case OfficerAsksDocuments(_, _, _, _) => {NodeState.DocumentMissing}
    case FilingPrepared(_, _) => GATE
    case OfficerRetries(_, _, _) => {Submitting}
    case ParentReports(m, _, _) => {MilestoneState(m)}
    case ResidentUploads(_, _) => GATE + {WaitingForParent}
    case OfficerSetsStatus(_, _, _, _) => GATE + {WaitingForParent}
    case WatchdogPasses(_, _) => {Stalled}
    case ConsumerRuns(c, e, _) => if e < |s.outbox| then HandlerTargets(c, s.outbox[e].event) else {}
    case _ => {}
  }

  const GATE: set<NodeState> := {Ready, WaitingForHuman}

  function HandlerTargets(c: Consumer, event: Event): set<NodeState> {
    match c
    case Orchestrator => GATE + {WaitingForParent, NodeState.DocumentMissing}
    case EntitySubmitter => {Blocked, Submitted, Stalled}
    case EntityStatusApplier => if event.EntityStatusReceived? then ReportedTargets(event.status) else {}
    case _ => {}
  }

  function ReportedTargets(status: AuthorityStatus): set<NodeState> {
    match status
    case InProcess => {Processing}
    case ClearedStatus => {Cleared, Completed}
    case CompletedStatus => {Cleared, Completed}
    case BlockedStatus => {Blocked}
    case DocumentMissingStatus => {NodeState.DocumentMissing}
    case StalledStatus => {Stalled}
    case RejectedStatus => {Rejected}
    case WaitingForParentStatus => {WaitingForParent}
    case _ => {}
  }

  lemma TransitionTo(s: CaseState, i: nat, target: NodeState, reason: Option<string>, stall: StallKind, now: Time,
                     targets: set<NodeState>)
    requires i < |s.nodes| && target in targets && Transition(s, i, target, reason, stall, now).Success?
    ensures MovesOnlyTo(s, Transition(s, i, target, reason, stall, now).value, targets)
    ensures forall j :: 0 <= j < |s.nodes| && j != i
              ==> Transition(s, i, target, reason, stall, now).value.nodes[j] == s.nodes[j]
    ensures FilesNothing(s, Transition(s, i, target, reason, stall, now).value)
    ensures CallsForNobody(s.outbox, Transition(s, i, target, reason, stall, now).value.outbox)
  {
    TransitionMoves(s, i, target, reason, stall, now);
  }

  lemma RequestApprovalTo(s: CaseState, i: nat, now: Time, targets: set<NodeState>)
    requires i < |s.nodes| && GATE <= targets && RequestApproval(s, i, now).Success?
    ensures MovesOnlyTo(s, RequestApproval(s, i, now).value, targets)
    ensures FilesNothing(s, RequestApproval(s, i, now).value)
    ensures CallsForNobody(s.outbox, RequestApproval(s, i, now).value.outbox)
  {
    hide Transition, Requestable;
    if !HasPending(s, i) {
      if s.nodes[i].state == Stalled { TransitionTo(s, i, Ready, None, NoStall, now, targets); }
      var ready := if s.nodes[i].state == Stalled then Transition(s, i, Ready, None, NoStall, now).value else s;
      var asked := ready.(approvals := ready.approvals + [Approval(i, Undecided, None)],
                          nodes := ready.nodes[i := ready.nodes[i].(approvalState := Some(Undecided))]);
      TransitionTo(asked, i, WaitingForHuman, None, NoStall, now, targets);
    }
  }

  lemma {:induction false} ResumeTo(s: CaseState, k: nat, now: Time, targets: set<NodeState>)
    requires k <= |s.nodes| && GATE + {WaitingForParent} <= targets && ResumeAfterDocuments(s, k, now).Success?
    ensures MovesOnlyTo(s, ResumeAfterDocuments(s, k, now).value, targets)
    ensures FilesNothing(s, ResumeAfterDocuments(s, k, now).value)
  {
    hide Transition, RequestApproval, MissingForNode;
    if k > 0 {
      var before := ResumeAfterDocuments(s, k - 1, now).value;
      ResumeTo(s, k - 1, now, targets);
      if before.nodes[k - 1].state == NodeState.DocumentMissing && MissingForNode(before, k - 1) == [] {
        if before.nodes[k - 1].spec.kind == ParentReported {
          TransitionTo(before, k - 1, WaitingForParent, None, NoStall, now, targets);
        } else {
          RequestApprovalTo(before, k - 1, now, targets);
        }
      }
    }
  }

  lemma ActTo(s: CaseState, i: nat, action: Action, now: Time, targets: set<NodeState>)
    requires i < |s.nodes| && GATE + {WaitingForParent, NodeState.DocumentMissing} <= targets
    requires Act(s, i, action, now).Success?
    ensures MovesOnlyTo(s, Act(s, i, action, now).value, targets)
    ensures FilesNothing(s, Act(s, i, action, now).value)
    ensures CallsForNobody(s.outbox, Act(s, i, action, now).value.outbox)
  {
    hide Transition, RequestApproval, MissingForNode, Titles;
    if s.nodes[i].state == Pending {
      match action {
        case AskParent => TransitionTo(s, i, WaitingForParent, None, NoStall, now, targets);
        case ReportMissing =>
          var reason := Some(Titles(MissingForNode(s, i)));
          TransitionTo(s, i, NodeState.DocumentMissing, reason, NoStall, now, targets);
        case PrepareForOfficer =>
          TransitionTo(s, i, Ready, None, NoStall, now, targets);
          RequestApprovalTo(Transition(s, i, Ready, None, NoStall, now).value, i, now, targets);
      }
    }
  }

  lemma {:induction false} EntityActionTo(s: CaseState, plan: seq<(nat, Action)>, k: nat, now: Time,
                                          targets: set<NodeState>)
    requires k <= |plan| && (forall p :: p in plan ==> p.0 < |s.nodes|)
    requires GATE + {WaitingForParent, NodeState.DocumentMissing} <= targets
    requires EntityAction(s, plan, k, now).Success?
    ensures MovesOnlyTo(s, EntityAction(s, plan, k, now).value, targets)
    ensures FilesNothing(s, EntityAction(s, plan, k, now).value)
    ensures CallsForNobody(s.outbox, EntityAction(s, plan, k, now).value.outbox)
  {
    hide Act;
    if k > 0 {
      EntityActionTo(s, plan, k - 1, now, targets);
      assert plan[k - 1] in plan;
      ActTo(EntityAction(s, plan, k - 1, now).value, plan[k - 1].0, plan[k - 1].1, now, targets);
    }
  }

  lemma EscalateNodes(s: CaseState, reason: EscalationReason, node: Option<nat>, warm: bool)
    ensures Escalate(s, reason, node, warm).nodes == s.nodes
    ensures Escalate(s, reason, node, warm).receipts == s.receipts
    ensures Escalate(s, reason, node, warm).approvals == s.approvals
    ensures FilesNothing(s, Escalate(s, reason, node, warm))
    ensures CallsForNobody(s.outbox, Escalate(s, reason, node, warm).outbox)
    ensures Escalate(s, reason, node, warm).consulate == s.consulate
  {
  }

  lemma OrchestrateTo(s: CaseState, e: nat, now: Time, targets: set<NodeState>)
    requires RowsLinked(s) && e < |s.outbox| && Orchestrate(s, e, now).Success?
    requires GATE + {WaitingForParent, NodeState.DocumentMissing} <= targets
    ensures MovesOnlyTo(s, Orchestrate(s, e, now).value, targets)
    ensures FilesNothing(s, Orchestrate(s, e, now).value)
  {
    hide EntityAction, Plan, Evaluate, Escalate, CallsForNobody, Refresh, MovesOnlyTo, ReleasesNothing, KeyUsed;
    var plan := Plan(s);
    EntityActionTo(s, plan, |plan|, now, targets);
    var acted := EntityAction(s, plan, |plan|, now).value;
    var verdict := Evaluate(acted, s.outbox[e].event);
    if verdict.escalate.Some? {
      EscalateNodes(acted, verdict.escalate.value, SubjectOf(s.outbox[e].event), false);
    }
    var escalated := if verdict.escalate.Some?
                     then Escalate(acted, verdict.escalate.value, SubjectOf(s.outbox[e].event), false) else acted;
    var called := if verdict.callback.Some?
                  then EmitOnce(escalated, CallbackRequired(verdict.callback.value, SubjectOf(s.outbox[e].event)),
                                Some(CallbackKey(e)))
                  else escalated;
    AskingMovesNobody(s, acted, escalated, called, e, targets);
  }

  /** What follows the actions moves no node. */
  lemma AskingMovesNobody(s: CaseState, acted: CaseState, escalated: CaseState, called: CaseState, e: nat,
                          targets: set<NodeState>)
    requires MovesOnlyTo(s, acted, targets) && FilesNothing(s, acted)
    requires escalated.nodes == acted.nodes && escalated.receipts == acted.receipts
    requires escalated == acted || FilesNothing(acted, escalated)
    requires called == escalated
             || exists event :: called == EmitOnce(escalated, event, Some(CallbackKey(e)))
    ensures MovesOnlyTo(s, called, targets) && FilesNothing(s, called)
    ensures MovesOnlyTo(s, Refresh(called), targets) && FilesNothing(s, Refresh(called))
  {
  }

  lemma {:induction false} StallOverdueTo(s: CaseState, k: nat, now: Time)
    requires k <= |s.nodes| && StallOverdue(s, k, now).Success?
    ensures MovesOnlyTo(s, StallOverdue(s, k, now).value, {Stalled})
    ensures FilesNothing(s, StallOverdue(s, k, now).value)
  {
    hide Transition;
    if k > 0 {
      StallOverdueTo(s, k - 1, now);
      var before := StallOverdue(s, k - 1, now).value;
      if Overdue(before.nodes[k - 1], now) {
        var reason := Some("Past the expected hours - not cleared yet");
        TransitionTo(before, k - 1, Stalled, reason, SlaKind, now, {Stalled});
      }
    }
  }

  lemma ApplyToNodeTo(s: CaseState, i: nat, status: AuthorityStatus, detail: string, missing: seq<DocType>, now: Time)
    requires i < |s.nodes|
    ensures MovesOnlyTo(s, ApplyToNode(s, i, status, detail, missing, now), ReportedTargets(status))
    ensures FilesNothing(s, ApplyToNode(s, i, status, detail, missing, now))
  {
    hide Transition, MarkMissing, Marked, Titles, RegisterOutputs;
    var targets := ReportedTargets(status);
    match status {
      case InProcess => TryTo(s, i, Processing, None, NoStall, now, targets);
      case ClearedStatus => TryTo(s, i, SuccessTarget(s.nodes[i]), None, NoStall, now, targets);
      case CompletedStatus => TryTo(s, i, SuccessTarget(s.nodes[i]), None, NoStall, now, targets);
      case DocumentMissingStatus =>
        var types := RequestedDocuments(s.nodes[i], missing);
        var marked := s.(docs := MarkMissing(s.docs, s.catalogue, types));
        var reason := Some(Titles(Marked(s.docs, s.catalogue, types)));
        TryTo(marked, i, NodeState.DocumentMissing, reason, NoStall, now, targets);
      case BlockedStatus => TryTo(s, i, Blocked, Some(detail), NoStall, now, targets);
      case StalledStatus =>
        TryTo(s, i, Stalled, Some(if detail == "" then "Not cleared yet" else detail), SlaKind, now, targets);
      case RejectedStatus => TryTo(s, i, Rejected, Some(detail), NoStall, now, targets);
      case WaitingForParentStatus => TryTo(s, i, WaitingForParent, None, NoStall, now, targets);
      case _ =>
    }
  }

  lemma TryTo(s: CaseState, i: nat, target: NodeState, reason: Option<string>, stall: StallKind, now: Time,
              targets: set<NodeState>)
    requires i < |s.nodes| && target in targets
    ensures MovesOnlyTo(s, TryTransition(s, i, target, reason, stall, now).0, targets)
    ensures FilesNothing(s, TryTransition(s, i, target, reason, stall, now).0)
  {
    hide Transition;
    if Transition(s, i, target, reason, stall, now).Success? {
      TransitionTo(s, i, target, reason, stall, now, targets);
    }
  }

  lemma RecordReplyTo(s: CaseState, r: nat, reply: AdapterReply, calls: nat, now: Time)
    requires r < |s.requests| && s.requests[r].node < |s.nodes| && RecordReply(s, r, reply, calls, now).Success?
    ensures MovesOnlyTo(s, RecordReply(s, r, reply, calls, now).value, {Blocked, Submitted, Stalled})
    ensures ReleasesNothing(s.outbox, RecordReply(s, r, reply, calls, now).value.outbox)
  {
    hide Transition;
    var i := s.requests[r].node;
    var tried := s.requests[r].(attempts := s.requests[r].attempts + calls);
    var targets := {Blocked, Submitted, Stalled};
    match reply {
      case NotAllowed =>
        TransitionTo(s.(requests := s.requests[r := tried.(state := Refused)]), i, Blocked,
                     Some("Integration refused the request"), NoStall, now, targets);
      case Accepted =>
        var filed := tried.(state := Reported(SubmittedStatus), externalRef := Some(tried.key));
        TransitionTo(s.(requests := s.requests[r := filed], statuses := s.statuses + [EntityStatus(r, SubmittedStatus)]),
                     i, Submitted, None, NoStall, now, targets);
      case _ =>
        TransitionTo(s.(requests := s.requests[r := tried.(state := Reported(StalledStatus))]), i, Stalled,
                     Some("Unavailable - not cleared yet"), DependencyDown, now, targets);
    }
  }

  lemma HandleTo(s: CaseState, c: Consumer, e: nat, input: FullInput)
    requires RowsLinked(s) && e < |s.outbox| && Registered(c, s.outbox[e].event) && Handle(s, c, e, input).Success?
    ensures MovesOnlyTo(s, Handle(s, c, e, input).value, HandlerTargets(c, s.outbox[e].event))
    ensures ReleasesNothing(s.outbox, Handle(s, c, e, input).value.outbox)
  {
    hide Orchestrate, RecordReply, ApplyToNode, FinalReply, GATE;
    var event := s.outbox[e].event;
    match c {
      case Orchestrator => OrchestrateTo(s, e, input.now, HandlerTargets(c, event));
      case EntitySubmitter =>
        if event.request < |s.requests| && s.requests[event.request].state == BeingSubmitted {
          var (reply, calls) := SubmissionOf(s, event.request, input.replies);
          RecordReplyTo(s, event.request, reply, calls, input.now);
        }
      case EntityStatusApplier =>
        if event.request < |s.requests| {
          var q := s.requests[event.request];
          var noted := s.(requests := s.requests[event.request := q.(state := Reported(event.status))]);
          ApplyToNodeTo(noted, q.node, event.status, event.detail, event.missing, input.now);
        }
      case _ =>
    }
  }

  lemma DeliverTo(s: CaseState, c: Consumer, e: nat, input: FullInput)
    requires RowsLinked(s) && Deliver(s, c, e, input).Success?
    ensures
      var t := Deliver(s, c, e, input).value;
      && e < |s.outbox| && Registered(c, s.outbox[e].event) && t.receipts == s.receipts + {(c, e)}
      && MovesOnlyTo(s, t.(receipts := s.receipts), HandlerTargets(c, s.outbox[e].event))
      && ReleasesNothing(s.outbox, t.outbox)
  {
    hide Handle, HandlerTargets;
    if (c, e) !in s.receipts { HandleTo(s, c, e, input); }
  }

  lemma ReportTo(s: CaseState, m: Milestone, present: bool, now: Time)
    requires RowsLinked(s) && ReportMilestone(s, m, present, now).Success?
    ensures MovesOnlyTo(s, ReportMilestone(s, m, present, now).value, {MilestoneState(m)})
    ensures FilesNothing(s, ReportMilestone(s, m, present, now).value)
  {
    hide Transition, Escalate;
    var i := s.consulate.value;
    var told := NoteReport(s, i, MilestoneReport(m, present));
    if m == Delayed {
      var reason := Some("Parent reports no progress at the consulate");
      TransitionTo(told, i, Stalled, reason, ConsulateKind, now, {Stalled});
      EscalateNodes(Transition(told, i, Stalled, reason, ConsulateKind, now).value, ConsulateStall, Some(i), false);
    } else if MilestoneState(m) != told.nodes[i].state {
      TransitionTo(told, i, MilestoneState(m), None, NoStall, now, {MilestoneState(m)});
    }
  }

  /** Of all nodes only node i may move, and only into the given states. */
  predicate MovesOne(s: CaseState, t: CaseState, i: nat, targets: set<NodeState>) {
    MovesOnlyTo(s, t, targets) && forall j :: 0 <= j < |s.nodes| && j != i ==> t.nodes[j].state == s.nodes[j].state
  }

  lemma ApproveTo(s: CaseState, a: nat, officer: Officer, now: Time)
    requires RowsLinked(s) && Approve(s, a, officer, now).Success?
    ensures a < |s.approvals| && MovesOne(s, Approve(s, a, officer, now).value, s.approvals[a].node, {Submitting})
  {
    hide Transition, RequestWithKey, MissingForNode;
    var filed := FileRequest(Emit(Decide(s, a, Approved, officer), OfficerApproved(a)), s.approvals[a].node, a);
    TransitionTo(filed, s.approvals[a].node, Submitting, None, NoStall, now, {Submitting});
  }

  lemma RejectTo(s: CaseState, a: nat, officer: Officer, reason: string, now: Time)
    requires RowsLinked(s) && Reject(s, a, officer, reason, now).Success?
    ensures a < |s.approvals| && MovesOne(s, Reject(s, a, officer, reason, now).value, s.approvals[a].node, {Blocked})
    ensures FilesNothing(s, Reject(s, a, officer, reason, now).value)
  {
    hide Transition;
    TransitionTo(Emit(Decide(s, a, Declined, officer), OfficerRejected(a)), s.approvals[a].node, Blocked,
                 Some("Officer did not release: " + reason), NoStall, now, {Blocked});
  }

  lemma RequestDocumentsTo(s: CaseState, i: nat, types: seq<DocType>, officer: Officer, now: Time)
    requires RowsLinked(s) && RequestDocuments(s, i, types, officer, now).Success?
    ensures MovesOne(s, RequestDocuments(s, i, types, officer, now).value, i, {NodeState.DocumentMissing})
    ensures FilesNothing(s, RequestDocuments(s, i, types, officer, now).value)
  {
    hide Transition, MarkMissing, Marked, Titles;
    var marked := CancelPending(s, i, officer).(docs := MarkMissing(s.docs, s.catalogue, types));
    if s.nodes[i].state != NodeState.DocumentMissing {
      TransitionTo(Emit(marked, OfficerRequestedDocuments(i)), i, NodeState.DocumentMissing,
                   Some(Titles(Marked(s.docs, s.catalogue, types))), NoStall, now, {NodeState.DocumentMissing});
    }
  }

  lemma RetryTo(s: CaseState, i: nat, officer: Officer, now: Time)
    requires RowsLinked(s) && Retry(s, i, officer, now).Success?
    ensures MovesOne(s, Retry(s, i, officer, now).value, i, {Submitting})
    ensures ReleasesNothing(s.outbox, Retry(s, i, officer, now).value.outbox)
  {
    hide Transition;
    var r := LatestRequest(s.requests, i);
    TransitionTo(s.(requests := s.requests[r := s.requests[r].(state := BeingSubmitted)]), i, Submitting, None,
                 NoStall, now, {Submitting});
  }

  lemma ResolveTo(s: CaseState, k: nat, officer: Officer)
    requires Resolve(s, k, officer).Success?
    ensures var t := Resolve(s, k, officer).value; t.nodes == s.nodes && t.receipts == s.receipts && FilesNothing(s, t)
  {
  }

  /** Every unit of work moves nodes only into its own target states, and only a delivery writes a receipt. */
  lemma ApplyTo(s: CaseState, step: Step)
    requires RowsLinked(s) && Apply(s, step).Success?
    ensures
      var t := Apply(s, step).value;
      && t.receipts == (if step.ConsumerRuns? then s.receipts + {(step.consumer, step.event)} else s.receipts)
      && MovesOnlyTo(s, t.(receipts := s.receipts), TargetsOf(s, step))
      && (!step.OfficerApproves? && !step.OfficerRetries? && !step.ConsumerRuns? ==> FilesNothing(s, t))
      && (!step.OfficerApproves? ==> ReleasesNothing(s.outbox, t.outbox))
  {
    hide RequestApproval, ResumeAfterDocuments, StallOverdue, Deliver, ReportMilestone, Escalate, HandlerTargets,
         Approve, Reject, RequestDocuments, Retry, MilestoneState, Refresh, IsOutput, Resolve;
    match step {
      case FilingPrepared(i, now) => RequestApprovalTo(s, i, now, GATE);
      case ParentReports(m, present, now) => ReportTo(s, m, present, now);
      case ResidentUploads(d, now) =>
        ResumeTo(Emit(s.(docs := s.docs[d := Document(Uploaded, Resident)]), DocumentUploaded(d)), |s.nodes|, now,
                 GATE + {WaitingForParent});
      case OfficerSetsStatus(d, status, officer, now) =>
        if status == NotApplicable || status == Uploaded || status == Verified {
          ResumeTo(s.(docs := s.docs[d := s.docs[d].(status := status)]), |s.nodes|, now, GATE + {WaitingForParent});
        }
      case WatchdogPasses(silent, now) =>
        StallOverdueTo(s, |s.nodes|, now);
        EscalateNodes(StallOverdue(s, |s.nodes|, now).value, ConsulateStall, s.consulate, false);
      case EscalationOpened(cause, subject, warm) => EscalateNodes(s, cause, subject, warm);
      case OfficerResolves(k, officer) => ResolveTo(s, k, officer);
      case ConsumerRuns(c, e, input) => DeliverTo(s, c, e, input);
      case OfficerApproves(a, officer, now) => ApproveTo(s, a, officer, now);
      case OfficerRejects(a, officer, reason, now) => RejectTo(s, a, officer, reason, now);
      case OfficerAsksDocuments(i, types, officer, now) => RequestDocumentsTo(s, i, types, officer, now);
      case OfficerRetries(i, officer, now) => RetryTo(s, i, officer, now);
      case _ =>
    }
  }
}
