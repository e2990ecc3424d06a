/**
 * Where the code does less than its design says: a late rejection wedges a step for good, and request_documents lets
 * a step be filed before the steps it depends on. Each is proved possible, with the exact condition for it.
 */
module CaseDeadEnds {
  import opened Wrappers
  import opened StateMachine
  import opened LifeEventGraph
  import opened CaseModel
  import opened CaseServices
  import opened CaseEvolution
  import opened CaseInvariants
  import opened CaseSteps
  import opened CaseConsumerSafety
  import opened CaseRuns
  import opened CaseTargets

  // --- a rejected step with an undecided approval ---

  /** Node i is REJECTED while one of its approvals is still undecided. */
  predicate Wedged(s: CaseState, i: nat) {
    i < |s.nodes| && s.nodes[i].state == NodeState.Rejected && HasPending(s, i)
  }

  /** Node i keeps its state, and its approvals stay as they are. */
  ghost predicate Frozen(s: CaseState, t: CaseState, i: nat) {
    && i < |s.nodes| == |t.nodes| && t.nodes[i].state == s.nodes[i].state
    && |s.approvals| <= |t.approvals|
    && forall a :: 0 <= a < |s.approvals| && s.approvals[a].node == i ==> t.approvals[a] == s.approvals[a]
  }

  lemma FrozenStaysWedged(s: CaseState, t: CaseState, i: nat)
    requires Wedged(s, i) && Frozen(s, t, i)
    ensures Wedged(t, i)
  {
    var a :| 0 <= a < |s.approvals| && s.approvals[a].node == i && s.approvals[a].state == Undecided;
    assert t.approvals[a].node == i;
  }

  lemma TransitionFreezes(s: CaseState, i: nat, j: nat, target: NodeState, reason: Option<string>, stall: StallKind,
                          now: Time)
    requires Wedged(s, i) && j < |s.nodes| && Transition(s, j, target, reason, stall, now).Success?
    requires j != i || (target != WaitingForHuman && target != Ready)
    ensures Frozen(s, Transition(s, j, target, reason, stall, now).value, i)
    ensures j == i ==> target == NodeState.Rejected
  {
    TransitionMoves(s, j, target, reason, stall, now);
  }

  lemma RequestApprovalFreezes(s: CaseState, i: nat, j: nat, now: Time)
    requires Wedged(s, i) && j < |s.nodes| && RequestApproval(s, j, now).Success?
    ensures Frozen(s, RequestApproval(s, j, now).value, i)
  {
    hide Transition, Requestable;
    if !HasPending(s, j) {
      var ready := s;
      if s.nodes[j].state == Stalled {
        TransitionFreezes(s, i, j, Ready, None, NoStall, now);
        ready := Transition(s, j, Ready, None, NoStall, now).value;
        FrozenStaysWedged(s, ready, i);
      }
      var asked := ready.(approvals := ready.approvals + [Approval(j, Undecided, None)],
                          nodes := ready.nodes[j := ready.nodes[j].(approvalState := Some(Undecided))]);
      FrozenStaysWedged(ready, asked, i);
      TransitionFreezes(asked, i, j, WaitingForHuman, None, NoStall, now);
    }
  }

  lemma {:induction false} ResumeFreezes(s: CaseState, i: nat, k: nat, now: Time)
    requires Wedged(s, i) && k <= |s.nodes| && ResumeAfterDocuments(s, k, now).Success?
    ensures Frozen(s, ResumeAfterDocuments(s, k, now).value, i)
  {
    hide Transition, RequestApproval, MissingForNode, Wedged;
    WedgedState(s, i);
    if k > 0 {
      ResumeFreezes(s, i, k - 1, now);
      var before := ResumeAfterDocuments(s, k - 1, now).value;
      FrozenStaysWedged(s, before, i);
      WedgedState(before, i);
      if before.nodes[k - 1].state == NodeState.DocumentMissing && MissingForNode(before, k - 1) == [] {
        if before.nodes[k - 1].spec.kind == ParentReported {
          TransitionFreezes(before, i, k - 1, WaitingForParent, None, NoStall, now);
        } else {
          RequestApprovalFreezes(before, i, k - 1, now);
        }
      }
    }
  }

  lemma WedgedState(s: CaseState, i: nat)
    requires Wedged(s, i)
    ensures i < |s.nodes| && s.nodes[i].state == NodeState.Rejected
  {
  }

  lemma ActFreezes(s: CaseState, i: nat, j: nat, action: Action, now: Time)
    requires Wedged(s, i) && j < |s.nodes| && Act(s, j, action, now).Success?
    ensures Frozen(s, Act(s, j, action, now).value, i)
  {
    hide Transition, RequestApproval, MissingForNode, Titles;
    if s.nodes[j].state == Pending {
      match action {
        case AskParent => TransitionFreezes(s, i, j, WaitingForParent, None, NoStall, now);
        case ReportMissing =>
          TransitionFreezes(s, i, j, NodeState.DocumentMissing, Some(Titles(MissingForNode(s, j))), NoStall, now);
        case PrepareForOfficer =>
          TransitionFreezes(s, i, j, Ready, None, NoStall, now);
          var ready := Transition(s, j, Ready, None, NoStall, now).value;
          FrozenStaysWedged(s, ready, i);
          RequestApprovalFreezes(ready, i, j, now);
      }
    }
  }

  lemma {:induction false} EntityActionFreezes(s: CaseState, i: nat, plan: seq<(nat, Action)>, k: nat, now: Time)
    requires Wedged(s, i) && k <= |plan| && (forall p :: p in plan ==> p.0 < |s.nodes|)
    requires EntityAction(s, plan, k, now).Success?
    ensures Frozen(s, EntityAction(s, plan, k, now).value, i)
  {
    hide Act, Wedged;
    WedgedState(s, i);
    if k > 0 {
      EntityActionFreezes(s, i, plan, k - 1, now);
      var before := EntityAction(s, plan, k - 1, now).value;
      FrozenStaysWedged(s, before, i);
      assert plan[k - 1] in plan;
      ActFreezes(before, i, plan[k - 1].0, plan[k - 1].1, now);
    }
  }

  lemma OrchestrateFreezes(s: CaseState, i: nat, e: nat, now: Time)
    requires Wedged(s, i) && RowsLinked(s) && e < |s.outbox| && Orchestrate(s, e, now).Success?
    ensures Frozen(s, Orchestrate(s, e, now).value, i)
  {
    hide EntityAction, Plan, Evaluate, Escalate, Wedged;
    var plan := Plan(s);
    EntityActionFreezes(s, i, plan, |plan|, now);
    var acted := EntityAction(s, plan, |plan|, now).value;
    var verdict := Evaluate(acted, s.outbox[e].event);
    if verdict.escalate.Some? {
      EscalateNodes(acted, verdict.escalate.value, SubjectOf(s.outbox[e].event), false);
    }
  }

  lemma {:induction false} StallOverdueFreezes(s: CaseState, i: nat, k: nat, now: Time)
    requires Wedged(s, i) && k <= |s.nodes| && StallOverdue(s, k, now).Success?
    ensures Frozen(s, StallOverdue(s, k, now).value, i)
  {
    hide Transition;
    if k > 0 {
      StallOverdueFreezes(s, i, k - 1, now);
      var before := StallOverdue(s, k - 1, now).value;
      FrozenStaysWedged(s, before, i);
      if Overdue(before.nodes[k - 1], now) {
        var reason := Some("Past the expected hours - not cleared yet");
        TransitionFreezes(before, i, k - 1, Stalled, reason, SlaKind, now);
      }
    }
  }

  lemma TryFreezes(s: CaseState, i: nat, j: nat, target: NodeState, reason: Option<string>, stall: StallKind, now: Time)
    requires Wedged(s, i) && j < |s.nodes| && target != WaitingForHuman && target != Ready
    ensures Frozen(s, TryTransition(s, j, target, reason, stall, now).0, i)
  {
    hide Transition;
    if Transition(s, j, target, reason, stall, now).Success? {
      TransitionFreezes(s, i, j, target, reason, stall, now);
    }
  }

  lemma ApplyToNodeFreezes(s: CaseState, i: nat, j: nat, status: AuthorityStatus, detail: string, missing: seq<DocType>,
                           now: Time)
    requires Wedged(s, i) && j < |s.nodes|
    ensures Frozen(s, ApplyToNode(s, j, status, detail, missing, now), i)
  {
    hide TryTransition, MarkMissing, Marked, Titles, RegisterOutputs;
    match status {
      case InProcess => TryFreezes(s, i, j, Processing, None, NoStall, now);
      case ClearedStatus => TryFreezes(s, i, j, SuccessTarget(s.nodes[j]), None, NoStall, now);
      case CompletedStatus => TryFreezes(s, i, j, SuccessTarget(s.nodes[j]), None, NoStall, now);
      case DocumentMissingStatus =>
        var types := RequestedDocuments(s.nodes[j], missing);
        TryFreezes(s.(docs := MarkMissing(s.docs, s.catalogue, types)), i, j, NodeState.DocumentMissing,
                   Some(Titles(Marked(s.docs, s.catalogue, types))), NoStall, now);
      case BlockedStatus => TryFreezes(s, i, j, Blocked, Some(detail), NoStall, now);
      case StalledStatus =>
        TryFreezes(s, i, j, Stalled, Some(if detail == "" then "Not cleared yet" else detail), SlaKind, now);
      case RejectedStatus => TryFreezes(s, i, j, NodeState.Rejected, Some(detail), NoStall, now);
      case WaitingForParentStatus => TryFreezes(s, i, j, WaitingForParent, None, NoStall, now);
      case _ =>
    }
  }

  lemma RecordReplyFreezes(s: CaseState, i: nat, r: nat, reply: AdapterReply, calls: nat, now: Time)
    requires Wedged(s, i) && r < |s.requests| && s.requests[r].node < |s.nodes|
    requires RecordReply(s, r, reply, calls, now).Success?
    ensures Frozen(s, RecordReply(s, r, reply, calls, now).value, i)
  {
    hide Transition;
    var j := s.requests[r].node;
    var tried := s.requests[r].(attempts := s.requests[r].attempts + calls);
    match reply {
      case NotAllowed =>
        TransitionFreezes(s.(requests := s.requests[r := tried.(state := Refused)]), i, j, Blocked,
                          Some("Integration refused the request"), NoStall, now);
      case Accepted =>
        var filed := tried.(state := CaseModel.Reported(SubmittedStatus), externalRef := Some(tried.key));
        TransitionFreezes(s.(requests := s.requests[r := filed],
                             statuses := s.statuses + [EntityStatus(r, SubmittedStatus)]),
                          i, j, Submitted, None, NoStall, now);
      case _ =>
        TransitionFreezes(s.(requests := s.requests[r := tried.(state := CaseModel.Reported(StalledStatus))]), i, j,
                          Stalled, Some("Unavailable - not cleared yet"), DependencyDown, now);
    }
  }

  lemma DeliverFreezes(s: CaseState, i: nat, c: Consumer, e: nat, input: FullInput)
    requires Wedged(s, i) && RowsLinked(s) && Deliver(s, c, e, input).Success?
    ensures Frozen(s, Deliver(s, c, e, input).value, i)
  {
    hide Orchestrate, RecordReply, ApplyToNode, FinalReply;
    if (c, e) !in s.receipts {
      var event := s.outbox[e].event;
      match c {
        case Orchestrator => OrchestrateFreezes(s, i, e, input.now);
        case EntitySubmitter =>
          if event.request < |s.requests| && s.requests[event.request].state == BeingSubmitted {
            var (reply, calls) := SubmissionOf(s, event.request, input.replies);
            RecordReplyFreezes(s, i, event.request, reply, calls, input.now);
          }
        case EntityStatusApplier =>
          if event.request < |s.requests| {
            var q := s.requests[event.request];
            var noted := s.(requests := s.requests[event.request := q.(state := CaseModel.Reported(event.status))]);
            ApplyToNodeFreezes(noted, i, q.node, event.status, event.detail, event.missing, input.now);
          }
        case _ =>
      }
    }
  }

  lemma ApproveFreezes(s: CaseState, i: nat, a: nat, officer: Officer, now: Time)
    requires Wedged(s, i) && RowsLinked(s) && Approve(s, a, officer, now).Success?
    ensures Frozen(s, Approve(s, a, officer, now).value, i)
  {
    hide Transition, RequestWithKey, MissingForNode;
    var filed := FileRequest(Emit(Decide(s, a, Approved, officer), OfficerApproved(a)), s.approvals[a].node, a);
    FrozenStaysWedged(s, filed, i);
    TransitionFreezes(filed, i, s.approvals[a].node, Submitting, None, NoStall, now);
  }

  lemma RejectFreezes(s: CaseState, i: nat, a: nat, officer: Officer, reason: string, now: Time)
    requires Wedged(s, i) && RowsLinked(s) && Reject(s, a, officer, reason, now).Success?
    ensures Frozen(s, Reject(s, a, officer, reason, now).value, i)
  {
    var told := Emit(Decide(s, a, Declined, officer), OfficerRejected(a));
    var j := s.approvals[a].node;
    assert j != i;
    FrozenStaysWedged(s, told, i);
    TransitionFreezes(told, i, j, Blocked, Some("Officer did not release: " + reason), NoStall, now);
  }

  lemma RequestDocumentsFreezes(s: CaseState, i: nat, j: nat, types: seq<DocType>, officer: Officer, now: Time)
    requires Wedged(s, i) && RequestDocuments(s, j, types, officer, now).Success?
    ensures Frozen(s, RequestDocuments(s, j, types, officer, now).value, i)
  {
    hide MarkMissing, Marked, Titles;
    assert j != i;
    var told := Emit(CancelPending(s, j, officer).(docs := MarkMissing(s.docs, s.catalogue, types)),
                     OfficerRequestedDocuments(j));
    FrozenStaysWedged(s, told, i);
    if s.nodes[j].state != NodeState.DocumentMissing {
      var titles := Titles(Marked(s.docs, s.catalogue, types));
      TransitionFreezes(told, i, j, NodeState.DocumentMissing, Some(titles), NoStall, now);
    }
  }

  lemma RetryFreezes(s: CaseState, i: nat, j: nat, officer: Officer, now: Time)
    requires Wedged(s, i) && RowsLinked(s) && Retry(s, j, officer, now).Success?
    ensures Frozen(s, Retry(s, j, officer, now).value, i)
  {
    hide Transition;
    var r := LatestRequest(s.requests, j);
    TransitionFreezes(s.(requests := s.requests[r := s.requests[r].(state := BeingSubmitted)]), i, j, Submitting, None,
                      NoStall, now);
  }

  lemma ReportFreezes(s: CaseState, i: nat, m: Milestone, present: bool, now: Time)
    requires Wedged(s, i) && RowsLinked(s) && ReportMilestone(s, m, present, now).Success?
    ensures Frozen(s, ReportMilestone(s, m, present, now).value, i)
  {
    hide Transition, Escalate;
    var j := s.consulate.value;
    var told := NoteReport(s, j, MilestoneReport(m, present));
    FrozenStaysWedged(s, told, i);
    if m == Delayed {
      var reason := Some("Parent reports no progress at the consulate");
      TransitionFreezes(told, i, j, Stalled, reason, ConsulateKind, now);
      EscalateNodes(Transition(told, j, Stalled, reason, ConsulateKind, now).value, ConsulateStall, Some(j), false);
    } else if MilestoneState(m) != told.nodes[j].state {
      TransitionFreezes(told, i, j, MilestoneState(m), None, NoStall, now);
    }
  }

  lemma ApplyFreezes(s: CaseState, step: Step, i: nat)
    requires Wedged(s, i) && RowsLinked(s) && Apply(s, step).Success?
    ensures Frozen(s, Apply(s, step).value, i)
  {
    hide Wedged, RequestApproval, ResumeAfterDocuments, StallOverdue, Deliver, ReportMilestone, Escalate, Approve,
         Reject, RequestDocuments, Retry, Refresh, IsOutput, RowsLinked;
    WedgedState(s, i);
    match step {
      case OfficerApproves(a, officer, now) => ApproveFreezes(s, i, a, officer, now);
      case OfficerRejects(a, officer, reason, now) => RejectFreezes(s, i, a, officer, reason, now);
      case OfficerAsksDocuments(j, types, officer, now) => RequestDocumentsFreezes(s, i, j, types, officer, now);
      case FilingPrepared(j, now) => RequestApprovalFreezes(s, i, j, now);
      case OfficerRetries(j, officer, now) => RetryFreezes(s, i, j, officer, now);
      case ParentReports(m, present, now) => ReportFreezes(s, i, m, present, now);
      case ResidentUploads(d, now) =>
        var stored := Emit(s.(docs := s.docs[d := Document(Uploaded, Resident)]), DocumentUploaded(d));
        FrozenStaysWedged(s, stored, i);
        ResumeFreezes(stored, i, |s.nodes|, now);
      case OfficerSetsStatus(d, status, officer, now) =>
        var changed := s.(docs := s.docs[d := s.docs[d].(status := status)]);
        FrozenStaysWedged(s, changed, i);
        if status == NotApplicable || status == Uploaded || status == Verified {
          ResumeFreezes(changed, i, |s.nodes|, now);
        }
      case WatchdogPasses(silent, now) =>
        StallOverdueFreezes(s, i, |s.nodes|, now);
        EscalateNodes(StallOverdue(s, |s.nodes|, now).value, ConsulateStall, s.consulate, false);
      case EscalationOpened(cause, subject, warm) => EscalateNodes(s, cause, subject, warm);
      case OfficerResolves(k, officer) =>
        RefreshOnlyEmits(Emit(s.(escalations := s.escalations[k := s.escalations[k].(status := Resolved)]),
                              EscalationResolved(k)));
      case ConsumerRuns(c, e, input) => DeliverFreezes(s, i, c, e, input);
      case _ =>
    }
  }

  /** No officer, authority, parent, timer or worker ever moves a wedged step again, so its case never completes. */
  lemma WedgeIsForever(t: Template, w: World, steps: seq<Step>, r: World, i: nat)
    requires Reachable(t, w) && Wedged(w.db, i) && Runs(w, steps, r)
    ensures Wedged(r.db, i) && r.db.status != AllComplete
  {
    hide Reachable, Runs, Inv, OrderedBut, HeldAreProduced, ShownAreFiled, Evolves, Wedged, Run;
    ReachableSafe(t, w);
    RunsSafe(w, steps, r);
    RunStaysWedged(w, steps, i);
    WedgedIsIncomplete(r.db, i);
  }

  lemma {:induction false} RunStaysWedged(w: World, steps: seq<Step>, i: nat)
    requires Safe(w) && Wedged(w.db, i)
    ensures Wedged(Run(w, steps).db, i)
  {
    hide Safe, Evolves, Apply, Wedged, Advance;
    if steps != [] {
      var before := Run(w, steps[..|steps| - 1]);
      RunStaysWedged(w, steps[..|steps| - 1], i);
      AdvanceIs(before, steps[|steps| - 1]);
      if Apply(before.db, steps[|steps| - 1]).Success? {
        ApplyFreezes(before.db, steps[|steps| - 1], i);
        FrozenStaysWedged(before.db, Advance(before, steps[|steps| - 1]).db, i);
      }
    }
  }

  lemma WedgedIsIncomplete(s: CaseState, i: nat)
    requires Inv(s, None) && Wedged(s, i)
    ensures s.status != AllComplete
  {
    assert !AllDone(s.nodes);
  }

  /**
   * A late rejection from an authority wedges its step exactly when the step has an undecided approval and the state
   * table lets it become REJECTED: the applier does not look at the officer gate.
   */
  lemma LateRejectionWedgesIff(s: CaseState, e: nat, input: FullInput)
    requires RowsLinked(s) && Deliver(s, EntityStatusApplier, e, input).Success?
    requires (EntityStatusApplier, e) !in s.receipts
    requires e < |s.outbox| && s.outbox[e].event.EntityStatusReceived? && s.outbox[e].event.status == RejectedStatus
    requires s.outbox[e].event.request < |s.requests|
    ensures
      var i := s.requests[s.outbox[e].event.request].node;
      Wedged(Deliver(s, EntityStatusApplier, e, input).value, i)
      <==> HasPending(s, i) && CanMove(s.nodes[i].state, NodeState.Rejected)
  {
    var event := s.outbox[e].event;
    var i := s.requests[event.request].node;
    var rejected := s.requests[event.request].(state := CaseModel.Reported(event.status));
    var noted := s.(requests := s.requests[event.request := rejected]);
    var reason := Some(event.detail);
    hide Refresh, Stamp;
    if CanMove(s.nodes[i].state, NodeState.Rejected) {
      TransitionMoves(noted, i, NodeState.Rejected, reason, NoStall, input.now);
      TransitionEvolves(noted, i, NodeState.Rejected, reason, NoStall, input.now);
    }
  }

  // --- a filing the authority takes and the case forgets ---

  /** The state an answer to a submission puts the node into. */
  function ReplyTarget(reply: AdapterReply): NodeState {
    match reply
    case NotAllowed => Blocked
    case Accepted => Submitted
    case _ => Stalled
  }

  /**
   * The outcome of a submission is recorded exactly when the node may still move to the state it leads to. Otherwise,
   * as after request_documents on a submitting node, the submitter raises although the authority has been shown the
   * key; its unit of work is rolled back and the request keeps waiting for a reference.
   */
  lemma OutcomeIsRecordedIff(s: CaseState, r: nat, replies: seq<AdapterReply>, now: Time)
    requires RowsLinked(s) && |replies| >= MAX_ATTEMPTS && r < |s.requests| && s.requests[r].state == BeingSubmitted
    ensures Submit(s, r, replies, now).Success? <==>
              CanMove(s.nodes[s.requests[r].node].state, ReplyTarget(SubmissionOf(s, r, replies).0))
  {
    hide FinalReply, Stamp, Refresh;
  }

  lemma NotFiledAfterDocumentsAsked(s: CaseState, r: nat, replies: seq<AdapterReply>, now: Time)
    requires RowsLinked(s) && |replies| >= MAX_ATTEMPTS && r < |s.requests| && s.requests[r].state == BeingSubmitted
    requires s.nodes[s.requests[r].node].state == NodeState.DocumentMissing && SubmissionOf(s, r, replies).0 == Accepted
    ensures Submit(s, r, replies, now).Failure?
  {
    OutcomeIsRecordedIff(s, r, replies, now);
  }
}
