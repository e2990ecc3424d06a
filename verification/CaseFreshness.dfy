/** The case status shown to residents and officers agrees with the steps and escalations, but for one operation. */
module CaseFreshness {
  import opened Wrappers
  import opened StateMachine
  import opened LifeEventGraph
  import opened CaseModel
  import opened CaseServices
  import opened CaseEvolution
  import opened CaseInvariants
  import opened CaseSteps
  import opened CaseRuns

  /** The case status is the one its nodes and escalations call for. */
  predicate Fresh(s: CaseState) {
    s.status == DerivedStatus(s)
  }

  /** Nothing the case status depends on has changed. */
  ghost predicate Calm(s: CaseState, t: CaseState) {
    && t.status == s.status && t.escalations == s.escalations && |t.nodes| == |s.nodes|
    && forall i :: 0 <= i < |s.nodes| ==> t.nodes[i].state == s.nodes[i].state
  }

  lemma CalmFresh(s: CaseState, t: CaseState)
    requires Fresh(s) && Calm(s, t)
    ensures Fresh(t)
  {
    CalmNodes(s.nodes, t.nodes);
  }

  lemma CalmNodes(nodes: seq<Node>, more: seq<Node>)
    requires |more| == |nodes| && forall i :: 0 <= i < |nodes| ==> more[i].state == nodes[i].state
    ensures AllDone(more) <==> AllDone(nodes)
    ensures forall states: set<NodeState> :: AnyIn(more, states) <==> AnyIn(nodes, states)
  {
    forall states: set<NodeState> ensures AnyIn(more, states) <==> AnyIn(nodes, states) {
      if AnyIn(nodes, states) {
        var i :| 0 <= i < |nodes| && nodes[i].state in states;
        assert more[i].state in states;
      }
      if AnyIn(more, states) {
        var i :| 0 <= i < |more| && more[i].state in states;
        assert nodes[i].state in states;
      }
    }
  }

  lemma RefreshFresh(s: CaseState)
    ensures Fresh(Refresh(s))
  {
  }

  /** What the status shown tells of the steps and escalations: the first of these that holds, or ACTIVE. */
  ghost predicate StatusTells(s: CaseState) {
    var done := s.nodes != [] && forall i :: 0 <= i < |s.nodes| ==> s.nodes[i].state in {Cleared, Completed};
    var raised := exists k :: 0 <= k < |s.escalations| && s.escalations[k].status in {Open, EscalationStatus.InProgress};
    var parent := exists i :: 0 <= i < |s.nodes| && s.nodes[i].state in {WaitingForParent, NodeState.DocumentMissing};
    var officer := exists i :: 0 <= i < |s.nodes| && s.nodes[i].state == WaitingForHuman;
    && (s.status == AllComplete <==> done)
    && (s.status == Escalated <==> !done && raised)
    && (s.status == AwaitingParent <==> !done && !raised && parent)
    && (s.status == AwaitingOfficer <==> !done && !raised && !parent && officer)
    && (s.status == Active <==> !done && !raised && !parent && !officer)
  }

  lemma FreshTells(s: CaseState)
    requires Fresh(s) && s.status != Closed && s.status != Intake
    ensures StatusTells(s)
  {
  }

  /** A refresh leaves an open case with the status its rows call for, and tells of a change, and of completion, once. */
  lemma RefreshOutcome(s: CaseState)
    ensures
      var t := Refresh(s);
      && t == s.(status := t.status, outbox := t.outbox)
      && (if s.status == Closed || s.status == Intake then t == s else StatusTells(t))
      && (t.status == s.status ==> t.outbox == s.outbox)
      && (t.status != s.status ==>
            t.outbox == s.outbox + [OutboxRow(CaseStatusChanged(s.status, t.status), None)] +
                        if t.status == AllComplete && !KeyUsed(s.outbox, Some(CaseCompletedKey))
                        then [OutboxRow(CaseCompleted, Some(CaseCompletedKey))] else [])
  {
    RefreshFresh(s);
    if s.status != Closed && s.status != Intake { FreshTells(Refresh(s)); }
    KeyUsedAppend(s.outbox, OutboxRow(CaseStatusChanged(s.status, Refresh(s).status), None), Some(CaseCompletedKey));
  }

  lemma TransitionFresh(s: CaseState, i: nat, target: NodeState, reason: Option<string>, stall: StallKind, now: Time)
    requires i < |s.nodes| && Fresh(s) && Transition(s, i, target, reason, stall, now).Success?
    ensures Fresh(Transition(s, i, target, reason, stall, now).value)
  {
    hide Refresh, Fresh, Stamp;
    if CanMove(s.nodes[i].state, target) {
      var stamped := s.(nodes := s.nodes[i := Stamp(s.nodes[i], target, reason, now)]);
      RefreshFresh(Emit(stamped, NodeMoved(i, s.nodes[i].state, target, stall)));
    }
  }

  lemma RequestApprovalFresh(s: CaseState, i: nat, now: Time)
    requires i < |s.nodes| && Fresh(s) && RequestApproval(s, i, now).Success?
    ensures Fresh(RequestApproval(s, i, now).value)
  {
    hide Transition, Fresh, Requestable;
    if !HasPending(s, i) {
      var ready := s;
      if s.nodes[i].state == Stalled {
        TransitionFresh(s, i, Ready, None, NoStall, now);
        ready := Transition(s, i, Ready, None, NoStall, now).value;
      }
      var asked := ready.(approvals := ready.approvals + [Approval(i, Undecided, None)],
                          nodes := ready.nodes[i := ready.nodes[i].(approvalState := Some(Undecided))]);
      CalmFresh(ready, asked);
      TransitionFresh(asked, i, WaitingForHuman, None, NoStall, now);
      var parked := Transition(asked, i, WaitingForHuman, None, NoStall, now).value;
      CalmFresh(parked, Emit(parked, ApprovalRequested(|s.approvals|)));
    }
  }

  lemma {:induction false} ResumeFresh(s: CaseState, k: nat, now: Time)
    requires k <= |s.nodes| && Fresh(s) && ResumeAfterDocuments(s, k, now).Success?
    ensures Fresh(ResumeAfterDocuments(s, k, now).value)
  {
    hide Transition, RequestApproval, MissingForNode, Fresh;
    if k > 0 {
      ResumeFresh(s, k - 1, now);
      var before := ResumeAfterDocuments(s, k - 1, now).value;
      if before.nodes[k - 1].state == NodeState.DocumentMissing && MissingForNode(before, k - 1) == [] {
        if before.nodes[k - 1].spec.kind == ParentReported {
          TransitionFresh(before, k - 1, WaitingForParent, None, NoStall, now);
        } else {
          RequestApprovalFresh(before, k - 1, now);
        }
      }
    }
  }

  lemma ActFresh(s: CaseState, i: nat, action: Action, now: Time)
    requires i < |s.nodes| && Fresh(s) && Act(s, i, action, now).Success?
    ensures Fresh(Act(s, i, action, now).value)
  {
    hide Transition, RequestApproval, MissingForNode, Titles, Fresh;
    if s.nodes[i].state == Pending {
      match action {
        case AskParent => TransitionFresh(s, i, WaitingForParent, None, NoStall, now);
        case ReportMissing =>
          TransitionFresh(s, i, NodeState.DocumentMissing, Some(Titles(MissingForNode(s, i))), NoStall, now);
        case PrepareForOfficer =>
          TransitionFresh(s, i, Ready, None, NoStall, now);
          RequestApprovalFresh(Transition(s, i, Ready, None, NoStall, now).value, i, now);
      }
    }
  }

  lemma {:induction false} EntityActionFresh(s: CaseState, plan: seq<(nat, Action)>, k: nat, now: Time)
    requires Fresh(s) && k <= |plan| && (forall p :: p in plan ==> p.0 < |s.nodes|)
    requires EntityAction(s, plan, k, now).Success?
    ensures Fresh(EntityAction(s, plan, k, now).value)
  {
    hide Act, Fresh;
    if k > 0 {
      EntityActionFresh(s, plan, k - 1, now);
      assert plan[k - 1] in plan;
      ActFresh(EntityAction(s, plan, k - 1, now).value, plan[k - 1].0, plan[k - 1].1, now);
    }
  }

  lemma EscalateFresh(s: CaseState, reason: EscalationReason, node: Option<nat>, warm: bool)
    requires Fresh(s)
    ensures Fresh(Escalate(s, reason, node, warm))
  {
    hide Refresh, Fresh, OpenFor;
    var raised := s.(escalations := s.escalations + [Escalation(reason, node, Open)]);
    RefreshFresh(Emit(raised, HumanEscalationRequired(|s.escalations|, warm)));
  }

  lemma OrchestrateFresh(s: CaseState, e: nat, now: Time)
    requires RowsLinked(s) && Fresh(s) && e < |s.outbox| && Orchestrate(s, e, now).Success?
    ensures Fresh(Orchestrate(s, e, now).value)
  {
    hide EntityAction, Plan, Evaluate, Escalate, Fresh, EmitOnce, Refresh;
    var plan := Plan(s);
    EntityActionFresh(s, plan, |plan|, now);
    var acted := EntityAction(s, plan, |plan|, now).value;
    var verdict := Evaluate(acted, s.outbox[e].event);
    var subject := SubjectOf(s.outbox[e].event);
    var escalated := acted;
    if verdict.escalate.Some? {
      EscalateFresh(acted, verdict.escalate.value, subject, false);
      escalated := Escalate(acted, verdict.escalate.value, subject, false);
    }
    var called := escalated;
    if verdict.callback.Some? {
      called := EmitOnce(escalated, CallbackRequired(verdict.callback.value, subject), Some(CallbackKey(e)));
      EmitOnceFresh(escalated, CallbackRequired(verdict.callback.value, subject), Some(CallbackKey(e)));
    }
    RefreshFresh(called);
  }

  lemma EmitOnceFresh(s: CaseState, event: Event, key: Option<IdempotencyKey>)
    requires Fresh(s)
    ensures Fresh(EmitOnce(s, event, key))
  {
    CalmFresh(s, EmitOnce(s, event, key));
  }

  lemma {:induction false} StallOverdueFresh(s: CaseState, k: nat, now: Time)
    requires k <= |s.nodes| && Fresh(s) && StallOverdue(s, k, now).Success?
    ensures Fresh(StallOverdue(s, k, now).value)
  {
    hide Transition, Fresh;
    if k > 0 {
      StallOverdueFresh(s, k - 1, now);
      var before := StallOverdue(s, k - 1, now).value;
      if Overdue(before.nodes[k - 1], now) {
        var reason := Some("Past the expected hours - not cleared yet");
        TransitionFresh(before, k - 1, Stalled, reason, SlaKind, now);
      }
    }
  }

  lemma TryFresh(s: CaseState, i: nat, target: NodeState, reason: Option<string>, stall: StallKind, now: Time)
    requires i < |s.nodes| && Fresh(s)
    ensures Fresh(TryTransition(s, i, target, reason, stall, now).0)
  {
    hide Transition, Fresh;
    if Transition(s, i, target, reason, stall, now).Success? { TransitionFresh(s, i, target, reason, stall, now); }
  }

  lemma ApplyToNodeFresh(s: CaseState, i: nat, status: AuthorityStatus, detail: string, missing: seq<DocType>, now: Time)
    requires i < |s.nodes| && Fresh(s)
    ensures Fresh(ApplyToNode(s, i, status, detail, missing, now))
  {
    hide TryTransition, MarkMissing, Marked, Titles, RegisterOutputs, Fresh;
    match status {
      case InProcess => TryFresh(s, i, Processing, None, NoStall, now);
      case ClearedStatus => ApplySuccessFresh(s, i, now);
      case CompletedStatus => ApplySuccessFresh(s, i, now);
      case DocumentMissingStatus =>
        var types := RequestedDocuments(s.nodes[i], missing);
        var marked := s.(docs := MarkMissing(s.docs, s.catalogue, types));
        CalmFresh(s, marked);
        TryFresh(marked, i, NodeState.DocumentMissing, Some(Titles(Marked(s.docs, s.catalogue, types))), NoStall, now);
      case BlockedStatus => TryFresh(s, i, Blocked, Some(detail), NoStall, now);
      case StalledStatus =>
        TryFresh(s, i, Stalled, Some(if detail == "" then "Not cleared yet" else detail), SlaKind, now);
      case RejectedStatus => TryFresh(s, i, NodeState.Rejected, Some(detail), NoStall, now);
      case WaitingForParentStatus => TryFresh(s, i, WaitingForParent, None, NoStall, now);
      case _ =>
    }
  }

  lemma ApplySuccessFresh(s: CaseState, i: nat, now: Time)
    requires i < |s.nodes| && Fresh(s)
    ensures Fresh(ApplySuccess(s, i, now))
  {
    hide TryTransition, RegisterOutputs, Fresh;
    TryFresh(s, i, SuccessTarget(s.nodes[i]), None, NoStall, now);
    CalmFresh(TryTransition(s, i, SuccessTarget(s.nodes[i]), None, NoStall, now).0, ApplySuccess(s, i, now));
  }

  lemma RecordReplyFresh(s: CaseState, r: nat, reply: AdapterReply, calls: nat, now: Time)
    requires r < |s.requests| && s.requests[r].node < |s.nodes| && Fresh(s)
    requires RecordReply(s, r, reply, calls, now).Success?
    ensures Fresh(RecordReply(s, r, reply, calls, now).value)
  {
    hide Transition, Fresh;
    var i := s.requests[r].node;
    var tried := s.requests[r].(attempts := s.requests[r].attempts + calls);
    match reply {
      case NotAllowed =>
        var refused := s.(requests := s.requests[r := tried.(state := Refused)]);
        CalmFresh(s, refused);
        TransitionFresh(refused, i, Blocked, Some("Integration refused the request"), NoStall, now);
      case Accepted =>
        var filed := tried.(state := CaseModel.Reported(SubmittedStatus), externalRef := Some(tried.key));
        var submitted := s.(requests := s.requests[r := filed],
                            statuses := s.statuses + [EntityStatus(r, SubmittedStatus)]);
        CalmFresh(s, submitted);
        TransitionFresh(submitted, i, Submitted, None, NoStall, now);
      case _ =>
        var stalled := s.(requests := s.requests[r := tried.(state := CaseModel.Reported(StalledStatus))]);
        CalmFresh(s, stalled);
        TransitionFresh(stalled, i, Stalled, Some("Unavailable - not cleared yet"), DependencyDown, now);
    }
  }

  lemma HandleFresh(s: CaseState, c: Consumer, e: nat, input: FullInput)
    requires RowsLinked(s) && Fresh(s) && e < |s.outbox| && Registered(c, s.outbox[e].event)
    requires Handle(s, c, e, input).Success?
    ensures Fresh(Handle(s, c, e, input).value)
  {
    hide Orchestrate, RecordReply, ApplyToNode, FinalReply, Fresh;
    var event := s.outbox[e].event;
    match c {
      case Orchestrator => OrchestrateFresh(s, e, input.now);
      case CallbackScheduler => CalmFresh(s, RecordCallback(s, input.outcome));
      case EntitySubmitter =>
        if event.request < |s.requests| && s.requests[event.request].state == BeingSubmitted {
          var (reply, calls) := SubmissionOf(s, event.request, input.replies);
          RecordReplyFresh(s, event.request, reply, calls, input.now);
        }
      case EntityStatusApplier =>
        if event.request < |s.requests| {
          var q := s.requests[event.request];
          var noted := s.(requests := s.requests[event.request := q.(state := CaseModel.Reported(event.status))]);
          CalmFresh(s, noted);
          ApplyToNodeFresh(noted, q.node, event.status, event.detail, event.missing, input.now);
        }
      case _ =>
    }
  }

  lemma DeliverFresh(s: CaseState, c: Consumer, e: nat, input: FullInput)
    requires RowsLinked(s) && Fresh(s) && Deliver(s, c, e, input).Success?
    ensures Fresh(Deliver(s, c, e, input).value)
  {
    hide Handle, Fresh;
    if (c, e) !in s.receipts {
      HandleFresh(s, c, e, input);
      CalmFresh(Handle(s, c, e, input).value, Deliver(s, c, e, input).value);
    }
  }

  // --- officers and parents ---

  lemma ApproveFresh(s: CaseState, a: nat, officer: Officer, now: Time)
    requires RowsLinked(s) && Fresh(s) && Approve(s, a, officer, now).Success?
    ensures Fresh(Approve(s, a, officer, now).value)
  {
    hide Transition, RequestWithKey, MissingForNode, Fresh;
    var i := s.approvals[a].node;
    var filed := FileRequest(Emit(Decide(s, a, Approved, officer), OfficerApproved(a)), i, a);
    CalmFresh(s, filed);
    TransitionFresh(filed, i, Submitting, None, NoStall, now);
    CalmFresh(Transition(filed, i, Submitting, None, NoStall, now).value, Approve(s, a, officer, now).value);
  }

  lemma RejectFresh(s: CaseState, a: nat, officer: Officer, reason: string, now: Time)
    requires RowsLinked(s) && Fresh(s) && Reject(s, a, officer, reason, now).Success?
    ensures Fresh(Reject(s, a, officer, reason, now).value)
  {
    hide Transition, Fresh;
    var told := Emit(Decide(s, a, Declined, officer), OfficerRejected(a));
    CalmFresh(s, told);
    TransitionFresh(told, s.approvals[a].node, Blocked, Some("Officer did not release: " + reason), NoStall, now);
  }

  lemma RequestDocumentsFresh(s: CaseState, i: nat, types: seq<DocType>, officer: Officer, now: Time)
    requires RowsLinked(s) && Fresh(s) && RequestDocuments(s, i, types, officer, now).Success?
    ensures Fresh(RequestDocuments(s, i, types, officer, now).value)
  {
    hide Transition, MarkMissing, Marked, Titles, Fresh;
    var told := Emit(CancelPending(s, i, officer).(docs := MarkMissing(s.docs, s.catalogue, types)),
                     OfficerRequestedDocuments(i));
    CalmFresh(s, told);
    if s.nodes[i].state != NodeState.DocumentMissing {
      var titles := Titles(Marked(s.docs, s.catalogue, types));
      TransitionFresh(told, i, NodeState.DocumentMissing, Some(titles), NoStall, now);
    }
  }

  lemma RetryFresh(s: CaseState, i: nat, officer: Officer, now: Time)
    requires RowsLinked(s) && Fresh(s) && Retry(s, i, officer, now).Success?
    ensures Fresh(Retry(s, i, officer, now).value)
  {
    hide Transition, Fresh;
    var r := LatestRequest(s.requests, i);
    var reopened := s.(requests := s.requests[r := s.requests[r].(state := BeingSubmitted)]);
    CalmFresh(s, reopened);
    TransitionFresh(reopened, i, Submitting, None, NoStall, now);
    CalmFresh(Transition(reopened, i, Submitting, None, NoStall, now).value, Retry(s, i, officer, now).value);
  }

  lemma MoveOnReportFresh(s: CaseState, i: nat, m: Milestone, now: Time)
    requires i < |s.nodes| && Fresh(s) && MoveOnReport(s, i, m, now).Success?
    ensures Fresh(MoveOnReport(s, i, m, now).value)
  {
    hide Transition, Escalate, Fresh;
    if m == Delayed {
      var reason := Some("Parent reports no progress at the consulate");
      TransitionFresh(s, i, Stalled, reason, ConsulateKind, now);
      EscalateFresh(Transition(s, i, Stalled, reason, ConsulateKind, now).value, ConsulateStall, Some(i), false);
    } else {
      var moved := s;
      if MilestoneState(m) != s.nodes[i].state {
        TransitionFresh(s, i, MilestoneState(m), None, NoStall, now);
        moved := Transition(s, i, MilestoneState(m), None, NoStall, now).value;
      }
      CalmFresh(moved, ExpectPassport(moved));
    }
  }

  lemma ApplyFresh(s: CaseState, step: Step)
    requires RowsLinked(s) && Fresh(s) && Apply(s, step).Success? && !step.OfficerTakes?
    ensures Fresh(Apply(s, step).value)
  {
    hide Fresh, RequestApproval, ResumeAfterDocuments, StallOverdue, Deliver, MoveOnReport, Escalate, Approve, Reject,
         RequestDocuments, Retry, Refresh, IsOutput;
    match step {
      case OfficerApproves(a, officer, now) => ApproveFresh(s, a, officer, now);
      case OfficerRejects(a, officer, reason, now) => RejectFresh(s, a, officer, reason, now);
      case OfficerAsksDocuments(i, types, officer, now) => RequestDocumentsFresh(s, i, types, officer, now);
      case FilingPrepared(i, now) => RequestApprovalFresh(s, i, now);
      case OfficerRetries(i, officer, now) => RetryFresh(s, i, officer, now);
      case AuthorityPolled(r, answer, routine) => CalmFresh(s, Poll(s, r, answer, routine).value);
      case ParentReports(m, present, now) =>
        var told := NoteReport(s, s.consulate.value, MilestoneReport(m, present));
        CalmFresh(s, told);
        MoveOnReportFresh(told, s.consulate.value, m, now);
      case ResidentUploads(d, now) =>
        var stored := Emit(s.(docs := s.docs[d := Document(Uploaded, Resident)]), DocumentUploaded(d));
        CalmFresh(s, stored);
        ResumeFresh(stored, |s.nodes|, now);
      case OfficerVerifies(d, officer) => CalmFresh(s, Verify(s, d, officer).value);
      case OfficerSetsStatus(d, status, officer, now) =>
        var changed := s.(docs := s.docs[d := s.docs[d].(status := status)]);
        CalmFresh(s, changed);
        if status == NotApplicable || status == Uploaded || status == Verified { ResumeFresh(changed, |s.nodes|, now); }
      case WatchdogPasses(silent, now) =>
        StallOverdueFresh(s, |s.nodes|, now);
        EscalateFresh(StallOverdue(s, |s.nodes|, now).value, ConsulateStall, s.consulate, false);
      case EscalationOpened(cause, subject, warm) => EscalateFresh(s, cause, subject, warm);
      case OfficerResolves(k, officer) =>
        RefreshFresh(Emit(s.(escalations := s.escalations[k := s.escalations[k].(status := Resolved)]),
                          EscalationResolved(k)));
      case ConsumerRuns(c, e, input) => DeliverFresh(s, c, e, input);
      case _ =>
    }
  }

  // --- main results ---

  /** take reopens a resolved escalation although the case shows none. */
  predicate ReopensUnseen(s: CaseState, step: Step) {
    step.OfficerTakes? && step.officer.officiates
    && step.escalation < |s.escalations| && s.escalations[step.escalation].status == Resolved
    && !AnyOpen(s.escalations) && !AllDone(s.nodes) && s.status != Closed && s.status != Intake
  }

  /** take does not refresh the case: the status it leaves is right exactly when it reopened nothing unseen. */
  lemma TakeKeepsFreshIff(s: CaseState, step: Step)
    requires RowsLinked(s) && Fresh(s) && step.OfficerTakes? && Apply(s, step).Success?
    ensures Fresh(Apply(s, step).value) <==> !ReopensUnseen(s, step)
  {
    var k := step.escalation;
    var t := Apply(s, step).value;
    assert t.escalations[k].status == InProgress;
    assert AnyOpen(t.escalations);
    if AnyOpen(s.escalations) {
      var j :| 0 <= j < |s.escalations| && s.escalations[j].status != Resolved;
    }
    if s.escalations[k].status != Resolved { assert AnyOpen(s.escalations); }
  }

  /** In every run that takes no resolved escalation unseen, the case status is what its steps and escalations say. */
  lemma StatusIsDerived(t: Template, steps: seq<Step>, worlds: seq<World>)
    requires TemplateOk(t) && Visits(steps, worlds) && worlds[0] == Start(t)
    requires forall k {:trigger steps[k]} :: 0 <= k < |steps| ==> !ReopensUnseen(worlds[k].db, steps[k])
    ensures Fresh(worlds[|steps|].db) && StatusTells(worlds[|steps|].db)
  {
    hide TemplateOk, Opened, Fresh, Inv, OrderedBut, HeldAreProduced, ShownAreFiled, Leads, ReopensUnseen, StatusTells,
         Evolves;
    OpenedSafe(t);
    OpenedFresh(t);
    VisitsFresh(steps, worlds, |steps|);
    VisitsRun(steps, worlds, |steps|);
    NeverClosed(worlds[|steps|].db);
    FreshTells(worlds[|steps|].db);
  }

  lemma NeverClosed(s: CaseState)
    requires Inv(s, None)
    ensures s.status != Closed && s.status != Intake
  {
  }

  lemma {:induction false} VisitsFresh(steps: seq<Step>, worlds: seq<World>, n: nat)
    requires Visits(steps, worlds) && n <= |steps| && Safe(worlds[0]) && Fresh(worlds[0].db)
    requires forall k {:trigger steps[k]} :: 0 <= k < n ==> !ReopensUnseen(worlds[k].db, steps[k])
    ensures Fresh(worlds[n].db)
  {
    hide Safe, Apply, Fresh, ReopensUnseen, Evolves;
    if n > 0 {
      VisitsFresh(steps, worlds, n - 1);
      VisitsRun(steps, worlds, n - 1);
      var w, step := worlds[n - 1], steps[n - 1];
      assert Leads(w, step, worlds[n]) && !ReopensUnseen(w.db, step);
      if Apply(w.db, step).Success? {
        if step.OfficerTakes? { TakeKeepsFreshIff(w.db, step); } else { ApplyFresh(w.db, step); }
      }
    }
  }

  lemma OpenedFresh(t: Template)
    requires TemplateOk(t)
    ensures Fresh(Opened(t))
  {
    assert Opened(t).nodes[0].state == Pending;
  }
}
