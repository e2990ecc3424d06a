/** What a case waits for: a released filing is always on its way, so a quiet case waits for somebody outside. */
module CaseSubmission {
  import opened Wrappers
  import opened StateMachine
  import opened LifeEventGraph
  import opened CaseModel
  import opened CaseServices
  import opened CaseEvolution
  import opened CaseInvariants
  import opened CaseSteps
  import opened CaseConsumerSafety
  import opened CaseRuns
  import opened CaseTargets
  import opened CaseOutcomes
  import opened CaseTheorems
  import opened CaseLiveness
  import opened CaseDeadEnds

  /** Outbox event e tells of a release the submitter has not run on. */
  predicate ToSubmit(s: CaseState, e: nat) {
    e < |s.outbox| && s.outbox[e].event.EntityRequestReleased? && (EntitySubmitter, e) !in s.receipts
  }

  /** Outbox event e will have the submitter send a filing of node i. */
  predicate OnItsWay(s: CaseState, i: nat, e: nat) {
    && ToSubmit(s, e) && s.outbox[e].event.request < |s.requests|
    && s.requests[s.outbox[e].event.request].node == i
    && s.requests[s.outbox[e].event.request].state == BeingSubmitted
  }

  ghost predicate AllOnTheirWay(s: CaseState) {
    forall i: nat :: i < |s.nodes| && s.nodes[i].state == Submitting ==> exists e: nat :: OnItsWay(s, i, e)
  }

  /** No filing goes out, and no node becomes SUBMITTING. */
  ghost predicate SendsNothing(s: CaseState, t: CaseState) {
    && |t.nodes| == |s.nodes| && |s.requests| <= |t.requests|
    && (forall i :: 0 <= i < |s.nodes| && t.nodes[i].state == Submitting ==> s.nodes[i].state == Submitting)
    && (forall r :: 0 <= r < |s.requests| && s.requests[r].state == BeingSubmitted ==>
          t.requests[r].state == BeingSubmitted)
    && (forall e :: (EntitySubmitter, e) in t.receipts ==> (EntitySubmitter, e) in s.receipts)
  }

  lemma StaysOnItsWay(s: CaseState, t: CaseState)
    requires Evolves(s, t) && AllOnTheirWay(s) && SendsNothing(s, t)
    ensures AllOnTheirWay(t)
  {
    forall i: nat | i < |t.nodes| && t.nodes[i].state == Submitting ensures exists e: nat :: OnItsWay(t, i, e) {
      var e: nat :| OnItsWay(s, i, e);
      assert RequestEvolves(s.requests[s.outbox[e].event.request], t.requests[s.outbox[e].event.request]);
      assert OnItsWay(t, i, e);
    }
  }

  // --- the steps that send, or stop, a filing ---

  /** Node i alone becomes SUBMITTING, and the last event says so. */
  lemma SentOff(s: CaseState, t: CaseState, i: nat, q: nat)
    requires Evolves(s, t) && AllOnTheirWay(s) && i < |s.nodes| && q < |t.requests| && t.requests[q].node == i
    requires forall j :: 0 <= j < |s.nodes| && j != i ==> t.nodes[j].state == s.nodes[j].state
    requires forall r :: 0 <= r < |s.requests| && s.requests[r].state == BeingSubmitted ==>
               t.requests[r].state == BeingSubmitted
    requires t.requests[q].state == BeingSubmitted && t.receipts == s.receipts
    requires |t.outbox| > |s.outbox| && t.outbox[|t.outbox| - 1].event == EntityRequestReleased(q)
    requires (EntitySubmitter, |t.outbox| - 1) !in s.receipts
    ensures AllOnTheirWay(t)
  {
    assert OnItsWay(t, i, |t.outbox| - 1);
    forall j: nat | j < |t.nodes| && t.nodes[j].state == Submitting ensures exists e: nat :: OnItsWay(t, j, e) {
      if j != i {
        var e: nat :| OnItsWay(s, j, e);
        assert RequestEvolves(s.requests[s.outbox[e].event.request], t.requests[s.outbox[e].event.request]);
        assert OnItsWay(t, j, e);
      }
    }
  }

  /** Every release told of under its key is a filing of the case. */
  ghost predicate ToldAreFiled(s: CaseState) {
    forall e :: 0 <= e < |s.outbox| && s.outbox[e].key.Some? && s.outbox[e].key.value.ReleaseKey? ==>
      KeyFiled(s.requests, s.outbox[e].key.value.filing)
  }

  lemma StillFiled(s: CaseState, t: CaseState)
    requires Evolves(s, t) && ToldAreFiled(s) && ReleasesNothing(s.outbox, t.outbox)
    ensures ToldAreFiled(t)
  {
    forall e | 0 <= e < |t.outbox| && t.outbox[e].key.Some? && t.outbox[e].key.value.ReleaseKey?
      ensures KeyFiled(t.requests, t.outbox[e].key.value.filing)
    {
      assert t.outbox[e] == s.outbox[e];
      KeyStaysFiled(s, t, t.outbox[e].key.value.filing);
    }
  }

  /** An approval writes its filing last, and tells of it last. */
  lemma ApproveSends(s: CaseState, a: nat, officer: Officer, now: Time)
    requires RowsLinked(s) && RequestsOk(s) && ToldAreFiled(s) && Approve(s, a, officer, now).Success?
    ensures a < |s.approvals|
    ensures
      var i, t := s.approvals[a].node, Approve(s, a, officer, now).value;
      var key := FilingKey(i, s.nodes[i].attempts + 1);
      && |t.outbox| > |s.outbox| && t.receipts == s.receipts
      && t.outbox[|t.outbox| - 1] == OutboxRow(EntityRequestReleased(|s.requests|), Some(ReleaseKey(key)))
      && ReleasesNothing(s.outbox, t.outbox[..|t.outbox| - 1])
  {
    hide Transition, MissingForNode, RequestOk, KeysDistinct, CanMove, InHand;
    ApproveOutcome(s, a, officer, now);
    var i := s.approvals[a].node;
    CaseFilingSteps.NextKeyIsFresh(s, i);
    var told := Emit(Decide(s, a, Approved, officer), OfficerApproved(a));
    var filed := FileRequest(told, i, a);
    TransitionTo(filed, i, Submitting, None, NoStall, now, {Submitting});
    var moved := Transition(filed, i, Submitting, None, NoStall, now).value;
    var key := FilingKey(i, s.nodes[i].attempts + 1);
    assert filed.requests[|s.requests|].key == key;
    assert ReleasesNothing(s.outbox, moved.outbox);
    assert !KeyUsed(moved.outbox, Some(ReleaseKey(key)));
  }

  lemma ApproveOnItsWay(s: CaseState, a: nat, officer: Officer, now: Time, t: CaseState)
    requires Inv(s, None) && AllOnTheirWay(s) && ToldAreFiled(s) && Approve(s, a, officer, now) == Success(t)
    requires Evolves(s, t)
    ensures AllOnTheirWay(t) && ToldAreFiled(t)
  {
    hide Inv, Approve, RequestOk, KeysDistinct, RowsLinked, AllOnTheirWay, InHand;
    InvRows(s, None);
    ReceiptsNameEvents(s);
    ApproveSends(s, a, officer, now);
    ApproveOutcome(s, a, officer, now);
    SentOff(s, t, s.approvals[a].node, |s.requests|);
    forall e | 0 <= e < |t.outbox| && t.outbox[e].key.Some? && t.outbox[e].key.value.ReleaseKey?
      ensures KeyFiled(t.requests, t.outbox[e].key.value.filing)
    {
      if e == |t.outbox| - 1 {
        assert t.requests[|s.requests|].key == t.outbox[e].key.value.filing;
      } else {
        assert t.outbox[e] == t.outbox[..|t.outbox| - 1][e] && t.outbox[e] == s.outbox[e];
        KeyStaysFiled(s, t, t.outbox[e].key.value.filing);
      }
    }
  }

  lemma RetryOnItsWay(s: CaseState, i: nat, officer: Officer, now: Time, t: CaseState)
    requires Inv(s, None) && AllOnTheirWay(s) && Retry(s, i, officer, now) == Success(t) && Evolves(s, t)
    ensures AllOnTheirWay(t)
  {
    hide Inv, AllOnTheirWay;
    InvRows(s, None);
    ReceiptsNameEvents(s);
    RetryOutcome(s, i, officer, now);
    RetryTo(s, i, officer, now);
    hide Retry;
    SentOff(s, t, i, LatestRequest(s.requests, i));
  }

  /** The submitter takes the event up: its node moves on, and the other filings stay on their way. */
  lemma SubmitterOnItsWay(s: CaseState, e: nat, input: FullInput, t: CaseState)
    requires Inv(s, None) && AllOnTheirWay(s) && Deliver(s, EntitySubmitter, e, input) == Success(t) && Evolves(s, t)
    requires (EntitySubmitter, e) !in s.receipts
    ensures AllOnTheirWay(t)
  {
    hide Inv, RecordReply, SubmissionOf, AllOnTheirWay, OnItsWay;
    InvRows(s, None);
    var q := s.outbox[e].event.request;
    if q < |s.requests| && s.requests[q].state == BeingSubmitted {
      var (reply, calls) := SubmissionOf(s, q, input.replies);
      Recorded(s, q, reply, calls, input.now);
      OthersOnTheirWay(s, e, t);
    } else {
      OthersOnTheirWay(s, e, t);
    }
  }

  lemma Recorded(s: CaseState, q: nat, reply: AdapterReply, calls: nat, now: Time)
    requires q < |s.requests| && s.requests[q].node < |s.nodes| && RecordReply(s, q, reply, calls, now).Success?
    ensures
      var i, t := s.requests[q].node, RecordReply(s, q, reply, calls, now).value;
      && |t.nodes| == |s.nodes| && t.nodes == s.nodes[i := t.nodes[i]]
      && t.nodes[i].state in {Blocked, Submitted, Stalled} && t.receipts == s.receipts
      && |t.requests| == |s.requests| && t.requests == s.requests[q := t.requests[q]]
  {
    hide Stamp, Refresh;
    var i := s.requests[q].node;
    var tried := s.requests[q].(attempts := s.requests[q].attempts + calls);
    match reply {
      case NotAllowed =>
        var refused := s.(requests := s.requests[q := tried.(state := Refused)]);
        TransitionEvolves(refused, i, Blocked, Some("Integration refused the request"), NoStall, now);
        TransitionMoves(refused, i, Blocked, Some("Integration refused the request"), NoStall, now);
      case Accepted =>
        var filed := tried.(state := CaseModel.Reported(SubmittedStatus), externalRef := Some(tried.key));
        var submitted := s.(requests := s.requests[q := filed],
                            statuses := s.statuses + [EntityStatus(q, SubmittedStatus)]);
        TransitionEvolves(submitted, i, Submitted, None, NoStall, now);
        TransitionMoves(submitted, i, Submitted, None, NoStall, now);
      case _ =>
        var stalled := s.(requests := s.requests[q := tried.(state := CaseModel.Reported(StalledStatus))]);
        TransitionEvolves(stalled, i, Stalled, Some("Unavailable - not cleared yet"), DependencyDown, now);
        TransitionMoves(stalled, i, Stalled, Some("Unavailable - not cleared yet"), DependencyDown, now);
    }
  }

  lemma OthersOnTheirWay(s: CaseState, e: nat, t: CaseState)
    requires Evolves(s, t) && AllOnTheirWay(s) && RowsLinked(s) && e < |s.outbox|
    requires s.outbox[e].event.EntityRequestReleased?
    requires t.receipts == s.receipts + {(EntitySubmitter, e)}
    requires
      var q := s.outbox[e].event.request;
      if q < |s.requests| && s.requests[q].state == BeingSubmitted
      then t.nodes == s.nodes[s.requests[q].node := t.nodes[s.requests[q].node]]
           && t.nodes[s.requests[q].node].state != Submitting && |t.requests| == |s.requests|
           && t.requests == s.requests[q := t.requests[q]]
      else t.nodes == s.nodes && t.requests == s.requests
    ensures AllOnTheirWay(t)
  {
    forall j: nat | j < |t.nodes| && t.nodes[j].state == Submitting ensures exists f: nat :: OnItsWay(t, j, f) {
      var f: nat :| OnItsWay(s, j, f);
      assert OnItsWay(t, j, f);
    }
  }

  // --- every unit of work ---

  lemma AppliedSendsNothing(s: CaseState, e: nat, input: FullInput, t: CaseState)
    requires Inv(s, None) && Deliver(s, EntityStatusApplier, e, input) == Success(t) && Evolves(s, t)
    ensures forall r :: 0 <= r < |s.requests| && s.requests[r].state == BeingSubmitted ==> t.requests[r] == s.requests[r]
  {
    hide Inv, ApplyToNode;
    InvRows(s, None);
    InvEvent(s, None, e);
    var event := s.outbox[e].event;
    if (EntityStatusApplier, e) !in s.receipts {
      assert event.request < |s.requests| && s.requests[event.request].externalRef.Some?;
      InvRequest(s, None, event.request);
      var noted := s.(requests := s.requests[event.request := s.requests[event.request].(state := Reported(event.status))]);
      ApplyToNodeTo(noted, s.requests[event.request].node, event.status, event.detail, event.missing, input.now);
    }
  }

  lemma OtherHandlersFileNothing(s: CaseState, c: Consumer, e: nat, input: FullInput, t: CaseState)
    requires RowsLinked(s) && Deliver(s, c, e, input) == Success(t) && c != EntityStatusApplier && c != EntitySubmitter
    ensures t.requests == s.requests
  {
    hide Orchestrate;
    if c == Orchestrator && (c, e) !in s.receipts { OrchestrateTo(s, e, input.now, STARTS); }
  }

  lemma DeliverOnItsWay(s: CaseState, c: Consumer, e: nat, input: FullInput, t: CaseState)
    requires Inv(s, None) && AllOnTheirWay(s) && Deliver(s, c, e, input) == Success(t) && Evolves(s, t)
    ensures AllOnTheirWay(t)
  {
    hide Inv, Handle, AllOnTheirWay;
    InvRows(s, None);
    DeliverTo(s, c, e, input);
    if (c, e) in s.receipts {
      assert t == s;
    } else if c == EntitySubmitter {
      SubmitterOnItsWay(s, e, input, t);
    } else {
      if c == EntityStatusApplier { AppliedSendsNothing(s, e, input, t); } else { OtherHandlersFileNothing(s, c, e, input, t); }
      StaysOnItsWay(s, t);
    }
  }

  lemma ApplyOnItsWay(s: CaseState, step: Step, t: CaseState)
    requires Inv(s, None) && Apply(s, step) == Success(t) && Evolves(s, t)
    requires AllOnTheirWay(s) && ToldAreFiled(s)
    ensures AllOnTheirWay(t) && ToldAreFiled(t)
  {
    hide Inv, Approve, Retry, Deliver, AllOnTheirWay, ToldAreFiled, TargetsOf, Evolves, ReleasesNothing;
    InvRows(s, None);
    if step.OfficerApproves? {
      ApproveOnItsWay(s, step.approval, step.officer, step.now, t);
    } else {
      ApplyTo(s, step);
      StillFiled(s, t);
      if step.OfficerRetries? {
        RetryOnItsWay(s, step.node, step.officer, step.now, t);
      } else if step.ConsumerRuns? {
        DeliverOnItsWay(s, step.consumer, step.event, step.input, t);
      } else {
        NoOtherSubmits(s, step);
        StaysOnItsWay(s, t);
      }
    }
  }

  // --- READY is only passed through ---

  ghost predicate NoneReady(s: CaseState) {
    forall i :: 0 <= i < |s.nodes| ==> s.nodes[i].state != Ready
  }

  lemma RequestApprovalLeavesNone(s: CaseState, i: nat, now: Time)
    requires i < |s.nodes| && RequestApproval(s, i, now).Success?
    requires forall j :: 0 <= j < |s.nodes| && j != i ==> s.nodes[j].state != Ready
    requires HasPending(s, i) ==> s.nodes[i].state != Ready
    ensures NoneReady(RequestApproval(s, i, now).value)
  {
    hide RequestApproval;
    RequestApprovalOutcome(s, i, now);
  }

  lemma TransitionLeavesNone(s: CaseState, i: nat, target: NodeState, reason: Option<string>, stall: StallKind, now: Time)
    requires i < |s.nodes| && NoneReady(s) && target != Ready && Transition(s, i, target, reason, stall, now).Success?
    ensures NoneReady(Transition(s, i, target, reason, stall, now).value)
  {
    hide Transition;
    TransitionTo(s, i, target, reason, stall, now, {target});
  }

  lemma {:induction false} ResumeLeavesNone(s: CaseState, k: nat, now: Time)
    requires k <= |s.nodes| && NoneReady(s) && ResumeAfterDocuments(s, k, now).Success?
    ensures NoneReady(ResumeAfterDocuments(s, k, now).value)
  {
    hide Transition, RequestApproval, MissingForNode;
    if k > 0 {
      ResumeLeavesNone(s, k - 1, now);
      var before := ResumeAfterDocuments(s, k - 1, now).value;
      if before.nodes[k - 1].state == NodeState.DocumentMissing && MissingForNode(before, k - 1) == [] {
        if before.nodes[k - 1].spec.kind == ParentReported {
          TransitionLeavesNone(before, k - 1, WaitingForParent, None, NoStall, now);
        } else {
          RequestApprovalLeavesNone(before, k - 1, now);
        }
      }
    }
  }

  /** A node not yet started has no undecided approval. */
  ghost predicate PendingUnasked(s: CaseState) {
    forall i: nat :: i < |s.nodes| && s.nodes[i].state == Pending ==> !HasPending(s, i)
  }

  lemma ActLeavesNone(s: CaseState, i: nat, action: Action, now: Time)
    requires i < |s.nodes| && NoneReady(s) && PendingUnasked(s) && Act(s, i, action, now).Success?
    ensures NoneReady(Act(s, i, action, now).value) && PendingUnasked(Act(s, i, action, now).value)
  {
    hide Transition, RequestApproval, MissingForNode, Titles, HasPending;
    if s.nodes[i].state == Pending {
      match action {
        case AskParent =>
          TransitionLeavesNone(s, i, WaitingForParent, None, NoStall, now);
          MovedUnasked(s, i, WaitingForParent, None, now);
        case ReportMissing =>
          var reason := Some(Titles(MissingForNode(s, i)));
          TransitionLeavesNone(s, i, NodeState.DocumentMissing, reason, NoStall, now);
          MovedUnasked(s, i, NodeState.DocumentMissing, reason, now);
        case PrepareForOfficer =>
          MovedUnasked(s, i, Ready, None, now);
          var ready := Transition(s, i, Ready, None, NoStall, now).value;
          RequestApprovalLeavesNone(ready, i, now);
          RequestApprovalOutcome(ready, i, now);
          AskedUnasked(ready, RequestApproval(ready, i, now).value, i);
      }
    }
  }

  lemma MovedUnasked(s: CaseState, i: nat, target: NodeState, reason: Option<string>, now: Time)
    requires i < |s.nodes| && PendingUnasked(s) && target != Pending && Transition(s, i, target, reason, NoStall, now).Success?
    ensures
      var t := Transition(s, i, target, reason, NoStall, now).value;
      && PendingUnasked(t) && |t.nodes| == |s.nodes| && t.nodes[i].state == target
      && (forall j :: 0 <= j < |s.nodes| && j != i ==> t.nodes[j] == s.nodes[j])
      && (HasPending(t, i) <==> HasPending(s, i))
  {
    hide Stamp, Refresh;
    TransitionMoves(s, i, target, reason, NoStall, now);
    TransitionEvolves(s, i, target, reason, NoStall, now);
  }

  lemma AskedUnasked(s: CaseState, t: CaseState, i: nat)
    requires PendingUnasked(s) && i < |s.nodes| == |t.nodes| && s.nodes[i].state != Pending && t.nodes[i].state != Pending
    requires forall j :: 0 <= j < |s.nodes| && j != i ==> t.nodes[j] == s.nodes[j]
    requires t.approvals == s.approvals || t.approvals == s.approvals + [Approval(i, Undecided, None)]
    ensures PendingUnasked(t)
  {
    AppendedPending(s, t, i);
  }

  lemma {:induction false} EntityActionLeavesNone(s: CaseState, plan: seq<(nat, Action)>, k: nat, now: Time)
    requires k <= |plan| && (forall p :: p in plan ==> p.0 < |s.nodes|) && NoneReady(s) && PendingUnasked(s)
    requires EntityAction(s, plan, k, now).Success?
    ensures NoneReady(EntityAction(s, plan, k, now).value) && PendingUnasked(EntityAction(s, plan, k, now).value)
  {
    hide Act, PendingUnasked, NoneReady;
    if k > 0 {
      EntityActionLeavesNone(s, plan, k - 1, now);
      assert plan[k - 1] in plan;
      ActLeavesNone(EntityAction(s, plan, k - 1, now).value, plan[k - 1].0, plan[k - 1].1, now);
    }
  }

  lemma NotAskedBeforehand(s: CaseState)
    requires Inv(s, None)
    ensures PendingUnasked(s)
  {
  }

  lemma OrchestrateLeavesNone(s: CaseState, e: nat, now: Time)
    requires Inv(s, None) && RowsLinked(s) && e < |s.outbox| && NoneReady(s) && Orchestrate(s, e, now).Success?
    ensures NoneReady(Orchestrate(s, e, now).value)
  {
    hide Inv, Orchestrate, EntityAction, Plan, PendingUnasked;
    NotAskedBeforehand(s);
    OrchestrateNodes(s, e, now);
    EntityActionLeavesNone(s, Plan(s), |Plan(s)|, now);
  }

  lemma ApplyLeavesNone(s: CaseState, step: Step, t: CaseState)
    requires Inv(s, None) && Apply(s, step) == Success(t) && NoneReady(s)
    ensures NoneReady(t)
  {
    hide Inv, RequestApproval, ResumeAfterDocuments, Orchestrate, Approve, Reject, RequestDocuments, Retry, Poll,
         ReportMilestone, Verify, Watchdog, Escalate, Resolve, Take, IsOutput, HasPending;
    InvRows(s, None);
    ApplyTo(s, step);
    if Ready in TargetsOf(s, step) {
      match step {
        case FilingPrepared(i, now) => RequestApprovalLeavesNone(s, i, now);
        case ResidentUploads(d, now) =>
          var stored := Emit(s.(docs := s.docs[d := Document(Uploaded, Resident)]), DocumentUploaded(d));
          ResumeLeavesNone(stored, |s.nodes|, now);
        case OfficerSetsStatus(d, status, officer, now) =>
          if status == NotApplicable || status == Uploaded || status == Verified {
            ResumeLeavesNone(s.(docs := s.docs[d := s.docs[d].(status := status)]), |s.nodes|, now);
          }
        case ConsumerRuns(c, e, input) =>
          if (c, e) !in s.receipts { OrchestrateLeavesNone(s, e, input.now); }
        case _ =>
      }
    }
  }

  // --- runs ---

  ghost predicate OnTrack(s: CaseState) {
    AllOnTheirWay(s) && ToldAreFiled(s) && NoneReady(s)
  }

  lemma AdvanceOnTrack(w: World, step: Step)
    requires Safe(w) && RowsLinked(w.db) && OnTrack(w.db)
    ensures OnTrack(Advance(w, step).db)
  {
    hide Inv, OrderedBut, HeldAreProduced, ShownAreFiled, Apply, Evolves, AllOnTheirWay, ToldAreFiled, NoneReady;
    AdvanceIs(w, step);
    if Apply(w.db, step).Success? {
      ApplyOnItsWay(w.db, step, Apply(w.db, step).value);
      ApplyLeavesNone(w.db, step, Apply(w.db, step).value);
    }
  }

  lemma {:induction false} ReachedOnTrack(t: Template, steps: seq<Step>)
    requires TemplateOk(t)
    ensures OnTrack(Reached(t, steps).db)
  {
    hide Inv, OrderedBut, HeldAreProduced, ShownAreFiled, OnTrack, Evolves, TemplateOk;
    if steps == [] {
      OpenedOnTrack(t);
    } else {
      var before := Reached(t, steps[..|steps| - 1]);
      ReachedOnTrack(t, steps[..|steps| - 1]);
      InvRows(before.db, None);
      AdvanceOnTrack(before, steps[|steps| - 1]);
    }
  }

  lemma OpenedOnTrack(t: Template)
    requires TemplateOk(t)
    ensures OnTrack(Opened(t))
  {
  }

  // --- main results ---

  /** A SUBMITTING node always has a release of one of its filings waiting for the submitter. */
  lemma SubmittingIsOnItsWay(t: Template, w: World, i: nat)
    requires Reachable(t, w) && i < |w.db.nodes| && w.db.nodes[i].state == Submitting
    ensures exists e: nat :: OnItsWay(w.db, i, e)
  {
    hide Reachable, Inv, Evolves, TemplateOk, ToldAreFiled, NoneReady;
    ReachableSafe(t, w);
    var steps :| w == Reached(t, steps);
    ReachedOnTrack(t, steps);
  }

  /** The submitter cannot fail on it, whatever the authority answers: its node leaves SUBMITTING. */
  lemma SubmitterMovesOn(s: CaseState, i: nat, e: nat, input: FullInput)
    requires RowsLinked(s) && i < |s.nodes| && s.nodes[i].state == Submitting && OnItsWay(s, i, e)
    ensures
      var r := Deliver(s, EntitySubmitter, e, input);
      r.Success? && |r.value.nodes| == |s.nodes| && r.value.nodes[i].state in {Submitted, Blocked, Stalled}
  {
    hide RecordReply, SubmissionOf;
    var q := s.outbox[e].event.request;
    var (reply, calls) := SubmissionOf(s, q, input.replies);
    OutcomeIsRecordedIff(s, q, input.replies, input.now);
    Recorded(s, q, reply, calls, input.now);
  }

  /** No node rests in READY: it is passed through within one unit of work. */
  lemma NoneRestsInReady(t: Template, w: World, i: nat)
    requires Reachable(t, w) && i < |w.db.nodes|
    ensures w.db.nodes[i].state != Ready
  {
    hide Reachable, Inv, Evolves, TemplateOk, ToldAreFiled, AllOnTheirWay;
    ReachableSafe(t, w);
    var steps :| w == Reached(t, steps);
    ReachedOnTrack(t, steps);
  }

  /** The states in which a step waits for an officer, the parent or resident, or an authority. */
  const OUTSIDE: set<NodeState> :=
    {WaitingForHuman, Blocked, Stalled, Rejected, WaitingForParent, NodeState.DocumentMissing, Submitted, Processing}

  /**
   * Once the orchestrator has run on every trigger and the submitter on every release, an incomplete case has a step
   * that waits for an officer, the parent or resident, or an authority, and not for LifeLoop itself. (A wedged step
   * waits in vain: WedgeIsForever.)
   */
  lemma QuietCaseWaitsForSomeone(t: Template, w: World)
    requires Reachable(t, w) && Acyclic(t.edges) && w.db.status != AllComplete
    requires (forall e: nat :: !Waiting(w.db, e)) && (forall e: nat :: !ToSubmit(w.db, e))
    ensures exists i :: 0 <= i < |w.db.nodes| && w.db.nodes[i].state in OUTSIDE
  {
    hide Reachable, Waiting, Acyclic;
    QuietCaseHasStarted(t, w);
    var i: nat :| i < |w.db.nodes| && w.db.nodes[i].state != Pending && !Done(w.db.nodes[i].state);
    NoneRestsInReady(t, w, i);
    if w.db.nodes[i].state == Submitting { SubmittingIsOnItsWay(t, w, i); }
  }
}
