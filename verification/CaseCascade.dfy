/**
 * The event cascade ends: without officers, authorities, parents or timers, every committed delivery uses up some of
 * an integer potential, the work still owed to undelivered events plus a charge per node that can still be unlocked.
 */
module CaseCascade {
  import opened Wrappers
  import opened StateMachine
  import opened LifeEventGraph
  import opened CaseModel
  import opened CaseServices
  import opened CaseEvolution
  import opened CaseInvariants
  import opened CaseSteps
  import opened CaseRuns
  import opened CaseTargets

  // --- the potential ---

  const REFRESH_COST := 5
  const TRANSITION_COST := 28
  const ESCALATION_COST := 14
  const CALLBACK_COST := 2
  const PENDING_CHARGE := 57

  /** What a delivery may cause, itself included: more than all the work of the events its handler can write. */
  function Weight(c: Consumer, event: Event): nat {
    match c
    case Orchestrator =>
      if event.NodeMoved? then 22 else if event.HumanEscalationRequired? then 8 else if event.CaseCompleted? then 3
      else 6
    case GraphProjection => 1
    case CallbackScheduler => CALLBACK_COST
    case EntitySubmitter => TRANSITION_COST + 1
    case EntityStatusApplier => TRANSITION_COST + 1
    case Notifier => 1
  }

  /** What consumer c still owes to outbox event e. */
  function Owed(c: Consumer, event: Event, e: nat, receipts: set<(Consumer, nat)>): nat {
    if Registered(c, event) && (c, e) !in receipts then Weight(c, event) else 0
  }

  function OwedByAll(event: Event, e: nat, receipts: set<(Consumer, nat)>): nat {
    Owed(Orchestrator, event, e, receipts) + Owed(GraphProjection, event, e, receipts)
    + Owed(CallbackScheduler, event, e, receipts) + Owed(EntitySubmitter, event, e, receipts)
    + Owed(EntityStatusApplier, event, e, receipts) + Owed(Notifier, event, e, receipts)
  }

  function Work(outbox: seq<OutboxRow>, receipts: set<(Consumer, nat)>): nat {
    if outbox == [] then 0
    else Work(outbox[..|outbox| - 1], receipts) + OwedByAll(outbox[|outbox| - 1].event, |outbox| - 1, receipts)
  }

  function CountPending(nodes: seq<Node>): nat {
    if nodes == [] then 0
    else CountPending(nodes[..|nodes| - 1]) + (if nodes[|nodes| - 1].state == Pending then 1 else 0)
  }

  function Potential(s: CaseState): nat {
    Work(s.outbox, s.receipts) + PENDING_CHARGE * CountPending(s.nodes)
  }

  /** The potential a case would have had it received nothing yet: handlers are accounted for in these terms. */
  function Gross(s: CaseState): nat {
    Work(s.outbox, {}) + PENDING_CHARGE * CountPending(s.nodes)
  }

  // --- accounting ---

  lemma WorkAppend(outbox: seq<OutboxRow>, row: OutboxRow, receipts: set<(Consumer, nat)>)
    ensures Work(outbox + [row], receipts) == Work(outbox, receipts) + OwedByAll(row.event, |outbox|, receipts)
  {
    assert (outbox + [row])[..|outbox|] == outbox;
  }

  /** Receipts of earlier events do not reduce the work of later ones. */
  lemma {:induction false} NewWork(before: seq<OutboxRow>, after: seq<OutboxRow>, receipts: set<(Consumer, nat)>)
    requires before <= after && forall c, e :: (c, e) in receipts ==> e < |before|
    ensures Work(after, receipts) - Work(before, receipts) == Work(after, {}) - Work(before, {})
  {
    if |after| == |before| {
      assert after == before;
    } else {
      NewWork(before, after[..|after| - 1], receipts);
      var last := |after| - 1;
      assert forall c :: (c, last) !in receipts;
    }
  }

  /** A receipt pays for its delivery. */
  lemma {:induction false} ReceiptPays(outbox: seq<OutboxRow>, receipts: set<(Consumer, nat)>, c: Consumer, e: nat)
    requires e < |outbox| && Registered(c, outbox[e].event) && (c, e) !in receipts
    ensures Work(outbox, receipts + {(c, e)}) == Work(outbox, receipts) - Weight(c, outbox[e].event)
  {
    hide OwedByAll, Weight, Registered;
    var last := |outbox| - 1;
    OwedAfter(outbox[last].event, last, receipts, c, e);
    if e == last {
      LaterReceipt(outbox[..last], receipts, c, e);
    } else {
      ReceiptPays(outbox[..last], receipts, c, e);
    }
  }

  lemma OwedAfter(event: Event, f: nat, receipts: set<(Consumer, nat)>, c: Consumer, e: nat)
    requires e == f ==> Registered(c, event) && (c, e) !in receipts
    ensures OwedByAll(event, f, receipts + {(c, e)}) + (if e == f then Weight(c, event) else 0)
            == OwedByAll(event, f, receipts)
  {
    hide Weight, Registered;
  }

  lemma {:induction false} LaterReceipt(outbox: seq<OutboxRow>, receipts: set<(Consumer, nat)>, c: Consumer, e: nat)
    requires |outbox| <= e
    ensures Work(outbox, receipts + {(c, e)}) == Work(outbox, receipts)
  {
    if outbox != [] { LaterReceipt(outbox[..|outbox| - 1], receipts, c, e); }
  }

  lemma {:induction false} CountPendingUpdate(nodes: seq<Node>, i: nat, n: Node)
    requires i < |nodes|
    ensures CountPending(nodes[i := n]) + (if nodes[i].state == Pending then 1 else 0)
            == CountPending(nodes) + (if n.state == Pending then 1 else 0)
  {
    var last := |nodes| - 1;
    if i == last {
      assert nodes[i := n][..last] == nodes[..last];
    } else {
      assert nodes[i := n][..last] == nodes[..last][i := n];
      CountPendingUpdate(nodes[..last], i, n);
    }
  }

  // --- what the parts of the services cost ---

  lemma EmitCosts(s: CaseState, event: Event)
    ensures Gross(Emit(s, event)) == Gross(s) + OwedByAll(event, |s.outbox|, {})
  {
    WorkAppend(s.outbox, OutboxRow(event, None), {});
  }

  lemma EmitOnceCosts(s: CaseState, event: Event, key: Option<IdempotencyKey>)
    ensures Gross(EmitOnce(s, event, key)) <= Gross(s) + OwedByAll(event, |s.outbox|, {})
  {
    WorkAppend(s.outbox, OutboxRow(event, key), {});
  }

  lemma RefreshCosts(s: CaseState)
    ensures Gross(Refresh(s)) <= Gross(s) + REFRESH_COST
  {
    hide DerivedStatus, KeyUsed, Work, CountPending;
    var status := DerivedStatus(s);
    EmitCosts(s.(status := status), CaseStatusChanged(s.status, status));
    EmitOnceCosts(Emit(s.(status := status), CaseStatusChanged(s.status, status)), CaseCompleted, Some(CaseCompletedKey));
  }

  /** A transition costs its event and a refresh; leaving PENDING pays for two of them. */
  lemma TransitionCosts(s: CaseState, i: nat, target: NodeState, reason: Option<string>, stall: StallKind, now: Time)
    requires i < |s.nodes| && Transition(s, i, target, reason, stall, now).Success?
    requires target == Pending ==> s.nodes[i].state == Pending
    ensures
      var t := Transition(s, i, target, reason, stall, now).value;
      Gross(t) <= Gross(s) + TRANSITION_COST
                  - (if s.nodes[i].state == Pending && target != Pending then PENDING_CHARGE else 0)
  {
    hide Refresh, Stamp, Work, CountPending;
    var n := Stamp(s.nodes[i], target, reason, now);
    assert n.state == target by { StampState(s.nodes[i], target, reason, now); }
    var stamped := s.(nodes := s.nodes[i := n]);
    var announcement := NodeMoved(i, s.nodes[i].state, target, stall);
    CountPendingUpdate(s.nodes, i, n);
    EmitCosts(stamped, announcement);
    RefreshCosts(Emit(stamped, announcement));
  }

  lemma EscalateCosts(s: CaseState, reason: EscalationReason, node: Option<nat>, warm: bool)
    ensures Gross(Escalate(s, reason, node, warm)) <= Gross(s) + ESCALATION_COST
  {
    hide Refresh, Work, CountPending, OpenFor;
    var raised := s.(escalations := s.escalations + [Escalation(reason, node, Open)]);
    EmitCosts(raised, HumanEscalationRequired(|s.escalations|, warm));
    RefreshCosts(Emit(raised, HumanEscalationRequired(|s.escalations|, warm)));
  }

  lemma RequestApprovalCosts(s: CaseState, i: nat, now: Time)
    requires i < |s.nodes| && RequestApproval(s, i, now).Success? && s.nodes[i].state == Ready
    ensures Gross(RequestApproval(s, i, now).value) <= Gross(s) + TRANSITION_COST
  {
    hide Transition, Work, CountPending;
    if !HasPending(s, i) {
      var row := s.nodes[i].(approvalState := Some(Undecided));
      var asked := s.(approvals := s.approvals + [Approval(i, Undecided, None)], nodes := s.nodes[i := row]);
      CountPendingUpdate(s.nodes, i, row);
      TransitionCosts(asked, i, WaitingForHuman, None, NoStall, now);
      EmitCosts(Transition(asked, i, WaitingForHuman, None, NoStall, now).value, ApprovalRequested(|s.approvals|));
    }
  }

  /** Unlocking a node is paid for by its charge. */
  lemma ActCosts(s: CaseState, i: nat, action: Action, now: Time)
    requires i < |s.nodes| && Act(s, i, action, now).Success?
    ensures Gross(Act(s, i, action, now).value) <= Gross(s)
  {
    hide Transition, RequestApproval, MissingForNode, Titles, Gross;
    if s.nodes[i].state == Pending {
      match action {
        case AskParent => TransitionCosts(s, i, WaitingForParent, None, NoStall, now);
        case ReportMissing =>
          TransitionCosts(s, i, NodeState.DocumentMissing, Some(Titles(MissingForNode(s, i))), NoStall, now);
        case PrepareForOfficer =>
          TransitionCosts(s, i, Ready, None, NoStall, now);
          TransitionEvolves(s, i, Ready, None, NoStall, now);
          RequestApprovalCosts(Transition(s, i, Ready, None, NoStall, now).value, i, now);
      }
    }
  }

  lemma {:induction false} EntityActionCosts(s: CaseState, plan: seq<(nat, Action)>, k: nat, now: Time)
    requires k <= |plan| && (forall p :: p in plan ==> p.0 < |s.nodes|) && EntityAction(s, plan, k, now).Success?
    ensures Gross(EntityAction(s, plan, k, now).value) <= Gross(s)
  {
    hide Act, Gross;
    if k > 0 {
      EntityActionCosts(s, plan, k - 1, now);
      assert plan[k - 1] in plan;
      ActCosts(EntityAction(s, plan, k - 1, now).value, plan[k - 1].0, plan[k - 1].1, now);
    }
  }

  /** What the steps the orchestrator routes to after a verdict may cost. */
  function VerdictCost(v: Verdict): nat {
    (if v.escalate.Some? then ESCALATION_COST else 0) + (if v.callback.Some? then CALLBACK_COST else 0)
    + (if v.complete then REFRESH_COST else 0)
  }

  lemma VerdictIsPaidFor(s: CaseState, trigger: Event)
    requires Trigger(trigger)
    ensures VerdictCost(Evaluate(s, trigger)) < Weight(Orchestrator, trigger)
  {
  }

  lemma OrchestrateCosts(s: CaseState, e: nat, now: Time)
    requires RowsLinked(s) && e < |s.outbox| && Trigger(s.outbox[e].event) && Orchestrate(s, e, now).Success?
    ensures Gross(Orchestrate(s, e, now).value) < Gross(s) + Weight(Orchestrator, s.outbox[e].event)
  {
    hide EntityAction, Plan, Evaluate, Escalate, EmitOnce, Refresh, Gross, Weight;
    var plan := Plan(s);
    EntityActionCosts(s, plan, |plan|, now);
    var acted := EntityAction(s, plan, |plan|, now).value;
    var trigger := s.outbox[e].event;
    var verdict := Evaluate(acted, trigger);
    var subject := SubjectOf(trigger);
    VerdictIsPaidFor(acted, trigger);
    var escalated := acted;
    if verdict.escalate.Some? {
      escalated := Escalate(acted, verdict.escalate.value, subject, false);
      EscalateCosts(acted, verdict.escalate.value, subject, false);
    }
    var called := escalated;
    if verdict.callback.Some? {
      called := EmitOnce(escalated, CallbackRequired(verdict.callback.value, subject), Some(CallbackKey(e)));
      CallbackCosts(escalated, verdict.callback.value, subject, e);
    }
    RefreshCosts(called);
  }

  lemma CallbackCosts(s: CaseState, reason: CallbackReason, subject: Option<nat>, e: nat)
    ensures Gross(EmitOnce(s, CallbackRequired(reason, subject), Some(CallbackKey(e)))) <= Gross(s) + CALLBACK_COST
  {
    EmitOnceCosts(s, CallbackRequired(reason, subject), Some(CallbackKey(e)));
  }

  lemma RecordCallbackCosts(s: CaseState, outcome: CallbackOutcome)
    ensures Gross(RecordCallback(s, outcome)) < Gross(s) + CALLBACK_COST
  {
    hide Work, CountPending;
    match outcome {
      case Scheduled => EmitCosts(s, CallbackScheduled);
      case Coalesced =>
      case SentBySms =>
        EmitCosts(s, NotificationRequested);
        EmitCosts(Emit(s, NotificationRequested), CallbackBlocked);
      case NoConsent => EmitCosts(s, CallbackBlocked);
    }
  }

  lemma RecordReplyCosts(s: CaseState, r: nat, reply: AdapterReply, calls: nat, now: Time)
    requires r < |s.requests| && s.requests[r].node < |s.nodes| && RecordReply(s, r, reply, calls, now).Success?
    ensures Gross(RecordReply(s, r, reply, calls, now).value) <= Gross(s) + TRANSITION_COST
  {
    hide Transition, Work, CountPending;
    var i := s.requests[r].node;
    var tried := s.requests[r].(attempts := s.requests[r].attempts + calls);
    match reply {
      case NotAllowed =>
        TransitionCosts(s.(requests := s.requests[r := tried.(state := Refused)]), i, Blocked,
                        Some("Integration refused the request"), NoStall, now);
      case Accepted =>
        var filed := tried.(state := CaseModel.Reported(SubmittedStatus), externalRef := Some(tried.key));
        TransitionCosts(s.(requests := s.requests[r := filed],
                           statuses := s.statuses + [EntityStatus(r, SubmittedStatus)]),
                        i, Submitted, None, NoStall, now);
      case _ =>
        TransitionCosts(s.(requests := s.requests[r := tried.(state := CaseModel.Reported(StalledStatus))]), i,
                        Stalled, Some("Unavailable - not cleared yet"), DependencyDown, now);
    }
  }

  lemma TryCosts(s: CaseState, i: nat, target: NodeState, reason: Option<string>, stall: StallKind, now: Time)
    requires i < |s.nodes| && target != Pending
    ensures Gross(TryTransition(s, i, target, reason, stall, now).0) <= Gross(s) + TRANSITION_COST
  {
    hide Transition, Gross;
    if Transition(s, i, target, reason, stall, now).Success? { TransitionCosts(s, i, target, reason, stall, now); }
  }

  lemma ApplyToNodeCosts(s: CaseState, i: nat, status: AuthorityStatus, detail: string, missing: seq<DocType>, now: Time)
    requires i < |s.nodes|
    ensures Gross(ApplyToNode(s, i, status, detail, missing, now)) <= Gross(s) + TRANSITION_COST
  {
    hide TryTransition, MarkMissing, Marked, Titles, RegisterOutputs, Work, CountPending;
    match status {
      case InProcess => TryCosts(s, i, Processing, None, NoStall, now);
      case ClearedStatus => TryCosts(s, i, SuccessTarget(s.nodes[i]), None, NoStall, now);
      case CompletedStatus => TryCosts(s, i, SuccessTarget(s.nodes[i]), None, NoStall, now);
      case DocumentMissingStatus =>
        var types := RequestedDocuments(s.nodes[i], missing);
        TryCosts(s.(docs := MarkMissing(s.docs, s.catalogue, types)), i, NodeState.DocumentMissing,
                 Some(Titles(Marked(s.docs, s.catalogue, types))), NoStall, now);
      case BlockedStatus => TryCosts(s, i, Blocked, Some(detail), NoStall, now);
      case StalledStatus =>
        TryCosts(s, i, Stalled, Some(if detail == "" then "Not cleared yet" else detail), SlaKind, now);
      case RejectedStatus => TryCosts(s, i, Rejected, Some(detail), NoStall, now);
      case WaitingForParentStatus => TryCosts(s, i, WaitingForParent, None, NoStall, now);
      case _ =>
    }
  }

  lemma HandleCosts(s: CaseState, c: Consumer, e: nat, input: FullInput)
    requires RowsLinked(s) && e < |s.outbox| && Registered(c, s.outbox[e].event) && Handle(s, c, e, input).Success?
    ensures Gross(Handle(s, c, e, input).value) < Gross(s) + Weight(c, s.outbox[e].event)
  {
    hide Orchestrate, RecordReply, ApplyToNode, FinalReply, RecordCallback, Work, CountPending;
    var event := s.outbox[e].event;
    match c {
      case Orchestrator => OrchestrateCosts(s, e, input.now);
      case CallbackScheduler => RecordCallbackCosts(s, input.outcome);
      case EntitySubmitter =>
        if event.request < |s.requests| && s.requests[event.request].state == BeingSubmitted {
          var (reply, calls) := SubmissionOf(s, event.request, input.replies);
          RecordReplyCosts(s, event.request, reply, calls, input.now);
        }
      case EntityStatusApplier =>
        if event.request < |s.requests| {
          var q := s.requests[event.request];
          var noted := s.(requests := s.requests[event.request := q.(state := CaseModel.Reported(event.status))]);
          ApplyToNodeCosts(noted, q.node, event.status, event.detail, event.missing, input.now);
        }
      case _ =>
    }
  }

  // --- main results ---

  /** Every committed delivery of an event a consumer had not seen lowers the potential. */
  lemma DeliveryLowersPotential(s: CaseState, c: Consumer, e: nat, input: FullInput)
    requires Inv(s, None) && Deliver(s, c, e, input).Success? && (c, e) !in s.receipts
    ensures Potential(Deliver(s, c, e, input).value) < Potential(s)
  {
    hide Inv, Handle, Work, CountPending, Weight;
    InvRows(s, None);
    InvReceipts(s);
    var handled := Handle(s, c, e, input).value;
    HandleCosts(s, c, e, input);
    HandleKeeps(s, c, e, input);
    NewWork(s.outbox, handled.outbox, s.receipts);
    ReceiptPays(handled.outbox, s.receipts, c, e);
  }

  lemma InvReceipts(s: CaseState)
    requires Inv(s, None)
    ensures forall c, e :: (c, e) in s.receipts ==> e < |s.outbox|
  {
  }

  lemma HandleKeeps(s: CaseState, c: Consumer, e: nat, input: FullInput)
    requires Inv(s, None) && e < |s.outbox| && Registered(c, s.outbox[e].event) && Handle(s, c, e, input).Success?
    requires RowsLinked(s)
    ensures s.outbox <= Handle(s, c, e, input).value.outbox && Handle(s, c, e, input).value.receipts == s.receipts
  {
    hide Inv, Handle, TargetsOf, Orderly, DocsJustified;
    var t := CaseConsumerSafety.HandleSafe(s, c, e, input);
    HandleTo(s, c, e, input);
  }

  /**
   * Left to itself, a case writes no more receipts than it has potential: the cascade of its events ends. A receipt is
   * written by a consumer's first committed delivery of an event.
   */
  lemma CascadeEnds(t: Template, w: World, steps: seq<Step>, r: World)
    requires Reachable(t, w) && Runs(w, steps, r)
    requires forall step :: step in steps ==> step.ConsumerRuns? || step.Crashes?
    ensures |r.db.receipts| + Potential(r.db) <= |w.db.receipts| + Potential(w.db)
  {
    hide Reachable, Safe, Evolves, Runs, Potential, Run;
    ReachableSafe(t, w);
    RunsSafe(w, steps, r);
    RunLowers(w, steps);
  }

  lemma {:induction false} RunLowers(w: World, steps: seq<Step>)
    requires Safe(w) && forall step :: step in steps ==> step.ConsumerRuns? || step.Crashes?
    ensures |Run(w, steps).db.receipts| + Potential(Run(w, steps).db) <= |w.db.receipts| + Potential(w.db)
  {
    hide Safe, Evolves, Potential, Advance;
    if steps != [] {
      var front, last := steps[..|steps| - 1], steps[|steps| - 1];
      assert last in steps && forall step :: step in front ==> step in steps;
      RunLowers(w, front);
      AdvanceLowers(Run(w, front), last);
    }
  }

  lemma AdvanceLowers(w: World, step: Step)
    requires Safe(w) && (step.ConsumerRuns? || step.Crashes?)
    ensures
      var r := Advance(w, step);
      |r.db.receipts| + Potential(r.db) <= |w.db.receipts| + Potential(w.db)
  {
    hide Inv, OrderedBut, HeldAreProduced, ShownAreFiled, Potential, Handle, TargetsOf, MovesOnlyTo, Evolves;
    AdvanceIs(w, step);
    if step.ConsumerRuns? && Apply(w.db, step).Success? && (step.consumer, step.event) !in w.db.receipts {
      DeliveryLowersPotential(w.db, step.consumer, step.event, step.input);
      ApplyTo(w.db, step);
    }
  }
}
