/** What one run of the orchestrator does, step by step and row by row: what it starts, whom it calls, what it escalates. */
module CasePolicy {
  import opened Wrappers
  import opened StateMachine
  import opened LifeEventGraph
  import opened CaseModel
  import opened CaseServices
  import opened CaseEvolution
  import opened CaseInvariants
  import opened CaseSteps
  import opened CaseConsumerSafety
  import opened CaseRuns
  import opened CaseTargets
  import opened CaseOutcomes
  import opened CaseLiveness
  import opened CaseSubmission

  // --- the calling policy ---

  /** The event calls for a callback with this reason and subject; nodes are the steps after the run. */
  predicate CallsFor(nodes: seq<Node>, consulate: Option<nat>, trigger: Event, reason: CallbackReason, about: Option<nat>) {
    match trigger
    case NodeMoved(i, _, to, stall) =>
      i < |nodes| && about == Some(i)
      && match reason {
           case CallCleared => to == Cleared && nodes[i].state == Cleared && nodes[i].spec.kind == EntityFiling
           case CallCompleted => to == Completed && nodes[i].state == Completed && nodes[i].spec.kind == EntityFiling
           case CallBlocked => to == Blocked || to == NodeState.Rejected
           case CallDocumentMissing => to == NodeState.DocumentMissing
           case CallStalled => to == Stalled && stall == SlaKind
           case CallParentInput =>
             to == WaitingForParent && nodes[i].state == WaitingForParent && consulate == Some(i)
           case CallBiometrics =>
             to == WaitingForParent && nodes[i].state == WaitingForParent && consulate != Some(i)
           case _ => false
         }
    case HumanEscalationRequired(_, warm) => !warm && reason == CallEscalation && about == None
    case CaseCompleted => reason == CallCaseComplete && about == None
    case _ => false
  }

  /** The event is a step's being past its SLA, or refused by its authority. */
  predicate Escalates(nodes: seq<Node>, trigger: Event, cause: EscalationReason, about: Option<nat>) {
    trigger.NodeMoved? && trigger.node < |nodes| && about == Some(trigger.node)
    && ((trigger.to == Stalled && trigger.stall == SlaKind && cause == SlaStall)
        || (trigger.to == NodeState.Rejected && cause == EntityRejection))
  }

  /** One of the rows from place n on asks, for event e, for this callback. */
  ghost predicate AsksFor(outbox: seq<OutboxRow>, n: nat, e: nat, reason: CallbackReason, about: Option<nat>) {
    exists f :: n <= f < |outbox| && outbox[f] == OutboxRow(CallbackRequired(reason, about), Some(CallbackKey(e)))
  }

  /** No two of the rows from place n on ask for a callback, and one that does is for event e. */
  ghost predicate AsksAtMostOnce(outbox: seq<OutboxRow>, n: nat, e: nat) {
    && (forall f :: 0 <= n <= f < |outbox| && outbox[f].event.CallbackRequired? ==> outbox[f].key == Some(CallbackKey(e)))
    && (forall f, g :: 0 <= n <= f < g < |outbox| ==>
          !(outbox[f].event.CallbackRequired? && outbox[g].event.CallbackRequired?))
  }

  lemma Called(before: seq<OutboxRow>, middle: seq<OutboxRow>, after: seq<OutboxRow>, e: nat,
               asked: Option<Event>)
    requires CallsForNobody(before, middle) && (asked.Some? ==> asked.value.CallbackRequired?)
    requires
      CallsForNobody(if asked.Some? then middle + [OutboxRow(asked.value, Some(CallbackKey(e)))] else middle, after)
    ensures AsksAtMostOnce(after, |before|, e)
    ensures forall reason, about ::
              AsksFor(after, |before|, e, reason, about) <==> asked == Some(CallbackRequired(reason, about))
  {
    if asked.Some? { assert after[|middle|] == OutboxRow(asked.value, Some(CallbackKey(e))); }
  }

  lemma StillUnused(before: seq<OutboxRow>, after: seq<OutboxRow>, e: nat)
    requires CallsForNobody(before, after)
    ensures KeyUsed(after, Some(CallbackKey(e))) <==> KeyUsed(before, Some(CallbackKey(e)))
  {
    if KeyUsed(before, Some(CallbackKey(e))) {
      var f :| 0 <= f < |before| && before[f].key == Some(CallbackKey(e));
      assert after[f].key == Some(CallbackKey(e));
    }
  }

  lemma RefreshCallsNobody(s: CaseState)
    ensures CallsForNobody(s.outbox, Refresh(s).outbox)
    ensures Refresh(s).nodes == s.nodes && Refresh(s).escalations == s.escalations && Refresh(s).consulate == s.consulate
  {
  }

  /** The verdict on an event, in the words of the policy. */
  lemma VerdictIsPolicy(s: CaseState, trigger: Event, reason: CallbackReason, about: Option<nat>)
    ensures CallsFor(s.nodes, s.consulate, trigger, reason, about) <==>
              Evaluate(s, trigger).callback == Some(reason) && about == SubjectOf(trigger)
  {
  }

  lemma VerdictEscalates(s: CaseState, trigger: Event, cause: EscalationReason, about: Option<nat>)
    ensures Escalates(s.nodes, trigger, cause, about) <==>
              Evaluate(s, trigger).escalate == Some(cause) && about == SubjectOf(trigger)
  {
  }

  /**
   * The calling policy, to the letter: unless the event has been answered before, a run asks for a callback exactly when
   * the event calls for one, with exactly that reason and subject, and only once; else for none.
   */
  lemma OrchestratorCalls(s: CaseState, e: nat, now: Time)
    requires RowsLinked(s) && e < |s.outbox|
    ensures Orchestrate(s, e, now).Success?
    ensures
      var t, n := Orchestrate(s, e, now).value, |s.outbox|;
      && AsksAtMostOnce(t.outbox, n, e)
      && forall reason, about ::
           (AsksFor(t.outbox, n, e, reason, about) <==>
              !KeyUsed(s.outbox, Some(CallbackKey(e)))
              && CallsFor(t.nodes, t.consulate, s.outbox[e].event, reason, about))
  {
    hide EntityAction, Plan, Evaluate, Escalate, Refresh, OpenFor, KeyUsed, CallsForNobody, CallsFor, AsksAtMostOnce,
         AsksFor, SubjectOf;
    OrchestratorNeverRaises(s, e, now);
    var plan := Plan(s);
    EntityActionClears(s, plan, |plan|, now);
    EntityActionTo(s, plan, |plan|, now, STARTS);
    var acted := EntityAction(s, plan, |plan|, now).value;
    var trigger := s.outbox[e].event;
    var verdict := Evaluate(acted, trigger);
    var escalated := if verdict.escalate.Some?
                     then Escalate(acted, verdict.escalate.value, SubjectOf(trigger), false) else acted;
    if verdict.escalate.Some? { EscalateNodes(acted, verdict.escalate.value, SubjectOf(trigger), false); }
    CallsForNobodyTransitive(s.outbox, acted.outbox, escalated.outbox);
    StillUnused(s.outbox, escalated.outbox, e);
    var asked := if verdict.callback.Some? && !KeyUsed(s.outbox, Some(CallbackKey(e)))
                 then Some(CallbackRequired(verdict.callback.value, SubjectOf(trigger))) else None;
    var called := if asked.Some?
                  then escalated.(outbox := escalated.outbox + [OutboxRow(asked.value, Some(CallbackKey(e)))])
                  else escalated;
    var t := Orchestrate(s, e, now).value;
    assert t == called || t == Refresh(called);
    RefreshCallsNobody(called);
    CallsForNobodyTransitive(called.outbox, called.outbox, t.outbox);
    Called(s.outbox, escalated.outbox, t.outbox, e, asked);
    forall reason, about
      ensures CallsFor(t.nodes, t.consulate, trigger, reason, about) <==>
                verdict.callback == Some(reason) && about == SubjectOf(trigger)
    {
      VerdictIsPolicy(acted, trigger, reason, about);
    }
  }

  lemma CallsForNobodyTransitive(before: seq<OutboxRow>, middle: seq<OutboxRow>, after: seq<OutboxRow>)
    requires CallsForNobody(before, middle) || before == middle
    requires CallsForNobody(middle, after) || middle == after
    ensures CallsForNobody(before, after)
  {
  }

  // --- escalations ---

  /** A run opens an escalation exactly for a step past its SLA or refused by its authority, unless one is open for it. */
  lemma OrchestratorEscalates(s: CaseState, e: nat, now: Time)
    requires RowsLinked(s) && e < |s.outbox|
    ensures Orchestrate(s, e, now).Success?
    ensures
      var t := Orchestrate(s, e, now).value;
      && t == s.(nodes := t.nodes, status := t.status, approvals := t.approvals, escalations := t.escalations,
                 outbox := t.outbox)
      && (forall cause, about :: Escalates(s.nodes, s.outbox[e].event, cause, about) ==>
            OpenFor(t, cause, about)
            && t.escalations == if OpenFor(s, cause, about) then s.escalations
                                else s.escalations + [Escalation(cause, about, Open)])
      && ((forall cause, about :: !Escalates(s.nodes, s.outbox[e].event, cause, about)) ==>
            t.escalations == s.escalations)
  {
    hide EntityAction, Plan, Evaluate, Escalate, Refresh, OpenFor, EmitOnce, SubjectOf, Escalates;
    OrchestratorNeverRaises(s, e, now);
    var plan := Plan(s);
    EntityActionClears(s, plan, |plan|, now);
    EntityActionTo(s, plan, |plan|, now, STARTS);
    EntityActionFrame(s, plan, |plan|, now);
    var acted := EntityAction(s, plan, |plan|, now).value;
    var trigger := s.outbox[e].event;
    var verdict := Evaluate(acted, trigger);
    VerdictEscalation(acted, trigger);
    forall cause, about ensures Escalates(s.nodes, trigger, cause, about) <==> Escalates(acted.nodes, trigger, cause, about)
    {
      SameSubject(s.nodes, acted.nodes, trigger, cause, about);
    }
    if verdict.escalate.Some? { EscalateOutcome(acted, verdict.escalate.value, SubjectOf(trigger), false); }
    var escalated := if verdict.escalate.Some?
                     then Escalate(acted, verdict.escalate.value, SubjectOf(trigger), false) else acted;
    var t := Orchestrate(s, e, now).value;
    KeepsOpen(s, acted);
    AfterwardsOpen(escalated, t, verdict, trigger, e);
  }

  lemma AfterwardsOpen(escalated: CaseState, t: CaseState, verdict: Verdict, trigger: Event, e: nat)
    requires
      var called := if verdict.callback.Some?
                    then EmitOnce(escalated, CallbackRequired(verdict.callback.value, SubjectOf(trigger)),
                                  Some(CallbackKey(e)))
                    else escalated;
      t == called || t == Refresh(called)
    ensures t.escalations == escalated.escalations && t == escalated.(status := t.status, outbox := t.outbox)
    ensures forall cause, about :: OpenFor(t, cause, about) <==> OpenFor(escalated, cause, about)
  {
  }

  lemma KeepsOpen(s: CaseState, t: CaseState)
    requires t.escalations == s.escalations
    ensures forall cause, about :: OpenFor(t, cause, about) <==> OpenFor(s, cause, about)
  {
  }

  lemma VerdictEscalation(s: CaseState, trigger: Event)
    ensures forall cause, about ::
              Escalates(s.nodes, trigger, cause, about) <==>
                Evaluate(s, trigger).escalate == Some(cause) && about == SubjectOf(trigger)
  {
    hide Evaluate, Escalates;
    forall cause, about
      ensures Escalates(s.nodes, trigger, cause, about) <==>
                Evaluate(s, trigger).escalate == Some(cause) && about == SubjectOf(trigger)
    {
      VerdictEscalates(s, trigger, cause, about);
    }
  }

  lemma SameSubject(nodes: seq<Node>, after: seq<Node>, trigger: Event, cause: EscalationReason, about: Option<nat>)
    requires |after| == |nodes|
    ensures Escalates(nodes, trigger, cause, about) <==> Escalates(after, trigger, cause, about)
  {
  }

  lemma ActFrame(s: CaseState, i: nat, action: Action, now: Time)
    requires i < |s.nodes| && Act(s, i, action, now).Success?
    ensures
      var t := Act(s, i, action, now).value;
      t == s.(nodes := t.nodes, status := t.status, approvals := t.approvals, outbox := t.outbox)
  {
    hide Transition, RequestApproval, MissingForNode, Titles, Tells;
    if s.nodes[i].state == Pending {
      match action {
        case AskParent => TransitionSucceeds(s, i, WaitingForParent, None, NoStall, now);
        case ReportMissing =>
          TransitionSucceeds(s, i, NodeState.DocumentMissing, Some(Titles(MissingForNode(s, i))), NoStall, now);
        case PrepareForOfficer =>
          TransitionSucceeds(s, i, Ready, None, NoStall, now);
          RequestApprovalOutcome(Transition(s, i, Ready, None, NoStall, now).value, i, now);
      }
    }
  }

  lemma {:induction false} EntityActionFrame(s: CaseState, plan: seq<(nat, Action)>, k: nat, now: Time)
    requires k <= |plan| && (forall p :: p in plan ==> p.0 < |s.nodes|) && EntityAction(s, plan, k, now).Success?
    ensures
      var t := EntityAction(s, plan, k, now).value;
      t == s.(nodes := t.nodes, status := t.status, approvals := t.approvals, outbox := t.outbox)
  {
    hide Act;
    if k > 0 {
      EntityActionFrame(s, plan, k - 1, now);
      assert plan[k - 1] in plan;
      ActFrame(EntityAction(s, plan, k - 1, now).value, plan[k - 1].0, plan[k - 1].1, now);
    }
  }

  // --- starting steps ---

  /** The state a step is started in: the parent's steps wait for the parent, filings for documents or an officer. */
  ghost predicate StartedAs(s: CaseState, i: nat, state: NodeState)
    requires i < |s.nodes|
  {
    if s.nodes[i].spec.kind == ParentReported then state == WaitingForParent
    else if exists d :: d in s.nodes[i].spec.requiredDocuments && d in s.docs && s.docs[d].status in {Missing, Expired}
    then state == NodeState.DocumentMissing
    else state == WaitingForHuman
  }

  /** A step that is PENDING with all its predecessors done. */
  ghost predicate Ripe(s: CaseState, i: nat) {
    i < |s.nodes| && s.nodes[i].state == Pending
    && forall e :: e in s.edges && e.1 == i && 0 <= e.0 < |s.nodes| ==> s.nodes[e.0].state in {Cleared, Completed}
  }

  lemma ActStarts(s: CaseState, i: nat, action: Action, now: Time)
    requires i < |s.nodes| && s.nodes[i].state == Pending && !HasPending(s, i) && Act(s, i, action, now).Success?
    ensures
      var t := Act(s, i, action, now).value;
      && |t.nodes| == |s.nodes| && OthersPending(s, t, i)
      && (forall j :: 0 <= j < |s.nodes| && j != i ==> t.nodes[j] == s.nodes[j])
      && t.nodes[i].state == match action {
                               case AskParent => WaitingForParent
                               case ReportMissing => NodeState.DocumentMissing
                               case PrepareForOfficer => WaitingForHuman
                             }
  {
    hide Transition, RequestApproval, MissingForNode, Titles;
    match action {
      case AskParent => TransitionSucceeds(s, i, WaitingForParent, None, NoStall, now);
      case ReportMissing =>
        TransitionSucceeds(s, i, NodeState.DocumentMissing, Some(Titles(MissingForNode(s, i))), NoStall, now);
      case PrepareForOfficer =>
        TransitionSucceeds(s, i, Ready, None, NoStall, now);
        var ready := Transition(s, i, Ready, None, NoStall, now).value;
        assert !HasPending(ready, i);
        RequestApprovalOutcome(ready, i, now);
        AppendedPending(ready, RequestApproval(ready, i, now).value, i);
    }
  }

  /** Every step of the plan done so far, and no other, has been started as its action says. */
  ghost predicate StartedBy(s: CaseState, t: CaseState, plan: seq<(nat, Action)>, k: nat)
    requires k <= |plan|
  {
    && |t.nodes| == |s.nodes| && t.docs == s.docs
    && (forall i: nat :: i < |s.nodes| && (forall j :: 0 <= j < k ==> plan[j].0 != i) ==>
          t.nodes[i] == s.nodes[i] && (HasPending(t, i) <==> HasPending(s, i)))
    && (forall j :: 0 <= j < k ==> plan[j].0 < |s.nodes| && t.nodes[plan[j].0].state != Pending
                                   && StartedAs(s, plan[j].0, t.nodes[plan[j].0].state))
  }

  lemma ActionStarts(s: CaseState, t: CaseState, i: nat, state: NodeState)
    requires i < |s.nodes| == |t.nodes| && t.docs == s.docs && t.nodes[i] == s.nodes[i]
    requires state == match ActionFor(s, i) {
                        case AskParent => WaitingForParent
                        case ReportMissing => NodeState.DocumentMissing
                        case PrepareForOfficer => WaitingForHuman
                      }
    ensures StartedAs(s, i, state)
  {
    MissingNothingIff(s, i);
  }

  lemma {:induction false} EntityActionStarts(s: CaseState, plan: seq<(nat, Action)>, k: nat, now: Time)
    requires k <= |plan| && PendingUnasked(s)
    requires forall p :: p in plan ==> p.0 < |s.nodes| && s.nodes[p.0].state == Pending && p.1 == ActionFor(s, p.0)
    ensures EntityAction(s, plan, k, now).Success? && StartedBy(s, EntityAction(s, plan, k, now).value, plan, k)
  {
    hide Act, StartedAs, ActionFor, HasPending;
    if k > 0 {
      EntityActionStarts(s, plan, k - 1, now);
      var before := EntityAction(s, plan, k - 1, now).value;
      var (i, action) := plan[k - 1];
      assert plan[k - 1] in plan;
      ActSucceeds(before, i, action, now);
      ActFrame(before, i, action, now);
      if before.nodes[i].state == Pending {
        ActStarts(before, i, action, now);
        ActionStarts(s, before, i, Act(before, i, action, now).value.nodes[i].state);
      } else {
        ActLeavesStarted(before, i, action, now);
      }
    }
  }

  lemma ActLeavesStarted(s: CaseState, i: nat, action: Action, now: Time)
    requires i < |s.nodes| && s.nodes[i].state != Pending
    ensures Act(s, i, action, now) == Success(s)
  {
  }

  /** Exactly the steps that are PENDING with all predecessors done are started, each as its kind and documents say. */
  lemma OrchestratorStarts(s: CaseState, e: nat, now: Time, i: nat)
    requires Inv(s, None) && RowsLinked(s) && e < |s.outbox| && i < |s.nodes|
    ensures Orchestrate(s, e, now).Success?
    ensures
      var t := Orchestrate(s, e, now).value;
      && |t.nodes| == |s.nodes|
      && if Ripe(s, i) then t.nodes[i].state != Pending && StartedAs(s, i, t.nodes[i].state) else t.nodes[i] == s.nodes[i]
  {
    hide Orchestrate, Inv, EntityAction, Plan, StartedAs, PendingUnasked;
    OrchestratorNeverRaises(s, e, now);
    NotAskedBeforehand(s);
    InvPastIntake(s);
    var plan := Plan(s);
    assert forall p :: p in plan ==> CanUnlock(s, p.0);
    EntityActionStarts(s, plan, |plan|, now);
    OrchestrateNodes(s, e, now);
    RipeCanUnlock(s, i);
    if Ripe(s, i) {
      var j :| 0 <= j < |plan| && plan[j] == (i, ActionFor(s, i));
    } else {
      forall j | 0 <= j < |plan| ensures plan[j].0 != i { assert plan[j] in plan; }
    }
  }

  lemma RipeCanUnlock(s: CaseState, i: nat)
    requires Within(|s.nodes|, s.edges)
    ensures Ripe(s, i) <==> CanUnlock(s, i)
  {
  }

  // --- completing ---

  /** The routed completing step only makes sure: whenever all steps are done, the case already reads COMPLETED. */
  lemma CompletingChangesNothing(s: CaseState)
    requires Inv(s, None) && AllDone(s.nodes)
    ensures Refresh(s) == s
  {
  }
}
