/** No case is silently stuck: while a node can be unlocked, an event is still waiting for the orchestrator. */
module CaseLiveness {
  import opened Wrappers
  import opened StateMachine
  import opened LifeEventGraph
  import opened CaseModel
  import opened CaseServices
  import opened CaseEvolution
  import opened CaseInvariants
  import opened CaseSteps
  import opened CaseConsumerSafety
  import opened CaseRuns
  import opened CaseTargets
  import opened CaseOutcomes

  /** Outbox event e starts an orchestrator run that has not happened yet. */
  predicate Waiting(s: CaseState, e: nat) {
    e < |s.outbox| && Trigger(s.outbox[e].event) && (Orchestrator, e) !in s.receipts
  }

  ghost predicate Live(s: CaseState)
    requires Within(|s.nodes|, s.edges)
  {
    (exists i: nat :: CanUnlock(s, i)) ==> exists e: nat :: Waiting(s, e)
  }

  // --- the orchestrator unlocks everything it can ---

  lemma RequestFromReadySucceeds(s: CaseState, i: nat, now: Time)
    requires i < |s.nodes| && s.nodes[i].state == Ready
    ensures RequestApproval(s, i, now).Success? && RequestApproval(s, i, now).value.nodes[i].state != Pending
  {
    hide Stamp, Refresh;
    if !HasPending(s, i) {
      var asked := s.(approvals := s.approvals + [Approval(i, Undecided, None)],
                      nodes := s.nodes[i := s.nodes[i].(approvalState := Some(Undecided))]);
      TransitionEvolves(asked, i, WaitingForHuman, None, NoStall, now);
    }
  }

  lemma ActSucceeds(s: CaseState, i: nat, action: Action, now: Time)
    requires i < |s.nodes|
    ensures Act(s, i, action, now).Success? && Act(s, i, action, now).value.nodes[i].state != Pending
  {
    hide Stamp, Refresh, RequestApproval, MissingForNode, Titles;
    if s.nodes[i].state == Pending {
      match action {
        case AskParent => TransitionEvolves(s, i, WaitingForParent, None, NoStall, now);
        case ReportMissing =>
          TransitionEvolves(s, i, NodeState.DocumentMissing, Some(Titles(MissingForNode(s, i))), NoStall, now);
        case PrepareForOfficer =>
          TransitionEvolves(s, i, Ready, None, NoStall, now);
          RequestFromReadySucceeds(Transition(s, i, Ready, None, NoStall, now).value, i, now);
      }
    }
  }

  const STARTS: set<NodeState> := GATE + {WaitingForParent, NodeState.DocumentMissing}

  lemma {:induction false} EntityActionClears(s: CaseState, plan: seq<(nat, Action)>, k: nat, now: Time)
    requires k <= |plan| && forall p :: p in plan ==> p.0 < |s.nodes|
    ensures EntityAction(s, plan, k, now).Success?
    ensures forall j {:trigger plan[j]} :: 0 <= j < k ==>
              plan[j].0 < |s.nodes| && EntityAction(s, plan, k, now).value.nodes[plan[j].0].state != Pending
  {
    hide Act;
    if k > 0 {
      EntityActionClears(s, plan, k - 1, now);
      var before := EntityAction(s, plan, k - 1, now).value;
      assert plan[k - 1] in plan;
      ActSucceeds(before, plan[k - 1].0, plan[k - 1].1, now);
      ActTo(before, plan[k - 1].0, plan[k - 1].1, now, STARTS);
    }
  }

  /** No run of the orchestrator ever raises, so none is dead-lettered by its handler. */
  lemma OrchestratorNeverRaises(s: CaseState, e: nat, now: Time)
    requires RowsLinked(s) && e < |s.outbox|
    ensures Orchestrate(s, e, now).Success?
  {
    hide EntityAction, Evaluate, Escalate, EmitOnce, Refresh;
    EntityActionClears(s, Plan(s), |Plan(s)|, now);
  }

  lemma OrchestrateNodes(s: CaseState, e: nat, now: Time)
    requires RowsLinked(s) && e < |s.outbox| && Orchestrate(s, e, now).Success?
    ensures EntityAction(s, Plan(s), |Plan(s)|, now).Success?
    ensures Orchestrate(s, e, now).value.nodes == EntityAction(s, Plan(s), |Plan(s)|, now).value.nodes
  {
    hide EntityAction, Plan, Evaluate, Escalate;
    var acted := EntityAction(s, Plan(s), |Plan(s)|, now).value;
    var verdict := Evaluate(acted, s.outbox[e].event);
    if verdict.escalate.Some? {
      EscalateNodes(acted, verdict.escalate.value, SubjectOf(s.outbox[e].event), false);
    }
  }

  /** After a run of the orchestrator nothing is left to unlock. */
  lemma OrchestrateClears(s: CaseState, e: nat, now: Time) returns (t: CaseState)
    requires Inv(s, None) && e < |s.outbox| && Orchestrate(s, e, now).Success?
    ensures t == Orchestrate(s, e, now).value && Within(|t.nodes|, t.edges)
    ensures forall i: nat :: !CanUnlock(t, i)
  {
    hide Orchestrate, Inv, EntityAction, Plan, Orderly, DocsJustified;
    InvRows(s, None);
    InvPastIntake(s);
    var plan := Plan(s);
    t := OrchestrateSafe(s, e, now);
    OrchestrateNodes(s, e, now);
    OrchestrateTo(s, e, now, STARTS);
    EntityActionClears(s, plan, |plan|, now);
    forall i: nat | CanUnlock(s, i) ensures t.nodes[i].state != Pending {
      assert (i, ActionFor(s, i)) in plan;
    }
    FinishesNothing(s, t);
  }

  lemma InvPastIntake(s: CaseState)
    requires Inv(s, None)
    ensures s.status != Closed && s.status != Intake
  {
  }

  /** The orchestrator finishes no node, so it makes no node unlockable that was not so before. */
  lemma FinishesNothing(s: CaseState, t: CaseState)
    requires Within(|s.nodes|, s.edges) && t.edges == s.edges && MovesOnlyTo(s, t, STARTS)
    ensures forall i: nat :: CanUnlock(t, i) ==> CanUnlock(s, i)
  {
  }

  // --- every other unit of work announces what it makes unlockable ---

  lemma UnlockingIsAnnounced(s: CaseState, t: CaseState, i: nat) returns (e: nat)
    requires Within(|s.nodes|, s.edges) && Evolves(s, t) && !CanUnlock(s, i) && CanUnlock(t, i)
    ensures |s.outbox| <= e < |t.outbox| && t.outbox[e].event.NodeMoved?
  {
    assert NodeEvolves(s, t, i);
    var edge :| edge in s.edges && edge.1 == i && !Done(s.nodes[edge.0].state);
    assert NodeEvolves(s, t, edge.0) && Announced(s, t, edge.0);
    e :| |s.outbox| <= e < |t.outbox| && t.outbox[e].event.NodeMoved? && t.outbox[e].event.node == edge.0
         && t.outbox[e].event.to == t.nodes[edge.0].state;
  }

  lemma StaysLive(s: CaseState, t: CaseState)
    requires Within(|s.nodes|, s.edges) && Evolves(s, t) && Live(s)
    requires forall c, e :: (c, e) in s.receipts ==> e < |s.outbox|
    requires forall e :: (Orchestrator, e) in t.receipts ==> (Orchestrator, e) in s.receipts
    ensures Within(|t.nodes|, t.edges) && Live(t)
  {
    hide NodeEvolves, CanUnlock;
    if i: nat :| CanUnlock(t, i) {
      var e: nat;
      if j: nat :| CanUnlock(s, j) {
        e :| Waiting(s, e);
      } else {
        e := UnlockingIsAnnounced(s, t, i);
      }
      assert Waiting(t, e);
    }
  }

  lemma ReceiptsNameEvents(s: CaseState)
    requires Inv(s, None)
    ensures forall c, e :: (c, e) in s.receipts ==> e < |s.outbox|
  {
  }

  lemma NothingToUnlock(s: CaseState, t: CaseState)
    requires Within(|s.nodes|, s.edges) && (forall i: nat :: !CanUnlock(s, i))
    requires t.nodes == s.nodes && t.edges == s.edges
    ensures Live(t)
  {
    forall i: nat ensures !CanUnlock(t, i) { assert !CanUnlock(s, i); }
  }

  lemma AdvanceLive(w: World, step: Step)
    requires Safe(w) && RowsLinked(w.db) && Live(w.db)
    ensures var db := Advance(w, step).db; Within(|db.nodes|, db.edges) && Live(db)
  {
    hide Inv, OrderedBut, HeldAreProduced, ShownAreFiled, Apply, Live, Evolves, TargetsOf, MovesOnlyTo;
    ReceiptsNameEvents(w.db);
    if !Apply(w.db, step).Success? {
      SoundReflexive(w.db);
      StaysLive(w.db, w.db);
    } else if step.ConsumerRuns? && step.consumer == Orchestrator && (Orchestrator, step.event) !in w.db.receipts {
      OrchestratedLive(w.db, step);
    } else {
      ApplyTo(w.db, step);
      StaysLive(w.db, Advance(w, step).db);
    }
  }

  lemma OrchestratedLive(s: CaseState, step: Step)
    requires Inv(s, None) && Apply(s, step).Success?
    requires step.ConsumerRuns? && step.consumer == Orchestrator && (Orchestrator, step.event) !in s.receipts
    ensures var t := Apply(s, step).value; Within(|t.nodes|, t.edges) && Live(t)
  {
    hide Inv, Orchestrate, Live;
    InvRows(s, None);
    var handled := OrchestrateClears(s, step.event, step.input.now);
    NothingToUnlock(handled, Apply(s, step).value);
  }

  lemma {:induction false} ReachedLive(t: Template, steps: seq<Step>)
    requires TemplateOk(t)
    ensures Live(Reached(t, steps).db)
  {
    hide Inv, OrderedBut, HeldAreProduced, ShownAreFiled, Live, Evolves, TemplateOk;
    if steps == [] {
      OpenedLive(t);
    } else {
      var before := Reached(t, steps[..|steps| - 1]);
      ReachedLive(t, steps[..|steps| - 1]);
      InvRows(before.db, None);
      AdvanceLive(before, steps[|steps| - 1]);
    }
  }

  lemma OpenedLive(t: Template)
    requires TemplateOk(t)
    ensures Live(Opened(t))
  {
    assert Waiting(Opened(t), 1);
  }

  // --- main results ---

  /** Whenever some node can be unlocked, the orchestrator still has an event to run on. */
  lemma UnlockableHasTrigger(t: Template, w: World, i: nat)
    requires Reachable(t, w) && Within(|w.db.nodes|, w.db.edges) && CanUnlock(w.db, i)
    ensures exists e: nat :: Waiting(w.db, e)
  {
    hide Reachable, Inv, Evolves, TemplateOk;
    ReachableSafe(t, w);
    var steps :| w == Reached(t, steps);
    ReachedLive(t, steps);
  }

  /** Once the orchestrator has run on every trigger, an incomplete case has a step that has been started and is not done. */
  lemma QuietCaseHasStarted(t: Template, w: World)
    requires Reachable(t, w) && Acyclic(t.edges)
    requires (forall e: nat :: !Waiting(w.db, e)) && w.db.status != AllComplete
    ensures exists i :: 0 <= i < |w.db.nodes| && w.db.nodes[i].state != Pending && !Done(w.db.nodes[i].state)
  {
    hide Reachable, Evolves, TemplateOk, OrderedBut, HeldAreProduced, Inv;
    ReachableSafe(t, w);
    InvRows(w.db, None);
    var steps :| w == Reached(t, steps);
    ReachedLive(t, steps);
    NotAllDone(w.db);
    SomeStepIsUnderWay(w.db);
  }

  lemma NotAllDone(s: CaseState)
    requires Inv(s, None) && s.status != AllComplete && s.nodes != []
    ensures exists i :: 0 <= i < |s.nodes| && !Done(s.nodes[i].state)
  {
  }

  lemma SomeStepIsUnderWay(s: CaseState)
    requires Within(|s.nodes|, s.edges) && Acyclic(s.edges) && (forall i: nat :: !CanUnlock(s, i))
    requires exists i :: 0 <= i < |s.nodes| && !Done(s.nodes[i].state)
    ensures exists i :: 0 <= i < |s.nodes| && s.nodes[i].state != Pending && !Done(s.nodes[i].state)
  {
    var pending := set i: nat | i in Ids(|s.nodes|) && s.nodes[i].state == Pending;
    if pending != {} {
      var first := EarliestMember(s.edges, pending);
      assert !CanUnlock(s, first);
      var e :| e in s.edges && e.1 == first && !Done(s.nodes[e.0].state);
      assert e.0 !in pending;
    } else {
      var i :| 0 <= i < |s.nodes| && !Done(s.nodes[i].state);
      assert i !in pending;
    }
  }
}
