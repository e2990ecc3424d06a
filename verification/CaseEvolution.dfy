/**
 * What every unit of work keeps: rows are only appended, done stays done, nothing goes back to PENDING, decided
 * approvals and issued references never change, and every change of a node's state is announced in the outbox.
 */
module CaseEvolution {
  import opened Wrappers
  import opened StateMachine
  import opened LifeEventGraph
  import opened CaseModel
  import opened CaseServices

  /** The outbox rows written since s hold a node event that names node i's present state. */
  ghost predicate Announced(s: CaseState, t: CaseState, i: nat)
    requires i < |t.nodes|
  {
    exists e :: |s.outbox| <= e < |t.outbox| && t.outbox[e].event.NodeMoved? && t.outbox[e].event.node == i
                && t.outbox[e].event.to == t.nodes[i].state
  }

  ghost predicate NodeEvolves(s: CaseState, t: CaseState, i: nat)
    requires i < |s.nodes| == |t.nodes|
  {
    && t.nodes[i].spec == s.nodes[i].spec
    && (Done(s.nodes[i].state) ==> Done(t.nodes[i].state))
    && (t.nodes[i].state == Pending ==> s.nodes[i].state == Pending)
    && (t.nodes[i].state != s.nodes[i].state ==> Announced(s, t, i))
  }

  ghost predicate ApprovalEvolves(a: Approval, b: Approval) {
    b.node == a.node && (a.state != Undecided ==> b == a)
  }

  ghost predicate RequestEvolves(a: EntityRequest, b: EntityRequest) {
    b.node == a.node && b.key == a.key && b.approval == a.approval
    && (a.externalRef.Some? ==> b.externalRef == a.externalRef)
  }

  ghost predicate Evolves(s: CaseState, t: CaseState) {
    && t.edges == s.edges && t.consulate == s.consulate && t.catalogue == s.catalogue
    && |t.nodes| == |s.nodes|
    && s.outbox <= t.outbox && s.statuses <= t.statuses && s.receipts <= t.receipts
    && |s.approvals| <= |t.approvals| && |s.requests| <= |t.requests| && |s.escalations| <= |t.escalations|
    && (forall i :: 0 <= i < |s.nodes| ==> NodeEvolves(s, t, i))
    && (forall a :: 0 <= a < |s.approvals| ==> ApprovalEvolves(s.approvals[a], t.approvals[a]))
    && (forall r :: 0 <= r < |s.requests| ==> RequestEvolves(s.requests[r], t.requests[r]))
  }

  lemma EvolvesTransitive(s: CaseState, t: CaseState, u: CaseState)
    requires Evolves(s, t) && Evolves(t, u)
    ensures Evolves(s, u)
  {
    forall i | 0 <= i < |s.nodes| ensures NodeEvolves(s, u, i) {
      assert NodeEvolves(s, t, i) && NodeEvolves(t, u, i);
      if u.nodes[i].state != s.nodes[i].state && u.nodes[i].state == t.nodes[i].state {
        var e :| |s.outbox| <= e < |t.outbox| && t.outbox[e].event.NodeMoved? && t.outbox[e].event.node == i
                 && t.outbox[e].event.to == t.nodes[i].state;
        assert u.outbox[e] == t.outbox[e];
      } else if u.nodes[i].state != s.nodes[i].state {
        var e :| |t.outbox| <= e < |u.outbox| && u.outbox[e].event.NodeMoved? && u.outbox[e].event.node == i
                 && u.outbox[e].event.to == u.nodes[i].state;
        assert |s.outbox| <= e;
      }
    }
  }

  predicate StatusNews(event: Event) {
    event.CaseStatusChanged? || event.CaseCompleted?
  }

  /** Refreshing and emitting write the case status and the outbox only. */
  ghost predicate OnlyEmits(s: CaseState, t: CaseState) {
    t == s.(status := t.status, outbox := t.outbox) && s.outbox <= t.outbox
  }

  lemma RefreshOnlyEmits(s: CaseState)
    ensures OnlyEmits(s, Refresh(s))
    ensures forall e :: |s.outbox| <= e < |Refresh(s).outbox| ==> StatusNews(Refresh(s).outbox[e].event)
  {
  }

  /** A transition replaces node i by its stamped row, announces it, and refreshes. */
  ghost predicate Moves(s: CaseState, t: CaseState, i: nat, moved: Node, announcement: OutboxRow)
    requires i < |s.nodes|
  {
    && t == s.(nodes := s.nodes[i := moved], status := t.status, outbox := t.outbox)
    && s.outbox + [announcement] <= t.outbox
    && forall e :: |s.outbox| < e < |t.outbox| ==> StatusNews(t.outbox[e].event)
  }

  lemma TransitionMoves(s: CaseState, i: nat, target: NodeState, reason: Option<string>, stall: StallKind, now: Time)
    requires i < |s.nodes|
    requires Transition(s, i, target, reason, stall, now).Success?
    ensures
      var t := Transition(s, i, target, reason, stall, now).value;
      || (t == s && s.nodes[i].state == target)
      || (CanMove(s.nodes[i].state, target) && Moves(s, t, i, Stamp(s.nodes[i], target, reason, now), 
               OutboxRow(NodeMoved(i, s.nodes[i].state, target, stall), None)))
  {
    var stamped := s.(nodes := s.nodes[i := Stamp(s.nodes[i], target, reason, now)]);
    RefreshOnlyEmits(Emit(stamped, NodeMoved(i, s.nodes[i].state, target, stall)));
  }

  lemma MovesEvolves(s: CaseState, t: CaseState, i: nat, moved: Node, announcement: OutboxRow)
    requires i < |s.nodes| && Moves(s, t, i, moved, announcement)
    requires moved.spec == s.nodes[i].spec && CanMove(s.nodes[i].state, moved.state)
    requires moved.state == Pending ==> s.nodes[i].state == Pending
    requires announcement.event.NodeMoved? && announcement.event.node == i && announcement.event.to == moved.state
    ensures Evolves(s, t)
  {
    assert t.outbox[|s.outbox|] == announcement;
    assert Announced(s, t, i);
  }

  lemma TransitionEvolves(s: CaseState, i: nat, target: NodeState, reason: Option<string>, stall: StallKind, now: Time)
    requires i < |s.nodes| && (target == Pending ==> s.nodes[i].state == Pending)
    requires Transition(s, i, target, reason, stall, now).Success?
    ensures Evolves(s, Transition(s, i, target, reason, stall, now).value)
    ensures Transition(s, i, target, reason, stall, now).value.nodes[i].state == target
  {
    var t := Transition(s, i, target, reason, stall, now).value;
    TransitionMoves(s, i, target, reason, stall, now);
    if t != s {
      hide Transition;
      MovesEvolves(s, t, i, Stamp(s.nodes[i], target, reason, now),
                   OutboxRow(NodeMoved(i, s.nodes[i].state, target, stall), None));
    }
  }

  /** Node i keeps its state and template columns; nothing is announced. */
  ghost predicate SameNodes(s: CaseState, t: CaseState) {
    |t.nodes| == |s.nodes|
    && forall i :: 0 <= i < |s.nodes| ==> t.nodes[i].spec == s.nodes[i].spec && t.nodes[i].state == s.nodes[i].state
  }
}
