/** Exactly when each operation on a case is accepted, and what an accepted one leaves behind. */
module CaseOutcomes {
  import opened Wrappers
  import opened StateMachine
  import opened LifeEventGraph
  import opened CaseModel
  import opened CaseServices
  import opened CaseEvolution
  import opened CaseInvariants
  import opened CaseSteps
  import opened CaseFilingSteps
  import CaseTargets

  // --- transitions ---

  /** Node i, and no other, changes; the template columns stay. */
  ghost predicate Touches(s: CaseState, t: CaseState, i: nat) {
    && i < |s.nodes| == |t.nodes| && t.nodes == s.nodes[i := t.nodes[i]]
    && t.nodes[i].spec == s.nodes[i].spec && t.nodes[i].attempts >= s.nodes[i].attempts
    && t.edges == s.edges && t.consulate == s.consulate && t.catalogue == s.catalogue
    && s.outbox <= t.outbox
  }

  /** No release has been announced since s. */
  predicate NoRelease(s: CaseState, t: CaseState) {
    |s.outbox| <= |t.outbox| &&
    forall e :: |s.outbox| <= e < |t.outbox| ==> t.outbox[e].key.None? || t.outbox[e].key.value == CaseCompletedKey
  }

  lemma RefreshKeys(s: CaseState)
    ensures NoRelease(s, Refresh(s)) && s.outbox <= Refresh(s).outbox
  {
  }

  /** The times of a node m that n has just been moved to; nothing else but the state and its reason differs. */
  predicate Timed(n: Node, m: Node, now: Time) {
    var done := m.state in {Cleared, Completed};
    && m.submittedAt == (if m.state == Submitted && n.submittedAt.None? then Some(now) else n.submittedAt)
    && m.clearedAt == (if done then Some(now) else n.clearedAt)
    && (done ==> m.slaDueAt.None? && m.blockedReason.None? && m.stalledSince.None?)
    && (m.state == Submitted && n.spec.slaHours > 0 ==> m.slaDueAt == Some(now + n.spec.slaHours))
    && (!done && (m.state != Submitted || n.spec.slaHours == 0) ==> m.slaDueAt == n.slaDueAt)
    && (m.state == Stalled ==> m.stalledSince == if n.stalledSince.Some? then n.stalledSince else Some(now))
    && (m.state != Stalled && n.state == Stalled ==> m.stalledSince.None?)
    && (m.state != Stalled && n.state != Stalled && !done ==> m.stalledSince == n.stalledSince)
    && m == n.(state := m.state, submittedAt := m.submittedAt, slaDueAt := m.slaDueAt, clearedAt := m.clearedAt,
               stalledSince := m.stalledSince, blockedReason := m.blockedReason)
  }

  /** The reason shown: the one given in a state that needs attention, the old one there without, and none elsewhere. */
  predicate Reasoned(n: Node, m: Node, reason: Option<string>) {
    && (m.state in {Blocked, NodeState.DocumentMissing, Stalled, NodeState.Rejected} ==>
          m.blockedReason == if reason.Some? && reason.value != "" then reason else n.blockedReason)
    && (m.state !in {Blocked, NodeState.DocumentMissing, Stalled, NodeState.Rejected, Cleared, Completed} ==>
          m.blockedReason == if reason.None? then None else n.blockedReason)
  }

  /** Node n has become m: not at all when it was there already and no reason is given. */
  predicate Became(n: Node, m: Node, target: NodeState, reason: Option<string>, now: Time) {
    && m.state == target
    && if n.state == target && (reason.None? || reason.value == "") then m == n
       else Timed(n, m, now) && Reasoned(n, m, reason)
  }

  /** One of the rows written since tells of this event. */
  ghost predicate Tells(before: seq<OutboxRow>, after: seq<OutboxRow>, event: Event) {
    exists f :: |before| <= f < |after| && after[f].event == event
  }

  lemma TransitionSucceeds(s: CaseState, i: nat, target: NodeState, reason: Option<string>, stall: StallKind, now: Time)
    requires i < |s.nodes| && CanMove(s.nodes[i].state, target) && (target == Pending ==> s.nodes[i].state == Pending)
    ensures Transition(s, i, target, reason, stall, now).Success?
    ensures
      var t := Transition(s, i, target, reason, stall, now).value;
      && Touches(s, t, i) && t.nodes[i].state == target && NoRelease(s, t)
      && t.nodes[i].attempts == s.nodes[i].attempts && t.nodes[i].reports == s.nodes[i].reports
      && t.nodes[i].approvalState == s.nodes[i].approvalState && Became(s.nodes[i], t.nodes[i], target, reason, now)
      && t == s.(nodes := t.nodes, status := t.status, outbox := t.outbox)
      && (s.nodes[i].state != target || Given(reason) ==>
            Tells(s.outbox, t.outbox, NodeMoved(i, s.nodes[i].state, target, stall)))
  {
    hide Refresh, Stamp, Timed, Reasoned;
    StampState(s.nodes[i], target, reason, now);
    StampColumns(s.nodes[i], target, reason, now);
    var stamped := s.(nodes := s.nodes[i := Stamp(s.nodes[i], target, reason, now)]);
    var moved := Emit(stamped, NodeMoved(i, s.nodes[i].state, target, stall));
    assert moved.outbox[|s.outbox|].event == NodeMoved(i, s.nodes[i].state, target, stall);
    RefreshKeys(moved);
    RefreshOnlyEmits(moved);
  }

  lemma StampColumns(n: Node, target: NodeState, reason: Option<string>, now: Time)
    ensures Timed(n, Stamp(n, target, reason, now), now) && Reasoned(n, Stamp(n, target, reason, now), reason)
  {
  }

  lemma ToldBetween(before: seq<OutboxRow>, middle: seq<OutboxRow>, after: seq<OutboxRow>, event: Event)
    requires before <= middle <= after && (Tells(before, middle, event) || Tells(middle, after, event))
    ensures Tells(before, after, event)
  {
    if Tells(before, middle, event) {
      var f :| |before| <= f < |middle| && middle[f].event == event;
      assert after[f].event == event;
    }
  }

  /**
   * A transition is accepted exactly when the state table allows it. One that changes nothing records nothing; any
   * other stamps its node alone and announces the move, followed only by news of the case status.
   */
  lemma TransitionOutcome(s: CaseState, i: nat, target: NodeState, reason: Option<string>, stall: StallKind, now: Time)
    requires i < |s.nodes|
    ensures
      var r := Transition(s, i, target, reason, stall, now);
      && (r.Success? <==> CanMove(s.nodes[i].state, target)) && (r.Failure? ==> r.error == InvalidTransition)
      && (r.Success? && s.nodes[i].state == target && !Given(reason) ==> r.value == s)
      && (r.Success? && (s.nodes[i].state != target || Given(reason)) ==>
            && Became(s.nodes[i], r.value.nodes[i], target, reason, now)
            && Moves(s, r.value, i, r.value.nodes[i], OutboxRow(NodeMoved(i, s.nodes[i].state, target, stall), None)))
  {
    hide Refresh, Stamp, Timed, Reasoned;
    StampColumns(s.nodes[i], target, reason, now);
    StampState(s.nodes[i], target, reason, now);
    if CanMove(s.nodes[i].state, target) {
      var stamped := s.(nodes := s.nodes[i := Stamp(s.nodes[i], target, reason, now)]);
      RefreshOnlyEmits(Emit(stamped, NodeMoved(i, s.nodes[i].state, target, stall)));
    }
  }

  // --- documents ---

  /** Every document the node requires is in hand, or the case does not track it. */
  predicate InHand(s: CaseState, i: nat)
    requires i < |s.nodes|
  {
    forall d :: d in s.nodes[i].spec.requiredDocuments && d in s.docs ==>
      s.docs[d].status != Missing && s.docs[d].status != Expired
  }

  lemma {:induction false} NothingMissing(docs: map<DocType, Document>, types: seq<DocType>)
    requires forall d :: d in types && d in docs ==> !Outstanding(docs[d].status)
    ensures MissingOf(docs, types) == []
  {
    if types != [] {
      assert types[0] in types && forall d :: d in types[1..] ==> d in types;
      NothingMissing(docs, types[1..]);
    }
  }

  lemma MissingNothingIff(s: CaseState, i: nat)
    requires i < |s.nodes|
    ensures MissingForNode(s, i) == [] <==> InHand(s, i)
  {
    var missing := MissingForNode(s, i);
    if InHand(s, i) { NothingMissing(s.docs, s.nodes[i].spec.requiredDocuments); }
    if missing == [] { assert forall d :: d !in missing; }
  }

  /** The missing documents come in the order of the requirements. */
  lemma {:induction false} MissingInOrder(docs: map<DocType, Document>, types: seq<DocType>, more: seq<DocType>)
    ensures MissingOf(docs, types + more) == MissingOf(docs, types) + MissingOf(docs, more)
  {
    if types == [] {
      assert types + more == more;
    } else {
      assert (types + more)[1..] == types[1..] + more;
      MissingInOrder(docs, types[1..], more);
    }
  }

  /** The marked types are the known ones of the list, in its order. */
  lemma {:induction false} MarkedInOrder(docs: map<DocType, Document>, catalogue: set<DocType>, types: seq<DocType>,
                                         more: seq<DocType>)
    ensures Marked(docs, catalogue, types + more) == Marked(docs, catalogue, types) + Marked(docs, catalogue, more)
    ensures |types| == 1 ==> Marked(docs, catalogue, types) == if types[0] in docs || types[0] in catalogue then types else []
  {
    if more == [] {
      assert types + more == types;
    } else {
      var front := more[..|more| - 1];
      assert (types + more)[..|types + more| - 1] == types + front;
      MarkedInOrder(docs, catalogue, types, front);
    }
    if |types| == 1 { assert types == [types[0]] && types[..0] == []; }
  }

  /** A reason line joins the titles with commas. */
  lemma {:induction false} TitlesJoin(types: seq<DocType>, last: DocType)
    ensures Titles([]) == "" && Titles([last]) == last
    ensures types != [] ==> Titles(types + [last]) == Titles(types) + ", " + last
  {
    if |types| > 1 {
      assert (types + [last])[1..] == types[1..] + [last];
      TitlesJoin(types[1..], last);
    } else if types != [] {
      assert (types + [last])[1..] == [last];
    }
  }

  predicate Climbs(keys: seq<nat>) {
    forall i, j :: 0 <= i < j < |keys| ==> keys[i] < keys[j]
  }

  /** Steps are unlocked in node order, each once. */
  lemma {:induction false} UnlockedInOrder(s: CaseState, k: nat)
    requires Within(|s.nodes|, s.edges) && k <= |s.nodes|
    ensures Climbs(Unlockable(s, k))
  {
    if k > 0 {
      UnlockedInOrder(s, k - 1);
      var before := Unlockable(s, k - 1);
      assert forall i :: 0 <= i < |before| ==> before[i] in before;
    }
  }

  /** mark_missing makes every known type of the list missing, keeps its source, and touches no other document. */
  lemma {:induction false} MarkMissingOutcome(docs: map<DocType, Document>, catalogue: set<DocType>, types: seq<DocType>)
    ensures
      var marked := MarkMissing(docs, catalogue, types);
      && (forall d :: d in types && Markable(docs, catalogue, d) ==>
            d in marked && marked[d] == Document(Missing, if d in docs then docs[d].source else Resident))
      && (forall d :: d !in types || !Markable(docs, catalogue, d) ==>
            (d in marked <==> d in docs) && (d in docs ==> marked[d] == docs[d]))
      && (forall d :: Markable(marked, catalogue, d) <==> Markable(docs, catalogue, d))
  {
    if types != [] {
      var front, last := types[..|types| - 1], types[|types| - 1];
      MarkMissingOutcome(docs, catalogue, front);
      assert forall d :: d in types <==> d in front || d == last;
    }
  }

  /** Every output the case tracks is held from the authority afterwards, and no other document changes. */
  lemma {:induction false} RegisterOutputsOutcome(docs: map<DocType, Document>, outputs: seq<DocType>)
    ensures
      var after := RegisterOutputs(docs, outputs);
      && after.Keys == docs.Keys
      && forall d :: d in docs ==> after[d] == if d in outputs then Document(Uploaded, GovernmentMock) else docs[d]
  {
    if outputs != [] {
      var front, last := outputs[..|outputs| - 1], outputs[|outputs| - 1];
      RegisterOutputsOutcome(docs, front);
      assert forall d :: d in outputs <==> d in front || d == last;
    }
  }

  // --- the officer gate ---

  /** A filing is prepared exactly when it is already waiting, or its state lets it wait; it then has an approval. */
  lemma RequestApprovalOutcome(s: CaseState, i: nat, now: Time)
    requires i < |s.nodes|
    ensures
      var r := RequestApproval(s, i, now);
      && (r.Success? <==>
            HasPending(s, i)
            || s.nodes[i].state in {Ready, Blocked, NodeState.DocumentMissing, Stalled, NodeState.Rejected})
      && (r.Failure? ==> r.error == Conflict)
      && (r.Success? && HasPending(s, i) ==> r.value == s)
      && (r.Success? && !HasPending(s, i) ==>
            var t := r.value;
            && t.nodes[i].state == WaitingForHuman && t.nodes[i].approvalState == Some(Undecided) && Touches(s, t, i)
            && t == s.(nodes := t.nodes, status := t.status, outbox := t.outbox,
                       approvals := s.approvals + [Approval(i, Undecided, None)])
            && t.outbox != [] && t.outbox[|t.outbox| - 1].event == ApprovalRequested(|s.approvals|))
  {
    hide Transition;
    if !HasPending(s, i) && Requestable(s.nodes[i].state) {
      var ready := s;
      if s.nodes[i].state == Stalled {
        TransitionSucceeds(s, i, Ready, None, NoStall, now);
        ready := Transition(s, i, Ready, None, NoStall, now).value;
      }
      var asked := ready.(approvals := ready.approvals + [Approval(i, Undecided, None)],
                          nodes := ready.nodes[i := ready.nodes[i].(approvalState := Some(Undecided))]);
      TransitionSucceeds(asked, i, WaitingForHuman, None, NoStall, now);
    }
  }

  /** An approval is accepted exactly for a pending, waiting filing with its documents in hand; it files an attempt. */
  lemma ApproveOutcome(s: CaseState, a: nat, officer: Officer, now: Time)
    requires RowsLinked(s) && RequestsOk(s)
    ensures
      var r := Approve(s, a, officer, now);
      && (r.Success? <==>
            a < |s.approvals| && officer.officiates && s.approvals[a].state == Undecided
            && s.nodes[s.approvals[a].node].state == WaitingForHuman && InHand(s, s.approvals[a].node))
      && (r.Failure? ==>
            r.error == if a >= |s.approvals| then NotFound else if !officer.officiates then Forbidden else Conflict)
      && (r.Success? ==>
            var i, t := s.approvals[a].node, r.value;
            var attempt := s.nodes[i].attempts + 1;
            && Touches(s, t, i) && t.nodes[i].state == Submitting && t.nodes[i].attempts == attempt
            && t.nodes[i].approvalState == Some(Approved)
            && t == s.(nodes := t.nodes, status := t.status, outbox := t.outbox,
                       approvals := s.approvals[a := Approval(i, Approved, Some(officer))],
                       requests := s.requests + [EntityRequest(i, a, FilingKey(i, attempt), BeingSubmitted, None, 0)])
            && Tells(s.outbox, t.outbox, OfficerApproved(a))
            && Tells(s.outbox, t.outbox, NodeMoved(i, WaitingForHuman, Submitting, NoStall)))
  {
    hide Release, MissingForNode, InHand, KeyFiled, RequestOk, KeysDistinct, Tells, Touches;
    if a < |s.approvals| {
      var i := s.approvals[a].node;
      MissingNothingIff(s, i);
      if officer.officiates && s.approvals[a].state == Undecided && s.nodes[i].state == WaitingForHuman && InHand(s, i) {
        NextKeyIsFresh(s, i);
        var told := Emit(Decide(s, a, Approved, officer), OfficerApproved(a));
        ReleaseOutcome(told, i, a, now);
        LastTold(s.outbox, OfficerApproved(a));
        var t := Approve(s, a, officer, now).value;
        ToldBetween(s.outbox, told.outbox, t.outbox, OfficerApproved(a));
        ToldBetween(s.outbox, told.outbox, t.outbox, NodeMoved(i, WaitingForHuman, Submitting, NoStall));
        DecidedTouches(s, told, t, i);
      }
    }
  }

  lemma DecidedTouches(s: CaseState, m: CaseState, t: CaseState, i: nat)
    requires Touches(m, t, i) && |m.nodes| == |s.nodes| && s.outbox <= m.outbox
    requires m.nodes == s.nodes[i := s.nodes[i].(approvalState := m.nodes[i].approvalState)]
    requires m.edges == s.edges && m.consulate == s.consulate && m.catalogue == s.catalogue
    ensures Touches(s, t, i)
  {
  }

  /** A release whose next key is free files it, moves the node to SUBMITTING, and tells of both. */
  lemma ReleaseOutcome(s: CaseState, i: nat, a: nat, now: Time)
    requires i < |s.nodes| && s.nodes[i].state == WaitingForHuman
    requires !KeyFiled(s.requests, FilingKey(i, s.nodes[i].attempts + 1))
    ensures Release(s, i, a, now).Success?
    ensures
      var t, attempt := Release(s, i, a, now).value, s.nodes[i].attempts + 1;
      && Touches(s, t, i) && t.nodes[i].state == Submitting && t.nodes[i].attempts == attempt
      && t.nodes[i].approvalState == s.nodes[i].approvalState
      && t == s.(nodes := t.nodes, status := t.status, outbox := t.outbox,
                 requests := s.requests + [EntityRequest(i, a, FilingKey(i, attempt), BeingSubmitted, None, 0)])
      && s.outbox <= t.outbox && Tells(s.outbox, t.outbox, NodeMoved(i, WaitingForHuman, Submitting, NoStall))
  {
    hide Transition, KeyFiled, Tells;
    var filed := FileRequest(s, i, a);
    TransitionSucceeds(filed, i, Submitting, None, NoStall, now);
    var moved := Transition(filed, i, Submitting, None, NoStall, now).value;
    ToldBetween(s.outbox, moved.outbox, Release(s, i, a, now).value.outbox,
                NodeMoved(i, WaitingForHuman, Submitting, NoStall));
  }

  lemma LastTold(before: seq<OutboxRow>, event: Event)
    ensures Tells(before, before + [OutboxRow(event, None)], event)
  {
    assert (before + [OutboxRow(event, None)])[|before|].event == event;
  }

  /** A text with something in it besides white space. */
  predicate SaysSomething(text: string) {
    exists c :: c in text && c !in {' ', '\t', '\n', '\r'}
  }

  /** A refusal is accepted exactly with a reason, for a pending approval whose node may still be blocked. */
  lemma RejectOutcome(s: CaseState, a: nat, officer: Officer, reason: string, now: Time)
    requires RowsLinked(s)
    ensures
      var r := Reject(s, a, officer, reason, now);
      && (r.Success? <==>
            SaysSomething(reason) && a < |s.approvals| && officer.officiates && s.approvals[a].state == Undecided
            && CanMove(s.nodes[s.approvals[a].node].state, Blocked))
      && (r.Failure? ==>
            r.error == if !SaysSomething(reason) then ValidationFailed else if a >= |s.approvals| then NotFound
                       else if !officer.officiates then Forbidden
                       else if s.approvals[a].state != Undecided then Conflict else InvalidTransition)
      && (r.Success? ==>
            var i, t := s.approvals[a].node, r.value;
            && Touches(s, t, i) && t.nodes[i].state == Blocked && t.nodes[i].approvalState == Some(Declined)
            && t.nodes[i].blockedReason == Some("Officer did not release: " + reason)
            && t == s.(nodes := t.nodes, status := t.status, outbox := t.outbox,
                       approvals := s.approvals[a := Approval(i, Declined, Some(officer))])
            && Tells(s.outbox, t.outbox, OfficerRejected(a))
            && Tells(s.outbox, t.outbox, NodeMoved(i, s.nodes[i].state, Blocked, NoStall)))
  {
    hide Transition, Blank, Tells;
    BlankIff(reason);
    if !Blank(reason) && a < |s.approvals| && officer.officiates && s.approvals[a].state == Undecided {
      var i := s.approvals[a].node;
      var told := Emit(Decide(s, a, Declined, officer), OfficerRejected(a));
      var why := Some("Officer did not release: " + reason);
      TransitionOutcome(told, i, Blocked, why, NoStall, now);
      if CanMove(s.nodes[i].state, Blocked) {
        TransitionSucceeds(told, i, Blocked, why, NoStall, now);
        var t := Reject(s, a, officer, reason, now).value;
        LastTold(s.outbox, OfficerRejected(a));
        ToldBetween(s.outbox, told.outbox, t.outbox, OfficerRejected(a));
        ToldBetween(s.outbox, told.outbox, t.outbox, NodeMoved(i, s.nodes[i].state, Blocked, NoStall));
      }
    }
  }

  lemma BlankIff(text: string)
    ensures Blank(text) <==> !SaysSomething(text)
  {
  }

  /** Documents are asked for exactly by known types and where the node may wait for them; no approval stays pending. */
  lemma RequestDocumentsOutcome(s: CaseState, i: nat, types: seq<DocType>, officer: Officer, now: Time)
    requires RowsLinked(s) && OnePending(s.approvals)
    ensures
      var r := RequestDocuments(s, i, types, officer, now);
      var known := types != [] && forall d :: d in types ==> d in s.catalogue;
      && (r.Success? <==>
            officer.officiates && i < |s.nodes| && known && CanMove(s.nodes[i].state, NodeState.DocumentMissing))
      && (r.Failure? ==>
            r.error == if !officer.officiates then Forbidden else if i >= |s.nodes| then NotFound
                       else if !known then ValidationFailed else InvalidTransition)
      && (r.Success? ==>
            var t := r.value;
            && Touches(s, t, i) && t.nodes[i].state == NodeState.DocumentMissing
            && t == s.(nodes := t.nodes, status := t.status, outbox := t.outbox, approvals := t.approvals,
                       docs := MarkMissing(s.docs, s.catalogue, types))
            && Withdrawn(s, t, i, officer)
            && Tells(s.outbox, t.outbox, OfficerRequestedDocuments(i))
            && (s.nodes[i].state != NodeState.DocumentMissing ==>
                  Tells(s.outbox, t.outbox, NodeMoved(i, s.nodes[i].state, NodeState.DocumentMissing, NoStall))))
  {
    hide Transition, MarkMissing, Marked, Titles, Tells, Withdrawn;
    if officer.officiates && i < |s.nodes| && types != [] && (forall d :: d in types ==> d in s.catalogue) {
      CancelWithdraws(s, i, officer);
      var cancelled := CancelPending(s, i, officer);
      var told := Emit(cancelled.(docs := MarkMissing(s.docs, s.catalogue, types)), OfficerRequestedDocuments(i));
      var why := Some(Titles(Marked(s.docs, s.catalogue, types)));
      TransitionOutcome(told, i, NodeState.DocumentMissing, why, NoStall, now);
      LastTold(s.outbox, OfficerRequestedDocuments(i));
      if CanMove(s.nodes[i].state, NodeState.DocumentMissing) {
        TransitionSucceeds(told, i, NodeState.DocumentMissing, why, NoStall, now);
        var t := RequestDocuments(s, i, types, officer, now).value;
        ToldBetween(s.outbox, told.outbox, t.outbox, OfficerRequestedDocuments(i));
        if s.nodes[i].state != NodeState.DocumentMissing {
          ToldBetween(s.outbox, told.outbox, t.outbox,
                      NodeMoved(i, s.nodes[i].state, NodeState.DocumentMissing, NoStall));
        }
        StaysWithdrawn(s, cancelled, t, i, officer);
      }
    }
  }

  /** The node's pending approval, if there is one, is cancelled by the officer; no other approval changes. */
  ghost predicate Withdrawn(s: CaseState, t: CaseState, i: nat, officer: Officer)
    requires i < |s.nodes| == |t.nodes|
  {
    && |t.approvals| == |s.approvals| && !HasPending(t, i)
    && (forall a :: 0 <= a < |s.approvals| ==>
          t.approvals[a] == if s.approvals[a].node == i && s.approvals[a].state == Undecided
                            then Approval(i, Cancelled, Some(officer)) else s.approvals[a])
    && t.nodes[i].approvalState == if HasPending(s, i) then None else s.nodes[i].approvalState
  }

  lemma StaysWithdrawn(s: CaseState, m: CaseState, t: CaseState, i: nat, officer: Officer)
    requires i < |s.nodes| == |m.nodes| == |t.nodes| && Withdrawn(s, m, i, officer) && t.approvals == m.approvals
    requires t.nodes[i].approvalState == m.nodes[i].approvalState
    ensures Withdrawn(s, t, i, officer)
  {
  }

  lemma CancelWithdraws(s: CaseState, i: nat, officer: Officer)
    requires RowsLinked(s) && OnePending(s.approvals) && i < |s.nodes|
    ensures Withdrawn(s, CancelPending(s, i, officer), i, officer)
  {
    CancelledIsNotPending(s, i, officer);
  }

  lemma CancelledIsNotPending(s: CaseState, i: nat, officer: Officer)
    requires RowsLinked(s) && OnePending(s.approvals) && i < |s.nodes|
    ensures !HasPending(CancelPending(s, i, officer), i)
  {
    var t := CancelPending(s, i, officer);
    forall a | 0 <= a < |t.approvals| && t.approvals[a].state == Undecided ensures t.approvals[a].node != i {
      if HasPending(s, i) {
        var p := PendingApproval(s.approvals, i);
        assert a != p && s.approvals[a] == t.approvals[a];
      }
    }
  }

  // --- filings ---

  /** A retry is accepted exactly for a stalled step whose latest filing has no reference; it is that filing again. */
  lemma RetryOutcome(s: CaseState, i: nat, officer: Officer, now: Time)
    requires RowsLinked(s)
    ensures
      var r := Retry(s, i, officer, now);
      && (r.Success? <==>
            officer.officiates && i < |s.nodes| && s.nodes[i].state == Stalled && HasRequest(s, i)
            && s.requests[LatestRequest(s.requests, i)].externalRef.None?)
      && (r.Failure? ==>
            r.error == if !officer.officiates then Forbidden else if i >= |s.nodes| then NotFound else Conflict)
      && (r.Success? ==>
            var q, t := LatestRequest(s.requests, i), r.value;
            && Touches(s, t, i) && t.nodes[i].state == Submitting
            && t == s.(nodes := t.nodes, status := t.status, outbox := t.outbox,
                       requests := s.requests[q := s.requests[q].(state := BeingSubmitted)])
            && t.outbox != [] && t.outbox[|t.outbox| - 1] == OutboxRow(EntityRequestReleased(q), None)
            && Tells(s.outbox, t.outbox, NodeMoved(i, Stalled, Submitting, NoStall)))
  {
    hide Transition, Tells;
    if officer.officiates && i < |s.nodes| && s.nodes[i].state == Stalled && HasRequest(s, i) {
      var q := LatestRequest(s.requests, i);
      var reopened := s.(requests := s.requests[q := s.requests[q].(state := BeingSubmitted)]);
      TransitionSucceeds(reopened, i, Submitting, None, NoStall, now);
      if s.requests[q].externalRef.None? {
        var moved := Transition(reopened, i, Submitting, None, NoStall, now).value;
        ToldBetween(s.outbox, moved.outbox, Retry(s, i, officer, now).value.outbox,
                    NodeMoved(i, Stalled, Submitting, NoStall));
      }
    }
  }

  /** The retry loop: only a timeout or an outage is tried again, up to the limit, and the last answer counts. */
  lemma CallsOutcome(s: CaseState, r: nat, replies: seq<AdapterReply>)
    requires r < |s.requests| && s.requests[r].node < |s.nodes| && |replies| >= MAX_ATTEMPTS
    ensures
      var (reply, calls) := SubmissionOf(s, r, replies);
      if s.nodes[s.requests[r].node].spec.kind == ParentReported then reply == NotAllowed && calls == 1
      else if MAX_ATTEMPTS == 0 then reply == Unavailable && calls == 0
      else
        && 1 <= calls <= MAX_ATTEMPTS && reply == replies[calls - 1]
        && (forall k :: 0 <= k < calls - 1 ==> replies[k] in {TimedOut, Unavailable})
        && (calls == MAX_ATTEMPTS || reply in {Accepted, Malformed, NotAllowed})
  {
  }

  /** What an answer makes of the filing. */
  ghost predicate Answered(before: EntityRequest, after: EntityRequest, reply: AdapterReply, calls: nat) {
    var counted := before.(attempts := before.attempts + calls);
    match reply
    case Accepted => after == counted.(state := Reported(SubmittedStatus), externalRef := Some(before.key))
    case NotAllowed => after == counted.(state := Refused)
    case _ => after == counted.(state := Reported(StalledStatus))
  }

  /** What an answer makes of the node, and why. */
  predicate AnswersWith(reply: AdapterReply, state: NodeState, stall: StallKind) {
    match reply
    case Accepted => state == Submitted && stall == NoStall
    case NotAllowed => state == Blocked && stall == NoStall
    case _ => state == Stalled && stall == DependencyDown
  }

  /**
   * A submission of anything but a filing being submitted does nothing. Otherwise the authority's answer is recorded
   * with its reference and status, and the node moves as it says; if it may not, nothing is recorded.
   */
  lemma SubmitOutcome(s: CaseState, r: nat, replies: seq<AdapterReply>, now: Time)
    requires RowsLinked(s) && |replies| >= MAX_ATTEMPTS
    ensures
      var result := Submit(s, r, replies, now);
      && (r >= |s.requests| || s.requests[r].state != BeingSubmitted ==> result == Success(s))
      && (r < |s.requests| && s.requests[r].state == BeingSubmitted ==>
            var (reply, calls) := SubmissionOf(s, r, replies);
            && (result.Failure? ==> result.error == InvalidTransition)
            && (result.Success? ==> AnswerRecorded(s, result.value, r, reply, calls)))
  {
    hide RecordReply, SubmissionOf, AnswerRecorded;
    if r < |s.requests| && s.requests[r].state == BeingSubmitted {
      var (reply, calls) := SubmissionOf(s, r, replies);
      RecordReplyOutcome(s, r, reply, calls, now);
    }
  }

  ghost predicate AnswerRecorded(s: CaseState, t: CaseState, r: nat, reply: AdapterReply, calls: nat)
    requires r < |s.requests|
  {
    var i := s.requests[r].node;
    && Touches(s, t, i) && |t.requests| == |s.requests|
    && t == s.(nodes := t.nodes, status := t.status, outbox := t.outbox, requests := s.requests[r := t.requests[r]],
               statuses := if reply == Accepted then s.statuses + [EntityStatus(r, SubmittedStatus)] else s.statuses)
    && Answered(s.requests[r], t.requests[r], reply, calls)
    && exists stall :: AnswersWith(reply, t.nodes[i].state, stall)
                       && (s.nodes[i].state != t.nodes[i].state ==>
                             Tells(s.outbox, t.outbox, NodeMoved(i, s.nodes[i].state, t.nodes[i].state, stall)))
  }

  lemma RecordReplyOutcome(s: CaseState, r: nat, reply: AdapterReply, calls: nat, now: Time)
    requires r < |s.requests| && s.requests[r].node < |s.nodes|
    ensures
      var result := RecordReply(s, r, reply, calls, now);
      && (result.Failure? ==> result.error == InvalidTransition)
      && (result.Success? ==> AnswerRecorded(s, result.value, r, reply, calls))
  {
    hide Transition, Tells, CanMove;
    var i := s.requests[r].node;
    var tried := s.requests[r].(attempts := s.requests[r].attempts + calls);
    match reply {
      case NotAllowed =>
        Moved(s.(requests := s.requests[r := tried.(state := Refused)]), i, Blocked,
              Some("Integration refused the request"), NoStall, now);
        assert AnswersWith(reply, Blocked, NoStall);
      case Accepted =>
        var filed := tried.(state := Reported(SubmittedStatus), externalRef := Some(tried.key));
        Moved(s.(requests := s.requests[r := filed], statuses := s.statuses + [EntityStatus(r, SubmittedStatus)]), i,
              Submitted, None, NoStall, now);
        assert AnswersWith(reply, Submitted, NoStall);
      case _ =>
        Moved(s.(requests := s.requests[r := tried.(state := Reported(StalledStatus))]), i, Stalled,
              Some("Unavailable - not cleared yet"), DependencyDown, now);
        assert AnswersWith(reply, Stalled, DependencyDown);
    }
  }

  /** TransitionOutcome and TransitionSucceeds in one. */
  lemma Moved(s: CaseState, i: nat, target: NodeState, reason: Option<string>, stall: StallKind, now: Time)
    requires i < |s.nodes| && target != Pending
    ensures
      var r := Transition(s, i, target, reason, stall, now);
      && (r.Success? <==> CanMove(s.nodes[i].state, target)) && (r.Failure? ==> r.error == InvalidTransition)
      && (r.Success? ==>
            var t := r.value;
            && Touches(s, t, i) && Became(s.nodes[i], t.nodes[i], target, reason, now)
            && t == s.(nodes := t.nodes, status := t.status, outbox := t.outbox)
            && (s.nodes[i].state != target || Given(reason) ==>
                  Tells(s.outbox, t.outbox, NodeMoved(i, s.nodes[i].state, target, stall))))
  {
    hide Transition, CanMove, Tells, Became;
    TransitionOutcome(s, i, target, reason, stall, now);
    if CanMove(s.nodes[i].state, target) { TransitionSucceeds(s, i, target, reason, stall, now); }
  }

  /** A poll records and announces an answer about a filing the authority knows, unless a routine one brings no news. */
  lemma PollOutcome(s: CaseState, r: nat, answer: StatusAnswer, routine: bool)
    ensures
      var result := Poll(s, r, answer, routine);
      result ==
        if r < |s.requests| && s.requests[r].externalRef.Some? && answer.Answer?
           && (routine ==> s.requests[r].state != Reported(answer.status))
        then Success(s.(statuses := s.statuses + [EntityStatus(r, answer.status)],
                        outbox := s.outbox + [OutboxRow(EntityStatusReceived(r, answer.status, answer.detail,
                                                                             answer.missing), None)]))
        else Success(s)
  {
  }

  /** The state an authority's status stands for; success is the template's own word for it. */
  function StateFor(n: Node, status: AuthorityStatus): Option<NodeState> {
    match status
    case InProcess => Some(Processing)
    case ClearedStatus => Some(if n.spec.success == Completed then Completed else Cleared)
    case CompletedStatus => Some(if n.spec.success == Completed then Completed else Cleared)
    case BlockedStatus => Some(Blocked)
    case DocumentMissingStatus => Some(NodeState.DocumentMissing)
    case StalledStatus => Some(Stalled)
    case RejectedStatus => Some(NodeState.Rejected)
    case WaitingForParentStatus => Some(WaitingForParent)
    case _ => None
  }

  /** The reason an authority's status gives for its state: its own words, or the documents it makes missing. */
  function ReasonFor(s: CaseState, status: AuthorityStatus, detail: string, types: seq<DocType>): Option<string> {
    match status
    case DocumentMissingStatus => Some(Titles(Marked(s.docs, s.catalogue, types)))
    case BlockedStatus => Some(detail)
    case RejectedStatus => Some(detail)
    case StalledStatus => Some(if detail == "" then "Not cleared yet" else detail)
    case _ => None
  }

  /** The documents an authority asks for: those it names, or else the first one the step requires, if any. */
  ghost predicate AskedFor(required: seq<DocType>, missing: seq<DocType>, types: seq<DocType>) {
    if missing != [] then types == missing
    else if required == [] then types == [] else types == [required[0]]
  }

  /** The step follows the authority's status exactly when the state table allows it; its request always records it. */
  lemma StatusOutcome(s: CaseState, r: nat, status: AuthorityStatus, detail: string, missing: seq<DocType>, now: Time)
    requires RowsLinked(s)
    ensures
      var t := ApplyStatus(s, r, status, detail, missing, now);
      && (r >= |s.requests| ==> t == s)
      && (r < |s.requests| ==>
            var i := s.requests[r].node;
            var n := s.nodes[i];
            var follows := StateFor(n, status).Some? && CanMove(n.state, StateFor(n, status).value);
            && t == s.(nodes := s.nodes[i := t.nodes[i]], status := t.status, docs := t.docs, outbox := t.outbox,
                       requests := s.requests[r := s.requests[r].(state := Reported(status))])
            && (forall types :: AskedFor(n.spec.requiredDocuments, missing, types) ==>
                  && Follows(s, t, i, StateFor(n, status), ReasonFor(s, status, detail, types),
                             if status == StalledStatus then SlaKind else NoStall, now)
                  && (status == DocumentMissingStatus ==> t.docs == MarkMissing(s.docs, s.catalogue, types)))
            && (status != DocumentMissingStatus && !(Successful(status) && follows) ==> t.docs == s.docs)
            && (Successful(status) && follows ==> t.docs == RegisterOutputs(s.docs, n.spec.outputs)))
  {
    hide ApplyToNode, MarkMissing, RegisterOutputs, CanMove, AskedFor, Follows, ReasonFor;
    if r < |s.requests| {
      var noted := s.(requests := s.requests[r := s.requests[r].(state := Reported(status))]);
      var i, t := s.requests[r].node, ApplyStatus(s, r, status, detail, missing, now);
      NodeStatusOutcome(noted, i, status, detail, missing, now);
      forall types | AskedFor(s.nodes[i].spec.requiredDocuments, missing, types)
        ensures Follows(s, t, i, StateFor(s.nodes[i], status), ReasonFor(s, status, detail, types),
                        if status == StalledStatus then SlaKind else NoStall, now)
      {
        SameFollows(s, noted, t, i, status, detail, types, now);
      }
    }
  }

  lemma SameFollows(s: CaseState, noted: CaseState, t: CaseState, i: nat, status: AuthorityStatus, detail: string,
                    types: seq<DocType>, now: Time)
    requires i < |s.nodes| && noted == s.(requests := noted.requests)
    requires Follows(noted, t, i, StateFor(s.nodes[i], status), ReasonFor(noted, status, detail, types),
                     if status == StalledStatus then SlaKind else NoStall, now)
    ensures Follows(s, t, i, StateFor(s.nodes[i], status), ReasonFor(s, status, detail, types),
                    if status == StalledStatus then SlaKind else NoStall, now)
  {
  }

  /** Node i, and no other, goes to the target state if it may, for the given reason, and stays as it was if not. */
  ghost predicate Follows(s: CaseState, t: CaseState, i: nat, target: Option<NodeState>, reason: Option<string>,
                          stall: StallKind, now: Time) {
    && i < |s.nodes| == |t.nodes| && s.outbox <= t.outbox
    && (if target.Some? && CanMove(s.nodes[i].state, target.value)
        then Became(s.nodes[i], t.nodes[i], target.value, reason, now)
             && (s.nodes[i].state != target.value ==>
                   Tells(s.outbox, t.outbox, NodeMoved(i, s.nodes[i].state, target.value, stall)))
        else t.nodes[i] == s.nodes[i] && t.outbox == s.outbox && t.status == s.status)
  }

  lemma NodeStatusOutcome(s: CaseState, i: nat, status: AuthorityStatus, detail: string, missing: seq<DocType>, now: Time)
    requires i < |s.nodes|
    ensures
      var t := ApplyToNode(s, i, status, detail, missing, now);
      var n := s.nodes[i];
      var follows := StateFor(n, status).Some? && CanMove(n.state, StateFor(n, status).value);
      && |t.nodes| == |s.nodes|
      && t == s.(nodes := s.nodes[i := t.nodes[i]], status := t.status, docs := t.docs, outbox := t.outbox)
      && (forall types :: AskedFor(n.spec.requiredDocuments, missing, types) ==>
            && Follows(s, t, i, StateFor(n, status), ReasonFor(s, status, detail, types),
                       if status == StalledStatus then SlaKind else NoStall, now)
            && (status == DocumentMissingStatus ==> t.docs == MarkMissing(s.docs, s.catalogue, types)))
      && (status != DocumentMissingStatus && !(Successful(status) && follows) ==> t.docs == s.docs)
      && (Successful(status) && follows ==> t.docs == RegisterOutputs(s.docs, n.spec.outputs))
  {
    hide TryTransition, CanMove, MarkMissing, Marked, Titles, RegisterOutputs, Tells, ApplySuccess, ApplyMissing, Became;
    match status {
      case InProcess => TryOutcome(s, i, Processing, None, NoStall, now);
      case ClearedStatus => SuccessOutcome(s, i, now);
      case CompletedStatus => SuccessOutcome(s, i, now);
      case DocumentMissingStatus =>
        var types := RequestedDocuments(s.nodes[i], missing);
        assert forall other :: AskedFor(s.nodes[i].spec.requiredDocuments, missing, other) ==> other == types;
        MissingOutcome(s, i, types, now);
      case BlockedStatus => TryOutcome(s, i, Blocked, Some(detail), NoStall, now);
      case StalledStatus =>
        TryOutcome(s, i, Stalled, Some(if detail == "" then "Not cleared yet" else detail), SlaKind, now);
      case RejectedStatus => TryOutcome(s, i, NodeState.Rejected, Some(detail), NoStall, now);
      case WaitingForParentStatus => TryOutcome(s, i, WaitingForParent, None, NoStall, now);
      case _ =>
    }
  }

  lemma SuccessOutcome(s: CaseState, i: nat, now: Time)
    requires i < |s.nodes|
    ensures
      var t := ApplySuccess(s, i, now);
      var target := if s.nodes[i].spec.success == Completed then Completed else Cleared;
      && |t.nodes| == |s.nodes|
      && t == s.(nodes := s.nodes[i := t.nodes[i]], status := t.status, docs := t.docs, outbox := t.outbox)
      && Follows(s, t, i, Some(target), None, NoStall, now)
      && t.docs == if CanMove(s.nodes[i].state, target) then RegisterOutputs(s.docs, s.nodes[i].spec.outputs) else s.docs
  {
    hide TryTransition, CanMove, RegisterOutputs, Tells, Became;
    TryOutcome(s, i, SuccessTarget(s.nodes[i]), None, NoStall, now);
  }

  lemma MissingOutcome(s: CaseState, i: nat, types: seq<DocType>, now: Time)
    requires i < |s.nodes|
    ensures
      var t := ApplyMissing(s, i, types, now);
      && |t.nodes| == |s.nodes|
      && t == s.(nodes := s.nodes[i := t.nodes[i]], status := t.status, docs := t.docs, outbox := t.outbox)
      && Follows(s, t, i, Some(NodeState.DocumentMissing), Some(Titles(Marked(s.docs, s.catalogue, types))), NoStall, now)
      && t.docs == MarkMissing(s.docs, s.catalogue, types)
  {
    hide TryTransition, CanMove, MarkMissing, Marked, Titles, Tells, Became;
    TryOutcome(s.(docs := MarkMissing(s.docs, s.catalogue, types)), i, NodeState.DocumentMissing,
               Some(Titles(Marked(s.docs, s.catalogue, types))), NoStall, now);
  }

  lemma TryOutcome(s: CaseState, i: nat, target: NodeState, reason: Option<string>, stall: StallKind, now: Time)
    requires i < |s.nodes| && target != Pending
    ensures
      var (t, moved) := TryTransition(s, i, target, reason, stall, now);
      && (moved <==> CanMove(s.nodes[i].state, target)) && (!moved ==> t == s)
      && |t.nodes| == |s.nodes| && s.outbox <= t.outbox
      && t == s.(nodes := s.nodes[i := t.nodes[i]], status := t.status, outbox := t.outbox)
      && (moved ==>
            && Became(s.nodes[i], t.nodes[i], target, reason, now)
            && (s.nodes[i].state != target ==>
                  Tells(s.outbox, t.outbox, NodeMoved(i, s.nodes[i].state, target, stall))))
  {
    hide Transition, CanMove, Tells, Became;
    Moved(s, i, target, reason, stall, now);
  }

  // --- the document centre ---

  /** Node i waits for documents it lacks, or is a filing whose old approval is still undecided. */
  predicate StillWaits(s: CaseState, i: nat)
    requires i < |s.nodes|
  {
    s.nodes[i].state == NodeState.DocumentMissing
    && (!InHand(s, i) || (s.nodes[i].spec.kind == EntityFiling && HasPending(s, i)))
  }

  /** Where a node that may stop waiting goes: the parent's step back to the parent, a filing to the officer. */
  ghost predicate Resumed(s: CaseState, t: CaseState, i: nat)
    requires i < |s.nodes| == |t.nodes|
  {
    if s.nodes[i].state != NodeState.DocumentMissing || StillWaits(s, i) then t.nodes[i] == s.nodes[i]
    else if s.nodes[i].spec.kind == ParentReported then t.nodes[i].state == WaitingForParent
    else t.nodes[i].state == WaitingForHuman && t.nodes[i].approvalState == Some(Undecided)
  }

  /** Every node that now has its documents has stopped waiting for them, and no other node has moved. */
  ghost predicate AllResumed(s: CaseState, t: CaseState) {
    && |t.nodes| == |s.nodes| && s.approvals <= t.approvals && s.outbox <= t.outbox
    && t == s.(nodes := t.nodes, status := t.status, outbox := t.outbox, approvals := t.approvals)
    && forall i :: 0 <= i < |s.nodes| ==> Resumed(s, t, i)
  }

  /**
   * An upload is accepted exactly for a document of the case that the authority has not issued. It takes every node
   * that now has its documents out of DOCUMENT_MISSING, except a filing with an approval left over from before.
   */
  lemma UploadOutcome(s: CaseState, d: DocType, now: Time)
    ensures
      var r := Upload(s, d, now);
      var issued := d in s.docs && s.docs[d] == Document(Uploaded, GovernmentMock)
                    && exists i :: 0 <= i < |s.nodes| && d in s.nodes[i].spec.outputs;
      && (r.Success? <==> d in s.docs && !issued)
      && (r.Failure? ==> r.error == if d in s.docs then Conflict else NotFound)
      && (r.Success? ==>
            AllResumed(s.(docs := s.docs[d := Document(Uploaded, Resident)],
                          outbox := s.outbox + [OutboxRow(DocumentUploaded(d), None)]), r.value)
            && forall i :: 0 <= i < |s.nodes| ==>
                 (r.value.nodes[i].state == NodeState.DocumentMissing <==>
                    StillWaits(s.(docs := s.docs[d := Document(Uploaded, Resident)]), i)))
  {
    hide ResumeAfterDocuments, InHand, HasPending;
    if d in s.docs {
      var held := s.(docs := s.docs[d := Document(Uploaded, Resident)]);
      var stored := Emit(held, DocumentUploaded(d));
      ResumeOutcome(stored, |s.nodes|, now);
      EmittingKeepsWaits(held, DocumentUploaded(d));
    }
  }

  lemma EmittingKeepsWaits(s: CaseState, event: Event)
    ensures forall i: nat :: i < |s.nodes| ==> (StillWaits(Emit(s, event), i) <==> StillWaits(s, i))
  {
  }

  /** A check is accepted exactly for an uploaded document; it is verified afterwards, and nothing else changes. */
  lemma VerifyOutcome(s: CaseState, d: DocType, officer: Officer)
    ensures
      Verify(s, d, officer) ==
        if !officer.officiates then Failure(Forbidden)
        else if d !in s.docs then Failure(NotFound)
        else if s.docs[d].status != Uploaded then Failure(ValidationFailed)
        else Success(s.(docs := s.docs[d := Document(Verified, s.docs[d].source)],
                        outbox := s.outbox + [OutboxRow(DocumentVerified(d), None)]))
  {
  }

  /** An officer's status is taken as it is, and one that may help a waiting node lets all of them look again. */
  lemma SetStatusOutcome(s: CaseState, d: DocType, status: DocumentStatus, officer: Officer, now: Time)
    ensures
      var r := SetStatus(s, d, status, officer, now);
      && (r.Success? <==> officer.officiates && d in s.docs)
      && (r.Failure? ==> r.error == if officer.officiates then NotFound else Forbidden)
      && (r.Success? ==>
            var changed := s.(docs := s.docs[d := Document(status, s.docs[d].source)]);
            if status in {Uploaded, Verified, NotApplicable} then AllResumed(changed, r.value) else r.value == changed)
  {
    hide ResumeAfterDocuments, StillWaits;
    if d in s.docs {
      ResumeOutcome(s.(docs := s.docs[d := s.docs[d].(status := status)]), |s.nodes|, now);
    }
  }

  lemma SameWait(s: CaseState, t: CaseState, i: nat)
    requires i < |s.nodes| == |t.nodes| && t.nodes[i] == s.nodes[i] && t.docs == s.docs
    requires HasPending(t, i) <==> HasPending(s, i)
    ensures StillWaits(t, i) <==> StillWaits(s, i)
  {
  }

  /** The pending approvals of the other nodes are as before. */
  ghost predicate OthersPending(s: CaseState, t: CaseState, i: nat) {
    forall j: nat :: j != i ==> (HasPending(t, j) <==> HasPending(s, j))
  }

  lemma ResumeOneOutcome(s: CaseState, i: nat, now: Time)
    requires i < |s.nodes|
    ensures
      var r := Resume(s, i, now);
      && r.Success? && Touches(s, r.value, i) && OthersPending(s, r.value, i) && s.approvals <= r.value.approvals
      && r.value == s.(nodes := r.value.nodes, status := r.value.status, outbox := r.value.outbox,
                       approvals := r.value.approvals)
      && Resumed(s, r.value, i)
      && (r.value.nodes[i].state == NodeState.DocumentMissing <==> StillWaits(s, i))
  {
    hide Transition, RequestApproval, MissingForNode, InHand;
    MissingNothingIff(s, i);
    if s.nodes[i].state == NodeState.DocumentMissing && InHand(s, i) {
      if s.nodes[i].spec.kind == ParentReported {
        TransitionSucceeds(s, i, WaitingForParent, None, NoStall, now);
      } else {
        RequestApprovalOutcome(s, i, now);
        AppendedPending(s, RequestApproval(s, i, now).value, i);
      }
    }
  }

  lemma AppendedPending(s: CaseState, t: CaseState, i: nat)
    requires t.approvals == s.approvals || t.approvals == s.approvals + [Approval(i, Undecided, None)]
    ensures OthersPending(s, t, i)
  {
    forall j: nat | j != i ensures HasPending(t, j) <==> HasPending(s, j) {
      if HasPending(s, j) {
        var a :| 0 <= a < |s.approvals| && s.approvals[a].node == j && s.approvals[a].state == Undecided;
        assert t.approvals[a] == s.approvals[a];
      }
    }
  }

  lemma {:induction false} ResumeOutcome(s: CaseState, k: nat, now: Time)
    requires k <= |s.nodes|
    ensures
      var r := ResumeAfterDocuments(s, k, now);
      && r.Success? && |r.value.nodes| == |s.nodes| && s.approvals <= r.value.approvals && s.outbox <= r.value.outbox
      && r.value == s.(nodes := r.value.nodes, status := r.value.status, outbox := r.value.outbox,
                       approvals := r.value.approvals)
      && (forall i :: 0 <= i < k ==>
            Resumed(s, r.value, i) && (r.value.nodes[i].state == NodeState.DocumentMissing <==> StillWaits(s, i)))
      && (forall i: nat :: k <= i < |s.nodes| ==>
            r.value.nodes[i] == s.nodes[i] && (HasPending(r.value, i) <==> HasPending(s, i)))
  {
    hide Resume, StillWaits, HasPending;
    if k > 0 {
      ResumeOutcome(s, k - 1, now);
      var before := ResumeAfterDocuments(s, k - 1, now).value;
      ResumeOneOutcome(before, k - 1, now);
      SameWait(s, before, k - 1);
    }
  }

  // --- the consulate ---

  /** The state a milestone puts the consulate step into. */
  predicate MeansState(m: Milestone, state: NodeState) {
    match m
    case AppointmentBooked => state == WaitingForParent
    case ApplicationSubmitted => state == Processing
    case PassportIssued => state == Completed
    case Delayed => state == Stalled
  }

  /** The documents after a milestone: an issued child passport not in hand is asked for, and no longer missing. */
  ghost predicate DocsAfterReport(before: map<DocType, Document>, after: map<DocType, Document>, m: Milestone) {
    after == if m == PassportIssued && CHILD_PASSPORT in before && before[CHILD_PASSPORT].status in {Required, Missing}
             then before[CHILD_PASSPORT := Document(Required, before[CHILD_PASSPORT].source)] else before
  }

  /** A milestone is accepted exactly while the step is open to the parent, and the passport only with its number. */
  lemma ReportOutcome(s: CaseState, m: Milestone, present: bool, now: Time)
    requires RowsLinked(s)
    ensures
      var r := ReportMilestone(s, m, present, now);
      var listening := s.consulate.Some? && s.nodes[s.consulate.value].state in {WaitingForParent, Processing, Stalled};
      && (r.Success? <==> listening && (m == PassportIssued ==> present))
      && (r.Failure? ==> r.error == if listening then ValidationFailed else Conflict)
      && (r.Success? ==> Reports(s, r.value, s.consulate.value, m, present))
  {
    hide MoveOnReport, Reports;
    if s.consulate.Some? && OpenToReports(s.nodes[s.consulate.value].state) && (m == PassportIssued ==> present) {
      var i := s.consulate.value;
      var noted := NoteReport(s, i, MilestoneReport(m, present));
      MoveOnReportOutcome(noted, i, m, now);
      LastTold(s.outbox, ConsulateMilestoneReported(m));
      ReportedAll(s, noted, MoveOnReport(noted, i, m, now).value, i, m, present);
    }
  }

  /** The report is the last of node i, the node is in its state, and a delay is escalated. */
  ghost predicate Reports(s: CaseState, t: CaseState, i: nat, m: Milestone, present: bool) {
    && i < |s.nodes| == |t.nodes| && s.outbox <= t.outbox
    && t == s.(nodes := s.nodes[i := t.nodes[i]], status := t.status, docs := t.docs, escalations := t.escalations,
               outbox := t.outbox)
    && MeansState(m, t.nodes[i].state) && t.nodes[i].reports == s.nodes[i].reports + [MilestoneReport(m, present)]
    && DocsAfterReport(s.docs, t.docs, m)
    && t.escalations == (if m == Delayed && !OpenFor(s, ConsulateStall, Some(i))
                         then s.escalations + [Escalation(ConsulateStall, Some(i), Open)] else s.escalations)
    && Tells(s.outbox, t.outbox, ConsulateMilestoneReported(m))
    && (s.nodes[i].state != t.nodes[i].state ==>
          Tells(s.outbox, t.outbox, NodeMoved(i, s.nodes[i].state, t.nodes[i].state,
                                              if m == Delayed then ConsulateKind else NoStall)))
  }

  lemma ReportedAll(s: CaseState, noted: CaseState, t: CaseState, i: nat, m: Milestone, present: bool)
    requires i < |s.nodes| && noted == NoteReport(s, i, MilestoneReport(m, present))
    requires MovedOn(noted, t, i, m) && Tells(s.outbox, noted.outbox, ConsulateMilestoneReported(m))
    ensures Reports(s, t, i, m, present)
  {
    hide Tells;
    ToldBetween(s.outbox, noted.outbox, t.outbox, ConsulateMilestoneReported(m));
    if s.nodes[i].state != t.nodes[i].state {
      ToldBetween(s.outbox, noted.outbox, t.outbox,
                  NodeMoved(i, s.nodes[i].state, t.nodes[i].state, if m == Delayed then ConsulateKind else NoStall));
    }
  }

  ghost predicate MovedOn(s: CaseState, t: CaseState, i: nat, m: Milestone) {
    && i < |s.nodes| == |t.nodes| && s.outbox <= t.outbox
    && t == s.(nodes := s.nodes[i := t.nodes[i]], status := t.status, docs := t.docs, escalations := t.escalations,
               outbox := t.outbox)
    && MeansState(m, t.nodes[i].state) && t.nodes[i].reports == s.nodes[i].reports
    && DocsAfterReport(s.docs, t.docs, m)
    && t.escalations == (if m == Delayed && !OpenFor(s, ConsulateStall, Some(i))
                         then s.escalations + [Escalation(ConsulateStall, Some(i), Open)] else s.escalations)
    && (s.nodes[i].state != t.nodes[i].state ==>
          Tells(s.outbox, t.outbox, NodeMoved(i, s.nodes[i].state, t.nodes[i].state,
                                              if m == Delayed then ConsulateKind else NoStall)))
  }

  lemma DelayOutcome(s: CaseState, i: nat, now: Time)
    requires i < |s.nodes| && OpenToReports(s.nodes[i].state)
    ensures MoveOnReport(s, i, Delayed, now).Success? && MovedOn(s, MoveOnReport(s, i, Delayed, now).value, i, Delayed)
  {
    hide Transition, Escalate, Tells, ExpectPassport;
    var why := Some("Parent reports no progress at the consulate");
    TransitionSucceeds(s, i, Stalled, why, ConsulateKind, now);
    var moved := Transition(s, i, Stalled, why, ConsulateKind, now).value;
    EscalateOutcome(moved, ConsulateStall, Some(i), false);
    assert OpenFor(moved, ConsulateStall, Some(i)) <==> OpenFor(s, ConsulateStall, Some(i));
    var t := Escalate(moved, ConsulateStall, Some(i), false);
    if s.nodes[i].state != Stalled {
      ToldBetween(s.outbox, moved.outbox, t.outbox, NodeMoved(i, s.nodes[i].state, Stalled, ConsulateKind));
    }
  }

  lemma MoveOnReportOutcome(s: CaseState, i: nat, m: Milestone, now: Time)
    requires i < |s.nodes| && OpenToReports(s.nodes[i].state)
    ensures
      var r := MoveOnReport(s, i, m, now);
      r.Success? && MovedOn(s, r.value, i, m)
  {
    hide Transition, Escalate, Tells;
    if m == Delayed {
      DelayOutcome(s, i, now);
    } else if MilestoneState(m) != s.nodes[i].state {
      TransitionSucceeds(s, i, MilestoneState(m), None, NoStall, now);
    }
  }

  // --- escalations ---

  /** At most one escalation is open for each reason and node. */
  ghost predicate OpenOnce(escalations: seq<Escalation>) {
    forall j, k :: 0 <= j < k < |escalations| && escalations[j].status != Resolved && escalations[k].status != Resolved
      ==> (escalations[j].reason, escalations[j].node) != (escalations[k].reason, escalations[k].node)
  }

  /** Opening an escalation leaves one open for its reason and node, adding a row only when there was none. */
  lemma EscalateOutcome(s: CaseState, reason: EscalationReason, node: Option<nat>, warm: bool)
    ensures
      var t := Escalate(s, reason, node, warm);
      && OpenFor(t, reason, node) && (OpenOnce(s.escalations) ==> OpenOnce(t.escalations))
      && (OpenFor(s, reason, node) ==> t == s)
      && (!OpenFor(s, reason, node) ==>
            && t == s.(status := t.status, outbox := t.outbox,
                       escalations := s.escalations + [Escalation(reason, node, Open)])
            && s.outbox < t.outbox && t.outbox[|s.outbox|].event == HumanEscalationRequired(|s.escalations|, warm))
  {
    if !OpenFor(s, reason, node) {
      var raised := s.(escalations := s.escalations + [Escalation(reason, node, Open)]);
      RefreshOnlyEmits(Emit(raised, HumanEscalationRequired(|s.escalations|, warm)));
      assert raised.escalations[|s.escalations|] == Escalation(reason, node, Open);
    }
  }

  /** An escalation is resolved exactly while it is not, by an entitled officer. */
  lemma ResolveOutcome(s: CaseState, k: nat, officer: Officer)
    ensures
      var r := Resolve(s, k, officer);
      && (r.Success? <==>
            k < |s.escalations| && officer.officiates
            && s.escalations[k].status in {Open, EscalationStatus.InProgress})
      && (r.Failure? ==>
            r.error == if k >= |s.escalations| then NotFound else if !officer.officiates then Forbidden else Conflict)
      && (r.Success? ==>
            var t := r.value;
            && t == s.(status := t.status, outbox := t.outbox,
                       escalations := s.escalations[k := Escalation(s.escalations[k].reason, s.escalations[k].node, Resolved)])
            && s.outbox < t.outbox && t.outbox[|s.outbox|].event == EscalationResolved(k))
  {
    if k < |s.escalations| {
      var resolved := s.(escalations := s.escalations[k := s.escalations[k].(status := Resolved)]);
      RefreshOnlyEmits(Emit(resolved, EscalationResolved(k)));
    }
  }

  /** An escalation may be taken, whatever its status, by an entitled officer; it is in progress then. */
  lemma TakeOutcome(s: CaseState, k: nat, officer: Officer)
    ensures
      Take(s, k, officer) ==
        if k >= |s.escalations| then Failure(NotFound)
        else if !officer.officiates then Failure(Forbidden)
        else Success(s.(escalations := s.escalations[k := Escalation(s.escalations[k].reason, s.escalations[k].node,
                                                                     EscalationStatus.InProgress)]))
  {
  }

  /** Taking an escalation keeps them unrepeated exactly when it does not reopen a resolved one beside an open one. */
  lemma TakeKeepsOpenOnceIff(s: CaseState, k: nat, officer: Officer)
    requires OpenOnce(s.escalations) && Take(s, k, officer).Success?
    ensures k < |s.escalations|
    ensures OpenOnce(Take(s, k, officer).value.escalations) <==>
              s.escalations[k].status != Resolved || !OpenFor(s, s.escalations[k].reason, s.escalations[k].node)
  {
    var t := Take(s, k, officer).value;
    if s.escalations[k].status == Resolved && OpenFor(s, s.escalations[k].reason, s.escalations[k].node) {
      var j :| 0 <= j < |s.escalations| && s.escalations[j].reason == s.escalations[k].reason
               && s.escalations[j].node == s.escalations[k].node && s.escalations[j].status != Resolved;
      assert t.escalations[j] == s.escalations[j] && t.escalations[k].status == InProgress;
      if j < k { assert !OpenOnce(t.escalations); } else { assert !OpenOnce(t.escalations); }
    }
  }

  // --- the watchdog ---

  /** The pass stalls a node that is filed or in process past its due date, and leaves every other as it is. */
  ghost predicate StalledIfOverdue(s: CaseState, t: CaseState, i: nat, now: Time)
    requires i < |s.nodes| == |t.nodes|
  {
    if s.nodes[i].state in {Submitted, Processing} && s.nodes[i].slaDueAt.Some? && s.nodes[i].slaDueAt.value < now
    then t.nodes[i].state == Stalled && Tells(s.outbox, t.outbox, NodeMoved(i, s.nodes[i].state, Stalled, SlaKind))
    else t.nodes[i] == s.nodes[i]
  }

  lemma {:induction false} StallOverdueOutcome(s: CaseState, k: nat, now: Time)
    requires k <= |s.nodes|
    ensures
      var r := StallOverdue(s, k, now);
      && r.Success? && |r.value.nodes| == |s.nodes| && s.outbox <= r.value.outbox
      && r.value == s.(nodes := r.value.nodes, status := r.value.status, outbox := r.value.outbox)
      && (forall i :: 0 <= i < k ==> StalledIfOverdue(s, r.value, i, now))
      && (forall i :: k <= i < |s.nodes| ==> r.value.nodes[i] == s.nodes[i])
  {
    hide StallIfOverdue, StalledIfOverdue;
    if k > 0 {
      StallOverdueOutcome(s, k - 1, now);
      var before := StallOverdue(s, k - 1, now).value;
      StallIfOverdueOutcome(before, k - 1, now);
      var t := StallOverdue(s, k, now).value;
      forall j | 0 <= j < k ensures StalledIfOverdue(s, t, j, now) { StaysStalled(s, before, t, j, k - 1, now); }
    }
  }

  lemma StallIfOverdueOutcome(s: CaseState, i: nat, now: Time)
    requires i < |s.nodes|
    ensures
      var r := StallIfOverdue(s, i, now);
      && r.Success? && |r.value.nodes| == |s.nodes| && s.outbox <= r.value.outbox
      && r.value == s.(nodes := s.nodes[i := r.value.nodes[i]], status := r.value.status, outbox := r.value.outbox)
      && StalledIfOverdue(s, r.value, i, now)
  {
    hide Transition, Tells, Became;
    if Overdue(s.nodes[i], now) {
      TransitionSucceeds(s, i, Stalled, Some("Past the expected hours - not cleared yet"), SlaKind, now);
    }
  }

  lemma StaysStalled(s: CaseState, m: CaseState, t: CaseState, j: nat, i: nat, now: Time)
    requires i < |s.nodes| == |m.nodes| == |t.nodes| && j <= i && s.outbox <= m.outbox <= t.outbox
    requires m.nodes[i] == s.nodes[i] && t.nodes == m.nodes[i := t.nodes[i]]
    requires if j == i then StalledIfOverdue(m, t, i, now) else StalledIfOverdue(s, m, j, now)
    ensures StalledIfOverdue(s, t, j, now)
  {
    hide Tells;
    if t.nodes[j] != s.nodes[j] {
      ToldBetween(s.outbox, m.outbox, t.outbox, NodeMoved(j, s.nodes[j].state, Stalled, SlaKind));
    }
  }

  /**
   * A watchdog pass never fails: it stalls exactly the overdue nodes, and escalates a consulate that is silent exactly
   * when the step is with the parent or the consulate and nothing has been reported.
   */
  lemma WatchdogOutcome(s: CaseState, silent: bool, now: Time)
    requires RowsLinked(s)
    ensures
      var r := Watchdog(s, silent, now);
      && r.Success? && |r.value.nodes| == |s.nodes| && s.outbox <= r.value.outbox
      && r.value == s.(nodes := r.value.nodes, status := r.value.status, outbox := r.value.outbox,
                       escalations := r.value.escalations)
      && (forall i :: 0 <= i < |s.nodes| ==> StalledIfOverdue(s, r.value, i, now))
      && r.value.escalations ==
           (if s.consulate.Some? && r.value.nodes[s.consulate.value].state in {WaitingForParent, Processing}
               && s.nodes[s.consulate.value].reports == [] && silent && !OpenFor(s, ConsulateStall, s.consulate)
            then s.escalations + [Escalation(ConsulateStall, s.consulate, Open)] else s.escalations)
  {
    hide StallOverdue, Escalate, Tells;
    StallOverdueOutcome(s, |s.nodes|, now);
    var stalled := StallOverdue(s, |s.nodes|, now).value;
    EscalateOutcome(stalled, ConsulateStall, s.consulate, false);
    assert OpenFor(stalled, ConsulateStall, s.consulate) <==> OpenFor(s, ConsulateStall, s.consulate);
    var t := Watchdog(s, silent, now).value;
    if s.consulate.Some? { assert StalledIfOverdue(s, stalled, s.consulate.value, now); }
    forall i | 0 <= i < |s.nodes| ensures StalledIfOverdue(s, t, i, now) {
      assert StalledIfOverdue(s, stalled, i, now);
      if stalled.nodes[i] != s.nodes[i] {
        ToldBetween(s.outbox, stalled.outbox, t.outbox, NodeMoved(i, s.nodes[i].state, Stalled, SlaKind));
      }
    }
  }

  // --- consumers ---

  /** The topic of every event. */
  lemma TopicOfEvent(e: Event)
    ensures
      TopicOf(e) ==
        if e.CallbackRequired? || e.CallbackScheduled? || e.CallbackBlocked? then CaseCallbacks
        else if e.EntityRequestReleased? then EntityRequests
        else if e.EntityStatusReceived? then EntityStatuses
        else if e.NotificationRequested? then Notifications
        else CaseEvents
  {
  }

  /** Who is told of what. */
  lemma ConsumersOf(c: Consumer, e: Event)
    ensures Registered(c, e) <==>
              match c {
                case Orchestrator => e.IntakeCompleted? || e.HumanEscalationRequired? || e.CaseCompleted? || e.NodeMoved?
                case GraphProjection =>
                  e.CaseCreated? || e.IntakeCompleted? || e.CaseStatusChanged? || e.CaseCompleted? || e.NodeMoved?
                  || e.ConsulateMilestoneReported? || e.DocumentUploaded? || e.DocumentVerified?
                  || e.HumanEscalationRequired? || e.EscalationResolved?
                case CallbackScheduler => e.CallbackRequired?
                case EntitySubmitter => e.EntityRequestReleased?
                case EntityStatusApplier => e.EntityStatusReceived?
                case Notifier => e.NotificationRequested?
              }
  {
  }

  /** The rows the callback engine's decision leaves in the case's outbox. */
  function NewsOf(outcome: CallbackOutcome): seq<OutboxRow> {
    match outcome
    case Scheduled => [OutboxRow(CallbackScheduled, None)]
    case Coalesced => []
    case SentBySms => [OutboxRow(NotificationRequested, None), OutboxRow(CallbackBlocked, None)]
    case NoConsent => [OutboxRow(CallbackBlocked, None)]
  }

  lemma RecordCallbackOutcome(s: CaseState, outcome: CallbackOutcome)
    ensures RecordCallback(s, outcome) == s.(outbox := s.outbox + NewsOf(outcome))
  {
    if outcome == SentBySms {
      assert s.outbox + NewsOf(outcome) ==
             s.outbox + [OutboxRow(NotificationRequested, None)] + [OutboxRow(CallbackBlocked, None)];
    } else if outcome == Coalesced {
      assert s.outbox + NewsOf(outcome) == s.outbox;
    }
  }

  /** A delivery is refused to a consumer not registered, acknowledged if receipted, and else handled with its receipt. */
  lemma DeliverOutcome(s: CaseState, c: Consumer, e: nat, input: FullInput)
    requires RowsLinked(s)
    ensures
      var r := Deliver(s, c, e, input);
      && (e >= |s.outbox| || !Registered(c, s.outbox[e].event) ==> r == Failure(NotFound))
      && (e < |s.outbox| && Registered(c, s.outbox[e].event) && (c, e) in s.receipts ==> r == Success(s))
      && (e < |s.outbox| && Registered(c, s.outbox[e].event) && (c, e) !in s.receipts ==>
            var event := s.outbox[e].event;
            match c {
              case Orchestrator => SameButReceipt(Orchestrate(s, e, input.now), r, c, e)
              case EntitySubmitter => SameButReceipt(Submit(s, event.request, input.replies, input.now), r, c, e)
              case EntityStatusApplier =>
                r == Success(ApplyStatus(s, event.request, event.status, event.detail, event.missing, input.now)
                             .(receipts := s.receipts + {(c, e)}))
              case CallbackScheduler =>
                r == Success(s.(receipts := s.receipts + {(c, e)}, outbox := s.outbox + NewsOf(input.outcome)))
              case _ => r == Success(s.(receipts := s.receipts + {(c, e)}))
            })
  {
    hide Orchestrate, Submit, ApplyToNode, RecordCallback;
    if e < |s.outbox| {
      ConsumersOf(c, s.outbox[e].event);
      RecordCallbackOutcome(s, input.outcome);
      if Registered(c, s.outbox[e].event) && c == EntityStatusApplier { CaseTargets.HandleTo(s, c, e, input); }
    }
  }

  ghost predicate SameButReceipt(handled: Result<CaseState>, r: Result<CaseState>, c: Consumer, e: nat) {
    if handled.Success? then r == Success(handled.value.(receipts := handled.value.receipts + {(c, e)})) else r == handled
  }
}
