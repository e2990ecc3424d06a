/** The parts services are made of, each shown to keep the invariant and to change the case soundly. */
module CaseSteps {
  import opened Wrappers
  import opened StateMachine
  import opened LifeEventGraph
  import opened CaseModel
  import opened CaseServices
  import opened CaseEvolution
  import opened CaseInvariants

  // --- reading the invariant ---

  lemma InvRows(s: CaseState, busy: Option<nat>)
    requires Inv(s, busy)
    ensures RowsLinked(s) && ConsulateOk(s) && RequestsOk(s) && StatusesOk(s)
  {
  }

  lemma InvApproval(s: CaseState, busy: Option<nat>, a: nat)
    requires Inv(s, busy) && a < |s.approvals|
    ensures s.approvals[a].node < |s.nodes| && s.nodes[s.approvals[a].node].state != Pending
  {
  }

  lemma InvRequest(s: CaseState, busy: Option<nat>, r: nat)
    requires Inv(s, busy) && r < |s.requests|
    ensures RowsLinked(s) && RequestOk(s, r)
    ensures s.requests[r].node < |s.nodes| && s.nodes[s.requests[r].node].state != Pending
  {
  }

  lemma InvEvent(s: CaseState, busy: Option<nat>, e: nat)
    requires Inv(s, busy) && e < |s.outbox|
    ensures EventOk(s, s.outbox[e].event)
  {
  }

  // --- refreshing the case status ---

  /** The case status may lag behind the nodes, but not contradict them. */
  ghost predicate CompletionDue(s: CaseState) {
    && s.status != Intake && s.status != Closed
    && (s.status == AllComplete ==> AllDone(s.nodes))
    && (s.status == AllComplete <==> KeyUsed(s.outbox, Some(CaseCompletedKey)))
    && (forall e :: 0 <= e < |s.outbox| ==>
          (s.outbox[e].event.CaseCompleted? <==> s.outbox[e].key == Some(CaseCompletedKey)))
  }

  lemma KeyUsedAppend(outbox: seq<OutboxRow>, row: OutboxRow, key: Option<IdempotencyKey>)
    ensures KeyUsed(outbox + [row], key) <==> KeyUsed(outbox, key) || (key.Some? && row.key == key)
  {
    if KeyUsed(outbox, key) {
      var e :| 0 <= e < |outbox| && outbox[e].key == key;
      assert (outbox + [row])[e].key == key;
    }
    if key.Some? && row.key == key {
      assert (outbox + [row])[|outbox|].key == key;
    }
  }

  lemma RefreshCompletes(s: CaseState)
    requires CompletionDue(s) && KeysOnce(s.outbox)
    ensures CompletionOk(Refresh(s)) && KeysOnce(Refresh(s).outbox)
  {
    var status := DerivedStatus(s);
    var changed := OutboxRow(CaseStatusChanged(s.status, status), None);
    KeyUsedAppend(s.outbox, changed, Some(CaseCompletedKey));
    KeyUsedAppend(s.outbox + [changed], OutboxRow(CaseCompleted, Some(CaseCompletedKey)), Some(CaseCompletedKey));
  }

  // --- transitions ---

  lemma StampKeepsRecord(n: Node, target: NodeState, reason: Option<string>, now: Time)
    requires RecordOk(n) && CanMove(n.state, target)
    ensures RecordOk(Stamp(n, target, reason, now))
  {
  }

  lemma TransitionCompletes(s: CaseState, i: nat, target: NodeState, reason: Option<string>, stall: StallKind, now: Time)
    requires i < |s.nodes| && CompletionOk(s) && KeysOnce(s.outbox)
    requires Transition(s, i, target, reason, stall, now).Success?
    ensures CompletionOk(Transition(s, i, target, reason, stall, now).value)
    ensures KeysOnce(Transition(s, i, target, reason, stall, now).value.outbox)
  {
    var moved := Stamp(s.nodes[i], target, reason, now);
    var row := OutboxRow(NodeMoved(i, s.nodes[i].state, target, stall), None);
    var stamped := s.(nodes := s.nodes[i := moved], outbox := s.outbox + [row]);
    if CanMove(s.nodes[i].state, target) {
      hide Refresh, Stamp;
      assert moved.state == target by { StampState(s.nodes[i], target, reason, now); }
      KeyUsedAppend(s.outbox, row, Some(CaseCompletedKey));
      assert CompletionDue(stamped);
      RefreshCompletes(stamped);
    }
  }

  lemma StampState(n: Node, target: NodeState, reason: Option<string>, now: Time)
    ensures var m := Stamp(n, target, reason, now);
            m.state == target && m.spec == n.spec && m.attempts == n.attempts && m.reports == n.reports
            && m.approvalState == n.approvalState
  {
  }

  /** Only node i may change, and neither its template columns nor its counters. */
  ghost predicate MovesNode(s: CaseState, t: CaseState, i: nat)
    requires i < |s.nodes|
  {
    && |t.nodes| == |s.nodes|
    && t == s.(nodes := s.nodes[i := t.nodes[i]], status := t.status, outbox := t.outbox)
    && t.nodes[i].spec == s.nodes[i].spec && t.nodes[i].attempts == s.nodes[i].attempts
    && t.nodes[i].reports == s.nodes[i].reports
    && s.outbox <= t.outbox
    && (forall e :: |s.outbox| <= e < |t.outbox| ==> StatusNews(t.outbox[e].event) || t.outbox[e].event.NodeMoved?)
  }

  lemma TransitionMovesNode(s: CaseState, i: nat, target: NodeState, reason: Option<string>, stall: StallKind, now: Time)
    requires i < |s.nodes| && (target == Pending ==> s.nodes[i].state == Pending)
    requires Transition(s, i, target, reason, stall, now).Success?
    ensures
      var t := Transition(s, i, target, reason, stall, now).value;
      && MovesNode(s, t, i) && Evolves(s, t) && t.nodes[i].state == target
      && (RecordOk(s.nodes[i]) ==> RecordOk(t.nodes[i]))
  {
    hide Transition, Stamp, RecordOk, Evolves;
    var t := Transition(s, i, target, reason, stall, now).value;
    TransitionMoves(s, i, target, reason, stall, now);
    TransitionEvolves(s, i, target, reason, stall, now);
    StampState(s.nodes[i], target, reason, now);
    if RecordOk(s.nodes[i]) && CanMove(s.nodes[i].state, target) {
      StampKeepsRecord(s.nodes[i], target, reason, now);
    }
  }

  lemma MoveKeepsGate(s: CaseState, t: CaseState, i: nat, busy: Option<nat>)
    requires RowsLinked(s) && i < |s.nodes| && MovesNode(s, t, i) && Evolves(s, t)
    requires Untouched(s) && Gated(s, busy) && Conserved(s) && DecisionsOk(s)
    requires t.nodes[i].state == WaitingForHuman ==> HasPending(s, i)
    ensures RowsLinked(t) && Untouched(t) && Conserved(t) && DecisionsOk(t)
    ensures Gated(t, if busy == Some(i) then None else busy)
  {
    forall j | 0 <= j < |s.nodes| ensures t.nodes[j].state == Pending ==> s.nodes[j].state == Pending {
      assert NodeEvolves(s, t, j);
    }
    forall j | 0 <= j < |t.nodes| && t.nodes[j].state == WaitingForHuman && (j == i || busy != Some(j))
      ensures HasPending(t, j)
    {
      assert HasPending(s, j);
      var a :| 0 <= a < |s.approvals| && s.approvals[a].node == j && s.approvals[a].state == Undecided;
      assert t.approvals[a].node == j;
    }
  }

  lemma MoveKeepsFilings(s: CaseState, t: CaseState, i: nat)
    requires RowsLinked(s) && RowsLinked(t) && i < |s.nodes| && MovesNode(s, t, i)
    requires RequestsOk(s) && StatusesOk(s) && EventsOk(s)
    ensures RequestsOk(t) && StatusesOk(t) && EventsOk(t)
  {
    forall r | 0 <= r < |t.requests| ensures RequestOk(t, r) { assert RequestOk(s, r); }
    forall e | 0 <= e < |t.outbox| ensures EventOk(t, t.outbox[e].event) {
      if e < |s.outbox| { assert t.outbox[e] == s.outbox[e] && EventOk(s, s.outbox[e].event); }
    }
  }

  lemma MoveKeepsProvenance(s: CaseState, t: CaseState, i: nat)
    requires RowsLinked(s) && i < |s.nodes| && MovesNode(s, t, i) && Evolves(s, t)
    requires StatusesOk(s) && StatusesOk(t) && ProvenanceOk(s)
    requires Done(t.nodes[i].state) ==> Justified(s, i)
    ensures ProvenanceOk(t)
  {
    forall j | 0 <= j < |t.nodes| && Done(t.nodes[j].state) ensures Justified(t, j) {
      assert Justified(s, j);
      if s.nodes[j].spec.kind == EntityFiling { EvidenceStays(s, t, j); }
    }
  }

  lemma DoneStays(s: CaseState, t: CaseState, i: nat)
    requires Within(|s.nodes|, s.edges) && Evolves(s, t) && DependenciesDone(s, i)
    ensures DependenciesDone(t, i)
  {
    forall e | e in t.edges && e.1 == i ensures Done(t.nodes[e.0].state) { assert NodeEvolves(s, t, e.0); }
  }

  lemma MoveIsSound(s: CaseState, t: CaseState, i: nat)
    requires Within(|s.nodes|, s.edges) && i < |s.nodes| && MovesNode(s, t, i) && Evolves(s, t)
    requires s.nodes[i].state != Pending || DependenciesDone(s, i)
    ensures Sound(s, t)
  {
    if s.nodes[i].state == Pending { DoneStays(s, t, i); }
  }

  lemma TransitionKeeps(s: CaseState, busy: Option<nat>, i: nat, target: NodeState, reason: Option<string>,
                        stall: StallKind, now: Time)
    returns (t: CaseState)
    requires Inv(s, busy) && i < |s.nodes| && Transition(s, i, target, reason, stall, now).Success?
    requires target != Pending
    requires target == WaitingForHuman ==> HasPending(s, i)
    requires Done(target) ==> Justified(s, i)
    ensures t == Transition(s, i, target, reason, stall, now).value
    ensures s.nodes[i].state != Pending || DependenciesDone(s, i) ==> Sound(s, t)
    ensures Evolves(s, t) && Inv(t, if busy == Some(i) then None else busy)
    ensures MovesNode(s, t, i) && t.nodes[i].state == target
  {
    hide Transition, Gated, Untouched, Conserved, DecisionsOk, RequestsOk, StatusesOk, EventsOk, CompletionOk, KeysOnce,
         Evolves, Sound, Justified, ProvenanceOk, RecordOk, DependenciesDone;
    t := Transition(s, i, target, reason, stall, now).value;
    TransitionMovesNode(s, i, target, reason, stall, now);
    TransitionCompletes(s, i, target, reason, stall, now);
    MoveKeepsGate(s, t, i, busy);
    MoveKeepsFilings(s, t, i);
    MoveKeepsProvenance(s, t, i);
    if s.nodes[i].state != Pending || DependenciesDone(s, i) { MoveIsSound(s, t, i); }
  }

  // --- changes that leave the gate and the filings alone ---

  ghost predicate Quiet(s: CaseState, t: CaseState) {
    && t.edges == s.edges && t.consulate == s.consulate
    && t.approvals == s.approvals && t.requests == s.requests && t.statuses == s.statuses
    && |t.nodes| == |s.nodes|
    && forall i :: 0 <= i < |s.nodes| ==>
         t.nodes[i].spec == s.nodes[i].spec && t.nodes[i].state == s.nodes[i].state
         && t.nodes[i].attempts == s.nodes[i].attempts
  }

  lemma QuietGate(s: CaseState, t: CaseState, busy: Option<nat>)
    requires Quiet(s, t) && RowsLinked(s)
    requires Untouched(s) && Gated(s, busy) && DecisionsOk(s) && Conserved(s) && ConsulateOk(s)
    ensures RowsLinked(t) && Untouched(t) && Gated(t, busy) && DecisionsOk(t) && Conserved(t) && ConsulateOk(t)
  {
    forall i | 0 <= i < |t.nodes| && t.nodes[i].state == WaitingForHuman && busy != Some(i) ensures HasPending(t, i) {
      assert HasPending(s, i);
    }
  }

  lemma QuietFilings(s: CaseState, t: CaseState)
    requires Quiet(s, t) && RowsLinked(s) && RowsLinked(t) && RequestsOk(s) && StatusesOk(s)
    ensures RequestsOk(t) && StatusesOk(t)
  {
    forall r | 0 <= r < |t.requests| ensures RequestOk(t, r) { assert RequestOk(s, r); }
  }

  lemma QuietEvents(s: CaseState, t: CaseState)
    requires Quiet(s, t) && EventsOk(s) && s.outbox <= t.outbox && t.receipts == s.receipts
    requires forall e :: |s.outbox| <= e < |t.outbox| ==> EventOk(s, t.outbox[e].event)
    ensures EventsOk(t)
  {
    forall e | 0 <= e < |t.outbox| ensures EventOk(t, t.outbox[e].event) {
      if e < |s.outbox| { assert t.outbox[e] == s.outbox[e]; }
      assert EventOk(s, t.outbox[e].event);
    }
  }

  lemma QuietProvenance(s: CaseState, t: CaseState)
    requires Quiet(s, t) && StatusesOk(s) && StatusesOk(t) && ProvenanceOk(s)
    requires forall i :: 0 <= i < |s.nodes| && Done(s.nodes[i].state) ==> t.nodes[i].reports == s.nodes[i].reports
    ensures ProvenanceOk(t)
  {
    forall i | 0 <= i < |t.nodes| && Done(t.nodes[i].state) ensures Justified(t, i) {
      assert Justified(s, i);
      if s.nodes[i].spec.kind == EntityFiling {
        var k :| 0 <= k < |s.statuses| && Successful(s.statuses[k].status)
                 && s.requests[s.statuses[k].request].node == i;
        assert t.statuses[k] == s.statuses[k];
      }
    }
  }

  /** A quiet change keeps the whole invariant when it keeps the records, the completion rows and the outbox rows. */
  lemma QuietKeeps(s: CaseState, t: CaseState, busy: Option<nat>)
    requires Inv(s, busy) && Quiet(s, t)
    requires RecordsOk(t) && CompletionOk(t) && KeysOnce(t.outbox)
    requires s.outbox <= t.outbox && t.receipts == s.receipts
    requires forall e :: |s.outbox| <= e < |t.outbox| ==> EventOk(s, t.outbox[e].event)
    requires forall i :: 0 <= i < |s.nodes| && Done(s.nodes[i].state) ==> t.nodes[i].reports == s.nodes[i].reports
    ensures Inv(t, busy)
  {
    hide Untouched, Gated, DecisionsOk, Conserved, ConsulateOk, RequestsOk, StatusesOk, EventsOk, ProvenanceOk,
         RecordsOk, CompletionOk, KeysOnce, EventOk, Quiet, RowsLinked;
    QuietGate(s, t, busy);
    QuietFilings(s, t);
    QuietEvents(s, t);
    QuietProvenance(s, t);
  }

  lemma QuietSound(s: CaseState, t: CaseState)
    requires Within(|s.nodes|, s.edges) && Quiet(s, t) && t.catalogue == s.catalogue
    requires s.outbox <= t.outbox && s.receipts <= t.receipts && |s.escalations| <= |t.escalations|
    ensures Evolves(s, t) && Orderly(s, t)
    ensures t.docs == s.docs ==> Sound(s, t)
  {
  }

  lemma AppendRowCompletes(s: CaseState, t: CaseState, row: OutboxRow)
    requires CompletionOk(s) && KeysOnce(s.outbox) && t == s.(outbox := s.outbox + [row])
    requires !row.event.CaseCompleted? && row.key != Some(CaseCompletedKey) && !KeyUsed(s.outbox, row.key)
    ensures CompletionOk(t) && KeysOnce(t.outbox)
  {
    KeyUsedAppend(s.outbox, row, Some(CaseCompletedKey));
  }

  lemma AppendRowKeeps(s: CaseState, busy: Option<nat>, row: OutboxRow) returns (t: CaseState)
    requires Inv(s, busy) && EventOk(s, row.event) && !row.event.CaseCompleted?
    requires row.key != Some(CaseCompletedKey) && !KeyUsed(s.outbox, row.key)
    ensures t == s.(outbox := s.outbox + [row])
    ensures Sound(s, t) && Inv(t, busy)
  {
    hide Gated, Untouched, Conserved, DecisionsOk, RequestsOk, StatusesOk, EventsOk, ProvenanceOk, KeyUsed, EventOk,
         Sound, Evolves, RecordOk, CompletionOk, KeysOnce;
    t := s.(outbox := s.outbox + [row]);
    AppendRowCompletes(s, t, row);
    QuietSound(s, t);
    QuietKeeps(s, t, busy);
  }

  lemma EmitKeeps(s: CaseState, busy: Option<nat>, event: Event) returns (t: CaseState)
    requires Inv(s, busy) && EventOk(s, event) && !event.CaseCompleted?
    ensures t == Emit(s, event)
    ensures Sound(s, t) && Inv(t, busy)
  {
    t := AppendRowKeeps(s, busy, OutboxRow(event, None));
  }

  lemma EmitOnceKeeps(s: CaseState, busy: Option<nat>, event: Event, key: IdempotencyKey) returns (t: CaseState)
    requires Inv(s, busy) && EventOk(s, event) && !event.CaseCompleted? && key != CaseCompletedKey
    ensures t == EmitOnce(s, event, Some(key))
    ensures Sound(s, t) && Inv(t, busy)
  {
    t := s;
    if !KeyUsed(s.outbox, Some(key)) {
      t := AppendRowKeeps(s, busy, OutboxRow(event, Some(key)));
    } else {
      SoundReflexive(s);
    }
  }

  lemma SoundReflexive(s: CaseState)
    requires Within(|s.nodes|, s.edges)
    ensures Sound(s, s)
  {
  }

  lemma RefreshKeeps(s: CaseState, busy: Option<nat>) returns (t: CaseState)
    requires Inv(s, busy)
    ensures t == Refresh(s) && OnlyEmits(s, t)
    ensures Sound(s, t) && Inv(t, busy)
  {
    hide Refresh, KeysOnce, RecordOk, Gated, Untouched, Conserved, DecisionsOk, RequestsOk, StatusesOk,
         EventsOk, ProvenanceOk, Sound, Evolves;
    t := Refresh(s);
    RefreshOnlyEmits(s);
    RefreshCompletes(s);
    QuietSound(s, t);
    QuietKeeps(s, t, busy);
  }

  /** Rows of other tables: documents and escalations. */
  lemma SideRowsKeep(s: CaseState, busy: Option<nat>, t: CaseState)
    requires Inv(s, busy) && t == s.(docs := t.docs, escalations := t.escalations)
    requires |s.escalations| <= |t.escalations|
    ensures Evolves(s, t) && Orderly(s, t) && Inv(t, busy)
  {
    hide CompletionOk, KeysOnce, RecordOk, Gated, Untouched, Conserved, DecisionsOk, RequestsOk, StatusesOk,
         EventsOk, ProvenanceOk, Evolves, Orderly;
    CompletionColumns(s, t);
    QuietSound(s, t);
    QuietKeeps(s, t, busy);
  }

  lemma CompletionColumns(s: CaseState, t: CaseState)
    requires CompletionOk(s) && t.outbox == s.outbox && t.status == s.status && |t.nodes| == |s.nodes|
    requires forall i :: 0 <= i < |s.nodes| ==> t.nodes[i].state == s.nodes[i].state
    ensures CompletionOk(t)
  {
  }

  lemma ReceiptEvents(s: CaseState, t: CaseState, c: Consumer, e: nat)
    requires EventsOk(s) && e < |s.outbox| && t == s.(receipts := s.receipts + {(c, e)})
    ensures EventsOk(t)
  {
    forall f | 0 <= f < |t.outbox| ensures EventOk(t, t.outbox[f].event) { assert EventOk(s, s.outbox[f].event); }
  }

  lemma ReceiptKeeps(s: CaseState, busy: Option<nat>, c: Consumer, e: nat) returns (t: CaseState)
    requires Inv(s, busy) && e < |s.outbox|
    ensures t == s.(receipts := s.receipts + {(c, e)})
    ensures Sound(s, t) && Inv(t, busy)
  {
    hide CompletionOk, KeysOnce, RecordOk, Gated, Untouched, Conserved, DecisionsOk, RequestsOk, StatusesOk, EventsOk,
         ProvenanceOk, Sound, Evolves;
    t := s.(receipts := s.receipts + {(c, e)});
    ReceiptEvents(s, t, c, e);
    CompletionColumns(s, t);
    QuietSound(s, t);
    QuietGate(s, t, busy);
    QuietFilings(s, t);
    QuietProvenance(s, t);
  }

  lemma ReportKeeps(s: CaseState, busy: Option<nat>, i: nat, report: MilestoneReport) returns (t: CaseState)
    requires Inv(s, busy) && i < |s.nodes| && !Done(s.nodes[i].state)
    ensures t == s.(nodes := s.nodes[i := s.nodes[i].(reports := s.nodes[i].reports + [report])])
    ensures Sound(s, t) && Inv(t, busy)
  {
    hide CompletionOk, KeysOnce, Gated, Untouched, Conserved, DecisionsOk, RequestsOk, StatusesOk, EventsOk,
         ProvenanceOk, Sound, Evolves;
    t := s.(nodes := s.nodes[i := s.nodes[i].(reports := s.nodes[i].reports + [report])]);
    CompletionColumns(s, t);
    QuietSound(s, t);
    QuietKeeps(s, t, busy);
  }

  /** A unit of work that has moved its node on is no longer busy with it. */
  lemma NoLongerBusy(s: CaseState, i: nat)
    requires Inv(s, Some(i)) && i < |s.nodes| && s.nodes[i].state != WaitingForHuman
    ensures Inv(s, None)
  {
  }
}
