/** Changes to the approvals and the filings, each shown to keep the invariant. */
module CaseFilingSteps {
  import opened Wrappers
  import opened StateMachine
  import opened LifeEventGraph
  import opened CaseModel
  import opened CaseServices
  import opened CaseEvolution
  import opened CaseInvariants
  import opened CaseSteps

  // --- counting ---

  function One(holds: bool): nat {
    if holds then 1 else 0
  }

  lemma {:induction false} CountApprovedUpdate(approvals: seq<Approval>, a: nat, b: Approval, i: nat)
    requires a < |approvals|
    ensures CountApproved(approvals[a := b], i) + One(ApprovedFor(approvals[a], i))
            == CountApproved(approvals, i) + One(ApprovedFor(b, i))
  {
    var last := |approvals| - 1;
    if a == last {
      assert approvals[a := b][..last] == approvals[..last];
    } else {
      assert approvals[a := b][..last] == approvals[..last][a := b];
      CountApprovedUpdate(approvals[..last], a, b, i);
    }
  }

  lemma {:induction false} CountRequestsUpdate(requests: seq<EntityRequest>, r: nat, q: EntityRequest, i: nat)
    requires r < |requests| && q.node == requests[r].node
    ensures CountRequests(requests[r := q], i) == CountRequests(requests, i)
  {
    var last := |requests| - 1;
    if r == last {
      assert requests[r := q][..last] == requests[..last];
    } else {
      assert requests[r := q][..last] == requests[..last][r := q];
      CountRequestsUpdate(requests[..last], r, q, i);
    }
  }

  lemma CountApprovedAppend(approvals: seq<Approval>, b: Approval, i: nat)
    ensures CountApproved(approvals + [b], i) == CountApproved(approvals, i) + One(ApprovedFor(b, i))
  {
    assert (approvals + [b])[..|approvals|] == approvals;
  }

  lemma CountRequestsAppend(requests: seq<EntityRequest>, q: EntityRequest, i: nat)
    ensures CountRequests(requests + [q], i) == CountRequests(requests, i) + One(q.node == i)
  {
    assert (requests + [q])[..|requests|] == requests;
  }

  // --- asking an officer ---

  lemma AskGate(s: CaseState, t: CaseState, busy: Option<nat>, i: nat)
    requires RowsLinked(s) && i < |s.nodes| && !HasPending(s, i) && s.nodes[i].state != Pending
    requires Untouched(s) && Gated(s, busy) && DecisionsOk(s) && Conserved(s)
    requires t == s.(approvals := s.approvals + [Approval(i, Undecided, None)],
                     nodes := s.nodes[i := s.nodes[i].(approvalState := Some(Undecided))])
    ensures RowsLinked(t) && Untouched(t) && Gated(t, busy) && DecisionsOk(t) && Conserved(t) && HasPending(t, i)
  {
    assert t.approvals[|s.approvals|].node == i;
    assert HasPending(t, i);
    forall a, b | 0 <= a < b < |t.approvals| && t.approvals[a].state == Undecided && t.approvals[b].state == Undecided
      ensures t.approvals[a].node != t.approvals[b].node
    {
      if b == |s.approvals| { assert t.approvals[a] == s.approvals[a]; }
    }
    forall j | 0 <= j < |t.nodes| && t.nodes[j].state == WaitingForHuman && busy != Some(j) ensures HasPending(t, j) {
      assert HasPending(s, j);
      var a :| 0 <= a < |s.approvals| && s.approvals[a].node == j && s.approvals[a].state == Undecided;
      assert t.approvals[a] == s.approvals[a];
    }
    forall j | 0 <= j < |t.nodes| ensures CountApproved(t.approvals, j) == t.nodes[j].attempts {
      CountApprovedAppend(s.approvals, Approval(i, Undecided, None), j);
    }
  }

  /** Approvals grow or are decided; filings, statuses and outbox stay. */
  lemma ApprovalsKeepFilings(s: CaseState, t: CaseState)
    requires RowsLinked(s) && RowsLinked(t) && RequestsOk(s) && StatusesOk(s) && EventsOk(s) && ProvenanceOk(s)
    requires t == s.(approvals := t.approvals, nodes := t.nodes)
    requires |s.approvals| <= |t.approvals| && |t.nodes| == |s.nodes|
    requires forall a :: 0 <= a < |s.approvals| ==> ApprovalEvolves(s.approvals[a], t.approvals[a])
    requires forall i :: 0 <= i < |s.nodes| ==> t.nodes[i] == s.nodes[i].(approvalState := t.nodes[i].approvalState)
    ensures RequestsOk(t) && StatusesOk(t) && EventsOk(t) && ProvenanceOk(t)
  {
    forall r | 0 <= r < |t.requests| ensures RequestOk(t, r) { assert RequestOk(s, r); }
    forall e | 0 <= e < |t.outbox| ensures EventOk(t, t.outbox[e].event) { assert EventOk(s, s.outbox[e].event); }
    forall i | 0 <= i < |t.nodes| && Done(t.nodes[i].state) ensures Justified(t, i) {
      assert Justified(s, i);
      if s.nodes[i].spec.kind == EntityFiling {
        var k :| 0 <= k < |s.statuses| && Successful(s.statuses[k].status)
                 && s.requests[s.statuses[k].request].node == i;
      }
    }
  }

  lemma ApprovalsSound(s: CaseState, t: CaseState)
    requires Within(|s.nodes|, s.edges) && t == s.(approvals := t.approvals, nodes := t.nodes)
    requires |s.approvals| <= |t.approvals| && |t.nodes| == |s.nodes|
    requires forall a :: 0 <= a < |s.approvals| ==> ApprovalEvolves(s.approvals[a], t.approvals[a])
    requires forall i :: 0 <= i < |s.nodes| ==> t.nodes[i] == s.nodes[i].(approvalState := t.nodes[i].approvalState)
    ensures Sound(s, t)
  {
  }

  lemma AskKeeps(s: CaseState, busy: Option<nat>, i: nat) returns (t: CaseState)
    requires Inv(s, busy) && i < |s.nodes| && !HasPending(s, i) && s.nodes[i].state != Pending
    ensures t == s.(approvals := s.approvals + [Approval(i, Undecided, None)],
                    nodes := s.nodes[i := s.nodes[i].(approvalState := Some(Undecided))])
    ensures Sound(s, t) && Inv(t, busy) && HasPending(t, i)
  {
    hide CompletionOk, KeysOnce, Gated, Untouched, Conserved, DecisionsOk, RequestsOk, StatusesOk, EventsOk,
         ProvenanceOk, Sound, RowsLinked;
    t := s.(approvals := s.approvals + [Approval(i, Undecided, None)],
            nodes := s.nodes[i := s.nodes[i].(approvalState := Some(Undecided))]);
    AskGate(s, t, busy, i);
    CompletionColumns(s, t);
    ApprovalsKeepFilings(s, t);
    ApprovalsSound(s, t);
  }

  // --- an officer's decision ---

  lemma DecideGate(s: CaseState, t: CaseState, a: nat, decision: ApprovalState, officer: Officer)
    requires RowsLinked(s) && a < |s.approvals| && s.approvals[a].state == Undecided
    requires decision == Declined || decision == Cancelled
    requires Untouched(s) && Gated(s, None) && DecisionsOk(s) && Conserved(s)
    requires t == Decide(s, a, decision, officer)
    ensures RowsLinked(t) && Untouched(t) && Gated(t, Some(s.approvals[a].node)) && DecisionsOk(t) && Conserved(t)
  {
    var i := s.approvals[a].node;
    forall j | 0 <= j < |t.nodes| && t.nodes[j].state == WaitingForHuman && j != i ensures HasPending(t, j) {
      assert HasPending(s, j);
      var b :| 0 <= b < |s.approvals| && s.approvals[b].node == j && s.approvals[b].state == Undecided;
      assert t.approvals[b] == s.approvals[b];
    }
    forall j | 0 <= j < |t.nodes| ensures CountApproved(t.approvals, j) == t.nodes[j].attempts {
      CountApprovedUpdate(s.approvals, a, t.approvals[a], j);
    }
  }

  lemma DecideRecords(s: CaseState, t: CaseState, a: nat, decision: ApprovalState, officer: Officer)
    requires RowsLinked(s) && a < |s.approvals| && t == Decide(s, a, decision, officer)
    requires RecordsOk(s) && CompletionOk(s) && ConsulateOk(s)
    ensures RecordsOk(t) && CompletionOk(t) && ConsulateOk(t)
  {
    CompletionColumns(s, t);
  }

  lemma DecideKeeps(s: CaseState, a: nat, decision: ApprovalState, officer: Officer) returns (t: CaseState)
    requires Inv(s, None) && a < |s.approvals| && s.approvals[a].state == Undecided
    requires decision == Declined || decision == Cancelled
    ensures t == Decide(s, a, decision, officer)
    ensures Sound(s, t) && Inv(t, Some(s.approvals[a].node))
  {
    hide CompletionOk, KeysOnce, RecordsOk, Gated, Untouched, Conserved, DecisionsOk, RequestsOk, StatusesOk, EventsOk,
         ProvenanceOk, Sound, ConsulateOk;
    t := Decide(s, a, decision, officer);
    DecideRecords(s, t, a, decision, officer);
    DecideGate(s, t, a, decision, officer);
    ApprovalsKeepFilings(s, t);
    ApprovalsSound(s, t);
  }

  // --- releasing a filing ---

  /** The rows an approval writes before the node moves: the decision, the attempt and the request. */
  function Released(s: CaseState, a: nat, officer: Officer): CaseState
    requires RowsLinked(s) && a < |s.approvals|
  {
    var i := s.approvals[a].node;
    var decided := Decide(s, a, Approved, officer);
    var attempt := s.nodes[i].attempts + 1;
    decided.(nodes := decided.nodes[i := decided.nodes[i].(attempts := attempt)],
             requests := s.requests + [EntityRequest(i, a, FilingKey(i, attempt), BeingSubmitted, None, 0)])
  }

  lemma ReleasedGate(s: CaseState, t: CaseState, a: nat, officer: Officer)
    requires RowsLinked(s) && a < |s.approvals| && s.approvals[a].state == Undecided && officer.officiates
    requires Untouched(s) && Gated(s, None) && DecisionsOk(s)
    requires s.nodes[s.approvals[a].node].state != Pending
    requires t == Released(s, a, officer)
    ensures RowsLinked(t) && Untouched(t) && Gated(t, Some(s.approvals[a].node)) && DecisionsOk(t)
  {
    var i := s.approvals[a].node;
    forall j | 0 <= j < |t.nodes| && t.nodes[j].state == WaitingForHuman && j != i ensures HasPending(t, j) {
      assert HasPending(s, j);
      var b :| 0 <= b < |s.approvals| && s.approvals[b].node == j && s.approvals[b].state == Undecided;
      assert t.approvals[b] == s.approvals[b];
    }
  }

  lemma ReleasedConserved(s: CaseState, t: CaseState, a: nat, officer: Officer)
    requires RowsLinked(s) && a < |s.approvals| && s.approvals[a].state == Undecided
    requires Conserved(s) && t == Released(s, a, officer)
    ensures Conserved(t)
  {
    forall j | 0 <= j < |t.nodes|
      ensures CountApproved(t.approvals, j) == t.nodes[j].attempts == CountRequests(t.requests, j)
    {
      CountApprovedUpdate(s.approvals, a, t.approvals[a], j);
      CountRequestsAppend(s.requests, t.requests[|s.requests|], j);
    }
  }

  lemma ReleasedFilings(s: CaseState, t: CaseState, a: nat, officer: Officer)
    requires RowsLinked(s) && RowsLinked(t) && a < |s.approvals| && s.approvals[a].state == Undecided
    requires RequestsOk(s) && StatusesOk(s) && EventsOk(s)
    requires t == Released(s, a, officer)
    ensures RequestsOk(t) && StatusesOk(t) && EventsOk(t)
  {
    forall r | 0 <= r < |t.requests| ensures RequestOk(t, r) {
      if r < |s.requests| {
        assert RequestOk(s, r);
        assert t.requests[r] == s.requests[r];
      }
    }
    forall r, q | 0 <= r < q < |t.requests| ensures t.requests[r].key != t.requests[q].key {
      assert RequestOk(s, r);
    }
    forall e | 0 <= e < |t.outbox| ensures EventOk(t, t.outbox[e].event) { assert EventOk(s, s.outbox[e].event); }
  }

  lemma ReleasedSound(s: CaseState, t: CaseState, a: nat, officer: Officer)
    requires RowsLinked(s) && a < |s.approvals| && s.approvals[a].state == Undecided
    requires t == Released(s, a, officer)
    ensures Sound(s, t)
  {
  }

  lemma ReleasedProvenance(s: CaseState, t: CaseState, a: nat, officer: Officer)
    requires RowsLinked(s) && a < |s.approvals| && t == Released(s, a, officer)
    requires StatusesOk(s) && StatusesOk(t) && ProvenanceOk(s)
    ensures ProvenanceOk(t)
  {
    forall i | 0 <= i < |t.nodes| && Done(t.nodes[i].state) ensures Justified(t, i) {
      assert Justified(s, i);
      if s.nodes[i].spec.kind == EntityFiling {
        var k :| 0 <= k < |s.statuses| && Successful(s.statuses[k].status)
                 && s.requests[s.statuses[k].request].node == i;
        assert t.statuses[k] == s.statuses[k];
      }
    }
  }

  lemma ReleasedRecords(s: CaseState, t: CaseState, a: nat, officer: Officer)
    requires RowsLinked(s) && a < |s.approvals| && t == Released(s, a, officer)
    requires RecordsOk(s) && CompletionOk(s) && ConsulateOk(s)
    ensures RecordsOk(t) && CompletionOk(t) && ConsulateOk(t)
  {
    CompletionColumns(s, t);
  }

  lemma ReleasedKeeps(s: CaseState, a: nat, officer: Officer) returns (t: CaseState)
    requires Inv(s, None) && a < |s.approvals| && s.approvals[a].state == Undecided && officer.officiates
    ensures t == Released(s, a, officer)
    ensures Sound(s, t) && Inv(t, Some(s.approvals[a].node))
  {
    hide CompletionOk, KeysOnce, RecordsOk, Gated, Untouched, Conserved, DecisionsOk, RequestsOk, StatusesOk, EventsOk,
         ProvenanceOk, Sound;
    t := Released(s, a, officer);
    InvApproval(s, None, a);
    ReleasedGate(s, t, a, officer);
    ReleasedConserved(s, t, a, officer);
    ReleasedFilings(s, t, a, officer);
    ReleasedSound(s, t, a, officer);
    ReleasedProvenance(s, t, a, officer);
    ReleasedRecords(s, t, a, officer);
  }

  /** The key of the next attempt has not been filed. */
  lemma NextKeyIsFresh(s: CaseState, i: nat)
    requires RowsLinked(s) && RequestsOk(s) && i < |s.nodes|
    ensures !KeyFiled(s.requests, FilingKey(i, s.nodes[i].attempts + 1))
  {
    forall r | 0 <= r < |s.requests| ensures s.requests[r].key != FilingKey(i, s.nodes[i].attempts + 1) {
      assert RequestOk(s, r);
    }
  }

  // --- updating a filing ---

  lemma RequestUpdateKeeps(s: CaseState, busy: Option<nat>, r: nat, q: EntityRequest) returns (t: CaseState)
    requires Inv(s, busy) && r < |s.requests| && RequestEvolves(s.requests[r], q)
    requires q.state == BeingSubmitted ==> q.externalRef.None?
    requires q.externalRef.Some? ==> q.externalRef.value == q.key && s.nodes[q.node].spec.kind == EntityFiling
    ensures t == s.(requests := s.requests[r := q])
    ensures Sound(s, t) && Inv(t, busy)
  {
    hide CompletionOk, KeysOnce, RecordsOk, Untouched, RowsLinked, Gated, RequestsOk, Conserved, StatusesOk, EventsOk,
         ProvenanceOk, DecisionsOk, Sound;
    t := s.(requests := s.requests[r := q]);
    RequestUpdateSound(s, t, r, q);
    RequestUpdateRows(s, t, r, q);
    RequestUpdateEvents(s, t, r, q);
    SameColumns(s, t);
    GatedStays(s, t, busy);
    CompletionColumns(s, t);
  }

  lemma RequestUpdateSound(s: CaseState, t: CaseState, r: nat, q: EntityRequest)
    requires RowsLinked(s) && Untouched(s) && r < |s.requests| && RequestEvolves(s.requests[r], q)
    requires t == s.(requests := s.requests[r := q])
    ensures RowsLinked(t) && Untouched(t) && Sound(s, t)
  {
  }

  lemma SameColumns(s: CaseState, t: CaseState)
    requires t.nodes == s.nodes && t.approvals == s.approvals && RecordsOk(s) && DecisionsOk(s)
    ensures RecordsOk(t) && DecisionsOk(t)
  {
  }

  lemma RequestUpdateRows(s: CaseState, t: CaseState, r: nat, q: EntityRequest)
    requires RowsLinked(s) && RowsLinked(t) && Conserved(s) && RequestsOk(s)
    requires r < |s.requests| && RequestEvolves(s.requests[r], q) && t == s.(requests := s.requests[r := q])
    requires q.state == BeingSubmitted ==> q.externalRef.None?
    requires q.externalRef.Some? ==> q.externalRef.value == q.key && s.nodes[q.node].spec.kind == EntityFiling
    ensures Conserved(t) && RequestsOk(t)
  {
    forall i | 0 <= i < |t.nodes| ensures CountRequests(t.requests, i) == t.nodes[i].attempts {
      CountRequestsUpdate(s.requests, r, q, i);
    }
    forall p | 0 <= p < |t.requests| ensures RequestOk(t, p) { assert RequestOk(s, p); }
  }

  lemma RequestUpdateEvents(s: CaseState, t: CaseState, r: nat, q: EntityRequest)
    requires r < |s.requests| && RequestEvolves(s.requests[r], q) && t == s.(requests := s.requests[r := q])
    requires StatusesOk(s) && EventsOk(s) && ProvenanceOk(s)
    ensures StatusesOk(t) && EventsOk(t) && ProvenanceOk(t)
  {
    assert StatusesOk(t);
    forall e | 0 <= e < |t.outbox| ensures EventOk(t, t.outbox[e].event) { assert EventOk(s, s.outbox[e].event); }
    forall i | 0 <= i < |t.nodes| && Done(t.nodes[i].state) ensures Justified(t, i) {
      assert Justified(s, i);
      if s.nodes[i].spec.kind == EntityFiling {
        var k :| 0 <= k < |s.statuses| && Successful(s.statuses[k].status)
                 && s.requests[s.statuses[k].request].node == i;
        assert t.requests[t.statuses[k].request].node == i;
      }
    }
  }

  lemma GatedStays(s: CaseState, t: CaseState, busy: Option<nat>)
    requires Gated(s, busy) && t.approvals == s.approvals && t.nodes == s.nodes
    ensures Gated(t, busy)
  {
    forall i | 0 <= i < |t.nodes| && t.nodes[i].state == WaitingForHuman && busy != Some(i) ensures HasPending(t, i) {
      assert HasPending(s, i);
    }
  }

  lemma StatusAppendRows(s: CaseState, t: CaseState, status: EntityStatus)
    requires RowsLinked(s) && Untouched(s) && Conserved(s) && RequestsOk(s)
    requires t == s.(statuses := s.statuses + [status])
    ensures RowsLinked(t) && Untouched(t) && Conserved(t) && RequestsOk(t) && Sound(s, t) && status in t.statuses
  {
    assert t.statuses[|s.statuses|] == status;
    forall p | 0 <= p < |t.requests| ensures RequestOk(t, p) { assert RequestOk(s, p); }
  }

  lemma StatusAppendKeeps(s: CaseState, busy: Option<nat>, status: EntityStatus) returns (t: CaseState)
    requires Inv(s, busy) && status.request < |s.requests| && s.requests[status.request].externalRef.Some?
    ensures t == s.(statuses := s.statuses + [status])
    ensures Sound(s, t) && Inv(t, busy) && status in t.statuses
  {
    hide CompletionOk, KeysOnce, RecordsOk, RequestsOk, StatusesOk, EventsOk, ProvenanceOk, Gated, Untouched, Conserved,
         DecisionsOk, Sound, RowsLinked;
    t := s.(statuses := s.statuses + [status]);
    StatusAppendRows(s, t, status);
    StatusAppendEvents(s, t, status);
    GatedStays(s, t, busy);
    SameColumns(s, t);
    CompletionColumns(s, t);
  }

  lemma StatusAppendEvents(s: CaseState, t: CaseState, status: EntityStatus)
    requires t == s.(statuses := s.statuses + [status]) && status.request < |s.requests|
    requires s.requests[status.request].externalRef.Some?
    requires StatusesOk(s) && EventsOk(s) && ProvenanceOk(s)
    ensures StatusesOk(t) && EventsOk(t) && ProvenanceOk(t)
  {
    assert StatusesOk(t);
    forall e | 0 <= e < |t.outbox| ensures EventOk(t, t.outbox[e].event) {
      assert EventOk(s, s.outbox[e].event);
    }
    forall i | 0 <= i < |t.nodes| && Done(t.nodes[i].state) ensures Justified(t, i) {
      assert Justified(s, i);
      if s.nodes[i].spec.kind == EntityFiling {
        var k :| 0 <= k < |s.statuses| && Successful(s.statuses[k].status)
                 && s.requests[s.statuses[k].request].node == i;
        assert t.statuses[k] == s.statuses[k];
      }
    }
  }
}
