/** The invariants of a case, and how a unit of work may change a case. */
module CaseInvariants {
  import opened Wrappers
  import opened StateMachine
  import opened LifeEventGraph
  import opened CaseModel
  import opened CaseServices
  import opened CaseEvolution

  // --- node records ---

  /** The timestamps of a node agree with its state. */
  ghost predicate RecordOk(n: Node) {
    && (n.stalledSince.Some? <==> n.state == Stalled)
    && (n.clearedAt.Some? <==> Done(n.state))
    && (Done(n.state) ==> n.blockedReason.None? && n.slaDueAt.None?)
    && (n.slaDueAt.Some? ==> n.submittedAt.Some?)
  }

  ghost predicate RecordsOk(s: CaseState) {
    forall i :: 0 <= i < |s.nodes| ==> RecordOk(s.nodes[i])
  }

  // --- completion ---

  ghost predicate CompletionOk(s: CaseState) {
    && s.status != Intake && s.status != Closed
    && (s.status == AllComplete <==> AllDone(s.nodes))
    && (s.status == AllComplete <==> KeyUsed(s.outbox, Some(CaseCompletedKey)))
    && (forall e :: 0 <= e < |s.outbox| ==>
          (s.outbox[e].event.CaseCompleted? <==> s.outbox[e].key == Some(CaseCompletedKey)))
  }

  /** One outbox row per idempotency key. */
  ghost predicate KeysOnce(outbox: seq<OutboxRow>) {
    forall e, f :: 0 <= e < f < |outbox| && outbox[e].key.Some? ==> outbox[e].key != outbox[f].key
  }

  // --- the officer gate ---

  /** A node not yet unlocked has no approval and no filing. */
  ghost predicate Untouched(s: CaseState)
    requires RowsLinked(s)
  {
    && (forall a :: 0 <= a < |s.approvals| ==> s.nodes[s.approvals[a].node].state != Pending)
    && (forall r :: 0 <= r < |s.requests| ==> s.nodes[s.requests[r].node].state != Pending)
  }

  ghost predicate OnePending(approvals: seq<Approval>) {
    forall a, b :: 0 <= a < b < |approvals| && approvals[a].state == Undecided && approvals[b].state == Undecided
      ==> approvals[a].node != approvals[b].node
  }

  /** Every node awaiting an officer, except the one a unit of work is busy with, has a pending approval. */
  ghost predicate Gated(s: CaseState, busy: Option<nat>) {
    && OnePending(s.approvals)
    && (forall i :: 0 <= i < |s.nodes| && s.nodes[i].state == WaitingForHuman && busy != Some(i) ==> HasPending(s, i))
  }

  ghost predicate DecisionsOk(s: CaseState) {
    forall a :: 0 <= a < |s.approvals| && s.approvals[a].state == Approved ==>
      s.approvals[a].decidedBy.Some? && s.approvals[a].decidedBy.value.officiates
  }

  function CountRequests(requests: seq<EntityRequest>, i: nat): nat {
    if requests == [] then 0
    else CountRequests(requests[..|requests| - 1], i) + (if requests[|requests| - 1].node == i then 1 else 0)
  }

  predicate ApprovedFor(a: Approval, i: nat) {
    a.node == i && a.state == Approved
  }

  function CountApproved(approvals: seq<Approval>, i: nat): nat {
    if approvals == [] then 0
    else
      CountApproved(approvals[..|approvals| - 1], i) + (if ApprovedFor(approvals[|approvals| - 1], i) then 1 else 0)
  }

  /** Release conservation: attempts, filings and approved approvals of a node are equally many. */
  ghost predicate Conserved(s: CaseState) {
    forall i :: 0 <= i < |s.nodes| ==>
      CountRequests(s.requests, i) == s.nodes[i].attempts && CountApproved(s.approvals, i) == s.nodes[i].attempts
  }

  // --- filings and authority statuses ---

  ghost predicate RequestOk(s: CaseState, r: nat)
    requires RowsLinked(s) && r < |s.requests|
  {
    var q := s.requests[r];
    && q.key.node == q.node && 1 <= q.key.attempt <= s.nodes[q.node].attempts
    && q.approval < |s.approvals| && ApprovedFor(s.approvals[q.approval], q.node)
    && (q.state == BeingSubmitted ==> q.externalRef.None?)
    && (q.externalRef.Some? ==> q.externalRef.value == q.key && s.nodes[q.node].spec.kind == EntityFiling)
  }

  ghost predicate KeysDistinct(requests: seq<EntityRequest>) {
    forall r, q :: 0 <= r < q < |requests| ==> requests[r].key != requests[q].key
  }

  ghost predicate RequestsOk(s: CaseState)
    requires RowsLinked(s)
  {
    (forall r :: 0 <= r < |s.requests| ==> RequestOk(s, r)) && KeysDistinct(s.requests)
  }

  /** A recorded status belongs to a filing the authority has given a reference. */
  ghost predicate StatusesOk(s: CaseState) {
    forall k :: 0 <= k < |s.statuses| ==>
      s.statuses[k].request < |s.requests| && s.requests[s.statuses[k].request].externalRef.Some?
  }

  ghost predicate EventOk(s: CaseState, event: Event) {
    match event
    case EntityRequestReleased(r) => r < |s.requests|
    case EntityStatusReceived(r, status, _, _) => EntityStatus(r, status) in s.statuses
    case _ => true
  }

  ghost predicate EventsOk(s: CaseState) {
    && (forall e :: 0 <= e < |s.outbox| ==> EventOk(s, s.outbox[e].event))
    && (forall c, e :: (c, e) in s.receipts ==> e < |s.outbox|)
  }

  // --- provenance ---

  /** A success status received for one of node i's filings. */
  ghost predicate Evidence(s: CaseState, i: nat)
    requires StatusesOk(s)
  {
    exists k :: 0 <= k < |s.statuses| && Successful(s.statuses[k].status) && s.requests[s.statuses[k].request].node == i
  }

  ghost predicate PassportReported(n: Node) {
    n.reports != [] && n.reports[|n.reports| - 1] == MilestoneReport(PassportIssued, true)
  }

  ghost predicate Justified(s: CaseState, i: nat)
    requires StatusesOk(s) && i < |s.nodes|
  {
    match s.nodes[i].spec.kind
    case EntityFiling => Evidence(s, i)
    case ParentReported => s.consulate == Some(i) && PassportReported(s.nodes[i])
  }

  ghost predicate ProvenanceOk(s: CaseState)
    requires StatusesOk(s)
  {
    forall i :: 0 <= i < |s.nodes| && Done(s.nodes[i].state) ==> Justified(s, i)
  }

  // --- the whole invariant ---

  ghost predicate ConsulateOk(s: CaseState) {
    s.consulate.Some? ==> s.consulate.value < |s.nodes| && s.nodes[s.consulate.value].spec.kind == ParentReported
  }

  ghost predicate Inv(s: CaseState, busy: Option<nat>) {
    && RowsLinked(s) && ConsulateOk(s)
    && RecordsOk(s) && CompletionOk(s) && KeysOnce(s.outbox)
    && Untouched(s) && Gated(s, busy) && DecisionsOk(s) && Conserved(s)
    && RequestsOk(s) && StatusesOk(s) && EventsOk(s) && ProvenanceOk(s)
  }

  // --- changes ---

  /** A node leaves PENDING only when all its predecessors are done. */
  ghost predicate Orderly(s: CaseState, t: CaseState)
    requires Within(|t.nodes|, t.edges) && |s.nodes| == |t.nodes|
  {
    forall i :: 0 <= i < |s.nodes| && s.nodes[i].state == Pending && t.nodes[i].state != Pending
      ==> DependenciesDone(t, i)
  }

  predicate HeldFromAuthority(d: Document) {
    (d.status == Uploaded || d.status == Verified) && d.source == GovernmentMock
  }

  predicate Produced(s: CaseState, d: DocType) {
    exists i :: 0 <= i < |s.nodes| && d in s.nodes[i].spec.outputs && Done(s.nodes[i].state)
  }

  /** A document is newly held from an authority only when a node that produces it is done. */
  ghost predicate DocsJustified(s: CaseState, t: CaseState) {
    forall d :: d in t.docs && HeldFromAuthority(t.docs[d])
      ==> Produced(t, d) || (d in s.docs && HeldFromAuthority(s.docs[d]))
  }

  /** The changes of every service but request_documents and set_status. */
  ghost predicate Sound(s: CaseState, t: CaseState) {
    Within(|s.nodes|, s.edges) && Evolves(s, t) && Orderly(s, t) && DocsJustified(s, t)
  }

  lemma SoundTransitive(s: CaseState, t: CaseState, u: CaseState)
    requires Sound(s, t) && Sound(t, u)
    ensures Sound(s, u)
  {
    EvolvesTransitive(s, t, u);
    OrderlyTransitive(s, t, u);
    DocsJustifiedTransitive(s, t, u);
  }

  lemma OrderlyTransitive(s: CaseState, t: CaseState, u: CaseState)
    requires Within(|s.nodes|, s.edges) && Evolves(s, t) && Evolves(t, u) && Orderly(s, t) && Orderly(t, u)
    ensures Orderly(s, u)
  {
    forall i | 0 <= i < |s.nodes| && s.nodes[i].state == Pending && u.nodes[i].state != Pending
      ensures DependenciesDone(u, i)
    {
      if t.nodes[i].state != Pending {
        assert DependenciesDone(t, i);
        forall e | e in u.edges && e.1 == i ensures Done(u.nodes[e.0].state) {
          assert NodeEvolves(t, u, e.0);
        }
      }
    }
  }

  lemma ProducedStays(t: CaseState, u: CaseState, d: DocType)
    requires Evolves(t, u) && Produced(t, d)
    ensures Produced(u, d)
  {
    var i :| 0 <= i < |t.nodes| && d in t.nodes[i].spec.outputs && Done(t.nodes[i].state);
    assert NodeEvolves(t, u, i);
  }

  lemma DocsJustifiedTransitive(s: CaseState, t: CaseState, u: CaseState)
    requires Evolves(t, u) && DocsJustified(s, t) && DocsJustified(t, u)
    ensures DocsJustified(s, u)
  {
    forall d | d in u.docs && HeldFromAuthority(u.docs[d])
      ensures Produced(u, d) || (d in s.docs && HeldFromAuthority(s.docs[d]))
    {
      if d in t.docs && HeldFromAuthority(t.docs[d]) && Produced(t, d) { ProducedStays(t, u, d); }
    }
  }

  lemma EvidenceStays(s: CaseState, t: CaseState, i: nat)
    requires StatusesOk(s) && StatusesOk(t) && Evolves(s, t) && Evidence(s, i)
    ensures Evidence(t, i)
  {
    var k :| 0 <= k < |s.statuses| && Successful(s.statuses[k].status) && s.requests[s.statuses[k].request].node == i;
    assert t.statuses[k] == s.statuses[k];
    assert RequestEvolves(s.requests[s.statuses[k].request], t.requests[s.statuses[k].request]);
  }
}
