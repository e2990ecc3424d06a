/**
 * The services as they work: one database session over a case's tables, changed row by row. Every method does to the
 * tables what its specification in CaseServices says, and raises exactly when the specification fails.
 */
module CaseSession {
  import opened Wrappers
  import opened StateMachine
  import opened LifeEventGraph
  import opened CaseModel
  import opened CaseServices
  import opened CaseEvolution
  import opened CaseInvariants
  import opened CaseSteps
  import opened CaseRuns
  import opened CaseTargets
  import opened CaseLiveness
  import opened CaseTheorems

  /** Marking documents makes no type markable that was not so before. */
  lemma {:induction false} MarkableStays(docs: map<DocType, Document>, catalogue: set<DocType>, types: seq<DocType>,
                                         d: DocType)
    ensures Markable(CaseServices.MarkMissing(docs, catalogue, types), catalogue, d) <==> Markable(docs, catalogue, d)
  {
    if types != [] { MarkableStays(docs, catalogue, types[..|types| - 1], d); }
  }

  lemma TransitionKeepsSpec(s: CaseState, i: nat, target: NodeState, now: Time)
    requires i < |s.nodes|
    ensures
      var r := CaseServices.Transition(s, i, target, None, NoStall, now);
      r.Success? ==> r.value.nodes[i].spec == s.nodes[i].spec && r.value.docs == s.docs
  {
    hide CaseServices.Refresh, Stamp;
    StampState(s.nodes[i], target, None, now);
    if CanMove(s.nodes[i].state, target) {
      var stamped := s.(nodes := s.nodes[i := Stamp(s.nodes[i], target, None, now)]);
      RefreshOnlyEmits(CaseServices.Emit(stamped, NodeMoved(i, s.nodes[i].state, target, NoStall)));
    }
  }

  /** Going back to the officer gate, or to the parent, once the documents are in never raises. */
  lemma ResumeSucceeds(s: CaseState, i: nat, now: Time)
    requires i < |s.nodes|
    ensures Resume(s, i, now).Success?
  {
    hide Stamp, CaseServices.Refresh, MissingForNode;
  }

  class Session {
    const edges: seq<Edge>
    const consulate: Option<nat>
    const catalogue: set<DocType>
    var status: CaseStatus
    var nodes: seq<Node>
    var docs: map<DocType, Document>
    var approvals: seq<Approval>
    var requests: seq<EntityRequest>
    var statuses: seq<EntityStatus>
    var escalations: seq<Escalation>
    var outbox: seq<OutboxRow>
    var receipts: set<(Consumer, nat)>

    function View(): CaseState
      reads this
    {
      CaseState(edges, consulate, catalogue, status, nodes, docs, approvals, requests, statuses, escalations, outbox,
                receipts)
    }

    /** The tables agree with a specification's outcome: its rows, or its error. */
    ghost predicate Meets(spec: Result<CaseState>, raised: Option<Error>)
      reads this
    {
      match spec
      case Success(t) => raised.None? && View() == t
      case Failure(e) => raised == Some(e)
    }

    /** Opens a case from its template. */
    constructor (t: Template)
      ensures View() == Opened(t)
    {
      var start := Opened(t);
      edges, consulate, catalogue := t.edges, t.consulate, t.catalogue;
      status, nodes, docs := Active, start.nodes, start.docs;
      approvals, requests, statuses, escalations := [], [], [], [];
      outbox, receipts := start.outbox, {};
    }

    // --- event recorder and case status ---

    method Emit(event: Event, key: Option<IdempotencyKey>)
      modifies `outbox
      ensures View() == EmitOnce(old(View()), event, key)
      ensures key.None? ==> View() == CaseServices.Emit(old(View()), event)
    {
      if key.Some? {
        for e := 0 to |outbox|
          invariant forall f :: 0 <= f < e ==> outbox[f].key != key
        {
          if outbox[e].key == key { return; }
        }
      }
      outbox := outbox + [OutboxRow(event, key)];
    }

    method Refresh()
      modifies `status, `outbox
      ensures View() == CaseServices.Refresh(old(View()))
    {
      var previous := status;
      if status != Closed && status != Intake {
        if AllDone(nodes) {
          status := AllComplete;
        } else if AnyOpen(escalations) {
          status := Escalated;
        } else if AnyIn(nodes, {WaitingForParent, NodeState.DocumentMissing}) {
          status := AwaitingParent;
        } else if AnyIn(nodes, {WaitingForHuman}) {
          status := AwaitingOfficer;
        } else {
          status := Active;
        }
      }
      if previous != status {
        Emit(CaseStatusChanged(previous, status), None);
        if status == AllComplete { Emit(CaseCompleted, Some(CaseCompletedKey)); }
      }
    }

    // --- life-event graph ---

    /** The columns a transition writes, one after the other. */
    method WriteColumns(i: nat, target: NodeState, reason: Option<string>, now: Time)
      requires i < |nodes|
      modifies `nodes
      ensures nodes == old(nodes)[i := Stamp(old(nodes)[i], target, reason, now)]
    {
      var previous := nodes[i].state;
      var n := nodes[i].(state := target);
      if target == Submitted && n.submittedAt.None? { n := n.(submittedAt := Some(now)); }
      if target == Submitted && n.spec.slaHours > 0 { n := n.(slaDueAt := Some(now + n.spec.slaHours)); }
      if Done(target) {
        n := n.(clearedAt := Some(now), blockedReason := None, stalledSince := None, slaDueAt := None);
      }
      if target == Stalled {
        n := n.(stalledSince := if n.stalledSince.Some? then n.stalledSince else Some(now));
      } else if previous == Stalled {
        n := n.(stalledSince := None);
      }
      if Attention(target) {
        n := n.(blockedReason := if Given(reason) then reason else n.blockedReason);
      } else if !Done(target) && reason.None? {
        n := n.(blockedReason := None);
      }
      nodes := nodes[i := n];
    }

    method Transition(i: nat, target: NodeState, reason: Option<string>, stall: StallKind, now: Time)
      returns (raised: Option<Error>)
      requires i < |nodes|
      modifies `nodes, `status, `outbox
      ensures Meets(CaseServices.Transition(old(View()), i, target, reason, stall, now), raised)
      ensures raised.Some? ==> View() == old(View())
      ensures |nodes| == old(|nodes|)
    {
      hide CaseServices.Refresh, Stamp;
      raised := None;
      if nodes[i].state == target && !Given(reason) { return; }
      if !CanMove(nodes[i].state, target) { return Some(InvalidTransition); }
      var previous := nodes[i].state;
      WriteColumns(i, target, reason, now);
      Emit(NodeMoved(i, previous, target, stall), None);
      Refresh();
    }

    /** The nodes that can be unlocked, in node order. */
    method FindUnlockable() returns (keys: seq<nat>)
      requires Within(|nodes|, edges)
      ensures keys == Unlockable(View(), |nodes|)
    {
      var deps: seq<seq<nat>> := seq(|nodes|, _ => []);
      for k := 0 to |edges|
        invariant |deps| == |nodes|
        invariant forall i, u :: 0 <= i < |nodes| ==> (u in deps[i] <==> (u, i) in edges[..k])
      {
        var (from, to) := edges[k];
        assert edges[..k + 1] == edges[..k] + [edges[k]];
        assert edges[k] in edges;
        deps := deps[to := deps[to] + [from]];
      }
      assert edges[..|edges|] == edges;
      keys := [];
      for i := 0 to |nodes|
        invariant keys == Unlockable(View(), i)
      {
        assert forall u :: u in deps[i] ==> (u, i) in edges;
        assert (forall u :: u in deps[i] ==> Done(nodes[u].state)) <==> DependenciesDone(View(), i);
        if nodes[i].state == Pending && forall u :: u in deps[i] ==> Done(nodes[u].state) {
          keys := keys + [i];
        }
      }
    }

    // --- documents ---

    method MarkMissing(types: seq<DocType>) returns (titles: seq<DocType>)
      modifies `docs
      ensures docs == CaseServices.MarkMissing(old(docs), catalogue, types)
      ensures titles == Marked(old(docs), catalogue, types)
    {
      titles := [];
      for k := 0 to |types|
        invariant docs == CaseServices.MarkMissing(old(docs), catalogue, types[..k])
        invariant titles == Marked(old(docs), catalogue, types[..k])
      {
        assert types[..k + 1][..k] == types[..k];
        MarkableStays(old(docs), catalogue, types[..k], types[k]);
        var d := types[k];
        if d !in docs && d !in catalogue { continue; }
        if d !in docs { docs := docs[d := Document(Required, Resident)]; }
        docs := docs[d := docs[d].(status := DocumentStatus.Missing)];
        titles := titles + [d];
      }
      assert types[..|types|] == types;
    }

    method RegisterOutputs(i: nat)
      requires i < |nodes|
      modifies `docs
      ensures docs == CaseServices.RegisterOutputs(old(docs), nodes[i].spec.outputs)
    {
      var outputs := nodes[i].spec.outputs;
      for k := 0 to |outputs|
        invariant docs == CaseServices.RegisterOutputs(old(docs), outputs[..k])
      {
        assert outputs[..k + 1][..k] == outputs[..k];
        if outputs[k] !in docs { continue; }
        docs := docs[outputs[k] := Document(Uploaded, GovernmentMock)];
      }
      assert outputs[..|outputs|] == outputs;
    }

    // --- officer gate ---

    method RequestApproval(i: nat, now: Time) returns (raised: Option<Error>)
      requires i < |nodes|
      modifies `nodes, `approvals, `status, `outbox
      ensures Meets(CaseServices.RequestApproval(old(View()), i, now), raised)
      ensures |nodes| == old(|nodes|)
    {
      hide CaseServices.Transition, EmitOnce;
      raised := None;
      if HasPending(View(), i) { return; }
      if !Requestable(nodes[i].state) { return Some(Conflict); }
      if nodes[i].state == Stalled {
        raised := Transition(i, Ready, None, NoStall, now);
        if raised.Some? { return; }
      }
      var a := |approvals|;
      approvals := approvals + [Approval(i, Undecided, None)];
      nodes := nodes[i := nodes[i].(approvalState := Some(Undecided))];
      raised := Transition(i, WaitingForHuman, None, NoStall, now);
      if raised.Some? { return; }
      Emit(ApprovalRequested(a), None);
    }

    method Decide(a: nat, decision: ApprovalState, officer: Officer)
      requires a < |approvals| && approvals[a].node < |nodes|
      modifies `approvals, `nodes
      ensures View() == CaseServices.Decide(old(View()), a, decision, officer)
    {
      var i := approvals[a].node;
      approvals := approvals[a := approvals[a].(state := decision, decidedBy := Some(officer))];
      nodes := nodes[i := nodes[i].(approvalState := if decision == Cancelled then None else Some(decision))];
    }

    method Release(i: nat, a: nat, now: Time) returns (raised: Option<Error>)
      requires i < |nodes|
      modifies `nodes, `requests, `status, `outbox
      ensures Meets(CaseServices.Release(old(View()), i, a, now), raised)
    {
      hide CaseServices.Transition, EmitOnce, RequestWithKey;
      nodes := nodes[i := nodes[i].(attempts := nodes[i].attempts + 1)];
      var key := FilingKey(i, nodes[i].attempts);
      if !KeyFiled(requests, key) {
        requests := requests + [EntityRequest(i, a, key, BeingSubmitted, None, 0)];
        assert requests[|requests| - 1].key == key;
      }
      var r := RequestWithKey(requests, key);
      raised := Transition(i, Submitting, None, NoStall, now);
      if raised.Some? { return; }
      Emit(EntityRequestReleased(r), Some(ReleaseKey(key)));
    }

    method Approve(a: nat, officer: Officer, now: Time) returns (raised: Option<Error>)
      requires RowsLinked(View())
      modifies `nodes, `approvals, `requests, `status, `outbox
      ensures Meets(CaseServices.Approve(old(View()), a, officer, now), raised)
    {
      hide CaseServices.Release, EmitOnce, MissingForNode;
      if a >= |approvals| { return Some(NotFound); }
      if !officer.officiates { return Some(Forbidden); }
      var i := approvals[a].node;
      if approvals[a].state != Undecided || nodes[i].state != WaitingForHuman { return Some(Conflict); }
      if MissingForNode(View(), i) != [] { return Some(Conflict); }
      Decide(a, Approved, officer);
      Emit(OfficerApproved(a), None);
      raised := Release(i, a, now);
    }

    method Reject(a: nat, officer: Officer, reason: string, now: Time) returns (raised: Option<Error>)
      requires RowsLinked(View())
      modifies `nodes, `approvals, `status, `outbox
      ensures Meets(CaseServices.Reject(old(View()), a, officer, reason, now), raised)
    {
      hide CaseServices.Transition, EmitOnce;
      if Blank(reason) { return Some(ValidationFailed); }
      if a >= |approvals| { return Some(NotFound); }
      if !officer.officiates { return Some(Forbidden); }
      if approvals[a].state != Undecided { return Some(Conflict); }
      var i := approvals[a].node;
      Decide(a, Declined, officer);
      Emit(OfficerRejected(a), None);
      raised := Transition(i, Blocked, Some("Officer did not release: " + reason), NoStall, now);
    }

    method RequestDocuments(i: nat, types: seq<DocType>, officer: Officer, now: Time) returns (raised: Option<Error>)
      modifies `nodes, `approvals, `docs, `status, `outbox
      ensures Meets(CaseServices.RequestDocuments(old(View()), i, types, officer, now), raised)
    {
      hide CaseServices.Transition, EmitOnce, CaseServices.MarkMissing, Marked, Titles;
      raised := None;
      if !officer.officiates { return Some(Forbidden); }
      if i >= |nodes| { return Some(NotFound); }
      if types == [] || exists d :: d in types && d !in catalogue { return Some(ValidationFailed); }
      if HasPending(View(), i) { Decide(PendingApproval(approvals, i), Cancelled, officer); }
      var titles := MarkMissing(types);
      Emit(OfficerRequestedDocuments(i), None);
      if nodes[i].state != NodeState.DocumentMissing {
        raised := Transition(i, NodeState.DocumentMissing, Some(Titles(titles)), NoStall, now);
      }
    }

    // --- filing ---

    /** The calls to an authority's adapter: at most MAX_ATTEMPTS of them, until one is answered for good. */
    method Call(r: nat, replies: seq<AdapterReply>) returns (reply: AdapterReply, calls: nat)
      requires r < |requests| && requests[r].node < |nodes| && |replies| >= MAX_ATTEMPTS
      ensures (reply, calls) == SubmissionOf(View(), r, replies)
    {
      if nodes[requests[r].node].spec.kind == ParentReported { return NotAllowed, 1; }
      calls := 0;
      reply := Unavailable;
      while calls < MAX_ATTEMPTS
        invariant calls < MAX_ATTEMPTS || (MAX_ATTEMPTS == 0 && calls == 0 && reply == Unavailable)
        invariant calls < MAX_ATTEMPTS ==>
                    FinalReply(replies, MAX_ATTEMPTS, calls + 1) == FinalReply(replies, MAX_ATTEMPTS, 1)
      {
        calls := calls + 1;
        reply := replies[calls - 1];
        if !Retriable(reply) || calls == MAX_ATTEMPTS { return; }
      }
    }

    method Submit(r: nat, replies: seq<AdapterReply>, now: Time) returns (raised: Option<Error>)
      requires RowsLinked(View()) && |replies| >= MAX_ATTEMPTS
      modifies `nodes, `requests, `statuses, `status, `outbox
      ensures Meets(CaseServices.Submit(old(View()), r, replies, now), raised)
    {
      hide CaseServices.Transition, FinalReply;
      raised := None;
      if r >= |requests| || requests[r].state != BeingSubmitted { return; }
      var i := requests[r].node;
      var reply, calls := Call(r, replies);
      var tried := requests[r].(attempts := requests[r].attempts + calls);
      match reply {
        case NotAllowed =>
          requests := requests[r := tried.(state := Refused)];
          raised := Transition(i, Blocked, Some("Integration refused the request"), NoStall, now);
        case Accepted =>
          requests := requests[r := tried.(state := CaseModel.Reported(SubmittedStatus), externalRef := Some(tried.key))];
          statuses := statuses + [EntityStatus(r, SubmittedStatus)];
          raised := Transition(i, Submitted, None, NoStall, now);
        case _ =>
          requests := requests[r := tried.(state := CaseModel.Reported(StalledStatus))];
          raised := Transition(i, Stalled, Some("Unavailable - not cleared yet"), DependencyDown, now);
      }
    }

    method Retry(i: nat, officer: Officer, now: Time) returns (raised: Option<Error>)
      requires RowsLinked(View())
      modifies `nodes, `requests, `status, `outbox
      ensures Meets(CaseServices.Retry(old(View()), i, officer, now), raised)
    {
      hide CaseServices.Transition, EmitOnce;
      if !officer.officiates { return Some(Forbidden); }
      if i >= |nodes| { return Some(NotFound); }
      if nodes[i].state != Stalled || !HasRequest(View(), i) { return Some(Conflict); }
      var r := LatestRequest(requests, i);
      if requests[r].externalRef.Some? { return Some(Conflict); }
      requests := requests[r := requests[r].(state := BeingSubmitted)];
      raised := Transition(i, Submitting, None, NoStall, now);
      if raised.Some? { return; }
      Emit(EntityRequestReleased(r), None);
    }

    method Poll(r: nat, answer: StatusAnswer, routine: bool)
      modifies `statuses, `outbox
      ensures CaseServices.Poll(old(View()), r, answer, routine) == Success(View())
    {
      if r >= |requests| || requests[r].externalRef.None? || !answer.Answer? { return; }
      if routine && requests[r].state == CaseModel.Reported(answer.status) { return; }
      statuses := statuses + [EntityStatus(r, answer.status)];
      Emit(EntityStatusReceived(r, answer.status, answer.detail, answer.missing), None);
    }

    method ApplyStatus(r: nat, answer: AuthorityStatus, detail: string, missing: seq<DocType>, now: Time)
      requires RowsLinked(View())
      modifies `nodes, `requests, `docs, `status, `outbox
      ensures View() == CaseServices.ApplyStatus(old(View()), r, answer, detail, missing, now)
    {
      hide CaseServices.Transition, CaseServices.MarkMissing, Marked, Titles, CaseServices.RegisterOutputs;
      if r >= |requests| { return; }
      var i := requests[r].node;
      requests := requests[r := requests[r].(state := CaseModel.Reported(answer))];
      var ignored: Option<Error>;
      match answer {
        case InProcess => ignored := Transition(i, Processing, None, NoStall, now);
        case ClearedStatus => ApplySuccess(i, now);
        case CompletedStatus => ApplySuccess(i, now);
        case DocumentMissingStatus =>
          var titles := MarkMissing(RequestedDocuments(nodes[i], missing));
          ignored := Transition(i, NodeState.DocumentMissing, Some(Titles(titles)), NoStall, now);
        case BlockedStatus => ignored := Transition(i, Blocked, Some(detail), NoStall, now);
        case StalledStatus =>
          ignored := Transition(i, Stalled, Some(if detail == "" then "Not cleared yet" else detail), SlaKind, now);
        case RejectedStatus => ignored := Transition(i, NodeState.Rejected, Some(detail), NoStall, now);
        case WaitingForParentStatus => ignored := Transition(i, WaitingForParent, None, NoStall, now);
        case _ =>
      }
    }

    method ApplySuccess(i: nat, now: Time)
      requires i < |nodes|
      modifies `nodes, `docs, `status, `outbox
      ensures View() == CaseServices.ApplySuccess(old(View()), i, now)
    {
      hide CaseServices.Transition, CaseServices.RegisterOutputs;
      TransitionKeepsSpec(View(), i, SuccessTarget(nodes[i]), now);
      var ignored := Transition(i, SuccessTarget(nodes[i]), None, NoStall, now);
      if ignored.None? { RegisterOutputs(i); }
    }

    // --- document centre ---

    method ResumeAfterDocuments(now: Time)
      modifies `nodes, `approvals, `status, `outbox
      ensures CaseServices.ResumeAfterDocuments(old(View()), |old(nodes)|, now) == Success(View())
    {
      hide CaseServices.Transition, CaseServices.RequestApproval, MissingForNode;
      ghost var s := View();
      for k := 0 to |nodes|
        invariant |nodes| == |s.nodes| && CaseServices.ResumeAfterDocuments(s, k, now) == Success(View())
      {
        ResumeSucceeds(View(), k, now);
        var raised := None;
        if nodes[k].state == NodeState.DocumentMissing && MissingForNode(View(), k) == [] {
          if nodes[k].spec.kind == ParentReported {
            raised := Transition(k, WaitingForParent, None, NoStall, now);
          } else {
            raised := RequestApproval(k, now);
          }
        }
      }
    }

    method Upload(d: DocType, now: Time) returns (raised: Option<Error>)
      modifies `nodes, `docs, `approvals, `status, `outbox
      ensures Meets(CaseServices.Upload(old(View()), d, now), raised)
    {
      hide CaseServices.ResumeAfterDocuments, EmitOnce, IsOutput;
      if d !in docs { return Some(NotFound); }
      if IsOutput(View(), d) && docs[d] == Document(Uploaded, GovernmentMock) { return Some(Conflict); }
      docs := docs[d := Document(Uploaded, Resident)];
      Emit(DocumentUploaded(d), None);
      ResumeAfterDocuments(now);
      return None;
    }

    method Verify(d: DocType, officer: Officer) returns (raised: Option<Error>)
      modifies `docs, `outbox
      ensures Meets(CaseServices.Verify(old(View()), d, officer), raised)
    {
      if !officer.officiates { return Some(Forbidden); }
      if d !in docs { return Some(NotFound); }
      if docs[d].status != Uploaded { return Some(ValidationFailed); }
      docs := docs[d := docs[d].(status := Verified)];
      Emit(DocumentVerified(d), None);
      return None;
    }

    method SetStatus(d: DocType, to: DocumentStatus, officer: Officer, now: Time) returns (raised: Option<Error>)
      modifies `nodes, `docs, `approvals, `status, `outbox
      ensures Meets(CaseServices.SetStatus(old(View()), d, to, officer, now), raised)
    {
      hide CaseServices.ResumeAfterDocuments;
      if !officer.officiates { return Some(Forbidden); }
      if d !in docs { return Some(NotFound); }
      docs := docs[d := docs[d].(status := to)];
      if to == NotApplicable || to == Uploaded || to == Verified { ResumeAfterDocuments(now); }
      return None;
    }

    // --- escalations ---

    method Escalate(reason: EscalationReason, node: Option<nat>, warmTransfer: bool)
      modifies `escalations, `status, `outbox
      ensures View() == CaseServices.Escalate(old(View()), reason, node, warmTransfer)
    {
      hide CaseServices.Refresh, EmitOnce;
      for k := 0 to |escalations|
        invariant forall j :: 0 <= j < k && escalations[j].status != Resolved ==>
                    !(escalations[j].reason == reason && escalations[j].node == node)
      {
        if escalations[k].status != Resolved && escalations[k].reason == reason && escalations[k].node == node { return; }
      }
      assert !OpenFor(View(), reason, node);
      var k := |escalations|;
      escalations := escalations + [Escalation(reason, node, Open)];
      Emit(HumanEscalationRequired(k, warmTransfer), None);
      Refresh();
    }

    method Resolve(k: nat, officer: Officer) returns (raised: Option<Error>)
      modifies `escalations, `status, `outbox
      ensures Meets(CaseServices.Resolve(old(View()), k, officer), raised)
    {
      hide CaseServices.Refresh, EmitOnce;
      if k >= |escalations| { return Some(NotFound); }
      if !officer.officiates { return Some(Forbidden); }
      if escalations[k].status == Resolved { return Some(Conflict); }
      escalations := escalations[k := escalations[k].(status := Resolved)];
      Emit(EscalationResolved(k), None);
      Refresh();
      return None;
    }

    method Take(k: nat, officer: Officer) returns (raised: Option<Error>)
      modifies `escalations
      ensures Meets(CaseServices.Take(old(View()), k, officer), raised)
    {
      if k >= |escalations| { return Some(NotFound); }
      if !officer.officiates { return Some(Forbidden); }
      escalations := escalations[k := escalations[k].(status := InProgress)];
      return None;
    }

    // --- consulate ---

    method ReportMilestone(m: Milestone, passportNumberPresent: bool, now: Time) returns (raised: Option<Error>)
      requires RowsLinked(View())
      modifies `nodes, `docs, `escalations, `status, `outbox
      ensures Meets(CaseServices.ReportMilestone(old(View()), m, passportNumberPresent, now), raised)
    {
      hide CaseServices.MoveOnReport, EmitOnce;
      if consulate.None? || Done(nodes[consulate.value].state) { return Some(Conflict); }
      var i := consulate.value;
      if !OpenToReports(nodes[i].state) { return Some(Conflict); }
      if m == PassportIssued && !passportNumberPresent { return Some(ValidationFailed); }
      var report := MilestoneReport(m, passportNumberPresent);
      nodes := nodes[i := nodes[i].(reports := nodes[i].reports + [report])];
      Emit(ConsulateMilestoneReported(m), None);
      raised := MoveOnReport(i, m, now);
    }

    method MoveOnReport(i: nat, m: Milestone, now: Time) returns (raised: Option<Error>)
      requires i < |nodes|
      modifies `nodes, `docs, `escalations, `status, `outbox
      ensures Meets(CaseServices.MoveOnReport(old(View()), i, m, now), raised)
    {
      hide CaseServices.Transition, CaseServices.Escalate, EmitOnce;
      raised := None;
      if m == Delayed {
        raised := Transition(i, Stalled, Some("Parent reports no progress at the consulate"), ConsulateKind, now);
        if raised.Some? { return; }
        Escalate(ConsulateStall, Some(i), false);
      } else if MilestoneState(m) != nodes[i].state {
        raised := Transition(i, MilestoneState(m), None, NoStall, now);
        if raised.Some? { return; }
      }
      if m == PassportIssued && CHILD_PASSPORT in docs
         && (docs[CHILD_PASSPORT].status == Required || docs[CHILD_PASSPORT].status == DocumentStatus.Missing) {
        docs := docs[CHILD_PASSPORT := docs[CHILD_PASSPORT].(status := Required)];
      }
    }

    // --- watchdog ---

    method Watchdog(silent: bool, now: Time)
      requires RowsLinked(View())
      modifies `nodes, `escalations, `status, `outbox
      ensures CaseServices.Watchdog(old(View()), silent, now) == Success(View())
    {
      hide CaseServices.Transition, CaseServices.Escalate;
      ghost var s := View();
      for k := 0 to |nodes|
        invariant |nodes| == |s.nodes| && StallOverdue(s, k, now) == Success(View())
      {
        StallIfOverdueCovers(View(), k, now);
        if Overdue(nodes[k], now) {
          var raised := Transition(k, Stalled, Some("Past the expected hours - not cleared yet"), SlaKind, now);
        }
      }
      if consulate.Some? {
        var n := nodes[consulate.value];
        if (n.state == WaitingForParent || n.state == Processing) && n.reports == [] && silent {
          Escalate(ConsulateStall, consulate, false);
        }
      }
    }

    // --- case orchestrator ---

    /** entity_action: each step of the plan on a node that is still PENDING. */
    method EntityAction(plan: seq<(nat, Action)>, now: Time)
      requires forall p :: p in plan ==> p.0 < |nodes|
      modifies `nodes, `approvals, `status, `outbox
      ensures CaseServices.EntityAction(old(View()), plan, |plan|, now) == Success(View())
      ensures |nodes| == old(|nodes|)
    {
      hide CaseServices.Transition, CaseServices.RequestApproval, MissingForNode, Titles;
      ghost var s := View();
      for k := 0 to |plan|
        invariant |nodes| == |s.nodes| && CaseServices.EntityAction(s, plan, k, now) == Success(View())
      {
        assert plan[k] in plan;
        var (i, action) := plan[k];
        ActSucceeds(View(), i, action, now);
        if nodes[i].state != Pending { continue; }
        var raised := None;
        match action {
          case AskParent => raised := Transition(i, WaitingForParent, None, NoStall, now);
          case ReportMissing =>
            raised := Transition(i, NodeState.DocumentMissing, Some(Titles(MissingForNode(View(), i))), NoStall, now);
          case PrepareForOfficer =>
            raised := Transition(i, Ready, None, NoStall, now);
            if raised.None? { raised := RequestApproval(i, now); }
        }
      }
    }

    /** One run on outbox event e: check the dependencies, plan, act, evaluate, then the steps routed to. */
    method Orchestrate(e: nat, now: Time)
      requires RowsLinked(View()) && e < |outbox|
      modifies `nodes, `approvals, `escalations, `status, `outbox
      ensures CaseServices.Orchestrate(old(View()), e, now) == Success(View())
    {
      hide CaseServices.EntityAction, Unlockable, PlanFor, CaseServices.Escalate, EmitOnce, CaseServices.Refresh, Evaluate;
      var trigger := outbox[e].event;
      var plan: seq<(nat, Action)> := [];
      if status != Closed && status != Intake {
        var keys := FindUnlockable();
        plan := PlanFor(View(), keys);
      }
      EntityAction(plan, now);
      var verdict := Evaluate(View(), trigger);
      if verdict.escalate.Some? { Escalate(verdict.escalate.value, SubjectOf(trigger), false); }
      if verdict.callback.Some? {
        Emit(CallbackRequired(verdict.callback.value, SubjectOf(trigger)), Some(CallbackKey(e)));
      }
      if verdict.complete && (verdict.escalate.None? || verdict.callback.Some?) { Refresh(); }
    }

    // --- consumers and units of work ---

    method RecordCallback(outcome: CallbackOutcome)
      modifies `outbox
      ensures View() == CaseServices.RecordCallback(old(View()), outcome)
    {
      match outcome {
        case Scheduled => Emit(CallbackScheduled, None);
        case Coalesced =>
        case SentBySms =>
          Emit(NotificationRequested, None);
          Emit(CallbackBlocked, None);
        case NoConsent => Emit(CallbackBlocked, None);
      }
    }

    /** A delivery: acknowledge an event already receipted, or run the handler and write its receipt. */
    method Deliver(c: Consumer, e: nat, input: FullInput) returns (raised: Option<Error>)
      requires RowsLinked(View())
      modifies this
      ensures Meets(CaseServices.Deliver(old(View()), c, e, input), raised)
    {
      hide CaseServices.Orchestrate, CaseServices.Submit, CaseServices.ApplyStatus, CaseServices.RecordCallback, RowsLinked;
      if e >= |outbox| || !Registered(c, outbox[e].event) { return Some(NotFound); }
      raised := None;
      if (c, e) in receipts { return; }
      var event := outbox[e].event;
      match c {
        case Orchestrator => Orchestrate(e, input.now);
        case CallbackScheduler => RecordCallback(input.outcome);
        case EntitySubmitter => raised := Submit(event.request, input.replies, input.now);
        case EntityStatusApplier => ApplyStatus(event.request, event.status, event.detail, event.missing, input.now);
        case _ =>
      }
      if raised.Some? { return; }
      receipts := receipts + {(c, e)};
    }

    /** The work of one step, before the commit. */
    method Work(step: Step) returns (raised: Option<Error>)
      requires RowsLinked(View())
      modifies this
      ensures Meets(Apply(old(View()), step), raised)
    {
      hide CaseServices.Approve, CaseServices.Reject, CaseServices.RequestDocuments, CaseServices.RequestApproval,
           CaseServices.Retry, CaseServices.Poll, CaseServices.ReportMilestone, CaseServices.Upload, CaseServices.Verify,
           CaseServices.SetStatus, CaseServices.Watchdog, CaseServices.Escalate, CaseServices.Resolve,
           CaseServices.Take, CaseServices.Deliver, RowsLinked;
      raised := None;
      match step {
        case OfficerApproves(a, officer, now) => raised := Approve(a, officer, now);
        case OfficerRejects(a, officer, reason, now) => raised := Reject(a, officer, reason, now);
        case OfficerAsksDocuments(i, types, officer, now) => raised := RequestDocuments(i, types, officer, now);
        case FilingPrepared(i, now) =>
          if i < |nodes| { raised := RequestApproval(i, now); } else { raised := Some(NotFound); }
        case OfficerRetries(i, officer, now) => raised := Retry(i, officer, now);
        case AuthorityPolled(r, answer, routine) => Poll(r, answer, routine);
        case ParentReports(m, present, now) => raised := ReportMilestone(m, present, now);
        case ResidentUploads(d, now) => raised := Upload(d, now);
        case OfficerVerifies(d, officer) => raised := Verify(d, officer);
        case OfficerSetsStatus(d, to, officer, now) => raised := SetStatus(d, to, officer, now);
        case WatchdogPasses(silent, now) => Watchdog(silent, now);
        case EscalationOpened(cause, subject, warm) => Escalate(cause, subject, warm);
        case OfficerResolves(k, officer) => raised := Resolve(k, officer);
        case OfficerTakes(k, officer) => raised := Take(k, officer);
        case ConsumerRuns(c, e, input) => raised := Deliver(c, e, input);
        case Crashes(_) => raised := Some(Crashed);
      }
    }

    /** A unit of work: it commits as a whole, or is rolled back as a whole. */
    method Execute(step: Step, ghost w: World) returns (raised: Option<Error>)
      requires Safe(w) && View() == w.db
      modifies this
      ensures View() == Advance(w, step).db
      ensures raised.None? <==> Commits(w, step)
    {
      hide Safe, Apply, Advance, Commits;
      AdvanceIs(w, step);
      var before := View();
      raised := Work(step);
      if raised.Some? {
        status, nodes, docs, approvals := before.status, before.nodes, before.docs, before.approvals;
        requests, statuses, escalations := before.requests, before.statuses, before.escalations;
        outbox, receipts := before.outbox, before.receipts;
      }
    }
  }
}
