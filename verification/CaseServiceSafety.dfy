/** Every service keeps the invariant; all but request_documents and set_status change the case soundly. */
module CaseServiceSafety {
  import opened Wrappers
  import opened StateMachine
  import opened LifeEventGraph
  import opened CaseModel
  import opened CaseServices
  import opened CaseEvolution
  import opened CaseInvariants
  import opened CaseSteps
  import opened CaseFilingSteps

  // --- the officer gate ---

  lemma RequestApprovalSafe(s: CaseState, i: nat, now: Time) returns (t: CaseState)
    requires Inv(s, None) && i < |s.nodes| && RequestApproval(s, i, now).Success?
    ensures t == RequestApproval(s, i, now).value
    ensures Sound(s, t) && Inv(t, None)
  {
    hide Transition, Sound, Evolves;
    t := RequestApproval(s, i, now).value;
    if HasPending(s, i) {
      SoundReflexive(s);
    } else {
      var ready := s;
      if s.nodes[i].state == Stalled {
        ready := TransitionKeeps(s, None, i, Ready, None, NoStall, now);
      } else {
        SoundReflexive(s);
      }
      hide Inv;
      AskRequires(ready, s, i);
      var asked := AskKeeps(ready, None, i);
      var parked := TransitionKeeps(asked, None, i, WaitingForHuman, None, NoStall, now);
      var done := EmitKeeps(parked, None, ApprovalRequested(|s.approvals|));
      SoundTransitive(s, ready, asked);
      SoundTransitive(s, asked, parked);
      SoundTransitive(s, parked, done);
    }
  }

  lemma AskRequires(ready: CaseState, s: CaseState, i: nat)
    requires ready.approvals == s.approvals && !HasPending(s, i)
    ensures !HasPending(ready, i)
  {
  }

  lemma SendOffSafe(s: CaseState, i: nat, now: Time) returns (t: CaseState)
    requires i < |s.nodes| && Inv(s, Some(i)) && s.nodes[i].state != Pending
    requires KeyFiled(s.requests, FilingKey(i, s.nodes[i].attempts)) && SendOff(s, i, now).Success?
    ensures t == SendOff(s, i, now).value
    ensures Sound(s, t) && Inv(t, None)
  {
    hide Transition, Sound, Evolves, Inv, KeyFiled;
    t := SendOff(s, i, now).value;
    var moved := TransitionKeeps(s, Some(i), i, Submitting, None, NoStall, now);
    var key := FilingKey(i, s.nodes[i].attempts);
    var done := EmitOnceKeeps(moved, None, EntityRequestReleased(RequestWithKey(s.requests, key)), ReleaseKey(key));
    SoundTransitive(s, moved, done);
  }

  lemma ReleasedIsFiled(s: CaseState, a: nat, officer: Officer)
    requires RowsLinked(s) && RequestsOk(s) && a < |s.approvals|
    ensures FileRequest(Emit(Decide(s, a, Approved, officer), OfficerApproved(a)), s.approvals[a].node, a)
            == Emit(Released(s, a, officer), OfficerApproved(a))
  {
    NextKeyIsFresh(s, s.approvals[a].node);
  }

  lemma ApproveSafe(s: CaseState, a: nat, officer: Officer, now: Time) returns (t: CaseState)
    requires Inv(s, None) && Approve(s, a, officer, now).Success?
    ensures t == Approve(s, a, officer, now).value
    ensures Sound(s, t) && Inv(t, None)
  {
    hide Transition, Sound, Evolves, SendOff, FileRequest, RecordsOk, CompletionOk, KeysOnce, Gated, Conserved,
         RequestsOk, StatusesOk, EventsOk, ProvenanceOk, MissingForNode;
    InvApproval(s, None, a);
    ReleasedIsFiled(s, a, officer);
    t := Approve(s, a, officer, now).value;
    var released := ReleasedKeeps(s, a, officer);
    var filed := EmitKeeps(released, Some(s.approvals[a].node), OfficerApproved(a));
    var done := SendOffSafe(filed, s.approvals[a].node, now);
    SoundTransitive(s, released, filed);
    SoundTransitive(s, filed, done);
  }

  lemma RejectSafe(s: CaseState, a: nat, officer: Officer, reason: string, now: Time) returns (t: CaseState)
    requires Inv(s, None) && Reject(s, a, officer, reason, now).Success?
    ensures t == Reject(s, a, officer, reason, now).value
    ensures Sound(s, t) && Inv(t, None)
  {
    hide Transition, Sound, Evolves, RecordsOk, CompletionOk, KeysOnce, Gated, Conserved, RequestsOk, StatusesOk,
         EventsOk, ProvenanceOk, Untouched, DecisionsOk;
    t := Reject(s, a, officer, reason, now).value;
    var i := s.approvals[a].node;
    InvApproval(s, None, a);
    var decided := DecideKeeps(s, a, Declined, officer);
    var told := EmitKeeps(decided, Some(i), OfficerRejected(a));
    var done := TransitionKeeps(told, Some(i), i, Blocked, Some("Officer did not release: " + reason), NoStall, now);
    SoundTransitive(s, decided, told);
    SoundTransitive(s, told, done);
  }

  lemma MarkMissingJustified(s: CaseState, docs: map<DocType, Document>, catalogue: set<DocType>, types: seq<DocType>)
    ensures var marked := MarkMissing(docs, catalogue, types);
            forall d :: d in marked && HeldFromAuthority(marked[d]) ==> d in docs && HeldFromAuthority(docs[d])
  {
    if types != [] { MarkMissingJustified(s, docs, catalogue, types[..|types| - 1]); }
  }

  lemma MarkKeeps(s: CaseState, busy: Option<nat>, types: seq<DocType>) returns (t: CaseState)
    requires Inv(s, busy)
    ensures t == s.(docs := MarkMissing(s.docs, s.catalogue, types))
    ensures Sound(s, t) && Inv(t, busy)
  {
    hide Inv, Evolves, Orderly, MarkMissing;
    InvWithinBusy(s, busy);
    t := s.(docs := MarkMissing(s.docs, s.catalogue, types));
    MarkMissingJustified(s, s.docs, s.catalogue, types);
    SideRowsKeep(s, busy, t);
  }

  lemma InvWithinBusy(s: CaseState, busy: Option<nat>)
    requires Inv(s, busy)
    ensures Within(|s.nodes|, s.edges)
  {
  }

  lemma CancelPendingKeeps(s: CaseState, i: nat, officer: Officer) returns (t: CaseState)
    requires Inv(s, None) && i < |s.nodes|
    ensures t == CancelPending(s, i, officer) && t.docs == s.docs && t.catalogue == s.catalogue && SameNodes(s, t)
    ensures Sound(s, t) && Inv(t, Some(i))
  {
    t := CancelPending(s, i, officer);
    if HasPending(s, i) {
      hide Sound, Inv;
      var u := DecideKeeps(s, PendingApproval(s.approvals, i), Cancelled, officer);
    } else {
      SoundReflexive(s);
    }
  }

  /** The rows request_documents writes before it moves the node. */
  lemma DocumentsRequestedKeeps(s: CaseState, i: nat, types: seq<DocType>, officer: Officer) returns (t: CaseState)
    requires Inv(s, None) && i < |s.nodes|
    ensures t == Emit(CancelPending(s, i, officer).(docs := MarkMissing(s.docs, s.catalogue, types)),
                      OfficerRequestedDocuments(i))
    ensures Sound(s, t) && Inv(t, Some(i)) && SameNodes(s, t)
  {
    hide Sound, Inv, MarkMissing, CancelPending;
    var cancelled := CancelPendingKeeps(s, i, officer);
    var marked := MarkKeeps(cancelled, Some(i), types);
    t := EmitKeeps(marked, Some(i), OfficerRequestedDocuments(i));
    SoundTransitive(s, cancelled, marked);
    SoundTransitive(s, marked, t);
  }

  /** request_documents keeps the invariant; it is orderly when its node has left PENDING or may do so. */
  lemma RequestDocumentsSafe(s: CaseState, i: nat, types: seq<DocType>, officer: Officer, now: Time)
    returns (t: CaseState)
    requires Inv(s, None) && RequestDocuments(s, i, types, officer, now).Success?
    ensures t == RequestDocuments(s, i, types, officer, now).value && i < |s.nodes|
    ensures Evolves(s, t) && DocsJustified(s, t) && Inv(t, None)
    ensures s.nodes[i].state != Pending || DependenciesDone(s, i) ==> Sound(s, t)
    ensures t.nodes[i].state == NodeState.DocumentMissing
    ensures forall j :: 0 <= j < |s.nodes| && j != i ==> t.nodes[j].state == s.nodes[j].state
  {
    hide Transition, Inv, MarkMissing, Marked, Titles, CancelPending, Sound, Evolves, DocsJustified, DependenciesDone;
    t := RequestDocuments(s, i, types, officer, now).value;
    InvWithin(s);
    var told := DocumentsRequestedKeeps(s, i, types, officer);
    if s.nodes[i].state == NodeState.DocumentMissing {
      NoLongerBusy(told, i);
      SoundParts(s, t);
    } else {
      var titles := Titles(Marked(s.docs, s.catalogue, types));
      var done := TransitionKeeps(told, Some(i), i, NodeState.DocumentMissing, Some(titles), NoStall, now);
      RequestDocumentsMoves(s, told, done, i);
    }
  }

  lemma SoundParts(s: CaseState, t: CaseState)
    requires Sound(s, t)
    ensures Evolves(s, t) && DocsJustified(s, t)
  {
  }

  lemma RequestDocumentsMoves(s: CaseState, told: CaseState, done: CaseState, i: nat)
    requires Sound(s, told) && i < |s.nodes| && Evolves(told, done) && MovesNode(told, done, i)
    requires SameNodes(s, told)
    requires told.nodes[i].state != Pending || DependenciesDone(told, i) ==> Sound(told, done)
    ensures Evolves(s, done) && DocsJustified(s, done)
    ensures s.nodes[i].state != Pending || DependenciesDone(s, i) ==> Sound(s, done)
  {
    EvolvesTransitive(s, told, done);
    DocsJustifiedTransitive(s, told, done);
    if s.nodes[i].state != Pending || DependenciesDone(s, i) {
      if s.nodes[i].state == Pending { DoneStays(s, told, i); }
      SoundTransitive(s, told, done);
    }
  }

  // --- filing ---

  lemma RecordReplySafe(s: CaseState, r: nat, reply: AdapterReply, calls: nat, now: Time) returns (t: CaseState)
    requires Inv(s, None) && r < |s.requests| && s.requests[r].node < |s.nodes|
    requires s.requests[r].externalRef.None? && s.nodes[s.requests[r].node].state != Pending
    requires s.nodes[s.requests[r].node].spec.kind == ParentReported ==> reply == NotAllowed
    requires s.requests[r].key.node == s.requests[r].node && RecordReply(s, r, reply, calls, now).Success?
    ensures t == RecordReply(s, r, reply, calls, now).value
    ensures Sound(s, t) && Inv(t, None)
  {
    hide Transition, Sound, Evolves, Inv;
    var i := s.requests[r].node;
    var tried := s.requests[r].(attempts := s.requests[r].attempts + calls);
    var u := s;
    match reply {
      case NotAllowed =>
        u := RequestUpdateKeeps(s, None, r, tried.(state := Refused));
        t := TransitionKeeps(u, None, i, Blocked, Some("Integration refused the request"), NoStall, now);
      case Accepted =>
        var filed := tried.(state := CaseModel.Reported(SubmittedStatus), externalRef := Some(tried.key));
        var v := RequestUpdateKeeps(s, None, r, filed);
        u := StatusAppendKeeps(v, None, EntityStatus(r, SubmittedStatus));
        SoundTransitive(s, v, u);
        t := TransitionKeeps(u, None, i, Submitted, None, NoStall, now);
      case _ =>
        u := RequestUpdateKeeps(s, None, r, tried.(state := CaseModel.Reported(StalledStatus)));
        t := TransitionKeeps(u, None, i, Stalled, Some("Unavailable - not cleared yet"), DependencyDown, now);
    }
    SoundTransitive(s, u, t);
  }

  lemma SubmitSafe(s: CaseState, r: nat, replies: seq<AdapterReply>, now: Time) returns (t: CaseState)
    requires Inv(s, None) && |replies| >= MAX_ATTEMPTS && Submit(s, r, replies, now).Success?
    ensures t == Submit(s, r, replies, now).value
    ensures Sound(s, t) && Inv(t, None)
  {
    hide RecordReply, FinalReply, Sound, Transition;
    if r >= |s.requests| || s.requests[r].state != BeingSubmitted {
      t := s;
      SoundReflexive(s);
    } else {
      assert s.nodes[s.requests[r].node].state != Pending;
      assert RequestOk(s, r);
      var (reply, calls) := SubmissionOf(s, r, replies);
      t := RecordReplySafe(s, r, reply, calls, now);
    }
  }

  lemma RetrySafe(s: CaseState, i: nat, officer: Officer, now: Time) returns (t: CaseState)
    requires Inv(s, None) && Retry(s, i, officer, now).Success?
    ensures t == Retry(s, i, officer, now).value
    ensures Sound(s, t) && Inv(t, None)
  {
    hide Transition, Sound, Evolves, RecordsOk, CompletionOk, KeysOnce, Gated, Conserved, RequestsOk, StatusesOk,
         EventsOk, ProvenanceOk, Untouched, DecisionsOk;
    t := Retry(s, i, officer, now).value;
    var r := LatestRequest(s.requests, i);
    var u := RequestUpdateKeeps(s, None, r, s.requests[r].(state := BeingSubmitted));
    var moved := TransitionKeeps(u, None, i, Submitting, None, NoStall, now);
    var done := EmitKeeps(moved, None, EntityRequestReleased(r));
    SoundTransitive(s, u, moved);
    SoundTransitive(s, moved, done);
  }

  lemma PollSafe(s: CaseState, r: nat, answer: StatusAnswer, routine: bool) returns (t: CaseState)
    requires Inv(s, None) && Poll(s, r, answer, routine).Success?
    ensures t == Poll(s, r, answer, routine).value
    ensures Sound(s, t) && Inv(t, None)
  {
    hide Sound, Evolves, Inv;
    t := Poll(s, r, answer, routine).value;
    if r >= |s.requests| || s.requests[r].externalRef.None? || !answer.Answer?
       || (routine && s.requests[r].state == CaseModel.Reported(answer.status)) {
      InvWithin(s);
      SoundReflexive(s);
    } else {
      var u := StatusAppendKeeps(s, None, EntityStatus(r, answer.status));
      var done := EmitKeeps(u, None, EntityStatusReceived(r, answer.status, answer.detail, answer.missing));
      SoundTransitive(s, u, done);
    }
  }

  lemma InvWithin(s: CaseState)
    requires Inv(s, None)
    ensures Within(|s.nodes|, s.edges)
  {
  }

  /** A status that names a success and belongs to a referenced filing justifies finishing the filing's node. */
  lemma StatusJustifies(s: CaseState, r: nat, status: AuthorityStatus)
    requires Inv(s, None) && EntityStatus(r, status) in s.statuses && Successful(status)
    ensures r < |s.requests| && Justified(s, s.requests[r].node)
  {
    var k :| 0 <= k < |s.statuses| && s.statuses[k] == EntityStatus(r, status);
    assert RequestOk(s, r);
  }

  lemma TryTransitionSafe(s: CaseState, i: nat, target: NodeState, reason: Option<string>, stall: StallKind, now: Time)
    returns (t: CaseState)
    requires Inv(s, None) && i < |s.nodes| && s.nodes[i].state != Pending
    requires target != Pending && target != WaitingForHuman
    requires Done(target) ==> Justified(s, i)
    ensures t == TryTransition(s, i, target, reason, stall, now).0
    ensures Sound(s, t) && Inv(t, None)
    ensures TryTransition(s, i, target, reason, stall, now).1 ==> t.nodes[i].state == target
    ensures t.docs == s.docs && |t.nodes| == |s.nodes| && t.nodes[i].spec == s.nodes[i].spec
  {
    hide Transition, Sound, Evolves, Justified;
    if Transition(s, i, target, reason, stall, now).Success? {
      t := TransitionKeeps(s, None, i, target, reason, stall, now);
    } else {
      t := s;
      SoundReflexive(s);
    }
  }

  lemma {:induction false} OutputsJustified(s: CaseState, docs: map<DocType, Document>, i: nat, outputs: seq<DocType>)
    requires i < |s.nodes| && Done(s.nodes[i].state) && forall d :: d in outputs ==> d in s.nodes[i].spec.outputs
    ensures var after := RegisterOutputs(docs, outputs);
            forall d :: d in after && HeldFromAuthority(after[d])
              ==> Produced(s, d) || (d in docs && HeldFromAuthority(docs[d]))
  {
    if outputs != [] {
      var d := outputs[|outputs| - 1];
      assert d in outputs;
      OutputsJustified(s, docs, i, outputs[..|outputs| - 1]);
      assert Produced(s, d);
    }
  }

  lemma OutputsKeep(s: CaseState, i: nat) returns (t: CaseState)
    requires Inv(s, None) && i < |s.nodes| && Done(s.nodes[i].state)
    ensures t == s.(docs := RegisterOutputs(s.docs, s.nodes[i].spec.outputs))
    ensures Sound(s, t) && Inv(t, None)
  {
    hide Inv, RegisterOutputs, Evolves, Orderly;
    t := s.(docs := RegisterOutputs(s.docs, s.nodes[i].spec.outputs));
    OutputsJustified(t, s.docs, i, s.nodes[i].spec.outputs);
    SideRowsKeep(s, None, t);
    InvWithin(s);
  }

  lemma ApplySuccessSafe(s: CaseState, i: nat, now: Time) returns (t: CaseState)
    requires Inv(s, None) && i < |s.nodes| && s.nodes[i].state != Pending && Justified(s, i)
    ensures t == ApplySuccess(s, i, now)
    ensures Sound(s, t) && Inv(t, None)
  {
    hide Inv, TryTransition, Justified, Sound, RegisterOutputs;
    var moved := TryTransitionSafe(s, i, SuccessTarget(s.nodes[i]), None, NoStall, now);
    t := moved;
    if TryTransition(s, i, SuccessTarget(s.nodes[i]), None, NoStall, now).1 {
      t := OutputsKeep(moved, i);
      SoundTransitive(s, moved, t);
    }
  }

  lemma ApplyMissingSafe(s: CaseState, i: nat, types: seq<DocType>, now: Time) returns (t: CaseState)
    requires Inv(s, None) && i < |s.nodes| && s.nodes[i].state != Pending
    ensures t == ApplyMissing(s, i, types, now)
    ensures Sound(s, t) && Inv(t, None)
  {
    hide Inv, TryTransition, Sound, MarkMissing, Marked, Titles;
    var titles := Titles(Marked(s.docs, s.catalogue, types));
    var marked := MarkKeeps(s, None, types);
    t := TryTransitionSafe(marked, i, NodeState.DocumentMissing, Some(titles), NoStall, now);
    SoundTransitive(s, marked, t);
  }

  lemma ApplyToNodeSafe(s: CaseState, i: nat, status: AuthorityStatus, detail: string, missing: seq<DocType>, now: Time)
    returns (t: CaseState)
    requires Inv(s, None) && i < |s.nodes| && s.nodes[i].state != Pending
    requires Successful(status) ==> Justified(s, i)
    ensures t == ApplyToNode(s, i, status, detail, missing, now)
    ensures Sound(s, t) && Inv(t, None)
  {
    hide TryTransition, ApplySuccess, ApplyMissing, Sound, Justified;
    match status {
      case InProcess => t := TryTransitionSafe(s, i, Processing, None, NoStall, now);
      case ClearedStatus => t := ApplySuccessSafe(s, i, now);
      case CompletedStatus => t := ApplySuccessSafe(s, i, now);
      case DocumentMissingStatus => t := ApplyMissingSafe(s, i, RequestedDocuments(s.nodes[i], missing), now);
      case BlockedStatus => t := TryTransitionSafe(s, i, Blocked, Some(detail), NoStall, now);
      case StalledStatus =>
        t := TryTransitionSafe(s, i, Stalled, Some(if detail == "" then "Not cleared yet" else detail), SlaKind, now);
      case RejectedStatus => t := TryTransitionSafe(s, i, Rejected, Some(detail), NoStall, now);
      case WaitingForParentStatus => t := TryTransitionSafe(s, i, WaitingForParent, None, NoStall, now);
      case _ =>
        t := s;
        SoundReflexive(s);
    }
  }

  lemma StatusHasRequest(s: CaseState, r: nat, status: AuthorityStatus)
    requires Inv(s, None) && EntityStatus(r, status) in s.statuses
    ensures r < |s.requests|
  {
    var k :| 0 <= k < |s.statuses| && s.statuses[k] == EntityStatus(r, status);
  }

  lemma ApplyStatusSafe(s: CaseState, r: nat, status: AuthorityStatus, detail: string, missing: seq<DocType>, now: Time)
    returns (t: CaseState)
    requires Inv(s, None) && EntityStatus(r, status) in s.statuses
    ensures t == ApplyStatus(s, r, status, detail, missing, now)
    ensures Sound(s, t) && Inv(t, None)
  {
    hide RecordsOk, CompletionOk, KeysOnce, Gated, Conserved, RequestsOk, StatusesOk, EventsOk, ProvenanceOk, Untouched,
         DecisionsOk, ApplyToNode, Sound, Justified;
    StatusHasRequest(s, r, status);
    InvRequest(s, None, r);
    var noted := RequestUpdateKeeps(s, None, r, s.requests[r].(state := CaseModel.Reported(status)));
    if Successful(status) { StatusJustifies(noted, r, status); }
    t := ApplyToNodeSafe(noted, s.requests[r].node, status, detail, missing, now);
    SoundTransitive(s, noted, t);
  }
}
