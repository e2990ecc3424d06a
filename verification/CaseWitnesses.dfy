/** The dead ends are reached: runs from the opening of every case with a filing that lead into them. */
module CaseWitnesses {
  import opened Wrappers
  import opened StateMachine
  import opened LifeEventGraph
  import opened CaseModel
  import opened CaseServices
  import opened CaseEvolution
  import opened CaseInvariants
  import opened CaseSteps
  import opened CaseRuns
  import opened CaseTargets
  import opened CaseOutcomes
  import opened CaseDeadEnds
  import opened CaseFreshness

  // --- one unit of work at a time ---

  /** The types node i requires, d set aside, are all in hand. */
  predicate OthersInHand(s: CaseState, i: nat, d: DocType)
    requires i < |s.nodes|
  {
    forall r :: r in s.nodes[i].spec.requiredDocuments && r != d && r in s.docs ==> !Outstanding(s.docs[r].status)
  }

  /** An officer asks for a document of node i: the node goes to DOCUMENT_MISSING, wherever it was. */
  lemma Asked(s: CaseState, i: nat, d: DocType, officer: Officer, now: Time) returns (t: CaseState)
    requires RowsLinked(s) && i < |s.nodes| && d in s.catalogue && officer.officiates && !HasPending(s, i)
    requires NodeState.DocumentMissing in Allowed(s.nodes[i].state)
    ensures RequestDocuments(s, i, [d], officer, now) == Success(t)
    ensures Touches(s, t, i) && NoRelease(s, t) && t.nodes[i].state == NodeState.DocumentMissing
    ensures t == s.(nodes := t.nodes, docs := s.docs[d := MarkedMissing(s.docs, d)], status := t.status,
                    outbox := t.outbox)
  {
    hide Transition, Titles, Marked;
    var marked := s.(docs := MarkMissing(s.docs, s.catalogue, [d]));
    assert [d][..|[d]| - 1] == [];
    assert MarkMissing(s.docs, s.catalogue, [d]) == s.docs[d := MarkedMissing(s.docs, d)];
    var reason := Some(Titles(Marked(s.docs, s.catalogue, [d])));
    TransitionSucceeds(Emit(marked, OfficerRequestedDocuments(i)), i, NodeState.DocumentMissing, reason, NoStall, now);
    t := RequestDocuments(s, i, [d], officer, now).value;
  }

  lemma {:induction false} ResumeOnly(s: CaseState, i: nat, k: nat, now: Time)
    requires i < |s.nodes| && k <= |s.nodes| && Resume(s, i, now).Success?
    requires Resume(s, i, now).value.nodes == s.nodes[i := Resume(s, i, now).value.nodes[i]]
    requires forall j :: 0 <= j < |s.nodes| && j != i ==> s.nodes[j].state != NodeState.DocumentMissing
    ensures ResumeAfterDocuments(s, k, now) == Success(if k <= i then s else Resume(s, i, now).value)
  {
    hide RequestApproval, Transition;
    if k > 0 { ResumeOnly(s, i, k - 1, now); }
  }

  /** The resident uploads it, and node i comes to the officer gate with a new approval. */
  lemma Provided(s: CaseState, i: nat, d: DocType, now: Time) returns (t: CaseState)
    requires RowsLinked(s) && i < |s.nodes| && s.nodes[i].spec.kind == EntityFiling && !HasPending(s, i)
    requires s.nodes[i].state == NodeState.DocumentMissing && OthersInHand(s, i, d)
    requires forall j :: 0 <= j < |s.nodes| && j != i ==> s.nodes[j].state != NodeState.DocumentMissing
    requires d in s.docs && s.docs[d].status == DocumentStatus.Missing
    ensures Upload(s, d, now) == Success(t)
    ensures Touches(s, t, i) && NoRelease(s, t) && t.nodes[i].state == WaitingForHuman
    ensures t == s.(nodes := t.nodes, docs := s.docs[d := Document(Uploaded, Resident)], status := t.status,
                    outbox := t.outbox, approvals := s.approvals + [Approval(i, Undecided, None)])
  {
    hide Transition, IsOutput, MissingOf;
    var stored := Emit(s.(docs := s.docs[d := Document(Uploaded, Resident)]), DocumentUploaded(d));
    NothingMissing(stored.docs, s.nodes[i].spec.requiredDocuments);
    var asked := stored.(approvals := stored.approvals + [Approval(i, Undecided, None)],
                         nodes := stored.nodes[i := stored.nodes[i].(approvalState := Some(Undecided))]);
    TransitionSucceeds(asked, i, WaitingForHuman, None, NoStall, now);
    ResumeOnly(stored, i, |s.nodes|, now);
    t := Upload(s, d, now).value;
  }

  /** An officer releases it. */
  lemma Released(s: CaseState, i: nat, a: nat, officer: Officer, now: Time) returns (t: CaseState)
    requires RowsLinked(s) && RequestsOk(s) && i < |s.nodes| && officer.officiates && s.nodes[i].state == WaitingForHuman
    requires a < |s.approvals| && s.approvals[a] == Approval(i, Undecided, None) && MissingForNode(s, i) == []
    requires forall e :: 0 <= e < |s.outbox| ==> s.outbox[e].key.None? || s.outbox[e].key.value == CaseCompletedKey
    ensures Approve(s, a, officer, now) == Success(t)
    ensures Touches(s, t, i) && t.nodes[i].state == Submitting && t.docs == s.docs && t.receipts == s.receipts
    ensures t.approvals == s.approvals[a := Approval(i, Approved, Some(officer))]
    ensures |t.requests| == |s.requests| + 1 && t.requests[|s.requests|].node == i
    ensures t.requests[|s.requests|].state == BeingSubmitted && t.requests[|s.requests|].externalRef.None?
    ensures t.outbox != [] && t.outbox[|t.outbox| - 1].event == EntityRequestReleased(|s.requests|)
  {
    hide Transition, MissingForNode;
    CaseFilingSteps.NextKeyIsFresh(s, i);
    var told := Emit(Decide(s, a, Approved, officer), OfficerApproved(a));
    var filed := FileRequest(told, i, a);
    TransitionSucceeds(filed, i, Submitting, None, NoStall, now);
    var key := FilingKey(i, s.nodes[i].attempts + 1);
    var moved := Transition(filed, i, Submitting, None, NoStall, now).value;
    assert filed.requests[|s.requests|].key == key;
    assert !KeyUsed(moved.outbox, Some(ReleaseKey(key)));
    t := Approve(s, a, officer, now).value;
  }

  // --- runs ---

  lemma ReachedNext(t: Template, steps: seq<Step>, step: Step)
    requires TemplateOk(t) && Commits(Reached(t, steps), step) && RowsLinked(Reached(t, steps).db)
    ensures Reached(t, steps + [step]).db == Apply(Reached(t, steps).db, step).value
    ensures RowsLinked(Reached(t, steps + [step]).db) && RequestsOk(Reached(t, steps + [step]).db)
  {
    hide Inv, OrderedBut, HeldAreProduced, ShownAreFiled, Evolves, Apply;
    assert (steps + [step])[..|steps|] == steps;
    InvRows(Reached(t, steps + [step]).db, None);
  }

  lemma ReachedOpening(t: Template)
    requires TemplateOk(t)
    ensures Reached(t, []).db == Opened(t) && RowsLinked(Opened(t)) && |Opened(t).nodes| == |t.specs|
    ensures Opened(t).edges == t.edges
  {
    hide Opened;
    InvRows(Reached(t, []).db, None);
  }

  /** The document types node i requires are in hand when the case opens, d set aside. */
  predicate OnlyLacks(t: Template, i: nat, d: DocType)
    requires i < |t.specs|
  {
    forall r :: r in t.specs[i].requiredDocuments && r != d && r in t.catalogue ==> r !in t.unattested
  }

  /** Node i, and no other, has been moved since the opening, and document d with it. */
  ghost predicate OnlyMoved(t: Template, s: CaseState, i: nat, doc: Document, d: DocType) {
    && i < |t.specs| && Touches(Opened(t), s, i) && s.receipts == {} && s.docs == Opened(t).docs[d := doc]
  }

  lemma OnlyMovedRows(t: Template, s: CaseState, i: nat, doc: Document, d: DocType)
    requires OnlyMoved(t, s, i, doc, d)
    ensures |s.nodes| == |t.specs| && s.nodes[i].spec == t.specs[i] && s.catalogue == t.catalogue && d in s.docs
    ensures forall j :: 0 <= j < |s.nodes| && j != i ==> s.nodes[j].state == Pending
    ensures OnlyLacks(t, i, d) ==> OthersInHand(s, i, d)
  {
  }

  function FilingSteps(i: nat, d: DocType, officer: Officer, now: Time): seq<Step> {
    [OfficerAsksDocuments(i, [d], officer, now), ResidentUploads(d, now), OfficerApproves(0, officer, now)]
  }

  lemma AskedFirst(t: Template, i: nat, d: DocType, officer: Officer, now: Time) returns (s: CaseState)
    requires TemplateOk(t) && i < |t.specs| && officer.officiates && d in t.catalogue
    ensures s == Reached(t, [OfficerAsksDocuments(i, [d], officer, now)]).db && RowsLinked(s)
    ensures OnlyMoved(t, s, i, MarkedMissing(Opened(t).docs, d), d)
    ensures s.nodes[i].state == NodeState.DocumentMissing && s.approvals == [] && s.requests == []
    ensures NoRelease(Opened(t), s)
  {
    hide Inv, OrderedBut, HeldAreProduced, ShownAreFiled, Evolves, RequestsOk, RequestDocuments, Reached, RowsLinked,
         MarkedMissing;
    ReachedOpening(t);
    s := Asked(Opened(t), i, d, officer, now);
    ReachedNext(t, [], OfficerAsksDocuments(i, [d], officer, now));
    assert [] + [OfficerAsksDocuments(i, [d], officer, now)] == [OfficerAsksDocuments(i, [d], officer, now)];
  }

  lemma ProvidedNext(t: Template, i: nat, d: DocType, officer: Officer, now: Time) returns (s: CaseState)
    requires TemplateOk(t) && i < |t.specs| && t.specs[i].kind == EntityFiling && officer.officiates
    requires d in t.catalogue && OnlyLacks(t, i, d)
    ensures s == Reached(t, [OfficerAsksDocuments(i, [d], officer, now), ResidentUploads(d, now)]).db
    ensures RowsLinked(s) && RequestsOk(s)
    ensures OnlyMoved(t, s, i, Document(Uploaded, Resident), d) && s.nodes[i].state == WaitingForHuman
    ensures s.approvals == [Approval(i, Undecided, None)] && s.requests == [] && NoRelease(Opened(t), s)
  {
    hide Inv, OrderedBut, HeldAreProduced, ShownAreFiled, Evolves, RequestsOk, Upload, Reached, RowsLinked, OnlyLacks,
         OthersInHand, Opened, TemplateOk;
    var a, b := OfficerAsksDocuments(i, [d], officer, now), ResidentUploads(d, now);
    var asked := AskedFirst(t, i, d, officer, now);
    OnlyMovedRows(t, asked, i, MarkedMissing(Opened(t).docs, d), d);
    s := Provided(asked, i, d, now);
    ReachedNext(t, [a], b);
    assert [a, b] == [a] + [b];
  }

  /** What the three steps leave behind: node i filed, everything else untouched. */
  ghost predicate OnlyFiled(t: Template, s: CaseState, i: nat, d: DocType, officer: Officer) {
    && OnlyMoved(t, s, i, Document(Uploaded, Resident), d) && s.nodes[i].state == Submitting
    && s.approvals == [Approval(i, Approved, Some(officer))]
    && |s.requests| == 1 && s.requests[0].node == i
    && s.requests[0].state == BeingSubmitted && s.requests[0].externalRef.None?
    && s.outbox != [] && s.outbox[|s.outbox| - 1].event == EntityRequestReleased(0)
  }

  lemma AnyStepCanBeFiled(t: Template, i: nat, d: DocType, officer: Officer, now: Time) returns (s: CaseState)
    requires TemplateOk(t) && i < |t.specs| && t.specs[i].kind == EntityFiling && officer.officiates
    requires d in t.catalogue && OnlyLacks(t, i, d)
    ensures s == Reached(t, FilingSteps(i, d, officer, now)).db && RowsLinked(s)
    ensures OnlyFiled(t, s, i, d, officer)
  {
    hide Inv, OrderedBut, HeldAreProduced, ShownAreFiled, Evolves, RequestsOk, Approve, Reached, RowsLinked, OnlyLacks,
         TemplateOk;
    var a, b, c := OfficerAsksDocuments(i, [d], officer, now), ResidentUploads(d, now), OfficerApproves(0, officer, now);
    var ready := ProvidedNext(t, i, d, officer, now);
    OnlyMovedRows(t, ready, i, Document(Uploaded, Resident), d);
    NothingMissing(ready.docs, ready.nodes[i].spec.requiredDocuments);
    s := Released(ready, i, 0, officer, now);
    ReachedNext(t, [a, b], c);
    assert [a, b, c] == [a, b] + [c];
  }

  /** Any filing of any case can be released before a single one of its predecessors has been started. */
  lemma FiledBeforeItsPredecessors(t: Template, i: nat, d: DocType, officer: Officer, now: Time) returns (w: World)
    requires TemplateOk(t) && i < |t.specs| && t.specs[i].kind == EntityFiling && officer.officiates
    requires d in t.catalogue && OnlyLacks(t, i, d)
    ensures Runs(Start(t), FilingSteps(i, d, officer, now), w)
    ensures i < |w.db.nodes| && w.db.nodes[i].state == Submitting
    ensures forall j :: 0 <= j < |w.db.nodes| && j != i ==> w.db.nodes[j].state == Pending
  {
    hide Inv, OrderedBut, HeldAreProduced, ShownAreFiled, Evolves, OnlyLacks, TemplateOk, Runs, Run;
    var s := AnyStepCanBeFiled(t, i, d, officer, now);
    OnlyMovedRows(t, s, i, Document(Uploaded, Resident), d);
    w := ReachedRuns(t, FilingSteps(i, d, officer, now));
  }

  lemma ReachedRuns(t: Template, steps: seq<Step>) returns (w: World)
    requires TemplateOk(t)
    ensures w == Reached(t, steps) && Runs(Start(t), steps, w)
  {
    hide Inv, OrderedBut, HeldAreProduced, ShownAreFiled, Evolves, TemplateOk, Runs, Run;
    OpenedSafe(t);
    RunRuns(Start(t), steps);
    w := Reached(t, steps);
  }

  const ACCEPTED: FullInput := Input(0, seq(MAX_ATTEMPTS, _ => Accepted), Coalesced)

  /** The authority takes the filing. */
  lemma Taken(s: CaseState, i: nat, e: nat) returns (t: CaseState)
    requires MAX_ATTEMPTS > 0
    requires RowsLinked(s) && e < |s.outbox| && s.outbox[e].event == EntityRequestReleased(0)
    requires |s.requests| == 1 && s.requests[0].node == i < |s.nodes| && s.requests[0].state == BeingSubmitted
    requires s.nodes[i].state == Submitting && s.nodes[i].spec.kind == EntityFiling && s.receipts == {}
    ensures Deliver(s, EntitySubmitter, e, ACCEPTED) == Success(t)
    ensures Touches(s, t, i) && t.nodes[i].state == Submitted && t.docs == s.docs && t.approvals == s.approvals
    ensures |t.requests| == 1 && t.requests[0].node == i && t.requests[0].externalRef.Some?
    ensures t.receipts == {(EntitySubmitter, e)}
  {
    hide Transition;
    var tried := s.requests[0].(attempts := s.requests[0].attempts + 1);
    var filed := tried.(state := CaseModel.Reported(SubmittedStatus), externalRef := Some(tried.key));
    var submitted := s.(requests := s.requests[0 := filed], statuses := s.statuses + [EntityStatus(0, SubmittedStatus)]);
    TransitionSucceeds(submitted, i, Submitted, None, NoStall, 0);
    t := Deliver(s, EntitySubmitter, e, ACCEPTED).value;
  }

  lemma ReachedFails(t: Template, steps: seq<Step>, step: Step)
    requires TemplateOk(t) && RowsLinked(Reached(t, steps).db) && Apply(Reached(t, steps).db, step).Failure?
    ensures
      var w := Reached(t, steps);
      Reached(t, steps + [step]) == w.(shown := w.shown + KeysShown(w.db, step))
  {
    hide Inv, OrderedBut, HeldAreProduced, ShownAreFiled, Evolves, Apply;
    assert (steps + [step])[..|steps|] == steps;
    AdvanceIsNext(Reached(t, steps), step);
  }

  /** A filing shown to an authority that the case still holds as being submitted, without a reference. */
  predicate Unrecorded(w: World, i: nat) {
    |w.db.requests| == 1 && w.db.requests[0].node == i && w.db.requests[0].state == BeingSubmitted
    && w.db.requests[0].externalRef.None? && w.db.requests[0].key in w.shown
  }

  /** Node i waits for documents while its one filing has yet to go out. */
  ghost predicate AskedWhileFiling(s: CaseState, i: nat, e: nat) {
    && RowsLinked(s) && i < |s.nodes| && s.nodes[i].spec.kind == EntityFiling && s.receipts == {}
    && s.nodes[i].state == NodeState.DocumentMissing && |s.requests| == 1 && s.requests[0].node == i
    && s.requests[0].state == BeingSubmitted && s.requests[0].externalRef.None?
    && e < |s.outbox| && s.outbox[e].event == EntityRequestReleased(0)
  }

  lemma AskedOnceFiled(t: Template, s: CaseState, i: nat, d: DocType, officer: Officer, now: Time) returns (u: CaseState)
    requires i < |t.specs| && t.specs[i].kind == EntityFiling && officer.officiates && d in t.catalogue
    requires OnlyFiled(t, s, i, d, officer) && RowsLinked(s)
    ensures RequestDocuments(s, i, [d], officer, now) == Success(u)
    ensures RowsLinked(u) ==> AskedWhileFiling(u, i, |s.outbox| - 1)
  {
    hide RowsLinked, Opened, RequestDocuments, OthersInHand, MarkedMissing;
    OnlyMovedRows(t, s, i, Document(Uploaded, Resident), d);
    u := Asked(s, i, d, officer, now);
  }

  lemma AskedAtOnce(t: Template, i: nat, d: DocType, officer: Officer, now: Time) returns (steps: seq<Step>, e: nat)
    requires TemplateOk(t) && i < |t.specs| && t.specs[i].kind == EntityFiling && officer.officiates
    requires d in t.catalogue && OnlyLacks(t, i, d)
    ensures AskedWhileFiling(Reached(t, steps).db, i, e)
  {
    hide Inv, OrderedBut, HeldAreProduced, ShownAreFiled, Evolves, RequestsOk, RequestDocuments, Reached, RowsLinked,
         OnlyLacks, TemplateOk, OnlyMoved, AskedWhileFiling;
    var filed := AnyStepCanBeFiled(t, i, d, officer, now);
    var s := AskedOnceFiled(t, filed, i, d, officer, now);
    steps, e := FilingSteps(i, d, officer, now), |filed.outbox| - 1;
    ReachedNext(t, steps, OfficerAsksDocuments(i, [d], officer, now));
    steps := steps + [OfficerAsksDocuments(i, [d], officer, now)];
  }

  /** A filing is released, the officer asks for a document, and the authority accepts the filing: nothing is recorded. */
  lemma AcceptedFilingIsLost(t: Template, i: nat, d: DocType, officer: Officer, now: Time)
    returns (steps: seq<Step>, e: nat, w: World)
    requires MAX_ATTEMPTS > 0
    requires TemplateOk(t) && i < |t.specs| && t.specs[i].kind == EntityFiling && officer.officiates
    requires d in t.catalogue && OnlyLacks(t, i, d)
    ensures Runs(Start(t), steps + [ConsumerRuns(EntitySubmitter, e, ACCEPTED)], w) && Unrecorded(w, i)
  {
    hide Inv, OrderedBut, HeldAreProduced, ShownAreFiled, Evolves, Reached, Runs, RowsLinked, OnlyLacks, TemplateOk,
         Run, Deliver, KeysShown;
    steps, e := AskedAtOnce(t, i, d, officer, now);
    AcceptanceRaises(Reached(t, steps).db, i, e);
    ReachedFails(t, steps, ConsumerRuns(EntitySubmitter, e, ACCEPTED));
    w := ReachedRuns(t, steps + [ConsumerRuns(EntitySubmitter, e, ACCEPTED)]);
  }

  lemma AcceptanceRaises(s: CaseState, i: nat, e: nat)
    requires MAX_ATTEMPTS > 0
    requires AskedWhileFiling(s, i, e)
    ensures Deliver(s, EntitySubmitter, e, ACCEPTED).Failure?
    ensures KeysShown(s, ConsumerRuns(EntitySubmitter, e, ACCEPTED)) == {s.requests[0].key}
  {
    NotFiledAfterDocumentsAsked(s, 0, ACCEPTED.replies, 0);
  }

  /** The authority's rejection arrives and is applied. */
  lemma RejectionApplied(s: CaseState, i: nat, detail: string) returns (u: CaseState)
    requires RowsLinked(s) && |s.requests| == 1 && s.requests[0].node == i < |s.nodes|
    requires s.requests[0].externalRef.Some? && s.nodes[i].state == WaitingForHuman && HasPending(s, i)
    requires (EntityStatusApplier, |s.outbox|) !in s.receipts
    ensures
      var polled := Poll(s, 0, Answer(RejectedStatus, detail, []), false);
      && polled.Success? && RowsLinked(polled.value)
      && Deliver(polled.value, EntityStatusApplier, |s.outbox|, ACCEPTED) == Success(u) && Wedged(u, i)
  {
    hide ApplyToNode;
    var polled := Poll(s, 0, Answer(RejectedStatus, detail, []), false).value;
    assert polled.outbox[|s.outbox|].event == EntityStatusReceived(0, RejectedStatus, detail, []);
    assert HasPending(polled, i);
    u := Deliver(polled, EntityStatusApplier, |s.outbox|, ACCEPTED).value;
    LateRejectionWedgesIff(polled, |s.outbox|, ACCEPTED);
  }

  /** A released filing is taken by the authority, and the officer then asks for a further document. */
  lemma AskedAgain(t: Template, i: nat, d: DocType, officer: Officer, now: Time)
    returns (steps: seq<Step>, s: CaseState)
    requires MAX_ATTEMPTS > 0
    requires TemplateOk(t) && i < |t.specs| && t.specs[i].kind == EntityFiling && officer.officiates
    requires d in t.catalogue && OnlyLacks(t, i, d)
    ensures s == Reached(t, steps).db && RowsLinked(s) && i < |s.nodes| && Returning(s, i, d)
    ensures s.nodes[i].spec.kind == EntityFiling
  {
    hide Inv, OrderedBut, HeldAreProduced, ShownAreFiled, Evolves, RequestsOk, RequestDocuments, Deliver, Reached,
         RowsLinked, OnlyLacks, TemplateOk, OthersInHand, Opened, MissingForNode;
    var filed := AnyStepCanBeFiled(t, i, d, officer, now);
    OnlyMovedRows(t, filed, i, Document(Uploaded, Resident), d);
    var e := |filed.outbox| - 1;
    var taken := Taken(filed, i, e);
    steps := FilingSteps(i, d, officer, now);
    ReachedNext(t, steps, ConsumerRuns(EntitySubmitter, e, ACCEPTED));
    steps := steps + [ConsumerRuns(EntitySubmitter, e, ACCEPTED)];
    s := Asked(taken, i, d, officer, now);
    ReachedNext(t, steps, OfficerAsksDocuments(i, [d], officer, now));
    steps := steps + [OfficerAsksDocuments(i, [d], officer, now)];
    StillInHand(filed, s, i, d);
  }

  lemma StillInHand(s: CaseState, t: CaseState, i: nat, d: DocType)
    requires i < |s.nodes| == |t.nodes| && t.nodes[i].spec == s.nodes[i].spec && d in s.docs
    requires t.docs == s.docs[d := MarkedMissing(s.docs, d)] && OthersInHand(s, i, d)
    ensures OthersInHand(t, i, d)
  {
  }

  /** Node i waits for document d alone, with one filing the authority knows and no undecided approval. */
  ghost predicate Returning(s: CaseState, i: nat, d: DocType)
    requires i < |s.nodes|
  {
    && s.nodes[i].state == NodeState.DocumentMissing && OthersInHand(s, i, d) && !HasPending(s, i)
    && (forall j :: 0 <= j < |s.nodes| && j != i ==> s.nodes[j].state != NodeState.DocumentMissing)
    && d in s.docs && s.docs[d].status == DocumentStatus.Missing
    && |s.requests| == 1 && s.requests[0].node == i && s.requests[0].externalRef.Some?
    && (forall e :: (EntityStatusApplier, e) !in s.receipts)
  }

  /** A released filing, a further document asked for and provided, and then the authority's rejection: wedged. */
  lemma WedgeIsReached(t: Template, i: nat, d: DocType, officer: Officer, detail: string, now: Time) returns (w: World)
    requires MAX_ATTEMPTS > 0
    requires TemplateOk(t) && i < |t.specs| && t.specs[i].kind == EntityFiling && officer.officiates
    requires d in t.catalogue && OnlyLacks(t, i, d)
    ensures Reachable(t, w) && Wedged(w.db, i)
  {
    hide Inv, OrderedBut, HeldAreProduced, ShownAreFiled, Evolves, Run, Runs, OnlyLacks, TemplateOk, Wedged;
    var steps := WedgingSteps(t, i, d, officer, detail, now);
    w := ReachedRuns(t, steps);
  }

  /** Node i is back at the officer gate, with document d in hand and the authority's answer still to come. */
  ghost predicate BackAtGate(s: CaseState, i: nat, d: DocType)
    requires i < |s.nodes|
  {
    && s.nodes[i].state == WaitingForHuman && HasPending(s, i) && OthersInHand(s, i, d) && d in s.docs
    && (forall j :: 0 <= j < |s.nodes| && j != i ==> s.nodes[j].state != NodeState.DocumentMissing)
    && |s.requests| == 1 && s.requests[0].node == i && s.requests[0].externalRef.Some?
    && (forall e :: (EntityStatusApplier, e) !in s.receipts)
  }

  lemma ProvidedAgain(s: CaseState, i: nat, d: DocType, now: Time) returns (u: CaseState)
    requires RowsLinked(s) && i < |s.nodes| && s.nodes[i].spec.kind == EntityFiling && Returning(s, i, d)
    ensures Upload(s, d, now) == Success(u) && i < |u.nodes| && u.nodes[i].spec.kind == EntityFiling
    ensures BackAtGate(u, i, d)
  {
    hide Upload;
    u := Provided(s, i, d, now);
    assert u.approvals[|s.approvals|] == Approval(i, Undecided, None);
  }

  lemma BackAgain(t: Template, i: nat, d: DocType, officer: Officer, now: Time) returns (steps: seq<Step>, s: CaseState)
    requires MAX_ATTEMPTS > 0
    requires TemplateOk(t) && i < |t.specs| && t.specs[i].kind == EntityFiling && officer.officiates
    requires d in t.catalogue && OnlyLacks(t, i, d)
    ensures s == Reached(t, steps).db && RowsLinked(s) && i < |s.nodes| && BackAtGate(s, i, d)
    ensures s.nodes[i].spec.kind == EntityFiling
  {
    hide Inv, OrderedBut, HeldAreProduced, ShownAreFiled, Evolves, RequestsOk, Upload, Reached, RowsLinked, OnlyLacks,
         TemplateOk, Returning, BackAtGate;
    var asked;
    steps, asked := AskedAgain(t, i, d, officer, now);
    s := ProvidedAgain(asked, i, d, now);
    ReachedNext(t, steps, ResidentUploads(d, now));
    steps := steps + [ResidentUploads(d, now)];
  }

  lemma WedgingSteps(t: Template, i: nat, d: DocType, officer: Officer, detail: string, now: Time)
    returns (steps: seq<Step>)
    requires MAX_ATTEMPTS > 0
    requires TemplateOk(t) && i < |t.specs| && t.specs[i].kind == EntityFiling && officer.officiates
    requires d in t.catalogue && OnlyLacks(t, i, d)
    ensures Wedged(Reached(t, steps).db, i)
  {
    hide Inv, OrderedBut, HeldAreProduced, ShownAreFiled, Evolves, RequestsOk, Deliver, Poll, Reached, RowsLinked,
         OnlyLacks, TemplateOk, OthersInHand, Wedged;
    var back: CaseState;
    steps, back := BackAgain(t, i, d, officer, now);
    var wedged := RejectionApplied(back, i, detail);
    steps := StatusArrives(t, steps, Answer(RejectedStatus, detail, []));
  }

  /** The authority's answer about the first filing is received, and then applied. */
  lemma StatusArrives(t: Template, before: seq<Step>, answer: StatusAnswer) returns (steps: seq<Step>)
    requires TemplateOk(t) && RowsLinked(Reached(t, before).db)
    requires
      var polled := Poll(Reached(t, before).db, 0, answer, false);
      polled.Success? && RowsLinked(polled.value)
      && Deliver(polled.value, EntityStatusApplier, |Reached(t, before).db.outbox|, ACCEPTED).Success?
    ensures
      var s := Reached(t, before).db;
      Success(Reached(t, steps).db) ==
        Deliver(Poll(s, 0, answer, false).value, EntityStatusApplier, |s.outbox|, ACCEPTED)
    ensures RowsLinked(Reached(t, steps).db)
  {
    hide Inv, OrderedBut, HeldAreProduced, ShownAreFiled, Evolves, RequestsOk, Deliver, Poll, Reached, RowsLinked,
         TemplateOk;
    var e := |Reached(t, before).db.outbox|;
    ReachedNext(t, before, AuthorityPolled(0, answer, false));
    steps := before + [AuthorityPolled(0, answer, false)];
    ReachedNext(t, steps, ConsumerRuns(EntityStatusApplier, e, ACCEPTED));
    steps := steps + [ConsumerRuns(EntityStatusApplier, e, ACCEPTED)];
  }

  // --- a filing left waiting ---

  /** The authority asks for document d although the node is back at the officer gate. */
  lemma MissingReported(s: CaseState, i: nat, d: DocType) returns (u: CaseState)
    requires RowsLinked(s) && |s.requests| == 1 && s.requests[0].node == i < |s.nodes| && d in s.docs
    requires s.requests[0].externalRef.Some? && s.nodes[i].state == WaitingForHuman && HasPending(s, i)
    requires (EntityStatusApplier, |s.outbox|) !in s.receipts
    ensures
      var polled := Poll(s, 0, Answer(DocumentMissingStatus, "", [d]), false);
      && polled.Success? && RowsLinked(polled.value)
      && Deliver(polled.value, EntityStatusApplier, |s.outbox|, ACCEPTED) == Success(u)
    ensures u.nodes == s.nodes[i := u.nodes[i]] && u.nodes[i].state == NodeState.DocumentMissing
    ensures u.nodes[i].spec == s.nodes[i].spec && u.approvals == s.approvals
    ensures u.docs == s.docs[d := MarkedMissing(s.docs, d)]
  {
    hide ApplyStatus, MarkMissing, CanMove, Tells, Timed, Reasoned;
    var polled := Poll(s, 0, Answer(DocumentMissingStatus, "", [d]), false).value;
    assert polled.outbox[|s.outbox|].event == EntityStatusReceived(0, DocumentMissingStatus, "", [d]);
    MayLack();
    BecameKeepsSpec();
    StatusOutcome(polled, 0, DocumentMissingStatus, "", [d], 0);
    assert AskedFor(polled.nodes[i].spec.requiredDocuments, [d], [d]);
    MarkOne(s.docs, s.catalogue, d);
    u := Deliver(polled, EntityStatusApplier, |s.outbox|, ACCEPTED).value;
  }

  lemma BecameKeepsSpec()
    ensures forall n, m, target, reason, now :: Became(n, m, target, reason, now) ==> m.spec == n.spec
  {
  }

  lemma MayLack()
    ensures CanMove(WaitingForHuman, NodeState.DocumentMissing)
  {
  }

  lemma MarkOne(docs: map<DocType, Document>, catalogue: set<DocType>, d: DocType)
    requires d in docs
    ensures MarkMissing(docs, catalogue, [d]) == docs[d := MarkedMissing(docs, d)]
  {
    assert [d][..|[d]| - 1] == [];
  }

  /** Node i waits for documents it has, and an approval left over from before keeps it from the officer. */
  predicate LeftWaiting(s: CaseState, i: nat) {
    && i < |s.nodes| && s.nodes[i].spec.kind == EntityFiling && s.nodes[i].state == NodeState.DocumentMissing
    && InHand(s, i) && HasPending(s, i)
  }

  /** The document arrives, and the node stays where it is. */
  lemma ProvidedInVain(s: CaseState, i: nat, d: DocType, now: Time) returns (t: CaseState)
    requires i < |s.nodes| && s.nodes[i].spec.kind == EntityFiling && s.nodes[i].state == NodeState.DocumentMissing
    requires OthersInHand(s, i, d) && HasPending(s, i) && d in s.docs && s.docs[d].status == DocumentStatus.Missing
    requires forall j :: 0 <= j < |s.nodes| && j != i ==> s.nodes[j].state != NodeState.DocumentMissing
    ensures Upload(s, d, now) == Success(t) && LeftWaiting(t, i)
  {
    hide MissingOf, IsOutput, Transition;
    t := Emit(s.(docs := s.docs[d := Document(Uploaded, Resident)]), DocumentUploaded(d));
    assert HasPending(t, i);
    ResumeOnly(t, i, |s.nodes|, now);
  }

  /** From every opening with a filing a run leaves that filing waiting for documents it has. */
  lemma LeftWaitingIsReached(t: Template, i: nat, d: DocType, officer: Officer, now: Time) returns (w: World)
    requires MAX_ATTEMPTS > 0
    requires TemplateOk(t) && i < |t.specs| && t.specs[i].kind == EntityFiling && officer.officiates
    requires d in t.catalogue && OnlyLacks(t, i, d)
    ensures Reachable(t, w) && LeftWaiting(w.db, i)
  {
    hide Inv, OrderedBut, HeldAreProduced, ShownAreFiled, Evolves, Run, Runs, OnlyLacks, TemplateOk, LeftWaiting;
    var steps := LeavingSteps(t, i, d, officer, now);
    w := ReachedRuns(t, steps);
  }

  lemma LeavingSteps(t: Template, i: nat, d: DocType, officer: Officer, now: Time) returns (steps: seq<Step>)
    requires MAX_ATTEMPTS > 0
    requires TemplateOk(t) && i < |t.specs| && t.specs[i].kind == EntityFiling && officer.officiates
    requires d in t.catalogue && OnlyLacks(t, i, d)
    ensures LeftWaiting(Reached(t, steps).db, i)
  {
    hide Inv, OrderedBut, HeldAreProduced, ShownAreFiled, Evolves, RequestsOk, Upload, Deliver, Poll, Reached,
         RowsLinked, OnlyLacks, TemplateOk, OthersInHand, LeftWaiting, HasPending;
    var back: CaseState;
    steps, back := BackAgain(t, i, d, officer, now);
    var asked := MissingReported(back, i, d);
    steps := StatusArrives(t, steps, Answer(DocumentMissingStatus, "", [d]));
    StillInHand(back, asked, i, d);
    SamePending(back, asked, i);
    var left := ProvidedInVain(asked, i, d, now);
    ReachedNext(t, steps, ResidentUploads(d, now));
    steps := steps + [ResidentUploads(d, now)];
  }

  lemma SamePending(s: CaseState, t: CaseState, i: nat)
    requires t.approvals == s.approvals
    ensures HasPending(t, i) <==> HasPending(s, i)
  {
  }

  // --- escalations taken again ---

  /** An escalation is opened, and its case is escalated; it is resolved, and its case is not. */
  lemma OpenedAndResolved(t: Template, cause: EscalationReason, subject: Option<nat>, officer: Officer)
    returns (steps: seq<Step>, s: CaseState)
    requires TemplateOk(t) && officer.officiates
    ensures s == Reached(t, steps).db && RowsLinked(s) && s.escalations == [Escalation(cause, subject, Resolved)]
    ensures Fresh(s) && s.nodes == Opened(t).nodes
  {
    hide Inv, OrderedBut, HeldAreProduced, ShownAreFiled, Evolves, RequestsOk, Reached, RowsLinked, Opened, Refresh;
    ReachedOpening(t);
    var a, b := EscalationOpened(cause, subject, false), OfficerResolves(0, officer);
    NoneOpen(t, cause, subject);
    EscalateOutcome(Opened(t), cause, subject, false);
    ReachedNext(t, [], a);
    steps := [] + [a];
    ResolveOutcome(Reached(t, steps).db, 0, officer);
    ResolvedIsFresh(Reached(t, steps).db, 0, officer);
    ReachedNext(t, steps, b);
    steps := steps + [b];
    s := Reached(t, steps).db;
  }

  lemma NoneOpen(t: Template, cause: EscalationReason, subject: Option<nat>)
    ensures Opened(t).escalations == [] && !OpenFor(Opened(t), cause, subject)
    ensures Escalate(Opened(t), cause, subject, false).nodes == Opened(t).nodes
  {
  }

  lemma ResolvedIsFresh(s: CaseState, k: nat, officer: Officer)
    requires Resolve(s, k, officer).Success?
    ensures Fresh(Resolve(s, k, officer).value)
  {
    hide Refresh;
    RefreshFresh(Emit(s.(escalations := s.escalations[k := s.escalations[k].(status := Resolved)]), EscalationResolved(k)));
  }

  /** From every opening: opened, resolved, taken; the escalation is in progress and the case does not say so. */
  lemma StaleStatusIsReached(t: Template, cause: EscalationReason, subject: Option<nat>, officer: Officer)
    returns (w: World)
    requires TemplateOk(t) && officer.officiates
    ensures Reachable(t, w) && !Fresh(w.db)
  {
    hide Inv, OrderedBut, HeldAreProduced, ShownAreFiled, Evolves, RequestsOk, Reached, RowsLinked, Opened, Runs, Run,
         TemplateOk, Fresh;
    var steps, s := OpenedAndResolved(t, cause, subject, officer);
    var take := OfficerTakes(0, officer);
    TakenUnseen(t, steps, s, take);
    TakeKeepsFreshIff(s, take);
    ReachedNext(t, steps, take);
    w := ReachedRuns(t, steps + [take]);
  }

  lemma TakenUnseen(t: Template, steps: seq<Step>, s: CaseState, take: Step)
    requires TemplateOk(t) && s == Reached(t, steps).db && |s.escalations| == 1 && s.escalations[0].status == Resolved
    requires s.nodes == Opened(t).nodes && take.OfficerTakes? && take.escalation == 0 && take.officer.officiates
    ensures ReopensUnseen(s, take)
  {
    hide Reached, Evolves, OrderedBut, HeldAreProduced, ShownAreFiled, RequestsOk;
    assert s.nodes[0].state == Pending;
  }

  /** From every opening: opened, resolved, opened again, and the first one taken; two are open for one cause. */
  lemma DoubleEscalationIsReached(t: Template, cause: EscalationReason, subject: Option<nat>, officer: Officer)
    returns (w: World)
    requires TemplateOk(t) && officer.officiates
    ensures Reachable(t, w) && !OpenOnce(w.db.escalations)
  {
    hide Inv, OrderedBut, HeldAreProduced, ShownAreFiled, Evolves, RequestsOk, Reached, RowsLinked, Opened, Runs, Run,
         TemplateOk, Fresh, Escalate;
    var steps, s := OpenedAndResolved(t, cause, subject, officer);
    var again, take := EscalationOpened(cause, subject, false), OfficerTakes(0, officer);
    EscalateOutcome(s, cause, subject, false);
    ReachedNext(t, steps, again);
    steps := steps + [again];
    TakeKeepsOpenOnceIff(Reached(t, steps).db, 0, officer);
    ReachedNext(t, steps, take);
    w := ReachedRuns(t, steps + [take]);
  }
}
