/** What holds of a case in every run from its opening, whatever the officers, authorities, parent and workers do. */
module CaseTheorems {
  import opened Wrappers
  import opened StateMachine
  import opened LifeEventGraph
  import opened CaseModel
  import opened CaseServices
  import opened CaseEvolution
  import opened CaseInvariants
  import opened CaseSteps
  import opened CaseFilingSteps
  import opened CaseConsumerSafety
  import opened CaseRuns
  import opened CaseTargets

  // --- provenance ---

  /** A success status received for a filing of node i that the authority knows and an officer approved. */
  ghost predicate ClearedByAuthority(s: CaseState, i: nat) {
    exists k :: 0 <= k < |s.statuses| && Successful(s.statuses[k].status) && s.statuses[k].request < |s.requests|
                && ReleasedAndReferenced(s, s.requests[s.statuses[k].request], i)
  }

  ghost predicate ReleasedAndReferenced(s: CaseState, q: EntityRequest, i: nat) {
    && q.node == i && q.externalRef == Some(q.key)
    && q.approval < |s.approvals| && s.approvals[q.approval].node == i && s.approvals[q.approval].state == Approved
    && s.approvals[q.approval].decidedBy.Some? && s.approvals[q.approval].decidedBy.value.officiates
  }

  /** No step is ever done on LifeLoop's own word: an authority cleared it, or the parent reported the passport. */
  lemma DoneHasProvenance(t: Template, w: World, i: nat)
    requires Reachable(t, w) && i < |w.db.nodes| && Done(w.db.nodes[i].state)
    ensures w.db.nodes[i].spec.kind == EntityFiling ==> ClearedByAuthority(w.db, i)
    ensures w.db.nodes[i].spec.kind == ParentReported ==> t.consulate == Some(i) && PassportReported(w.db.nodes[i])
  {
    hide Inv, Reachable, ClearedByAuthority, PassportReported;
    ReachableSafe(t, w);
    DoneIsJustified(w.db, i);
  }

  lemma DoneIsJustified(s: CaseState, i: nat)
    requires Inv(s, None) && i < |s.nodes| && Done(s.nodes[i].state)
    ensures s.nodes[i].spec.kind == EntityFiling ==> ClearedByAuthority(s, i)
    ensures s.nodes[i].spec.kind == ParentReported ==> s.consulate == Some(i) && PassportReported(s.nodes[i])
  {
    assert Justified(s, i);
    if s.nodes[i].spec.kind == EntityFiling {
      var k :| 0 <= k < |s.statuses| && Successful(s.statuses[k].status)
               && s.requests[s.statuses[k].request].node == i;
      assert RequestOk(s, s.statuses[k].request);
    }
  }

  /** Step k of a run is an officer setting the status of d so that it reads as held, when no step has produced it. */
  ghost predicate DeclaredUnproduced(steps: seq<Step>, worlds: seq<World>, k: nat, d: DocType) {
    && k < |steps| && k + 1 < |worlds| && steps[k].OfficerSetsStatus? && steps[k].doc == d
    && d in worlds[k].db.docs && !HeldFromAuthority(worlds[k].db.docs[d]) && !Produced(worlds[k].db, d)
    && d in worlds[k + 1].db.docs && HeldFromAuthority(worlds[k + 1].db.docs[d])
  }

  /** A document held from an authority was produced by a done step, unless an officer declared it held. */
  lemma HeldDocumentWasProduced(t: Template, steps: seq<Step>, worlds: seq<World>, d: DocType)
    requires TemplateOk(t) && Visits(steps, worlds) && worlds[0] == Start(t)
    requires d in worlds[|steps|].db.docs && HeldFromAuthority(worlds[|steps|].db.docs[d])
    ensures Produced(worlds[|steps|].db, d) || exists k: nat :: DeclaredUnproduced(steps, worlds, k, d)
  {
    hide TemplateOk, Leads, Opened, Inv, OrderedBut, ShownAreFiled, Produced;
    OpenedSafe(t);
    VisitsRun(steps, worlds, |steps|);
    if !Produced(worlds[|steps|].db, d) { DeclaredBy(steps, worlds, |steps|, d); }
  }

  lemma {:induction false} DeclaredBy(steps: seq<Step>, worlds: seq<World>, n: nat, d: DocType)
    requires Visits(steps, worlds) && n <= |steps| && Safe(worlds[0]) && worlds[0].declared == {}
    requires d in worlds[n].declared
    ensures exists k: nat :: DeclaredUnproduced(steps, worlds, k, d)
  {
    hide Safe, Apply, Run, Produced;
    if n > 0 {
      var w, step := worlds[n - 1], steps[n - 1];
      assert Leads(w, step, worlds[n]);
      if d in w.declared {
        DeclaredBy(steps, worlds, n - 1, d);
      } else {
        SetStatusDocument(w.db, step);
        assert DeclaredUnproduced(steps, worlds, n - 1, d);
      }
    }
  }

  // --- release conservation ---

  /** Attempts, filings and approved approvals of every node are equally many. */
  lemma ReleaseConservation(t: Template, w: World, i: nat)
    requires Reachable(t, w) && i < |w.db.nodes|
    ensures CountRequests(w.db.requests, i) == w.db.nodes[i].attempts
    ensures CountApproved(w.db.approvals, i) == w.db.nodes[i].attempts
  {
    hide Reachable;
    ReachableSafe(t, w);
  }

  /** The key of a filing whose approval an officer decided in favour of releasing. */
  ghost predicate ReleasedKey(s: CaseState, key: FilingKey) {
    exists r :: 0 <= r < |s.requests| && s.requests[r].key == key && s.requests[r].approval < |s.approvals|
                && ApprovedFor(s.approvals[s.requests[r].approval], key.node)
  }

  /** Filing keys never repeat, and an authority is only ever shown the key of a filing an officer released. */
  lemma KeysAreReleased(t: Template, w: World, key: FilingKey)
    requires Reachable(t, w)
    ensures KeysDistinct(w.db.requests)
    ensures key in w.shown ==> ReleasedKey(w.db, key)
  {
    hide Reachable, OrderedBut, HeldAreProduced, Evolves, ReleasedKey;
    ReachableSafe(t, w);
    if key in w.shown { FiledIsReleased(w.db, key); }
  }

  lemma FiledIsReleased(s: CaseState, key: FilingKey)
    requires Inv(s, None) && KeyFiled(s.requests, key)
    ensures ReleasedKey(s, key)
  {
    var r :| 0 <= r < |s.requests| && s.requests[r].key == key;
    InvRequest(s, None, r);
  }

  // --- the officer gate ---

  ghost predicate PendingFor(a: Approval, i: nat) {
    a.node == i && a.state == Undecided
  }

  /** A node never has two pending approvals, and awaits an officer only with exactly one. */
  lemma GateHolds(t: Template, w: World, i: nat)
    requires Reachable(t, w) && i < |w.db.nodes|
    ensures forall a, b :: 0 <= a < b < |w.db.approvals| ==>
              !(PendingFor(w.db.approvals[a], i) && PendingFor(w.db.approvals[b], i))
    ensures w.db.nodes[i].state == WaitingForHuman ==>
              exists a :: 0 <= a < |w.db.approvals| && PendingFor(w.db.approvals[a], i)
  {
    hide Reachable;
    ReachableSafe(t, w);
    var s := w.db;
    if s.nodes[i].state == WaitingForHuman {
      assert HasPending(s, i);
      var a :| 0 <= a < |s.approvals| && s.approvals[a].node == i && s.approvals[a].state == Undecided;
      assert PendingFor(s.approvals[a], i);
    }
  }

  /** A decided approval never changes again, and no approval is ever removed. */
  lemma DecisionsAreFinal(t: Template, w: World, steps: seq<Step>, r: World, a: nat)
    requires Reachable(t, w) && Runs(w, steps, r) && a < |w.db.approvals| && w.db.approvals[a].state != Undecided
    ensures a < |r.db.approvals| && r.db.approvals[a] == w.db.approvals[a]
  {
    hide Safe, Reachable, Runs;
    ReachableSafe(t, w);
    RunsSafe(w, steps, r);
    assert ApprovalEvolves(w.db.approvals[a], r.db.approvals[a]);
  }

  /** A filing still being submitted has no reference from the authority. */
  lemma BeingSubmittedHasNoReference(t: Template, w: World, r: nat)
    requires Reachable(t, w) && r < |w.db.requests| && w.db.requests[r].state == BeingSubmitted
    ensures w.db.requests[r].externalRef == None
  {
    hide Reachable, Inv;
    ReachableSafe(t, w);
    InvRequest(w.db, None, r);
  }

  /** An officer who may officiate decides the node's pending approval in favour of filing. */
  ghost predicate ApprovesNode(s: CaseState, t: CaseState, step: Step, i: nat) {
    step.OfficerApproves? && step.officer.officiates && step.approval < |s.approvals| <= |t.approvals|
    && PendingFor(s.approvals[step.approval], i) && t.approvals[step.approval].state == Approved
  }

  /** An officer who may officiate files again a request that was released before. */
  ghost predicate RetriesReleased(s: CaseState, step: Step, i: nat) {
    step.OfficerRetries? && step.officer.officiates && step.node == i
    && exists r :: 0 <= r < |s.requests| && s.requests[r].node == i && ReleasedKey(s, s.requests[r].key)
  }

  /** Only an officer's approval of the node, or an officer's retry of a released filing, makes a node SUBMITTING. */
  lemma SubmittingNeedsAnOfficer(t: Template, w: World, step: Step, r: World, i: nat)
    requires Reachable(t, w) && Runs(w, [step], r) && i < |w.db.nodes| && i < |r.db.nodes|
    requires w.db.nodes[i].state != Submitting && r.db.nodes[i].state == Submitting
    ensures ApprovesNode(w.db, r.db, step, i) || RetriesReleased(w.db, step, i)
  {
    hide Reachable, Runs, Inv, OrderedBut, HeldAreProduced, ShownAreFiled, ReleasedKey, Apply, TargetsOf, Evolves;
    ReachableSafe(t, w);
    StepRuns(w, step, r);
    InvRows(w.db, None);
    if Apply(w.db, step).Success? {
      ApplyTo(w.db, step);
      if step.OfficerApproves? || step.OfficerRetries? {
        SubmittedBy(w.db, step, i);
      } else {
        NoOtherSubmits(w.db, step);
      }
    }
  }

  lemma SubmittedBy(s: CaseState, step: Step, i: nat)
    requires Inv(s, None) && Apply(s, step).Success? && i < |s.nodes| && |Apply(s, step).value.nodes| == |s.nodes|
    requires Apply(s, step).value.nodes[i].state != s.nodes[i].state
    requires step.OfficerApproves? || step.OfficerRetries?
    ensures ApprovesNode(s, Apply(s, step).value, step, i) || RetriesReleased(s, step, i)
  {
    hide Inv, ReleasedKey, Approve, Transition;
    InvRows(s, None);
    if step.OfficerApproves? {
      ApproveTo(s, step.approval, step.officer, step.now);
      ApproveDecides(s, step.approval, step.officer, step.now);
    } else {
      RetryTo(s, step.node, step.officer, step.now);
      var r := LatestRequest(s.requests, i);
      assert KeyFiled(s.requests, s.requests[r].key);
      FiledIsReleased(s, s.requests[r].key);
    }
  }

  lemma NoOtherSubmits(s: CaseState, step: Step)
    requires !step.OfficerApproves? && !step.OfficerRetries?
    ensures Submitting !in TargetsOf(s, step)
  {
  }

  lemma ApproveDecides(s: CaseState, a: nat, officer: Officer, now: Time)
    requires RowsLinked(s) && Approve(s, a, officer, now).Success?
    ensures a < |s.approvals| && officer.officiates && s.approvals[a].state == Undecided
    ensures |s.approvals| <= |Approve(s, a, officer, now).value.approvals|
    ensures Approve(s, a, officer, now).value.approvals[a].state == Approved
  {
    hide MissingForNode, Stamp, RequestWithKey, KeyUsed, DerivedStatus;
    var filed := FileRequest(Emit(Decide(s, a, Approved, officer), OfficerApproved(a)), s.approvals[a].node, a);
    TransitionMoves(filed, s.approvals[a].node, Submitting, None, NoStall, now);
  }

  // --- dependency order ---

  /** Step k of a run is an officer asking for documents of node i, PENDING behind a predecessor not done till then. */
  ghost predicate AskedTooEarly(steps: seq<Step>, worlds: seq<World>, k: nat, i: nat) {
    && k < |steps| && k + 1 < |worlds| && steps[k].OfficerAsksDocuments? && steps[k].node == i
    && HeldBack(worlds[k].db, i) && !HeldBack(worlds[k + 1].db, i)
  }

  ghost predicate HeldBack(s: CaseState, i: nat) {
    i < |s.nodes| && s.nodes[i].state == Pending && Within(|s.nodes|, s.edges) && !DependenciesDone(s, i)
  }

  /** Node i has left PENDING although a predecessor is not done. */
  ghost predicate Early(s: CaseState, i: nat) {
    i < |s.nodes| && s.nodes[i].state != Pending && Within(|s.nodes|, s.edges) && !DependenciesDone(s, i)
  }

  /** Nothing but request_documents ever takes a node out of PENDING before its predecessors are done. */
  lemma EarlyHasACause(t: Template, steps: seq<Step>, worlds: seq<World>, i: nat)
    requires TemplateOk(t) && Visits(steps, worlds) && worlds[0] == Start(t) && Early(worlds[|steps|].db, i)
    ensures exists k: nat :: AskedTooEarly(steps, worlds, k, i)
  {
    hide TemplateOk, Visits, Opened, Inv, HeldAreProduced, ShownAreFiled;
    OpenedSafe(t);
    assert |worlds| == |steps| + 1 by { VisitsAll(steps, worlds); }
    VisitsRun(steps, worlds, |steps|);
    EarlyBy(steps, worlds, |steps|, i);
  }

  lemma VisitsAll(steps: seq<Step>, worlds: seq<World>)
    requires Visits(steps, worlds)
    ensures |worlds| == |steps| + 1
  {
  }

  lemma {:induction false} EarlyBy(steps: seq<Step>, worlds: seq<World>, n: nat, i: nat)
    requires Visits(steps, worlds) && n <= |steps| && Safe(worlds[0]) && worlds[0].early == {} && i in worlds[n].early
    ensures exists k: nat :: AskedTooEarly(steps, worlds, k, i)
  {
    hide Safe, Apply, DependenciesDone, Run;
    if n > 0 {
      var w, step := worlds[n - 1], steps[n - 1];
      assert Leads(w, step, worlds[n]);
      if i in w.early {
        EarlyBy(steps, worlds, n - 1, i);
      } else {
        VisitsRun(steps, worlds, n - 1);
        assert i in TakenEarly(w.db, step) && Apply(w.db, step).Success?;
        LeavesPending(w, step);
        assert AskedTooEarly(steps, worlds, n - 1, i);
      }
    }
  }

  /** An officer's request that is accepted leaves its node waiting for documents. */
  lemma LeavesPending(w: World, step: Step)
    requires Safe(w) && RowsLinked(w.db) && step.OfficerAsksDocuments? && Apply(w.db, step).Success?
    ensures !HeldBack(Next(w, step).db, step.node)
  {
    hide Inv, Apply, OrderedBut, HeldAreProduced, ShownAreFiled;
    var t := RequestDocumentsOrder(w.db, step);
  }

  /** The world a run in which no officer asks too early leads to from the opening. */
  ghost predicate ReachedInOrder(t: Template, w: World) {
    TemplateOk(t)
    && exists steps, worlds :: Visits(steps, worlds) && worlds[0] == Start(t) && worlds[|steps|] == w
                               && forall k: nat, i: nat :: !AskedTooEarly(steps, worlds, k, i)
  }

  /** In such a run no node is early: the dependency order holds. */
  lemma OrderHolds(t: Template, w: World)
    requires ReachedInOrder(t, w)
    ensures Reachable(t, w) && Within(|w.db.nodes|, w.db.edges) && OrderedBut(w.db, {})
  {
    hide TemplateOk, Opened, AskedTooEarly, Inv, Start, Evolves, HeldAreProduced, ShownAreFiled;
    var steps, worlds :| Visits(steps, worlds) && worlds[0] == Start(t) && worlds[|steps|] == w
                         && forall k: nat, i: nat :: !AskedTooEarly(steps, worlds, k, i);
    assert Runs(Start(t), steps, w);
    ReachableSafe(t, w);
    InvRows(w.db, None);
    forall i | 0 <= i < |w.db.nodes| && w.db.nodes[i].state != Pending ensures DependenciesDone(w.db, i) {
      if Early(w.db, i) { EarlyHasACause(t, steps, worlds, i); }
    }
  }

  /** The statuses the document API accepts claim no document of an authority's. */
  predicate ApiStatus(status: DocumentStatus) {
    status == Required || status == DocumentStatus.Missing || status == Expired || status == NotApplicable
  }

  /** Through the API every document held from an authority was produced by a done step, in every run. */
  lemma ApiDeclaresNothing(t: Template, steps: seq<Step>, worlds: seq<World>, d: DocType)
    requires TemplateOk(t) && Visits(steps, worlds) && worlds[0] == Start(t)
    requires forall k {:trigger steps[k]} :: 0 <= k < |steps| && steps[k].OfficerSetsStatus? ==> ApiStatus(steps[k].status)
    ensures d in worlds[|steps|].db.docs && HeldFromAuthority(worlds[|steps|].db.docs[d]) ==>
              Produced(worlds[|steps|].db, d)
  {
    hide TemplateOk, Opened, Inv, OrderedBut, ShownAreFiled, Produced, Apply, Evolves;
    OpenedSafe(t);
    var s := worlds[|steps|].db;
    if d in s.docs && HeldFromAuthority(s.docs[d]) {
      HeldDocumentWasProduced(t, steps, worlds, d);
      forall k: nat ensures !DeclaredUnproduced(steps, worlds, k, d) {
        if DeclaredUnproduced(steps, worlds, k, d) {
          VisitsRun(steps, worlds, k);
          NotDeclared(worlds[k], steps[k], worlds[k + 1]);
        }
      }
    }
  }

  lemma NotDeclared(w: World, step: Step, r: World)
    requires Safe(w) && Leads(w, step, r) && step.OfficerSetsStatus? && ApiStatus(step.status) && step.doc in w.db.docs
    ensures step.doc in r.db.docs && HeldFromAuthority(r.db.docs[step.doc]) ==> HeldFromAuthority(w.db.docs[step.doc])
  {
    hide Safe, Apply;
    if Apply(w.db, step).Success? { SetStatusDocument(w.db, step); }
  }

  /** Every transitive predecessor of a node that has left PENDING in order is done, in a run with nothing early. */
  lemma {:induction false} AncestorsAreDone(s: CaseState, p: seq<nat>, u: nat, v: nat)
    requires Within(|s.nodes|, s.edges) && OrderedBut(s, {}) && Connects(s.edges, u, v, p)
    requires v < |s.nodes| && s.nodes[v].state != Pending
    ensures u < |s.nodes| && Done(s.nodes[u].state)
    decreases |p|
  {
    var w := p[|p| - 2];
    assert (w, v) in s.edges;
    assert DependenciesDone(s, v);
    if |p| > 2 {
      assert Connects(s.edges, u, w, p[..|p| - 1]);
      AncestorsAreDone(s, p[..|p| - 1], u, w);
    }
  }

  /** In a run in which no officer asks too early, a step starts only after all that it depends on, however far back. */
  lemma FiledAfterAllAncestors(t: Template, w: World, u: nat, v: nat)
    requires ReachedInOrder(t, w) && Reaches(t.edges, u, v)
    requires v < |w.db.nodes| && w.db.nodes[v].state != Pending
    ensures u < |w.db.nodes| && Done(w.db.nodes[u].state)
  {
    hide Reachable, ReachedInOrder, Inv, Evolves, HeldAreProduced, ShownAreFiled;
    OrderHolds(t, w);
    ReachableSafe(t, w);
    InvRows(w.db, None);
    var p :| Connects(t.edges, u, v, p);
    AncestorsAreDone(w.db, p, u, v);
  }

  /** What the impact view reports as held behind a step that is not done has indeed not started. */
  lemma ImpactIsHeld(t: Template, w: World, u: nat, v: nat)
    requires ReachedInOrder(t, w) && Reaches(t.edges, u, v)
    requires u < |w.db.nodes| && !Done(w.db.nodes[u].state)
    ensures v < |w.db.nodes| && w.db.nodes[v].state == Pending
  {
    hide Reachable, ReachedInOrder, Inv, Evolves, HeldAreProduced, ShownAreFiled;
    OrderHolds(t, w);
    ReachableSafe(t, w);
    InvRows(w.db, None);
    var p :| Connects(t.edges, u, v, p);
    PathWithin(|w.db.nodes|, t.edges, p, |p| - 1);
    if w.db.nodes[v].state != Pending {
      AncestorsAreDone(w.db, p, u, v);
    }
  }

  /** request_documents keeps the dependency order exactly when its node has left PENDING or may leave it. */
  lemma RequestDocumentsKeepsOrderIff(t: Template, w: World, step: Step, r: World)
    requires Reachable(t, w) && Within(|w.db.nodes|, w.db.edges) && OrderedBut(w.db, {})
    requires step.OfficerAsksDocuments? && Runs(w, [step], r) && r.db != w.db
    ensures Within(|r.db.nodes|, r.db.edges) && (OrderedBut(r.db, {}) <==> !HeldBack(w.db, step.node))
  {
    hide Reachable, Runs, Inv, HeldAreProduced, ShownAreFiled, Apply, Evolves;
    ReachableSafe(t, w);
    StepRuns(w, step, r);
    AdvanceIs(w, step);
    InvRows(r.db, None);
    var i := step.node;
    var u := RequestDocumentsOrder(w.db, step);
    if HeldBack(w.db, i) {
      var e :| e in w.db.edges && e.1 == i && !Done(w.db.nodes[e.0].state);
      assert !DependenciesDone(r.db, i);
    } else {
      forall j | 0 <= j < |r.db.nodes| && r.db.nodes[j].state != Pending ensures DependenciesDone(r.db, j) {
        assert DependenciesDone(w.db, j);
      }
    }
  }

  lemma RequestDocumentsOrder(s: CaseState, step: Step) returns (t: CaseState)
    requires Inv(s, None) && step.OfficerAsksDocuments? && Apply(s, step).Success?
    ensures t == Apply(s, step).value && step.node < |s.nodes| == |t.nodes| && t.edges == s.edges
    ensures t.nodes[step.node].state == NodeState.DocumentMissing && !Done(s.nodes[step.node].state)
    ensures forall j :: 0 <= j < |s.nodes| && j != step.node ==> t.nodes[j].state == s.nodes[j].state
  {
    hide Inv, RequestDocuments, Sound, DependenciesDone;
    t := CaseServiceSafety.RequestDocumentsSafe(s, step.node, step.types, step.officer, step.now);
    assert NodeEvolves(s, t, step.node);
  }

  /**
   * set_status keeps held documents produced exactly when it claims nothing new or a producer is done. The statuses
   * the API's schema admits claim nothing new (ApiDeclaresNothing), so no route of the source reaches the other case.
   */
  lemma SetStatusKeepsProvenanceIff(t: Template, w: World, step: Step, r: World)
    requires Reachable(t, w) && HeldAreProduced(w.db, {})
    requires step.OfficerSetsStatus? && Runs(w, [step], r) && r.db != w.db
    ensures step.doc in w.db.docs
    ensures HeldAreProduced(r.db, {}) <==> Modest(w.db, step.doc, step.status) || Produced(w.db, step.doc)
  {
    hide Reachable, Runs, Inv, ShownAreFiled, Apply, Evolves, OrderedBut;
    ReachableSafe(t, w);
    StepRuns(w, step, r);
    AdvanceIs(w, step);
    SetStatusDocument(w.db, step);
    SetStatusProducers(w, step);
  }

  lemma SetStatusDocument(s: CaseState, step: Step)
    requires RowsLinked(s) && step.OfficerSetsStatus? && Apply(s, step).Success?
    ensures step.doc in s.docs
    ensures Apply(s, step).value.docs == s.docs[step.doc := s.docs[step.doc].(status := step.status)]
  {
    hide ResumeAfterDocuments;
    var changed := s.(docs := s.docs[step.doc := s.docs[step.doc].(status := step.status)]);
    if step.status == NotApplicable || step.status == Uploaded || step.status == Verified {
      ResumeKeepsDocs(changed, |s.nodes|, step.now);
    }
  }

  /** set_status finishes no node. */
  lemma SetStatusProducers(w: World, step: Step)
    requires Safe(w) && RowsLinked(w.db) && step.OfficerSetsStatus? && Apply(w.db, step).Success?
    ensures forall d :: Produced(Advance(w, step).db, d) <==> Produced(w.db, d)
  {
    hide Inv, ShownAreFiled, Apply, OrderedBut, HeldAreProduced;
    ApplyTo(w.db, step);
    var s, t := w.db, Advance(w, step).db;
    forall i | 0 <= i < |s.nodes|
      ensures t.nodes[i].spec == s.nodes[i].spec && (Done(t.nodes[i].state) <==> Done(s.nodes[i].state))
    {
      assert NodeEvolves(s, t, i);
    }
  }

  lemma {:induction false} ResumeKeepsDocs(s: CaseState, k: nat, now: Time)
    requires k <= |s.nodes| && ResumeAfterDocuments(s, k, now).Success?
    ensures ResumeAfterDocuments(s, k, now).value.docs == s.docs
  {
    hide Transition, RequestApproval, MissingForNode;
    if k > 0 {
      ResumeKeepsDocs(s, k - 1, now);
      var before := ResumeAfterDocuments(s, k - 1, now).value;
      if before.nodes[k - 1].state == NodeState.DocumentMissing && MissingForNode(before, k - 1) == [] {
        if before.nodes[k - 1].spec.kind == ParentReported {
          TransitionMoves(before, k - 1, WaitingForParent, None, NoStall, now);
        } else {
          RequestApprovalKeepsDocs(before, k - 1, now);
        }
      }
    }
  }

  lemma RequestApprovalKeepsDocs(s: CaseState, i: nat, now: Time)
    requires i < |s.nodes| && RequestApproval(s, i, now).Success?
    ensures RequestApproval(s, i, now).value.docs == s.docs
  {
    hide Transition, Requestable, Stamp;
    if !HasPending(s, i) {
      if s.nodes[i].state == Stalled { TransitionMoves(s, i, Ready, None, NoStall, now); }
      var ready := if s.nodes[i].state == Stalled then Transition(s, i, Ready, None, NoStall, now).value else s;
      var asked := ready.(approvals := ready.approvals + [Approval(i, Undecided, None)],
                          nodes := ready.nodes[i := ready.nodes[i].(approvalState := Some(Undecided))]);
      TransitionMoves(asked, i, WaitingForHuman, None, NoStall, now);
    }
  }

  // --- completion ---

  function CountCompleted(outbox: seq<OutboxRow>): nat {
    if outbox == [] then 0
    else CountCompleted(outbox[..|outbox| - 1]) + One(outbox[|outbox| - 1].event.CaseCompleted?)
  }

  lemma KeyedLastIsNew(outbox: seq<OutboxRow>, last: OutboxRow)
    requires KeysOnce(outbox + [last]) && last.key.Some?
    ensures !KeyUsed(outbox, last.key)
  {
    forall e | 0 <= e < |outbox| ensures outbox[e].key != last.key {
      assert (outbox + [last])[e] == outbox[e] && (outbox + [last])[|outbox|] == last;
    }
  }

  lemma {:induction false} CompletedCount(outbox: seq<OutboxRow>)
    requires KeysOnce(outbox)
    requires forall e :: 0 <= e < |outbox| ==>
               (outbox[e].event.CaseCompleted? <==> outbox[e].key == Some(CaseCompletedKey))
    ensures CountCompleted(outbox) == One(KeyUsed(outbox, Some(CaseCompletedKey)))
  {
    if outbox != [] {
      var front, last := outbox[..|outbox| - 1], outbox[|outbox| - 1];
      CompletedCount(front);
      assert outbox == front + [last];
      KeyUsedAppend(front, last, Some(CaseCompletedKey));
      if last.key.Some? { KeyedLastIsNew(front, last); }
    }
  }

  /** The case is complete exactly when every step is done, and CaseCompleted is then in the outbox exactly once. */
  lemma CompletionIsExact(t: Template, w: World)
    requires Reachable(t, w)
    ensures w.db.status == AllComplete <==> forall i :: 0 <= i < |w.db.nodes| ==> Done(w.db.nodes[i].state)
    ensures CountCompleted(w.db.outbox) == One(w.db.status == AllComplete)
  {
    hide Reachable, Evolves;
    ReachableSafe(t, w);
    CompletedCount(w.db.outbox);
  }

  /** Once complete, a case stays complete. */
  lemma CompletionIsPermanent(t: Template, w: World, steps: seq<Step>, r: World)
    requires Reachable(t, w) && Runs(w, steps, r) && w.db.status == AllComplete
    ensures r.db.status == AllComplete
  {
    hide Reachable, Runs;
    ReachableSafe(t, w);
    RunsSafe(w, steps, r);
    forall i | 0 <= i < |r.db.nodes| ensures Done(r.db.nodes[i].state) { assert NodeEvolves(w.db, r.db, i); }
  }

  // --- node records ---

  lemma RecordsAgreeWithStates(t: Template, w: World, i: nat)
    requires Reachable(t, w) && i < |w.db.nodes|
    ensures
      var n := w.db.nodes[i];
      && (n.stalledSince.Some? <==> n.state == Stalled)
      && (n.clearedAt.Some? <==> Done(n.state))
      && (Done(n.state) ==> n.blockedReason.None? && n.slaDueAt.None?)
      && (n.slaDueAt.Some? ==> n.submittedAt.Some?)
  {
    hide Reachable;
    ReachableSafe(t, w);
    assert RecordOk(w.db.nodes[i]);
  }

  /** A watchdog pass always succeeds and leaves no submitted or processing node past its SLA. */
  lemma WatchdogLeavesNoneOverdue(s: CaseState, silent: bool, now: Time)
    requires RowsLinked(s)
    ensures Watchdog(s, silent, now).Success?
    ensures forall i :: 0 <= i < |s.nodes| ==>
              |Watchdog(s, silent, now).value.nodes| == |s.nodes|
              && !Overdue(Watchdog(s, silent, now).value.nodes[i], now)
  {
    StallOverdueCovers(s, |s.nodes|, now);
    EscalateNodes(StallOverdue(s, |s.nodes|, now).value, ConsulateStall, s.consulate, false);
  }

  lemma {:induction false} StallOverdueCovers(s: CaseState, k: nat, now: Time)
    requires k <= |s.nodes|
    ensures StallOverdue(s, k, now).Success?
    ensures forall i :: 0 <= i < k ==> !Overdue(StallOverdue(s, k, now).value.nodes[i], now)
    ensures forall i :: k <= i < |s.nodes| ==> StallOverdue(s, k, now).value.nodes[i] == s.nodes[i]
  {
    hide Transition;
    if k > 0 {
      StallOverdueCovers(s, k - 1, now);
      StallIfOverdueCovers(StallOverdue(s, k - 1, now).value, k - 1, now);
    }
  }

  lemma StallIfOverdueCovers(s: CaseState, i: nat, now: Time)
    requires i < |s.nodes|
    ensures StallIfOverdue(s, i, now).Success?
    ensures !Overdue(StallIfOverdue(s, i, now).value.nodes[i], now)
    ensures forall j :: 0 <= j < |s.nodes| && j != i ==> StallIfOverdue(s, i, now).value.nodes[j] == s.nodes[j]
  {
    if Overdue(s.nodes[i], now) {
      TransitionTo(s, i, Stalled, Some("Past the expected hours - not cleared yet"), SlaKind, now, {Stalled});
    }
  }

  /** A case as intake opens it: every step PENDING, the unattested documents missing, two events and nothing else. */
  lemma OpenedOutcome(t: Template)
    ensures
      var s := Opened(t);
      && s.edges == t.edges && s.consulate == t.consulate && s.catalogue == t.catalogue && s.status == Active
      && |s.nodes| == |t.specs|
      && (forall i :: 0 <= i < |t.specs| ==>
            s.nodes[i] == Node(t.specs[i], Pending, None, 0, None, None, None, None, None, []))
      && s.docs.Keys == t.catalogue
      && (forall d :: d in t.catalogue ==>
            && s.docs[d].status == (if d in t.unattested then DocumentStatus.Missing else Required)
            && (s.docs[d].source == GovernmentMock <==> exists i :: 0 <= i < |t.specs| && d in t.specs[i].outputs))
      && s.approvals == [] && s.requests == [] && s.statuses == [] && s.escalations == [] && s.receipts == {}
      && s.outbox == [OutboxRow(CaseCreated, None), OutboxRow(IntakeCompleted, None)]
  {
  }

  /** Every call to an authority shows its filing's key: a submission of a filing being submitted, a filing sent again. */
  lemma CallsShowTheirKey(s: CaseState, e: nat, input: FullInput, r: nat, routine: bool)
    ensures
      e < |s.outbox| && s.outbox[e].event.EntityRequestReleased? && (EntitySubmitter, e) !in s.receipts
      && s.outbox[e].event.request < |s.requests| && s.requests[s.outbox[e].event.request].state == BeingSubmitted ==>
        KeysShown(s, ConsumerRuns(EntitySubmitter, e, input)) == {s.requests[s.outbox[e].event.request].key}
        && KeysShown(s, Crashes(ConsumerRuns(EntitySubmitter, e, input))) == {s.requests[s.outbox[e].event.request].key}
    ensures
      r < |s.requests| && s.requests[r].externalRef.Some? ==>
        KeysShown(s, AuthorityPolled(r, UnknownApplication, routine)) == {s.requests[r].key}
        && KeysShown(s, Crashes(AuthorityPolled(r, UnknownApplication, routine))) == {s.requests[r].key}
  {
  }
}
