/** Whole runs of a case: any sequence of units of work, each committed, rolled back or cut off by a crash. */
module CaseRuns {
  import opened Wrappers
  import opened StateMachine
  import opened LifeEventGraph
  import opened CaseModel
  import opened CaseServices
  import opened CaseEvolution
  import opened CaseInvariants
  import opened CaseSteps
  import opened CaseFilingSteps
  import opened CaseServiceSafety
  import opened CaseConsumerSafety

  /** One unit of work. A crash cuts a unit of work off before its commit. */
  datatype Step =
    | OfficerApproves(approval: nat, officer: Officer, now: Time)
    | OfficerRejects(approval: nat, officer: Officer, reason: string, now: Time)
    | OfficerAsksDocuments(node: nat, types: seq<DocType>, officer: Officer, now: Time)
    | FilingPrepared(node: nat, now: Time)
    | OfficerRetries(node: nat, officer: Officer, now: Time)
    | AuthorityPolled(request: nat, answer: StatusAnswer, routine: bool)
    | ParentReports(milestone: Milestone, passportNumberPresent: bool, now: Time)
    | ResidentUploads(doc: DocType, now: Time)
    | OfficerVerifies(doc: DocType, officer: Officer)
    | OfficerSetsStatus(doc: DocType, status: DocumentStatus, officer: Officer, now: Time)
    | WatchdogPasses(silent: bool, now: Time)
    | EscalationOpened(cause: EscalationReason, subject: Option<nat>, warmTransfer: bool)
    | OfficerResolves(escalation: nat, officer: Officer)
    | OfficerTakes(escalation: nat, officer: Officer)
    | ConsumerRuns(consumer: Consumer, event: nat, input: FullInput)
    | Crashes(work: Step)

  function Apply(s: CaseState, step: Step): Result<CaseState>
    requires RowsLinked(s)
  {
    match step
    case OfficerApproves(a, officer, now) => Approve(s, a, officer, now)
    case OfficerRejects(a, officer, reason, now) => Reject(s, a, officer, reason, now)
    case OfficerAsksDocuments(i, types, officer, now) => RequestDocuments(s, i, types, officer, now)
    case FilingPrepared(i, now) => if i < |s.nodes| then RequestApproval(s, i, now) else Failure(NotFound)
    case OfficerRetries(i, officer, now) => Retry(s, i, officer, now)
    case AuthorityPolled(r, answer, routine) => Poll(s, r, answer, routine)
    case ParentReports(m, present, now) => ReportMilestone(s, m, present, now)
    case ResidentUploads(d, now) => Upload(s, d, now)
    case OfficerVerifies(d, officer) => Verify(s, d, officer)
    case OfficerSetsStatus(d, status, officer, now) => SetStatus(s, d, status, officer, now)
    case WatchdogPasses(silent, now) => Watchdog(s, silent, now)
    case EscalationOpened(reason, subject, warm) => Success(Escalate(s, reason, subject, warm))
    case OfficerResolves(k, officer) => Resolve(s, k, officer)
    case OfficerTakes(k, officer) => Take(s, k, officer)
    case ConsumerRuns(c, e, input) => Deliver(s, c, e, input)
    case Crashes(_) => Failure(Crashed)
  }

  /** The keys a unit of work shows an authority, whether or not it commits. */
  function KeysShown(s: CaseState, step: Step): set<FilingKey> {
    match step
    case ConsumerRuns(c, e, _) =>
      if c == EntitySubmitter && e < |s.outbox| && Registered(c, s.outbox[e].event) && (c, e) !in s.receipts
         && s.outbox[e].event.request < |s.requests| && s.requests[s.outbox[e].event.request].state == BeingSubmitted
      then {s.requests[s.outbox[e].event.request].key} else {}
    case AuthorityPolled(r, answer, _) =>
      if answer.UnknownApplication? && r < |s.requests| && s.requests[r].externalRef.Some?
      then {s.requests[r].key} else {}
    case Crashes(work) => KeysShown(s, work)
    case _ => {}
  }

  /** The node request_documents takes out of PENDING before its predecessors are done. */
  function TakenEarly(s: CaseState, step: Step): set<nat>
    requires RowsLinked(s)
  {
    if step.OfficerAsksDocuments? && step.node < |s.nodes| && s.nodes[step.node].state == Pending
       && !DependenciesDone(s, step.node)
    then {step.node} else {}
  }

  /** The document set_status declares held while its source reads as the authority's and no producer is done. */
  function DeclaredHeld(s: CaseState, step: Step): set<DocType> {
    if step.OfficerSetsStatus? && step.doc in s.docs && !Modest(s, step.doc, step.status) && !Produced(s, step.doc)
    then {step.doc} else {}
  }

  /**
   * The case's rows, with what has happened outside them: the keys authorities have been shown, the nodes taken early,
   * and the documents declared held.
   */
  datatype World = World(db: CaseState, shown: set<FilingKey>, early: set<nat>, declared: set<DocType>)

  function Next(w: World, step: Step): World
    requires RowsLinked(w.db)
  {
    var shown := w.shown + KeysShown(w.db, step);
    match Apply(w.db, step)
    case Success(db) =>
      World(db, shown, w.early + TakenEarly(w.db, step), w.declared + DeclaredHeld(w.db, step))
    case Failure(_) => w.(shown := shown)
  }

  // --- the start of a case ---

  datatype Template = Template(
    specs: seq<NodeSpec>, edges: seq<Edge>, consulate: Option<nat>, catalogue: set<DocType>, unattested: set<DocType>)

  ghost predicate TemplateOk(t: Template) {
    && t.specs != [] && Within(|t.specs|, t.edges)
    && (t.consulate.Some? ==> t.consulate.value < |t.specs| && t.specs[t.consulate.value].kind == ParentReported)
  }

  function FreshNode(spec: NodeSpec): Node {
    Node(spec, Pending, None, 0, None, None, None, None, None, [])
  }

  predicate IsTemplateOutput(specs: seq<NodeSpec>, d: DocType) {
    exists i :: 0 <= i < |specs| && d in specs[i].outputs
  }

  /** A case as create_from_intake commits it. */
  function Opened(t: Template): CaseState {
    CaseState(
      t.edges, t.consulate, t.catalogue, Active,
      seq(|t.specs|, i requires 0 <= i < |t.specs| => FreshNode(t.specs[i])),
      map d | d in t.catalogue ::
        Document(if d in t.unattested then DocumentStatus.Missing else Required,
                 if IsTemplateOutput(t.specs, d) then GovernmentMock else Resident),
      [], [], [], [],
      [OutboxRow(CaseCreated, None), OutboxRow(IntakeCompleted, None)], {})
  }

  function Start(t: Template): World {
    World(Opened(t), {}, {}, {})
  }

  // --- the invariant of a run ---

  ghost predicate ShownAreFiled(w: World) {
    forall key :: key in w.shown ==> KeyFiled(w.db.requests, key)
  }

  /** Every node outside early that has left PENDING has all its predecessors done. */
  ghost predicate OrderedBut(s: CaseState, early: set<nat>)
    requires Within(|s.nodes|, s.edges)
  {
    forall i :: 0 <= i < |s.nodes| && s.nodes[i].state != Pending && i !in early ==> DependenciesDone(s, i)
  }

  ghost predicate HeldAreProduced(s: CaseState, declared: set<DocType>) {
    forall d :: d in s.docs && HeldFromAuthority(s.docs[d]) && d !in declared ==> Produced(s, d)
  }

  ghost predicate Safe(w: World) {
    && Inv(w.db, None) && ShownAreFiled(w) && OrderedBut(w.db, w.early) && HeldAreProduced(w.db, w.declared)
    && w.db.nodes != []
  }

  lemma OpenedSafe(t: Template)
    requires TemplateOk(t)
    ensures Safe(Start(t))
  {
    var s := Opened(t);
    assert s.nodes[0].state == Pending;
    assert !AllDone(s.nodes);
    assert Inv(s, None);
  }

  // --- every unit of work keeps it ---

  ghost predicate OrderlyBut(s: CaseState, t: CaseState, but: set<nat>)
    requires Within(|t.nodes|, t.edges) && |s.nodes| == |t.nodes|
  {
    forall i :: 0 <= i < |s.nodes| && i !in but && s.nodes[i].state == Pending && t.nodes[i].state != Pending
      ==> DependenciesDone(t, i)
  }

  lemma SoundAllows(s: CaseState, t: CaseState, early: set<nat>, declared: set<DocType>)
    requires Sound(s, t)
    ensures OrderlyBut(s, t, early) && DocsJustifiedBut(s, t, declared)
  {
  }

  lemma EarlyAllows(s: CaseState, t: CaseState, i: nat, declared: set<DocType>)
    requires Within(|s.nodes|, s.edges) && Evolves(s, t) && DocsJustified(s, t) && i < |s.nodes|
    requires forall j :: 0 <= j < |s.nodes| && j != i ==> t.nodes[j].state == s.nodes[j].state
    ensures OrderlyBut(s, t, {i}) && DocsJustifiedBut(s, t, declared)
  {
  }

  lemma DeclaredAllows(s: CaseState, t: CaseState, early: set<nat>)
    requires Within(|s.nodes|, s.edges) && Evolves(s, t) && Orderly(s, t)
    ensures OrderlyBut(s, t, early)
  {
  }

  /** What a committed unit of work keeps. */
  lemma ApplySafe(s: CaseState, step: Step) returns (t: CaseState)
    requires Inv(s, None) && Apply(s, step).Success?
    ensures t == Apply(s, step).value
    ensures Evolves(s, t) && Inv(t, None)
    ensures OrderlyBut(s, t, TakenEarly(s, step)) && DocsJustifiedBut(s, t, DeclaredHeld(s, step))
  {
    hide Inv, Orderly, DocsJustified, Evolves, Approve, Reject, RequestDocuments, RequestApproval, Retry, Poll,
         ReportMilestone, Upload, Verify, SetStatus, Watchdog, Escalate, Resolve, Take, Deliver, DependenciesDone,
         Produced, Modest, OrderlyBut, DocsJustifiedBut;
    InvRows(s, None);
    var early, declared := TakenEarly(s, step), DeclaredHeld(s, step);
    match step {
      case OfficerAsksDocuments(i, types, officer, now) =>
        t := RequestDocumentsSafe(s, i, types, officer, now);
        if early == {} { SoundAllows(s, t, early, declared); } else { EarlyAllows(s, t, i, declared); }
      case OfficerSetsStatus(d, status, officer, now) =>
        t := SetStatusSafe(s, d, status, officer, now);
        if declared == {} { SoundAllows(s, t, early, declared); } else { DeclaredAllows(s, t, early); }
      case _ =>
        t := ApplySound(s, step);
        SoundAllows(s, t, early, declared);
    }
  }

  /** Every unit of work but request_documents and set_status is sound. */
  lemma ApplySound(s: CaseState, step: Step) returns (t: CaseState)
    requires Inv(s, None) && Apply(s, step).Success? && !step.OfficerAsksDocuments? && !step.OfficerSetsStatus?
    ensures t == Apply(s, step).value
    ensures Sound(s, t) && Inv(t, None)
  {
    hide Inv, Sound, Approve, Reject, RequestDocuments, RequestApproval, Retry, Poll, ReportMilestone, Upload, Verify,
         SetStatus, Watchdog, Escalate, Resolve, Take, Deliver;
    match step {
      case OfficerApproves(a, officer, now) => t := ApproveSafe(s, a, officer, now);
      case OfficerRejects(a, officer, reason, now) => t := RejectSafe(s, a, officer, reason, now);
      case FilingPrepared(i, now) => t := RequestApprovalSafe(s, i, now);
      case OfficerRetries(i, officer, now) => t := RetrySafe(s, i, officer, now);
      case AuthorityPolled(r, answer, routine) => t := PollSafe(s, r, answer, routine);
      case ParentReports(m, present, now) => t := ReportSafe(s, m, present, now);
      case ResidentUploads(d, now) => t := UploadSafe(s, d, now);
      case OfficerVerifies(d, officer) => t := VerifySafe(s, d, officer);
      case WatchdogPasses(silent, now) => t := WatchdogSafe(s, silent, now);
      case EscalationOpened(cause, subject, warm) => t := EscalateSafe(s, cause, subject, warm);
      case OfficerResolves(k, officer) => t := ResolveSafe(s, k, officer);
      case OfficerTakes(k, officer) => t := TakeSafe(s, k, officer);
      case ConsumerRuns(c, e, input) => t := DeliverSafe(s, c, e, input);
    }
  }

  lemma KeyStaysFiled(s: CaseState, t: CaseState, key: FilingKey)
    requires Evolves(s, t) && KeyFiled(s.requests, key)
    ensures KeyFiled(t.requests, key)
  {
    var r :| 0 <= r < |s.requests| && s.requests[r].key == key;
    assert RequestEvolves(s.requests[r], t.requests[r]);
  }

  lemma KeysShownAreFiled(s: CaseState, step: Step)
    ensures forall key :: key in KeysShown(s, step) ==> KeyFiled(s.requests, key)
  {
  }

  lemma StaysOrdered(s: CaseState, t: CaseState, early: set<nat>, taken: set<nat>)
    requires Within(|s.nodes|, s.edges) && Evolves(s, t) && OrderedBut(s, early) && OrderlyBut(s, t, taken)
    ensures OrderedBut(t, early + taken)
  {
    forall i | 0 <= i < |t.nodes| && t.nodes[i].state != Pending && i !in early + taken ensures DependenciesDone(t, i) {
      if s.nodes[i].state != Pending { DoneStays(s, t, i); }
    }
  }

  lemma StaysProduced(s: CaseState, t: CaseState, declared: set<DocType>, more: set<DocType>)
    requires Evolves(s, t) && HeldAreProduced(s, declared) && DocsJustifiedBut(s, t, more)
    ensures HeldAreProduced(t, declared + more)
  {
    forall d | d in t.docs && HeldFromAuthority(t.docs[d]) && d !in declared + more ensures Produced(t, d) {
      if !Produced(t, d) {
        ProducedStays(s, t, d);
      }
    }
  }

  lemma NextSafe(w: World, step: Step)
    requires Safe(w)
    ensures Safe(Next(w, step)) && Evolves(w.db, Next(w, step).db)
  {
    hide Inv, OrderedBut, HeldAreProduced, OrderlyBut, DocsJustifiedBut, Apply, KeyFiled;
    InvRows(w.db, None);
    KeysShownAreFiled(w.db, step);
    if Apply(w.db, step).Success? {
      var t := ApplySafe(w.db, step);
      StaysOrdered(w.db, t, w.early, TakenEarly(w.db, step));
      StaysProduced(w.db, t, w.declared, DeclaredHeld(w.db, step));
      forall key | key in Next(w, step).shown ensures KeyFiled(t.requests, key) {
        KeyStaysFiled(w.db, t, key);
      }
    } else {
      SoundReflexive(w.db);
    }
  }

  // --- runs ---

  predicate Commits(w: World, step: Step)
    requires Safe(w)
  {
    Apply(w.db, step).Success?
  }

  /** One unit of work of a safe world; one that fails leaves the rows as they were. */
  function Advance(w: World, step: Step): (r: World)
    requires Safe(w)
    ensures Safe(r) && Evolves(w.db, r.db)
    ensures |r.db.nodes| == |w.db.nodes| && r.db.edges == w.db.edges
  {
    NextSafe(w, step);
    Next(w, step)
  }

  /** Advancing is committing the unit of work, or leaving the rows alone. */
  lemma AdvanceIs(w: World, step: Step)
    requires Safe(w)
    ensures RowsLinked(w.db) && (Commits(w, step) <==> Apply(w.db, step).Success?)
    ensures Advance(w, step).db == if Apply(w.db, step).Success? then Apply(w.db, step).value else w.db
  {
    hide Inv, OrderedBut, HeldAreProduced, ShownAreFiled, Apply, Evolves;
    InvRows(w.db, None);
  }

  /** The world after a run. */
  function Run(w: World, steps: seq<Step>): (r: World)
    requires Safe(w)
    ensures Safe(r) && Evolves(w.db, r.db)
    ensures |r.db.nodes| == |w.db.nodes| && r.db.edges == w.db.edges
  {
    if steps == [] then
      SoundReflexive(w.db);
      w
    else
      var before := Run(w, steps[..|steps| - 1]);
      EvolvesTransitive(w.db, before.db, Advance(before, steps[|steps| - 1]).db);
      Advance(before, steps[|steps| - 1])
  }

  /** The world a case reaches by a run from its opening. */
  function Reached(t: Template, steps: seq<Step>): (w: World)
    requires TemplateOk(t)
    ensures Safe(w) && Evolves(Opened(t), w.db)
    ensures |w.db.nodes| == |t.specs| && w.db.edges == t.edges
  {
    OpenedSafe(t);
    Run(Start(t), steps)
  }

  // --- runs as relations between worlds ---

  /** One unit of work leads from w to r. */
  ghost predicate Leads(w: World, step: Step, r: World) {
    RowsLinked(w.db) && r == Next(w, step)
  }

  /** The worlds a run passes through. */
  ghost predicate Visits(steps: seq<Step>, worlds: seq<World>) {
    |worlds| == |steps| + 1
    && forall k {:trigger steps[k]} :: 0 <= k < |steps| ==> Leads(worlds[k], steps[k], worlds[k + 1])
  }

  ghost predicate Runs(w: World, steps: seq<Step>, r: World) {
    exists worlds :: Visits(steps, worlds) && worlds[0] == w && worlds[|steps|] == r
  }

  /** The worlds a case may come to from its opening. */
  ghost predicate Reachable(t: Template, w: World) {
    TemplateOk(t) && exists steps :: Runs(Start(t), steps, w)
  }

  lemma {:induction false} VisitsRun(steps: seq<Step>, worlds: seq<World>, k: nat)
    requires Visits(steps, worlds) && k <= |steps| && Safe(worlds[0])
    ensures worlds[k] == Run(worlds[0], steps[..k])
  {
    hide Safe, Next, Advance, Evolves;
    if k > 0 {
      VisitsRun(steps, worlds, k - 1);
      assert steps[..k][..k - 1] == steps[..k - 1] && Leads(worlds[k - 1], steps[k - 1], worlds[k]);
      AdvanceIsNext(worlds[k - 1], steps[k - 1]);
    }
  }

  lemma AdvanceIsNext(w: World, step: Step)
    requires Safe(w) && RowsLinked(w.db)
    ensures Advance(w, step) == Next(w, step)
  {
  }

  lemma RunsSafe(w: World, steps: seq<Step>, r: World)
    requires Safe(w) && Runs(w, steps, r)
    ensures r == Run(w, steps) && Safe(r) && Evolves(w.db, r.db)
  {
    hide Safe, Evolves, Leads;
    var worlds :| Visits(steps, worlds) && worlds[0] == w && worlds[|steps|] == r;
    VisitsRun(steps, worlds, |steps|);
    assert steps[..|steps|] == steps;
  }

  lemma StepRuns(w: World, step: Step, r: World)
    requires Safe(w) && Runs(w, [step], r)
    ensures r == Advance(w, step)
  {
    hide Safe, Evolves, Advance;
    RunsSafe(w, [step], r);
    assert [step][..0] == [];
  }

  /** Every world a case may come to is safe. */
  lemma ReachableSafe(t: Template, w: World)
    requires Reachable(t, w)
    ensures TemplateOk(t) && Safe(w) && Evolves(Opened(t), w.db)
    ensures |w.db.nodes| == |t.specs| && w.db.edges == t.edges && w.db.consulate == t.consulate
    ensures exists steps :: w == Reached(t, steps)
  {
    hide Safe, TemplateOk, NodeEvolves, ApprovalEvolves, RequestEvolves;
    var steps :| Runs(Start(t), steps, w);
    OpenedSafe(t);
    RunsSafe(Start(t), steps, w);
    assert w == Reached(t, steps);
  }

  /** The function runs as the relation says. */
  lemma RunRuns(w: World, steps: seq<Step>)
    requires Safe(w)
    ensures Runs(w, steps, Run(w, steps))
  {
    hide Safe, Evolves, Next;
    var worlds := seq(|steps| + 1, k requires 0 <= k <= |steps| => Run(w, steps[..k]));
    forall k | 0 <= k < |steps| ensures Leads(worlds[k], steps[k], worlds[k + 1]) {
      assert steps[..k + 1][..k] == steps[..k];
      AdvanceIs(worlds[k], steps[k]);
      AdvanceIsNext(worlds[k], steps[k]);
    }
    assert Visits(steps, worlds);
    assert steps[..0] == [] && steps[..|steps|] == steps;
  }
}
