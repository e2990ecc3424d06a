/**
 * At-least-once delivery: any number of workers, duplicate and repeated messages, handler failures, lost races for a
 * receipt and crashes. What the workers commit is what one sequential run commits, each delivery once.
 */
module Delivery {
  import opened Wrappers
  import opened StateMachine
  import opened LifeEventGraph
  import opened CaseModel
  import opened CaseServices
  import opened CaseEvolution
  import opened CaseInvariants
  import opened CaseSteps
  import opened CaseConsumerSafety
  import opened CaseRuns
  import opened CaseTargets

  datatype OutboxStatus = Unsent | Published | Processed | Failed

  /** Where a worker is in _run: it checks for a receipt, calls the handler, and commits. */
  datatype Phase = Checking | Unreceipted | Handled(input: FullInput)

  /** A worker dispatching event to the consumers in todo; attempt counts the tries of the first of them. */
  datatype Worker =
    | Idle
    | Dispatching(event: nat, todo: seq<Consumer>, attempt: nat, phase: Phase, failed: bool)

  /** The database, the outbox statuses, the messages in flight and the workers; log is what has been committed. */
  datatype System = System(
    start: World, log: seq<Step>, db: CaseState, status: seq<OutboxStatus>, queue: multiset<nat>, workers: seq<Worker>,
    maxAttempts: nat)

  const REGISTRY: seq<Consumer> := [
    Orchestrator, GraphProjection, CallbackScheduler, EntitySubmitter, EntityStatusApplier, Notifier]

  function RegistrationsAmong(registry: seq<Consumer>, event: Event): (regs: seq<Consumer>)
    ensures forall c :: c in regs <==> c in registry && Registered(c, event)
  {
    if registry == [] then []
    else
      RegistrationsAmong(registry[..|registry| - 1], event)
      + (if Registered(registry[|registry| - 1], event) then [registry[|registry| - 1]] else [])
  }

  function RegistrationsFor(event: Event): (regs: seq<Consumer>)
    ensures forall c :: c in regs <==> Registered(c, event)
  {
    RegistryIsComplete();
    RegistrationsAmong(REGISTRY, event)
  }

  lemma RegistryIsComplete()
    ensures forall c :: c in REGISTRY
  {
    forall c ensures c in REGISTRY {
      match c {
        case Orchestrator => assert REGISTRY[0] == c;
        case GraphProjection => assert REGISTRY[1] == c;
        case CallbackScheduler => assert REGISTRY[2] == c;
        case EntitySubmitter => assert REGISTRY[3] == c;
        case EntityStatusApplier => assert REGISTRY[4] == c;
        case Notifier => assert REGISTRY[5] == c;
      }
    }
  }

  // --- what may happen ---

  datatype Action =
    | OtherWork(step: Step)
    | Publishes(event: nat)
    | MarksPublished(event: nat)
    | Receives(worker: nat, event: nat, acknowledged: bool)
    | Checks(worker: nat)
    | Handles(worker: nat, input: FullInput)
    | Raises(worker: nat)
    | TriesCommit(worker: nat)
    | Finishes(worker: nat)
    | Dies(worker: nat)

  predicate Working(sys: System, w: nat) {
    w < |sys.workers| && sys.workers[w].Dispatching?
  }

  function SetWorker(sys: System, w: nat, worker: Worker): System
    requires w < |sys.workers|
  {
    sys.(workers := sys.workers[w := worker])
  }

  /** The next consumer of the event, after an outcome for the present one. */
  function Proceed(worker: Worker, ok: bool): Worker
    requires worker.Dispatching? && worker.todo != []
  {
    worker.(todo := worker.todo[1..], attempt := 1, phase := Checking, failed := worker.failed || !ok)
  }

  /** An exception: another try, or the consumer is dead-lettered. */
  function AfterRaise(worker: Worker, maxAttempts: nat): Worker
    requires worker.Dispatching? && worker.todo != []
  {
    if worker.attempt < maxAttempts then worker.(attempt := worker.attempt + 1, phase := Checking)
    else Proceed(worker, false)
  }

  /** A committed unit of work: new outbox rows are unsent. */
  function Committed(sys: System, step: Step, db: CaseState): System {
    var grown := if |sys.status| <= |db.outbox| then |db.outbox| - |sys.status| else 0;
    sys.(db := db, log := sys.log + [step], status := sys.status + seq(grown, _ => Unsent))
  }

  function Perform(sys: System, a: Action): System
    requires RowsLinked(sys.db)
  {
    match a
    case OtherWork(step) =>
      if step.ConsumerRuns? then sys
      else (match Apply(sys.db, step)
            case Success(db) => Committed(sys, step, db)
            case Failure(_) => sys.(log := sys.log + [step]))
    case Publishes(e) => if e < |sys.status| then sys.(queue := sys.queue + multiset{e}) else sys
    case MarksPublished(e) =>
      if e < |sys.status| && sys.status[e] == Unsent then sys.(status := sys.status[e := Published]) else sys
    case Receives(w, e, acknowledged) =>
      if w < |sys.workers| && sys.workers[w].Idle? && e in sys.queue && e < |sys.db.outbox| then
        SetWorker(sys.(queue := if acknowledged then sys.queue - multiset{e} else sys.queue), w,
                  Dispatching(e, RegistrationsFor(sys.db.outbox[e].event), 1, Checking, false))
      else sys
    case Checks(w) =>
      if Working(sys, w) && sys.workers[w].todo != [] && sys.workers[w].phase == Checking then
        (if (sys.workers[w].todo[0], sys.workers[w].event) in sys.db.receipts
         then SetWorker(sys, w, Proceed(sys.workers[w], true))
         else SetWorker(sys, w, sys.workers[w].(phase := Unreceipted)))
      else sys
    case Handles(w, input) =>
      if Working(sys, w) && sys.workers[w].todo != [] && sys.workers[w].phase == Unreceipted then
        var step := ConsumerRuns(sys.workers[w].todo[0], sys.workers[w].event, input);
        SetWorker(sys.(log := sys.log + [Crashes(step)]), w, sys.workers[w].(phase := Handled(input)))
      else sys
    case Raises(w) =>
      if Working(sys, w) && sys.workers[w].todo != []
      then SetWorker(sys, w, AfterRaise(sys.workers[w], sys.maxAttempts)) else sys
    case TriesCommit(w) =>
      if Working(sys, w) && sys.workers[w].todo != [] && sys.workers[w].phase.Handled? then CommitOf(sys, w) else sys
    case Finishes(w) =>
      if Working(sys, w) && sys.workers[w].todo == [] then
        var e := sys.workers[w].event;
        var idle := SetWorker(sys, w, Idle);
        if e < |sys.status| && sys.status[e] == Published
        then idle.(status := sys.status[e := if sys.workers[w].failed then Failed else Processed])
        else idle
      else sys
    case Dies(w) => if w < |sys.workers| then SetWorker(sys, w, Idle) else sys
  }

  /** The commit of handler and receipt together: the unique key of the receipts lets only one of them through. */
  function CommitOf(sys: System, w: nat): System
    requires RowsLinked(sys.db) && Working(sys, w) && sys.workers[w].todo != [] && sys.workers[w].phase.Handled?
  {
    var worker := sys.workers[w];
    var step := ConsumerRuns(worker.todo[0], worker.event, worker.phase.input);
    if (worker.todo[0], worker.event) in sys.db.receipts
    then SetWorker(sys, w, AfterRaise(worker, sys.maxAttempts))
    else
      match Apply(sys.db, step)
      case Success(db) => SetWorker(Committed(sys, step, db), w, Proceed(worker, true))
      case Failure(_) => SetWorker(sys, w, AfterRaise(worker, sys.maxAttempts))
  }

  // --- the invariant ---

  /** The deliveries a log commits. */
  function Effects(log: seq<Step>): (done: set<(Consumer, nat)>)
    ensures forall c, e: nat :: (c, e) in done <==> exists input: FullInput :: ConsumerRuns(c, e, input) in log
  {
    if log == [] then {}
    else
      var last := log[|log| - 1];
      assert forall step :: step in log <==> step in log[..|log| - 1] || step == last;
      assert last.ConsumerRuns? ==> ConsumerRuns(last.consumer, last.event, last.input) in log;
      Effects(log[..|log| - 1]) + (if last.ConsumerRuns? then {(last.consumer, last.event)} else {})
  }

  ghost predicate OnceEach(log: seq<Step>) {
    forall i, j :: 0 <= i < j < |log| && log[i].ConsumerRuns? && log[j].ConsumerRuns?
      ==> (log[i].consumer, log[i].event) != (log[j].consumer, log[j].event)
  }

  /** The database is what the log's sequential run makes of the start, and the receipts are its deliveries. */
  ghost predicate Refines(sys: System) {
    && Safe(sys.start) && sys.start.db.receipts == {}
    && sys.db == Run(sys.start, sys.log).db
    && OnceEach(sys.log) && sys.db.receipts == Effects(sys.log)
  }

  /** Every consumer the worker has passed without a failure has a receipt for the event. */
  ghost predicate WorkerOk(db: CaseState, worker: Worker) {
    worker.Dispatching? ==>
      && worker.event < |db.outbox|
      && forall c :: Registered(c, db.outbox[worker.event].event) ==>
           c in worker.todo || (c, worker.event) in db.receipts || worker.failed
  }

  ghost predicate AllReceipted(db: CaseState, e: nat)
    requires e < |db.outbox|
  {
    forall c :: Registered(c, db.outbox[e].event) ==> (c, e) in db.receipts
  }

  ghost predicate Tracked(sys: System) {
    && |sys.status| == |sys.db.outbox|
    && (forall w :: 0 <= w < |sys.workers| ==> WorkerOk(sys.db, sys.workers[w]))
    && (forall e :: 0 <= e < |sys.status| && sys.status[e] == Processed ==> AllReceipted(sys.db, e))
  }

  ghost predicate SystemOk(sys: System) {
    Refines(sys) && RowsLinked(sys.db) && Tracked(sys)
  }

  // --- every action keeps it ---

  lemma LogCommits(sys: System, step: Step)
    requires Refines(sys) && RowsLinked(sys.db) && Apply(sys.db, step).Success?
    requires step.ConsumerRuns? ==> (step.consumer, step.event) !in sys.db.receipts
    ensures Refines(sys.(log := sys.log + [step], db := Apply(sys.db, step).value))
    ensures RowsLinked(Apply(sys.db, step).value) && Evolves(sys.db, Apply(sys.db, step).value)
  {
    hide Safe, Apply, Evolves, RowsLinked;
    var before := Run(sys.start, sys.log);
    assert (sys.log + [step])[..|sys.log|] == sys.log;
    AdvanceIs(before, step);
    AdvanceIs(Advance(before, step), step);
    ApplyTo(sys.db, step);
    EffectsAppend(sys.log, step);
  }

  lemma LogRollsBack(sys: System, step: Step)
    requires Refines(sys) && RowsLinked(sys.db) && Apply(sys.db, step).Failure? && !step.ConsumerRuns?
    ensures Refines(sys.(log := sys.log + [step]))
  {
    hide Safe, Apply, Evolves, RowsLinked;
    assert (sys.log + [step])[..|sys.log|] == sys.log;
    AdvanceIs(Run(sys.start, sys.log), step);
    EffectsAppend(sys.log, step);
  }

  lemma EffectsAppend(log: seq<Step>, step: Step)
    requires OnceEach(log) && (step.ConsumerRuns? ==> (step.consumer, step.event) !in Effects(log))
    ensures OnceEach(log + [step])
    ensures Effects(log + [step]) == Effects(log) + (if step.ConsumerRuns? then {(step.consumer, step.event)} else {})
  {
    assert (log + [step])[..|log|] == log;
    forall i | 0 <= i < |log| && log[i].ConsumerRuns? && step.ConsumerRuns?
      ensures (log[i].consumer, log[i].event) != (step.consumer, step.event)
    {
      assert ConsumerRuns(log[i].consumer, log[i].event, log[i].input) in log;
    }
  }

  lemma WorkersGrow(sys: System, db: CaseState)
    requires Tracked(sys) && sys.db.outbox <= db.outbox && sys.db.receipts <= db.receipts
    ensures forall w :: 0 <= w < |sys.workers| ==> WorkerOk(db, sys.workers[w])
    ensures forall e :: 0 <= e < |sys.status| && sys.status[e] == Processed ==> AllReceipted(db, e)
  {
    forall w | 0 <= w < |sys.workers| ensures WorkerOk(db, sys.workers[w]) {
      assert WorkerOk(sys.db, sys.workers[w]);
    }
    forall e | 0 <= e < |sys.status| && sys.status[e] == Processed ensures AllReceipted(db, e) {
      assert AllReceipted(sys.db, e);
    }
  }

  lemma CommitKeeps(sys: System, step: Step)
    requires SystemOk(sys) && Apply(sys.db, step).Success?
    requires step.ConsumerRuns? ==> (step.consumer, step.event) !in sys.db.receipts
    ensures SystemOk(Committed(sys, step, Apply(sys.db, step).value))
    ensures sys.db.receipts <= Apply(sys.db, step).value.receipts && sys.db.outbox <= Apply(sys.db, step).value.outbox
  {
    hide Refines, RowsLinked, Apply;
    var db := Apply(sys.db, step).value;
    LogCommits(sys, step);
    WorkersGrow(sys, db);
    RefinesLooksAt(sys.(log := sys.log + [step], db := db), Committed(sys, step, db));
  }

  lemma RefinesLooksAt(sys: System, other: System)
    requires Refines(sys) && other.start == sys.start && other.log == sys.log && other.db == sys.db
    ensures Refines(other)
  {
  }

  lemma WorkerStepKeeps(sys: System, w: nat, worker: Worker)
    requires SystemOk(sys) && w < |sys.workers| && WorkerOk(sys.db, worker)
    ensures SystemOk(SetWorker(sys, w, worker))
  {
    hide Refines, RowsLinked, WorkerOk;
    RefinesLooksAt(sys, SetWorker(sys, w, worker));
  }

  lemma ProceedOk(db: CaseState, worker: Worker, ok: bool)
    requires worker.Dispatching? && worker.todo != [] && WorkerOk(db, worker)
    requires ok ==> (worker.todo[0], worker.event) in db.receipts
    ensures WorkerOk(db, Proceed(worker, ok))
  {
    forall c | Registered(c, db.outbox[worker.event].event)
      ensures c in worker.todo[1..] || (c, worker.event) in db.receipts || worker.failed || !ok
    {
      assert c in worker.todo ==> c == worker.todo[0] || c in worker.todo[1..];
    }
  }

  lemma AfterRaiseOk(db: CaseState, worker: Worker, maxAttempts: nat)
    requires worker.Dispatching? && worker.todo != [] && WorkerOk(db, worker)
    ensures WorkerOk(db, AfterRaise(worker, maxAttempts))
  {
    if worker.attempt >= maxAttempts { ProceedOk(db, worker, false); }
  }

  lemma TriedCommitKeeps(sys: System, w: nat)
    requires SystemOk(sys) && Working(sys, w) && sys.workers[w].todo != [] && sys.workers[w].phase.Handled?
    ensures SystemOk(CommitOf(sys, w)) && CommitOf(sys, w).start == sys.start
  {
    hide Refines, RowsLinked, Apply, WorkerOk;
    var worker := sys.workers[w];
    var step := ConsumerRuns(worker.todo[0], worker.event, worker.phase.input);
    AfterRaiseOk(sys.db, worker, sys.maxAttempts);
    if (worker.todo[0], worker.event) in sys.db.receipts || Apply(sys.db, step).Failure? {
      WorkerStepKeeps(sys, w, AfterRaise(worker, sys.maxAttempts));
    } else {
      var db := Apply(sys.db, step).value;
      CommitKeeps(sys, step);
      ReceiptWritten(sys.db, step);
      assert WorkerOk(db, Committed(sys, step, db).workers[w]);
      ProceedOk(db, worker, true);
      WorkerStepKeeps(Committed(sys, step, db), w, Proceed(worker, true));
    }
  }

  lemma ReceiptWritten(s: CaseState, step: Step)
    requires RowsLinked(s) && step.ConsumerRuns? && Apply(s, step).Success?
    ensures (step.consumer, step.event) in Apply(s, step).value.receipts
  {
    hide Apply, TargetsOf, MovesOnlyTo, RowsLinked;
    ApplyTo(s, step);
  }

  lemma FinishKeeps(sys: System, w: nat)
    requires SystemOk(sys) && Working(sys, w) && sys.workers[w].todo == []
    ensures SystemOk(Perform(sys, Finishes(w)))
  {
    hide Refines, RowsLinked;
    var t := Perform(sys, Finishes(w));
    RefinesLooksAt(sys, t);
    assert WorkerOk(sys.db, sys.workers[w]);
    forall e | 0 <= e < |t.status| && t.status[e] == Processed ensures AllReceipted(t.db, e) {
      if e != sys.workers[w].event { assert sys.status[e] == Processed; }
    }
  }

  lemma PerformKeeps(sys: System, a: Action)
    requires SystemOk(sys)
    ensures SystemOk(Perform(sys, a)) && Perform(sys, a).start == sys.start
  {
    hide Refines, RowsLinked, Apply, WorkerOk, AllReceipted, CommitOf, RegistrationsFor;
    match a {
      case OtherWork(step) =>
        if !step.ConsumerRuns? {
          if Apply(sys.db, step).Success? { CommitKeeps(sys, step); } else { LogRollsBack(sys, step); }
        }
      case Publishes(e) => RefinesLooksAt(sys, Perform(sys, a));
      case MarksPublished(e) => RefinesLooksAt(sys, Perform(sys, a));
      case Receives(w, e, acknowledged) =>
        var queue := if acknowledged then sys.queue - multiset{e} else sys.queue;
        RefinesLooksAt(sys, sys.(queue := queue));
        if w < |sys.workers| && e < |sys.db.outbox| {
          FreshWorkerOk(sys.db, e);
          WorkerStepKeeps(sys.(queue := queue), w,
                          Dispatching(e, RegistrationsFor(sys.db.outbox[e].event), 1, Checking, false));
        }
      case Checks(w) =>
        if Working(sys, w) && sys.workers[w].todo != [] && sys.workers[w].phase == Checking {
          if (sys.workers[w].todo[0], sys.workers[w].event) in sys.db.receipts {
            ProceedOk(sys.db, sys.workers[w], true);
            WorkerStepKeeps(sys, w, Proceed(sys.workers[w], true));
          } else {
            PhaseOk(sys.db, sys.workers[w], Unreceipted);
            WorkerStepKeeps(sys, w, sys.workers[w].(phase := Unreceipted));
          }
        }
      case Handles(w, input) => HandledKeeps(sys, w, input);
      case Raises(w) =>
        if Working(sys, w) && sys.workers[w].todo != [] {
          AfterRaiseOk(sys.db, sys.workers[w], sys.maxAttempts);
          WorkerStepKeeps(sys, w, AfterRaise(sys.workers[w], sys.maxAttempts));
        }
      case TriesCommit(w) =>
        if Working(sys, w) && sys.workers[w].todo != [] && sys.workers[w].phase.Handled? { TriedCommitKeeps(sys, w); }
      case Finishes(w) => if Working(sys, w) && sys.workers[w].todo == [] { FinishKeeps(sys, w); }
      case Dies(w) =>
        if w < |sys.workers| {
          IdleOk(sys.db);
          WorkerStepKeeps(sys, w, Idle);
        }
    }
  }

  lemma HandledKeeps(sys: System, w: nat, input: FullInput)
    requires SystemOk(sys)
    ensures SystemOk(Perform(sys, Handles(w, input)))
  {
    hide Refines, RowsLinked, WorkerOk, AllReceipted;
    if Working(sys, w) && sys.workers[w].todo != [] && sys.workers[w].phase == Unreceipted {
      var step := Crashes(ConsumerRuns(sys.workers[w].todo[0], sys.workers[w].event, input));
      LogRollsBack(sys, step);
      PhaseOk(sys.db, sys.workers[w], Handled(input));
      WorkerStepKeeps(sys.(log := sys.log + [step]), w, sys.workers[w].(phase := Handled(input)));
    }
  }

  lemma FreshWorkerOk(db: CaseState, e: nat)
    requires e < |db.outbox|
    ensures WorkerOk(db, Dispatching(e, RegistrationsFor(db.outbox[e].event), 1, Checking, false))
  {
  }

  lemma PhaseOk(db: CaseState, worker: Worker, phase: Phase)
    requires worker.Dispatching? && WorkerOk(db, worker)
    ensures WorkerOk(db, worker.(phase := phase))
  {
  }

  lemma IdleOk(db: CaseState)
    ensures WorkerOk(db, Idle)
  {
  }

  // --- executions ---

  function Boot(t: Template, workers: nat, maxAttempts: nat): System {
    System(Start(t), [], Opened(t), [Unsent, Unsent], multiset{}, seq(workers, _ => Idle), maxAttempts)
  }

  /** The systems an execution passes through. */
  ghost predicate Visits(actions: seq<Action>, systems: seq<System>) {
    |systems| == |actions| + 1
    && forall k {:trigger actions[k]} :: 0 <= k < |actions| ==> Leads(systems[k], actions[k], systems[k + 1])
  }

  ghost predicate Leads(sys: System, a: Action, r: System) {
    RowsLinked(sys.db) && r == Perform(sys, a)
  }

  ghost predicate Executes(sys: System, actions: seq<Action>, r: System) {
    exists systems :: Visits(actions, systems) && systems[0] == sys && systems[|actions|] == r
  }

  /** The systems any number of workers may come to on a case of a template. */
  ghost predicate Attainable(t: Template, sys: System) {
    TemplateOk(t) && exists workers, maxAttempts, actions :: Executes(Boot(t, workers, maxAttempts), actions, sys)
  }

  lemma BootOk(t: Template, workers: nat, maxAttempts: nat)
    requires TemplateOk(t)
    ensures SystemOk(Boot(t, workers, maxAttempts))
  {
    OpenedSafe(t);
    InvRows(Opened(t), None);
  }

  lemma {:induction false} VisitsOk(actions: seq<Action>, systems: seq<System>, n: nat)
    requires Visits(actions, systems) && n <= |actions| && SystemOk(systems[0])
    ensures SystemOk(systems[n]) && systems[n].start == systems[0].start
  {
    hide SystemOk, Perform;
    if n > 0 {
      VisitsOk(actions, systems, n - 1);
      assert Leads(systems[n - 1], actions[n - 1], systems[n]);
      PerformKeeps(systems[n - 1], actions[n - 1]);
    }
  }

  lemma AttainableOk(t: Template, sys: System)
    requires Attainable(t, sys)
    ensures SystemOk(sys) && sys.start == Start(t) && TemplateOk(t)
  {
    hide SystemOk, TemplateOk, Opened, Leads;
    var workers, maxAttempts, actions :| Executes(Boot(t, workers, maxAttempts), actions, sys);
    var systems :| Visits(actions, systems) && systems[0] == Boot(t, workers, maxAttempts) && systems[|actions|] == sys;
    BootOk(t, workers, maxAttempts);
    VisitsOk(actions, systems, |actions|);
  }

  // --- main results ---

  /**
   * Under every interleaving of workers, redelivery, failure and crash the committed rows are those of the sequential
   * run of the log, no delivery occurs in the log twice, and the receipts are exactly the log's deliveries.
   */
  lemma ExactlyOnce(t: Template, sys: System) returns (w: World)
    requires Attainable(t, sys)
    ensures Runs(Start(t), sys.log, w) && w.db == sys.db
    ensures OnceEach(sys.log)
    ensures forall c, e: nat :: (c, e) in sys.db.receipts <==> exists input: FullInput :: ConsumerRuns(c, e, input) in sys.log
  {
    hide Attainable, Tracked, Safe, RowsLinked, Evolves, Opened, Runs, Run;
    AttainableOk(t, sys);
    RunRuns(Start(t), sys.log);
    w := Run(Start(t), sys.log);
  }

  /** A row reads PROCESSED only when every consumer registered for its event has committed its effect. */
  lemma ProcessedMeansReceipted(t: Template, sys: System, e: nat, c: Consumer)
    requires Attainable(t, sys) && e < |sys.status| && sys.status[e] == Processed
    ensures e < |sys.db.outbox| && (Registered(c, sys.db.outbox[e].event) ==> (c, e) in sys.db.receipts)
  {
    hide Attainable, Refines, RowsLinked;
    AttainableOk(t, sys);
    assert AllReceipted(sys.db, e);
  }

  /** The order of the outbox statuses. */
  function Rank(status: OutboxStatus): nat {
    match status
    case Unsent => 0
    case Published => 1
    case _ => 2
  }

  predicate MayBecome(before: OutboxStatus, after: OutboxStatus) {
    before == after || Rank(after) == Rank(before) + 1
  }

  /** One action moves a row's status by one place at most: unsent, published, then processed or failed for good. */
  lemma StatusesMoveForward(t: Template, sys: System, a: Action, r: System, e: nat)
    requires Attainable(t, sys) && Executes(sys, [a], r) && e < |sys.status|
    ensures e < |r.status| && MayBecome(sys.status[e], r.status[e])
  {
    hide Refines, RowsLinked, Apply, Tracked, RegistrationsFor, Attainable;
    var systems :| Visits([a], systems) && systems[0] == sys && systems[1] == r;
    assert Leads(systems[0], [a][0], systems[1]);
  }
}
