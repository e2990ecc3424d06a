/** What the workers get done: a worker left alone delivers, and no consumer is given up before all its tries. */
module DeliveryProgress {
  import opened Wrappers
  import opened CaseModel
  import opened CaseServices
  import opened CaseEvolution
  import opened CaseInvariants
  import opened CaseRuns
  import opened Delivery

  // --- a worker left alone ---

  /** Delivering event e to the consumers in todo, one after the other, commits each time and leads from db to after. */
  ghost predicate AllCommit(db: CaseState, todo: seq<Consumer>, e: nat, inputs: Consumer -> FullInput, after: CaseState)
    decreases |todo|
  {
    if todo == [] then after == db
    else
      RowsLinked(db) &&
      var step := ConsumerRuns(todo[0], e, inputs(todo[0]));
      Apply(db, step).Success? && AllCommit(Apply(db, step).value, todo[1..], e, inputs, after)
  }

  lemma ExecutesNone(sys: System)
    ensures Executes(sys, [], sys)
  {
    assert Delivery.Visits([], [sys]);
  }

  lemma ExecutesFirst(sys: System, a: Delivery.Action, actions: seq<Delivery.Action>, r: System)
    requires RowsLinked(sys.db) && Executes(Perform(sys, a), actions, r)
    ensures Executes(sys, [a] + actions, r)
  {
    hide Perform, RowsLinked;
    var systems :| Delivery.Visits(actions, systems) && systems[0] == Perform(sys, a) && systems[|actions|] == r;
    var more := [sys] + systems;
    forall k | 0 <= k < |[a] + actions| ensures Delivery.Leads(more[k], ([a] + actions)[k], more[k + 1]) {
      if k > 0 { assert Delivery.Leads(systems[k - 1], actions[k - 1], systems[k]); }
    }
    assert Delivery.Visits([a] + actions, more);
  }

  /** A worker on event e with consumers to do and nothing failed. */
  predicate Busy(sys: System, w: nat, e: nat) {
    Working(sys, w) && sys.workers[w].event == e && sys.workers[w].phase == Checking && !sys.workers[w].failed
  }

  /** The worker checks, handles and commits for its next consumer. */
  lemma OneConsumer(sys: System, w: nat, e: nat, input: FullInput) returns (actions: seq<Delivery.Action>, r: System)
    requires SystemOk(sys) && Busy(sys, w, e) && sys.workers[w].todo != []
    requires e < |sys.db.outbox| && Registered(sys.workers[w].todo[0], sys.db.outbox[e].event)
    requires Apply(sys.db, ConsumerRuns(sys.workers[w].todo[0], e, input)).Success?
    ensures forall rest, end :: Executes(r, rest, end) ==> Executes(sys, actions + rest, end)
    ensures SystemOk(r) && Busy(r, w, e) && r.workers == sys.workers[w := r.workers[w]]
    ensures r.workers[w].todo == sys.workers[w].todo[1..]
    ensures r.db == Apply(sys.db, ConsumerRuns(sys.workers[w].todo[0], e, input)).value
    ensures sys.status <= r.status && sys.db.outbox <= r.db.outbox
  {
    hide Refines, Tracked, Handle, RowsLinked, Executes;
    var c := sys.workers[w].todo[0];
    var step := ConsumerRuns(c, e, input);
    PerformKeeps(sys, Checks(w));
    var checked := Perform(sys, Checks(w));
    if (c, e) in sys.db.receipts {
      actions, r := [Checks(w)], checked;
      forall rest, end | Executes(r, rest, end) ensures Executes(sys, actions + rest, end) {
        ExecutesFirst(sys, Checks(w), rest, end);
      }
    } else {
      PerformKeeps(checked, Handles(w, input));
      var handled := Perform(checked, Handles(w, input));
      PerformKeeps(handled, TriesCommit(w));
      CommitKeeps(handled, step);
      actions, r := [Checks(w), Handles(w, input), TriesCommit(w)], Perform(handled, TriesCommit(w));
      forall rest, end | Executes(r, rest, end) ensures Executes(sys, actions + rest, end) {
        ExecutesFirst(handled, TriesCommit(w), rest, end);
        ExecutesFirst(checked, Handles(w, input), [TriesCommit(w)] + rest, end);
        ExecutesFirst(sys, Checks(w), [Handles(w, input)] + ([TriesCommit(w)] + rest), end);
        assert actions + rest == [Checks(w)] + ([Handles(w, input)] + ([TriesCommit(w)] + rest));
      }
    }
  }

  /** The worker gets through its whole list. */
  lemma {:induction false} WholeList(sys: System, w: nat, e: nat, inputs: Consumer -> FullInput, after: CaseState)
    returns (actions: seq<Delivery.Action>, r: System)
    requires SystemOk(sys) && Busy(sys, w, e) && AllCommit(sys.db, sys.workers[w].todo, e, inputs, after)
    requires e < |sys.db.outbox|
    requires forall k :: 0 <= k < |sys.workers[w].todo| ==> Registered(sys.workers[w].todo[k], sys.db.outbox[e].event)
    ensures forall rest, end :: Executes(r, rest, end) ==> Executes(sys, actions + rest, end)
    ensures SystemOk(r) && Busy(r, w, e) && r.workers == sys.workers[w := r.workers[w]] && r.workers[w].todo == []
    ensures r.db == after && sys.status <= r.status
    decreases |sys.workers[w].todo|
  {
    hide SystemOk, Apply, RowsLinked, Executes, Registered;
    if sys.workers[w].todo == [] {
      actions, r := [], sys;
      forall rest, end | Executes(r, rest, end) ensures Executes(sys, actions + rest, end) { assert actions + rest == rest; }
    } else {
      var first, middle := OneConsumer(sys, w, e, inputs(sys.workers[w].todo[0]));
      var others: seq<Delivery.Action>;
      others, r := WholeList(middle, w, e, inputs, after);
      actions := first + others;
      forall rest, end | Executes(r, rest, end) ensures Executes(sys, actions + rest, end) {
        assert Executes(middle, others + rest, end);
        assert actions + rest == first + (others + rest);
      }
    }
  }

  /**
   * Published, received by an idle worker and left to it, an event whose handlers commit is processed: the rows are those
   * its consumers make one after the other, each has its receipt, and the worker is idle again.
   */
  lemma LoneWorkerDelivers(t: Template, sys: System, w: nat, e: nat, inputs: Consumer -> FullInput, after: CaseState)
    returns (actions: seq<Delivery.Action>, r: System)
    requires Attainable(t, sys) && w < |sys.workers| && sys.workers[w].Idle? && e < |sys.status| && sys.status[e] == Unsent
    requires e < |sys.db.outbox|
             && AllCommit(sys.db, RegistrationsFor(sys.db.outbox[e].event), e, inputs, after)
    ensures Executes(sys, actions, r) && r.db == after && r.workers == sys.workers
    ensures e < |r.status| && r.status[e] == Processed
  {
    hide Refines, Tracked, Apply, RowsLinked, Executes, Registered, Attainable, AllCommit, RegistrationsFor;
    AttainableOk(t, sys);
    PerformKeeps(sys, Publishes(e));
    var sent := Perform(sys, Publishes(e));
    PerformKeeps(sent, MarksPublished(e));
    var marked := Perform(sent, MarksPublished(e));
    PerformKeeps(marked, Receives(w, e, true));
    var received := Perform(marked, Receives(w, e, true));
    RegisteredAll(sys.db.outbox[e].event);
    var others, done := WholeList(received, w, e, inputs, after);
    r := Perform(done, Finishes(w));
    actions := [Publishes(e)] + ([MarksPublished(e)] + ([Receives(w, e, true)] + (others + [Finishes(w)])));
    ExecutesNone(r);
    ExecutesFirst(done, Finishes(w), [], r);
    assert [Finishes(w)] + [] == [Finishes(w)];
    ExecutesFirst(marked, Receives(w, e, true), others + [Finishes(w)], r);
    ExecutesFirst(sent, MarksPublished(e), [Receives(w, e, true)] + (others + [Finishes(w)]), r);
    ExecutesFirst(sys, Publishes(e), [MarksPublished(e)] + ([Receives(w, e, true)] + (others + [Finishes(w)])), r);
  }

  lemma RegisteredAll(event: Event)
    ensures forall k :: 0 <= k < |RegistrationsFor(event)| ==> Registered(RegistrationsFor(event)[k], event)
  {
    hide Registered;
    var regs := RegistrationsFor(event);
    forall k | 0 <= k < |regs| ensures Registered(regs[k], event) { assert regs[k] in regs; }
  }

  /** A message leaves the broker only by being received and acknowledged. */
  lemma MessagesStay(sys: System, a: Delivery.Action, e: nat)
    requires RowsLinked(sys.db)
    ensures Perform(sys, a).queue[e] >= sys.queue[e] || (a.Receives? && a.event == e && a.acknowledged)
  {
    hide RowsLinked, Apply, RegistrationsFor;
  }

  // --- giving up ---

  /** At step k worker w loses a try of consumer c on event e: it raises, or its commit does not go through. */
  ghost predicate LosesTry(actions: seq<Delivery.Action>, systems: seq<System>, k: nat, w: nat, c: Consumer, e: nat) {
    && k < |actions| && k + 1 < |systems| && Working(systems[k], w)
    && systems[k].workers[w].event == e && systems[k].workers[w].todo != [] && systems[k].workers[w].todo[0] == c
    && (actions[k] == Raises(w) || (actions[k] == TriesCommit(w) && systems[k + 1].log == systems[k].log))
  }

  ghost function TriesLost(actions: seq<Delivery.Action>, systems: seq<System>, n: nat, w: nat, c: Consumer, e: nat): nat {
    if n == 0 then 0
    else TriesLost(actions, systems, n - 1, w, c, e) + (if LosesTry(actions, systems, n - 1, w, c, e) then 1 else 0)
  }

  /** Some worker has lost as many tries of one consumer on event e as are allowed. */
  ghost predicate AllTriesLost(actions: seq<Delivery.Action>, systems: seq<System>, n: nat, e: nat, maxAttempts: nat) {
    exists w: nat, c :: TriesLost(actions, systems, n, w, c, e) >= maxAttempts
  }

  /** The attempts a worker counts have been lost, and a failed worker has lost them all for some consumer. */
  ghost predicate Counted(actions: seq<Delivery.Action>, systems: seq<System>, n: nat, w: nat)
    requires n < |systems| && w < |systems[n].workers|
  {
    var worker := systems[n].workers[w];
    worker.Dispatching? ==>
      && (worker.todo != [] ==>
            worker.attempt <= 1 + TriesLost(actions, systems, n, w, worker.todo[0], worker.event))
      && (worker.failed ==> AllTriesLost(actions, systems, n, worker.event, systems[n].maxAttempts))
  }

  ghost predicate AllCounted(actions: seq<Delivery.Action>, systems: seq<System>, n: nat)
    requires n < |systems|
  {
    && (forall w :: 0 <= w < |systems[n].workers| ==> Counted(actions, systems, n, w))
    && (forall e :: 0 <= e < |systems[n].status| && systems[n].status[e] == Failed ==>
          AllTriesLost(actions, systems, n, e, systems[n].maxAttempts))
  }

  lemma LostStays(actions: seq<Delivery.Action>, systems: seq<System>, n: nat, e: nat, maxAttempts: nat)
    requires AllTriesLost(actions, systems, n, e, maxAttempts)
    ensures AllTriesLost(actions, systems, n + 1, e, maxAttempts)
  {
    hide LosesTry;
    var w: nat, c :| TriesLost(actions, systems, n, w, c, e) >= maxAttempts;
    assert TriesLost(actions, systems, n + 1, w, c, e) >= maxAttempts;
  }

  /** A worker that keeps its event and its place, or starts afresh, is still counted. */
  lemma StillCounted(actions: seq<Delivery.Action>, systems: seq<System>, n: nat, w: nat)
    requires n + 1 < |systems| && w < |systems[n + 1].workers| && systems[n + 1].maxAttempts == systems[n].maxAttempts
    requires
      var after := systems[n + 1].workers[w];
      || after.Idle?
      || (after.attempt == 1 && !after.failed)
      || (w < |systems[n].workers| && systems[n].workers[w].Dispatching? && Counted(actions, systems, n, w)
          && after.event == systems[n].workers[w].event
          && (after.attempt == 1
              || (after.todo == systems[n].workers[w].todo && after.attempt == systems[n].workers[w].attempt))
          && (after.failed ==> systems[n].workers[w].failed))
    ensures Counted(actions, systems, n + 1, w)
  {
    hide LosesTry;
    var after := systems[n + 1].workers[w];
    if after.Dispatching? && after.failed { LostStays(actions, systems, n, after.event, systems[n].maxAttempts); }
  }

  /** A worker that loses a try is still counted, with one try more, or one consumer given up. */
  lemma LosingCounted(actions: seq<Delivery.Action>, systems: seq<System>, n: nat, w: nat)
    requires n + 1 < |systems| && w < |systems[n].workers| == |systems[n + 1].workers|
    requires systems[n + 1].maxAttempts == systems[n].maxAttempts
    requires Working(systems[n], w) && systems[n].workers[w].todo != [] && Counted(actions, systems, n, w)
    requires LosesTry(actions, systems, n, w, systems[n].workers[w].todo[0], systems[n].workers[w].event)
    requires systems[n + 1].workers[w] == AfterRaise(systems[n].workers[w], systems[n].maxAttempts)
    ensures Counted(actions, systems, n + 1, w)
  {
    hide LosesTry;
    var before, max := systems[n].workers[w], systems[n].maxAttempts;
    var c, e := before.todo[0], before.event;
    assert TriesLost(actions, systems, n + 1, w, c, e) == TriesLost(actions, systems, n, w, c, e) + 1;
    if before.attempt >= max {
      assert TriesLost(actions, systems, n + 1, w, c, e) >= max;
    } else if before.failed {
      LostStays(actions, systems, n, e, max);
    }
  }

  /** What an action may make of a worker other than a lost try: nothing, a new start, or the same place without harm. */
  predicate GoesOn(before: Worker, after: Worker) {
    || after == before || after.Idle? || (after.attempt == 1 && !after.failed)
    || (before.Dispatching? && after.event == before.event && (after.failed ==> before.failed)
        && (after.attempt == 1 || (after.todo == before.todo && after.attempt == before.attempt)))
  }

  lemma WorkerStep(sys: System, a: Delivery.Action, w: nat)
    requires RowsLinked(sys.db) && w < |sys.workers|
    ensures
      var r := Perform(sys, a);
      && |r.workers| == |sys.workers| && r.maxAttempts == sys.maxAttempts
      && (GoesOn(sys.workers[w], r.workers[w])
          || (Working(sys, w) && sys.workers[w].todo != []
              && r.workers[w] == AfterRaise(sys.workers[w], sys.maxAttempts)
              && (a == Raises(w) || (a == TriesCommit(w) && r.log == sys.log))))
  {
    hide RowsLinked, Apply, RegistrationsFor, AfterRaise, CommitOf;
    if a.TriesCommit? && Working(sys, a.worker) && sys.workers[a.worker].todo != []
       && sys.workers[a.worker].phase.Handled? {
      CommitStep(sys, a.worker, w);
    }
  }

  lemma CommitStep(sys: System, v: nat, w: nat)
    requires RowsLinked(sys.db) && w < |sys.workers|
    requires Working(sys, v) && sys.workers[v].todo != [] && sys.workers[v].phase.Handled?
    ensures
      var r := CommitOf(sys, v);
      && |r.workers| == |sys.workers| && r.maxAttempts == sys.maxAttempts
      && (GoesOn(sys.workers[w], r.workers[w])
          || (v == w && r.workers[w] == AfterRaise(sys.workers[w], sys.maxAttempts) && r.log == sys.log))
  {
    hide RowsLinked, Apply, AfterRaise;
  }

  lemma WorkerCounted(actions: seq<Delivery.Action>, systems: seq<System>, n: nat, w: nat)
    requires n < |actions| && n + 1 < |systems| && Delivery.Leads(systems[n], actions[n], systems[n + 1])
    requires AllCounted(actions, systems, n) && w < |systems[n].workers|
    ensures |systems[n + 1].workers| == |systems[n].workers| && systems[n + 1].maxAttempts == systems[n].maxAttempts
    ensures Counted(actions, systems, n + 1, w)
  {
    hide RowsLinked, Perform, Counted, AllTriesLost, AfterRaise;
    WorkerStep(systems[n], actions[n], w);
    if systems[n + 1].workers[w] == systems[n].workers[w] {
      SameCounted(actions, systems, n, w);
    } else if GoesOn(systems[n].workers[w], systems[n + 1].workers[w]) {
      StillCounted(actions, systems, n, w);
    } else {
      LosingCounted(actions, systems, n, w);
    }
  }

  lemma SameCounted(actions: seq<Delivery.Action>, systems: seq<System>, n: nat, w: nat)
    requires n + 1 < |systems| && w < |systems[n].workers| && w < |systems[n + 1].workers|
    requires systems[n + 1].maxAttempts == systems[n].maxAttempts && systems[n + 1].workers[w] == systems[n].workers[w]
    requires Counted(actions, systems, n, w)
    ensures Counted(actions, systems, n + 1, w)
  {
    hide LosesTry;
    var worker := systems[n].workers[w];
    if worker.Dispatching? && worker.failed { LostStays(actions, systems, n, worker.event, systems[n].maxAttempts); }
  }

  lemma StatusCounted(actions: seq<Delivery.Action>, systems: seq<System>, n: nat, e: nat)
    requires n < |actions| && n + 1 < |systems| && Delivery.Leads(systems[n], actions[n], systems[n + 1])
    requires AllCounted(actions, systems, n) && e < |systems[n + 1].status| && systems[n + 1].status[e] == Failed
    ensures AllTriesLost(actions, systems, n + 1, e, systems[n + 1].maxAttempts)
  {
    hide RowsLinked, Apply, RegistrationsFor, AllTriesLost, Counted, CommitOf;
    var sys, a := systems[n], actions[n];
    KeepsSetting(sys, a);
    if e < |sys.status| && sys.status[e] == Failed {
      LostStays(actions, systems, n, e, sys.maxAttempts);
    } else if a.Finishes? {
      FinishedFailed(actions, systems, n, a.worker);
      LostStays(actions, systems, n, e, sys.maxAttempts);
    } else if a.TriesCommit? {
      CommitFailsNone(sys, a.worker);
    }
  }

  lemma CommitFailsNone(sys: System, w: nat)
    requires RowsLinked(sys.db) && Working(sys, w) && sys.workers[w].todo != [] && sys.workers[w].phase.Handled?
    ensures
      var r := CommitOf(sys, w);
      forall e :: 0 <= e < |r.status| && r.status[e] == Failed ==> e < |sys.status| && sys.status[e] == Failed
  {
    hide RowsLinked, Apply;
  }

  lemma FinishedFailed(actions: seq<Delivery.Action>, systems: seq<System>, n: nat, w: nat)
    requires n < |systems| && w < |systems[n].workers| && Counted(actions, systems, n, w)
    ensures systems[n].workers[w].Dispatching? && systems[n].workers[w].failed ==>
              AllTriesLost(actions, systems, n, systems[n].workers[w].event, systems[n].maxAttempts)
  {
  }

  lemma {:induction false} VisitsCounted(actions: seq<Delivery.Action>, systems: seq<System>, n: nat)
    requires Delivery.Visits(actions, systems) && n <= |actions|
    requires (forall w :: 0 <= w < |systems[0].workers| ==> systems[0].workers[w].Idle?)
    requires forall e :: 0 <= e < |systems[0].status| ==> systems[0].status[e] == Unsent
    ensures AllCounted(actions, systems, n) && systems[n].maxAttempts == systems[0].maxAttempts
  {
    hide Perform, Counted, AllTriesLost;
    if n == 0 {
      NothingCounted(actions, systems);
    } else {
      VisitsCounted(actions, systems, n - 1);
      assert Delivery.Leads(systems[n - 1], actions[n - 1], systems[n]);
      KeepsSetting(systems[n - 1], actions[n - 1]);
      forall w | 0 <= w < |systems[n].workers| ensures Counted(actions, systems, n, w) {
        WorkerCounted(actions, systems, n - 1, w);
      }
      forall e | 0 <= e < |systems[n].status| && systems[n].status[e] == Failed
        ensures AllTriesLost(actions, systems, n, e, systems[n].maxAttempts)
      {
        StatusCounted(actions, systems, n - 1, e);
      }
    }
  }

  lemma KeepsSetting(sys: System, a: Delivery.Action)
    requires RowsLinked(sys.db)
    ensures Perform(sys, a).maxAttempts == sys.maxAttempts && |Perform(sys, a).workers| == |sys.workers|
  {
    hide RowsLinked, Apply, RegistrationsFor;
  }

  lemma NothingCounted(actions: seq<Delivery.Action>, systems: seq<System>)
    requires |systems| > 0 && forall w :: 0 <= w < |systems[0].workers| ==> systems[0].workers[w].Idle?
    requires forall e :: 0 <= e < |systems[0].status| ==> systems[0].status[e] == Unsent
    ensures AllCounted(actions, systems, 0)
  {
  }

  /** In every execution a row reads FAILED only when some worker has lost every allowed try of one consumer on it. */
  lemma FailedMeansAllTriesLost(t: Template, workers: nat, maxAttempts: nat, actions: seq<Delivery.Action>,
                                systems: seq<System>, e: nat) returns (w: nat, c: Consumer)
    requires Delivery.Visits(actions, systems) && systems[0] == Boot(t, workers, maxAttempts)
    requires e < |systems[|actions|].status| && systems[|actions|].status[e] == Failed
    ensures TriesLost(actions, systems, |actions|, w, c, e) >= maxAttempts
  {
    hide Delivery.Leads, Opened, LosesTry, Counted;
    VisitsCounted(actions, systems, |actions|);
    w, c :| TriesLost(actions, systems, |actions|, w, c, e) >= maxAttempts;
  }
}
