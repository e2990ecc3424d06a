/** The relay, the in-memory broker, the dispatcher and the pump at work on one case's session. */
module EventPipeline {
  import opened Wrappers
  import opened LifeEventGraph
  import opened CaseModel
  import opened CaseServices
  import opened CaseEvolution
  import opened CaseInvariants
  import opened CaseSteps
  import opened CaseRuns
  import opened CaseTargets
  import opened CaseSession
  import opened Delivery
  import opened OutboxRelay

  // --- deliveries in a session ---

  lemma SafeRows(w: World)
    requires Safe(w)
    ensures RowsLinked(w.db)
  {
  }

  lemma AdvanceDelivers(w: World, c: Consumer, e: nat, input: FullInput)
    requires Safe(w)
    ensures
      var step := ConsumerRuns(c, e, input);
      var r := Advance(w, step);
      && w.db.outbox <= r.db.outbox && w.db.receipts <= r.db.receipts && RowsLinked(w.db)
      && (if Commits(w, step)
          then Apply(w.db, step) == Success(r.db) && r.db.receipts == w.db.receipts + {(c, e)}
          else Apply(w.db, step).Failure? && r.db == w.db)
  {
    hide Safe, Apply, Advance, Commits, MovesOnlyTo, TargetsOf;
    AdvanceIs(w, ConsumerRuns(c, e, input));
    if Apply(w.db, ConsumerRuns(c, e, input)).Success? { ApplyTo(w.db, ConsumerRuns(c, e, input)); }
  }

  // --- tries that fail ---

  /** Each of the first tries of consumer c on event e raises. */
  ghost predicate AllRaise(db: CaseState, c: Consumer, e: nat, inputs: nat -> FullInput, tries: nat) {
    RowsLinked(db) && forall k :: 1 <= k <= tries ==> Apply(db, ConsumerRuns(c, e, inputs(k))).Failure?
  }

  /** At some point in the history of db every try of consumer c on event e raised. */
  ghost predicate GaveUp(db: CaseState, c: Consumer, e: nat, inputs: nat -> FullInput, tries: nat) {
    exists earlier: CaseState ::
      earlier.outbox <= db.outbox && earlier.receipts <= db.receipts && AllRaise(earlier, c, e, inputs, tries)
  }

  /** Every consumer registered for the event has its receipt or gave up, and the row says which it was. */
  ghost predicate SettledAs(db: CaseState, e: nat, failed: bool, inputs: nat -> FullInput, tries: nat)
    requires e < |db.outbox|
  {
    && (forall c :: Registered(c, db.outbox[e].event) ==> (c, e) in db.receipts || GaveUp(db, c, e, inputs, tries))
    && (failed ==> exists c :: Registered(c, db.outbox[e].event) && GaveUp(db, c, e, inputs, tries)
                               && (tries > 0 ==> (c, e) !in db.receipts))
    && (!failed ==> AllReceipted(db, e))
  }

  lemma RaisingHasNoReceipt(db: CaseState, c: Consumer, e: nat, inputs: nat -> FullInput, tries: nat)
    requires AllRaise(db, c, e, inputs, tries) && tries > 0 && e < |db.outbox| && Registered(c, db.outbox[e].event)
    ensures (c, e) !in db.receipts
  {
    hide Handle, RowsLinked;
    assert Apply(db, ConsumerRuns(c, e, inputs(1))).Failure?;
  }

  lemma StillGaveUp(db: CaseState, grown: CaseState, c: Consumer, e: nat, inputs: nat -> FullInput, tries: nat)
    requires GaveUp(db, c, e, inputs, tries) && db.outbox <= grown.outbox && db.receipts <= grown.receipts
    ensures GaveUp(grown, c, e, inputs, tries)
  {
    hide AllRaise;
    var earlier: CaseState :|
      earlier.outbox <= db.outbox && earlier.receipts <= db.receipts && AllRaise(earlier, c, e, inputs, tries);
    assert earlier.outbox <= grown.outbox;
  }

  lemma GivesUp(db: CaseState, c: Consumer, e: nat, inputs: nat -> FullInput, tries: nat)
    requires AllRaise(db, c, e, inputs, tries)
    ensures GaveUp(db, c, e, inputs, tries)
    ensures tries > 0 && e < |db.outbox| && Registered(c, db.outbox[e].event) ==> (c, e) !in db.receipts
  {
    hide AllRaise, Registered;
    assert db.outbox <= db.outbox;
    if tries > 0 && e < |db.outbox| && Registered(c, db.outbox[e].event) { RaisingHasNoReceipt(db, c, e, inputs, tries); }
  }

  lemma RegistrationsDistinct(event: Event)
    ensures
      var regs := RegistrationsFor(event);
      && Distinct(regs)
      && (forall i :: 0 <= i < |regs| ==> Registered(regs[i], event))
      && (forall c :: Registered(c, event) ==> exists i :: 0 <= i < |regs| && regs[i] == c)
  {
    hide Registered;
    var regs := RegistrationsFor(event);
    AmongDistinct(REGISTRY, event);
    assert regs == RegistrationsAmong(REGISTRY, event);
    forall i | 0 <= i < |regs| ensures Registered(regs[i], event) { assert regs[i] in regs; }
    forall c | Registered(c, event) ensures exists i :: 0 <= i < |regs| && regs[i] == c { assert c in regs; }
  }

  predicate Distinct(regs: seq<Consumer>) {
    forall i, j :: 0 <= i < j < |regs| ==> regs[i] != regs[j]
  }

  lemma {:induction false} AmongDistinct(registry: seq<Consumer>, event: Event)
    requires Distinct(registry)
    ensures Distinct(RegistrationsAmong(registry, event))
  {
    hide Registered;
    if registry != [] {
      var front, last := registry[..|registry| - 1], registry[|registry| - 1];
      AmongDistinct(front, event);
      var before := RegistrationsAmong(front, event);
      forall i | 0 <= i < |before| ensures before[i] != last {
        assert before[i] in before && before[i] in front;
        var j :| 0 <= j < |front| && front[j] == before[i];
        assert registry[j] == before[i];
      }
    }
  }

  /** Every row that has failed since before has a registered consumer that gave up on it. */
  ghost predicate FailedHave(before: seq<RelayRow>, rows: seq<RelayRow>, db: CaseState, inputs: nat -> FullInput,
                             tries: nat) {
    forall e: nat :: e < |rows| && rows[e].status == Failed && !(e < |before| && before[e].status == Failed) ==>
      e < |db.outbox| && exists c :: Registered(c, db.outbox[e].event) && GaveUp(db, c, e, inputs, tries)
  }

  lemma FailedSoFar(rows: seq<RelayRow>, db: CaseState, inputs: nat -> FullInput, tries: nat)
    ensures FailedHave(rows, rows, db, inputs, tries)
  {
  }

  lemma DispatchFails(start: seq<RelayRow>, before: seq<RelayRow>, rows: seq<RelayRow>, was: CaseState, db: CaseState,
                      m: Message, inputs: nat -> FullInput, tries: nat)
    requires FailedHave(start, before, was, inputs, tries) && |before| <= |rows| && m.event < |rows|
    requires was.outbox <= db.outbox && was.receipts <= db.receipts
    requires forall f: nat :: f < |rows| && f != m.event ==>
               if f < |before| then rows[f] == before[f] else rows[f].status == Unsent
    requires rows[m.event].status == Failed && !(m.event < |before| && before[m.event].status == Failed) ==>
               m.event < |db.outbox| && SettledAs(db, m.event, true, inputs, tries)
    ensures FailedHave(start, rows, db, inputs, tries)
  {
    hide GaveUp, Registered;
    forall e: nat | e < |rows| && rows[e].status == Failed && !(e < |start| && start[e].status == Failed)
      ensures e < |db.outbox| && exists c :: Registered(c, db.outbox[e].event) && GaveUp(db, c, e, inputs, tries)
    {
      if e < |before| && before[e].status == Failed {
        var c :| Registered(c, was.outbox[e].event) && GaveUp(was, c, e, inputs, tries);
        StillGaveUp(was, db, c, e, inputs, tries);
      }
    }
  }

  /** Every unsent row is due. */
  ghost predicate NoneBackedOff(rows: seq<RelayRow>, now: Instant) {
    forall e: nat :: e < |rows| && rows[e].status == Unsent ==> rows[e].availableAt <= now
  }

  /** A pass that the broker takes whole backs nothing off. */
  lemma RelayBacksOffNone(rows: seq<RelayRow>, queue: seq<Message>, now: Instant, limit: nat, accepted: nat)
    ensures accepted >= 2 * limit && NoneBackedOff(rows, now) ==>
              NoneBackedOff(Relay(rows, queue, Batch(rows, now, limit), accepted, now).rows, now)
  {
    hide Relay, Backoff, DueBelow;
    var batch := Batch(rows, now, limit);
    var pass := Relay(rows, queue, batch, accepted, now);
    RelayPublishesPrefix(rows, queue, batch, accepted, now);
    forall e: nat | e < |rows| && accepted >= 2 * limit
      ensures pass.rows[e].status == Unsent ==> pass.rows[e] == rows[e]
    {
      if e in batch {
        var k :| 0 <= k < |batch| && batch[k] == e;
        assert RowAfter(rows[batch[k]], pass.rows[batch[k]], k, pass.published, now);
      }
    }
  }

  /** What a pass does to the counts. */
  lemma RelayAccounts(rows: seq<RelayRow>, queue: seq<Message>, now: Instant, limit: nat, accepted: nat)
    ensures
      var pass := Relay(rows, queue, Batch(rows, now, limit), accepted, now);
      && CountSent(pass.rows) == CountSent(rows) + pass.published
      && |pass.queue| >= |queue| + 2 * pass.published
      && (accepted >= 2 * limit ==> |pass.queue| == |queue| + 2 * pass.published)
  {
    hide Relay, Backoff, CountSent, DueBelow;
    var batch := Batch(rows, now, limit);
    RelayCounts(rows, queue, batch, accepted, now);
    RelayPublishesPrefix(rows, queue, batch, accepted, now);
    QueuedInBatchOrder(rows, queue, batch, accepted, now);
  }

  lemma RelayFailsNone(start: seq<RelayRow>, rows: seq<RelayRow>, queue: seq<Message>, now: Instant, limit: nat,
                       accepted: nat, db: CaseState, inputs: nat -> FullInput, tries: nat)
    requires FailedHave(start, rows, db, inputs, tries)
    ensures FailedHave(start, Relay(rows, queue, Batch(rows, now, limit), accepted, now).rows, db, inputs, tries)
  {
    hide Relay, Backoff, GaveUp, Registered, DueBelow;
    var batch := Batch(rows, now, limit);
    RelayPublishesPrefix(rows, queue, batch, accepted, now);
    var pass := Relay(rows, queue, batch, accepted, now);
    forall e: nat | e < |rows| ensures pass.rows[e].status == Failed ==> rows[e].status == Failed {
      if e in batch {
        var k :| 0 <= k < |batch| && batch[k] == e;
        assert RowAfter(rows[batch[k]], pass.rows[batch[k]], k, pass.published, now);
      }
    }
  }

  // --- counting what has been sent ---

  function CountSent(rows: seq<RelayRow>): nat {
    if rows == [] then 0
    else CountSent(rows[..|rows| - 1]) + (if rows[|rows| - 1].status == Unsent then 0 else 1)
  }

  lemma {:induction false} CountSentUpdate(rows: seq<RelayRow>, e: nat, row: RelayRow)
    requires e < |rows|
    ensures CountSent(rows[e := row]) + (if rows[e].status == Unsent then 0 else 1) ==
              CountSent(rows) + (if row.status == Unsent then 0 else 1)
  {
    var front := rows[..|rows| - 1];
    if e < |front| {
      CountSentUpdate(front, e, row);
      assert rows[e := row][..|rows| - 1] == front[e := row];
    } else {
      assert rows[e := row][..|rows| - 1] == front;
    }
  }

  lemma {:induction false} CountSentExtended(rows: seq<RelayRow>, more: seq<RelayRow>)
    requires rows <= more && forall e :: |rows| <= e < |more| ==> more[e].status == Unsent
    ensures CountSent(more) == CountSent(rows)
    decreases |more|
  {
    if |rows| < |more| {
      CountSentExtended(rows, more[..|more| - 1]);
    } else {
      assert more == rows;
    }
  }

  /** A pass sends exactly the rows it publishes. */
  lemma {:induction false} RelayCounts(rows: seq<RelayRow>, queue: seq<Message>, batch: seq<nat>, accepted: nat,
                                       now: Instant)
    requires Ascending(batch, |rows|) && forall i :: 0 <= i < |batch| ==> rows[batch[i]].status == Unsent
    ensures
      var pass := Relay(rows, queue, batch, accepted, now);
      CountSent(pass.rows) == CountSent(rows) + pass.published
    decreases |batch|
  {
    hide Backoff, CountSent;
    if batch != [] {
      var e := batch[0];
      if accepted >= 2 {
        var row := rows[e].(status := Published);
        CountSentUpdate(rows, e, row);
        RelayCounts(rows[e := row], queue + [Message(e, false), Message(e, true)], batch[1..], accepted - 2, now);
      } else {
        CountSentUpdate(rows, e, BackedOff(rows[e], now));
      }
    }
  }

  /** Every published row has a message in flight, and a processed one has the receipts of all its consumers. */
  ghost predicate RowsOk(rows: seq<RelayRow>, flight: seq<Message>, db: CaseState) {
    && |rows| == |db.outbox|
    && (forall m :: m in flight ==> m.event < |rows|)
    && (forall e: nat :: e < |rows| && rows[e].status == Published ==> Message(e, false) in flight)
    && (forall e: nat :: e < |rows| && rows[e].status == Processed ==> AllReceipted(db, e))
  }

  lemma RelayKeepsRows(rows: seq<RelayRow>, queue: seq<Message>, batch: seq<nat>, accepted: nat, now: Instant,
                       db: CaseState)
    requires RowsOk(rows, queue, db) && Ascending(batch, |rows|)
    requires forall i :: 0 <= i < |batch| ==> IsDue(rows[batch[i]], now)
    ensures var pass := Relay(rows, queue, batch, accepted, now); RowsOk(pass.rows, pass.queue, db)
  {
    hide Relay, AllReceipted, Backoff;
    RelayPublishesPrefix(rows, queue, batch, accepted, now);
    RelayQueues(rows, queue, batch, accepted, now);
    var pass := Relay(rows, queue, batch, accepted, now);
    forall e: nat | e < |rows| && (pass.rows[e].status == Published || pass.rows[e].status == Processed)
      ensures pass.rows[e].status == Published ==> Message(e, false) in pass.queue
      ensures pass.rows[e].status == Processed ==> rows[e].status == Processed
    {
      if e in batch {
        var k :| 0 <= k < |batch| && batch[k] == e;
        assert RowAfter(rows[batch[k]], pass.rows[batch[k]], k, pass.published, now);
      }
    }
  }

  /** The rows after a unit of work: its new events are unsent. */
  function Extended(rows: seq<RelayRow>, size: nat, now: Instant): (r: seq<RelayRow>)
    ensures rows <= r && (size >= |rows| ==> |r| == size)
    ensures forall e: nat :: |rows| <= e < |r| ==> r[e] == RelayRow(Unsent, 0, now)
  {
    rows + seq(if size >= |rows| then size - |rows| else 0, _ => RelayRow(Unsent, 0, now))
  }

  lemma ExtendedRowsOk(rows: seq<RelayRow>, flight: seq<Message>, db: CaseState, grown: CaseState, now: Instant)
    requires RowsOk(rows, flight, db) && db.outbox <= grown.outbox && db.receipts <= grown.receipts
    ensures RowsOk(Extended(rows, |grown.outbox|, now), flight, grown)
  {
  }

  lemma ExtendedByNothing(rows: seq<RelayRow>, flight: seq<Message>, db: CaseState, now: Instant)
    requires RowsOk(rows, flight, db)
    ensures Extended(rows, |db.outbox|, now) == rows
  {
  }

  lemma SettledRowsOk(rows: seq<RelayRow>, m: Message, rest: seq<Message>, db: CaseState, failed: bool)
    requires RowsOk(rows, [m] + rest, db) && m.event < |rows|
    requires !failed && !m.auditCopy ==> AllReceipted(db, m.event)
    ensures
      var settled := if !m.auditCopy && rows[m.event].status == Published
                     then rows[m.event := rows[m.event].(status := if failed then Failed else Processed)] else rows;
      RowsOk(settled, rest, db)
  {
    hide AllReceipted;
    forall x | x in rest ensures x.event < |rows| { assert x in [m] + rest; }
  }

  /** After a healthy pass with nothing to publish and nothing in flight, only backed-off rows are not settled. */
  lemma QuietMeansSettled(before: seq<RelayRow>, rows: seq<RelayRow>, queue: seq<Message>, sent: seq<Message>,
                          accepted: nat, limit: nat, now: Instant, db: CaseState)
    requires limit > 0 && accepted >= 2 * limit && RowsOk(rows, [], db)
    requires Pass(rows, sent, 0) == Relay(before, queue, Batch(before, now, limit), accepted, now)
    ensures (forall e: nat :: e < |rows| && rows[e].status == Unsent ==> rows[e].availableAt <= now)
            ==> forall e: nat :: e < |rows| ==> rows[e].status == Processed || rows[e].status == Failed
  {
    RelayPublishesPrefix(before, queue, Batch(before, now, limit), accepted, now);
    assert Batch(before, now, limit) == [];
    forall e: nat | e < |rows| && rows[e].status != Processed && rows[e].status != Failed
      ensures rows[e].status == Unsent && rows[e].availableAt > now
    {
      assert !IsDue(rows[e], now);
      assert rows[e].status == Published ==> Message(e, false) in [];
    }
  }

  lemma EventsKnown(rows: seq<RelayRow>, flight: seq<Message>, db: CaseState)
    requires RowsOk(rows, flight, db)
    ensures |rows| == |db.outbox| && forall k :: 0 <= k < |flight| ==> flight[k].event < |rows|
  {
  }

  class Pipeline {
    const session: Session
    const maxAttempts: nat
    const limit: nat
    var rows: seq<RelayRow>
    var queue: seq<Message>
    ghost var world: World

    /** The relay's rows agree with the case and the messages in flight. */
    ghost predicate Tracks(flight: seq<Message>)
      reads this, session
    {
      Safe(world) && session.View() == world.db && limit > 0 && RowsOk(rows, flight, world.db)
    }

    ghost predicate Valid()
      reads this, session
    {
      Tracks(queue)
    }

    constructor (t: Template, maxAttempts: nat, limit: nat, now: Instant)
      requires TemplateOk(t) && limit > 0
      ensures Valid() && fresh(session) && session.View() == Opened(t)
      ensures this.maxAttempts == maxAttempts && this.limit == limit && queue == []
    {
      var opening := new Session(t);
      this.session, this.maxAttempts, this.limit := opening, maxAttempts, limit;
      rows, queue := [RelayRow(Unsent, 0, now), RelayRow(Unsent, 0, now)], [];
      world := Start(t);
      OpenedSafe(t);
    }

    /** Publishes an event and its audit copy; the broker still takes accepted publishes. */
    method Publish(e: nat, accepted: nat) returns (sent: bool)
      modifies `queue
      ensures sent <==> accepted >= 2
      ensures queue == old(queue) + if accepted >= 2 then [Message(e, false), Message(e, true)]
                                    else if accepted == 1 then [Message(e, false)] else []
    {
      if accepted == 0 { return false; }
      queue := queue + [Message(e, false)];
      if accepted == 1 { return false; }
      queue := queue + [Message(e, true)];
      return true;
    }

    /** One pass of the relay over at most limit due rows; the broker takes the first accepted publishes. */
    method RelayOnce(now: Instant, accepted: nat) returns (published: nat)
      modifies `rows, `queue
      ensures Pass(rows, queue, published) ==
                Relay(old(rows), old(queue), Batch(old(rows), now, limit), accepted, now)
    {
      hide Backoff, BackedOff, DueBelow;
      var batch := Batch(rows, now, limit);
      published := 0;
      ghost var whole := Relay(rows, queue, batch, accepted, now);
      while published < |batch|
        invariant published <= |batch| && 2 * published <= accepted && |rows| == old(|rows|)
        invariant Ascending(batch[published..], |rows|)
        invariant whole == After(Relay(rows, queue, batch[published..], accepted - 2 * published, now), published)
      {
        var e := batch[published];
        assert batch[published..][0] == e && batch[published..][1..] == batch[published + 1..];
        var sent := Publish(e, accepted - 2 * published);
        if !sent {
          rows := rows[e := BackedOff(rows[e], now)];
          return;
        }
        rows := rows[e := rows[e].(status := Published)];
        published := published + 1;
      }
    }

    /** Takes every queued message off the broker. */
    method Drain() returns (items: seq<Message>)
      modifies `queue
      ensures items == old(queue) && queue == []
    {
      items := [];
      while queue != []
        invariant items + queue == old(queue)
        decreases |queue|
      {
        items := items + [queue[0]];
        queue := queue[1..];
      }
    }

    /** The consumers registered for an event, in the order of the registry. */
    method FindRegistrations(event: Event) returns (regs: seq<Consumer>)
      ensures regs == RegistrationsFor(event)
    {
      regs := [];
      for k := 0 to |REGISTRY|
        invariant regs == RegistrationsAmong(REGISTRY[..k], event)
      {
        assert REGISTRY[..k + 1][..k] == REGISTRY[..k];
        if ListensOn(REGISTRY[k]) != TopicOf(event) { continue; }
        if !Accepts(REGISTRY[k], event) { continue; }
        regs := regs + [REGISTRY[k]];
      }
      assert REGISTRY[..|REGISTRY|] == REGISTRY;
    }

    /**
     * Runs one consumer on an event until a try commits, up to maxAttempts times; false says that every one of them
     * raised, that the case is as it was, and that the consumer is dead-lettered.
     */
    method RunConsumer(c: Consumer, e: nat, now: Instant, inputs: nat -> FullInput, ghost flight: seq<Message>)
      returns (ok: bool)
      requires Tracks(flight)
      modifies `rows, `world, session
      ensures Tracks(flight) && old(rows) <= rows && CountSent(rows) == CountSent(old(rows))
      ensures old(session.outbox) <= session.outbox && old(session.receipts) <= session.receipts
      ensures forall f: nat :: |old(rows)| <= f < |rows| ==> rows[f] == RelayRow(Unsent, 0, now)
      ensures ok ==> session.receipts == old(session.receipts) + {(c, e)}
      ensures ok ==> exists k :: 1 <= k <= maxAttempts && AllRaise(old(session.View()), c, e, inputs, k - 1)
                                 && Apply(old(session.View()), ConsumerRuns(c, e, inputs(k))) == Success(session.View())
      ensures !ok ==> session.View() == old(session.View())
                      && AllRaise(old(session.View()), c, e, inputs, maxAttempts)
      ensures maxAttempts > 0 && e < |old(session.outbox)| && Registered(c, old(session.outbox)[e].event) ==>
                (ok <==> (c, e) in session.receipts)
    {
      hide Safe, Commits, Advance, RowsOk, Apply, Registered, CountSent, RowsLinked;
      ghost var start := session.View();
      SafeRows(world);
      for attempt := 1 to maxAttempts + 1
        invariant Tracks(flight) && rows == old(rows) && session.View() == start
        invariant AllRaise(start, c, e, inputs, attempt - 1)
      {
        var step := ConsumerRuns(c, e, inputs(attempt));
        ghost var before := world;
        AdvanceDelivers(world, c, e, inputs(attempt));
        var raised := session.Execute(step, world);
        world := Advance(world, step);
        ExtendedRowsOk(rows, flight, before.db, world.db, now);
        ExtendedByNothing(rows, flight, before.db, now);
        CountSentExtended(rows, Extended(rows, |session.outbox|, now));
        rows := Extended(rows, |session.outbox|, now);
        if raised.None? { return true; }
      }
      if maxAttempts > 0 && e < |start.outbox| && Registered(c, start.outbox[e].event) {
        RaisingHasNoReceipt(start, c, e, inputs, maxAttempts);
      }
      return false;
    }

    /**
     * Runs every registered consumer on the message's event, then settles its outbox row: processed when each has its
     * receipt, failed when one gave up. The audit copy runs nothing.
     */
    method Dispatch(m: Message, now: Instant, inputs: nat -> FullInput, ghost rest: seq<Message>)
      requires Tracks([m] + rest) && m.event < |rows|
      modifies `rows, `world, session
      ensures Tracks(rest) && |old(rows)| <= |rows| && CountSent(rows) == CountSent(old(rows))
      ensures old(session.outbox) <= session.outbox && old(session.receipts) <= session.receipts
      ensures forall f: nat :: f < |rows| && f != m.event ==>
                rows[f] == if f < |old(rows)| then old(rows)[f] else RelayRow(Unsent, 0, now)
      ensures m.auditCopy ==> rows == old(rows) && session.View() == old(session.View())
      ensures !m.auditCopy ==>
                exists failed :: SettledAs(session.View(), m.event, failed, inputs, maxAttempts)
                                 && rows[m.event] == if old(rows)[m.event].status != Published then old(rows)[m.event]
                                                     else old(rows)[m.event].(status := if failed then Failed else Processed)
    {
      hide Safe, RowsOk, RegistrationsFor, Registered, CountSent, GaveUp, RowsLinked, Apply;
      EventsKnown(rows, [m] + rest, world.db);
      if m.auditCopy {
        SettledRowsOk(rows, m, rest, world.db, false);
        return;
      }
      ghost var e, event := m.event, session.outbox[m.event].event;
      var regs := FindRegistrations(session.outbox[m.event].event);
      RegistrationsDistinct(event);
      var failed := false;
      ghost var loser := Orchestrator;
      for k := 0 to |regs|
        invariant Tracks([m] + rest) && old(rows) <= rows && CountSent(rows) == CountSent(old(rows))
        invariant old(session.outbox) <= session.outbox && old(session.receipts) <= session.receipts
        invariant forall f: nat :: |old(rows)| <= f < |rows| ==> rows[f] == RelayRow(Unsent, 0, now)
        invariant m.event < |session.outbox| && session.outbox[m.event].event == event
        invariant forall j :: 0 <= j < k ==>
                    (regs[j], e) in session.receipts || GaveUp(session.View(), regs[j], e, inputs, maxAttempts)
        invariant failed ==> loser in regs[..k] && GaveUp(session.View(), loser, e, inputs, maxAttempts)
                             && (maxAttempts > 0 ==> (loser, e) !in session.receipts)
        invariant !failed ==> forall j :: 0 <= j < k ==> (regs[j], e) in session.receipts
      {
        ghost var before := session.View();
        var ok := RunConsumer(regs[k], m.event, now, inputs, [m] + rest);
        assert regs[..k + 1] == regs[..k] + [regs[k]];
        forall c | GaveUp(before, c, e, inputs, maxAttempts) ensures GaveUp(session.View(), c, e, inputs, maxAttempts) {
          StillGaveUp(before, session.View(), c, e, inputs, maxAttempts);
        }
        if !ok {
          GivesUp(before, regs[k], e, inputs, maxAttempts);
          loser := regs[k];
        }
        failed := failed || !ok;
      }
      assert SettledAs(session.View(), e, failed, inputs, maxAttempts);
      SettledRowsOk(rows, m, rest, world.db, failed);
      if rows[m.event].status == Published {
        CountSentUpdate(rows, m.event, rows[m.event].(status := if failed then Failed else Processed));
        rows := rows[m.event := rows[m.event].(status := if failed then Failed else Processed)];
      }
    }

    /** Dispatches the messages one after the other. */
    method DispatchAll(messages: seq<Message>, now: Instant, inputs: nat -> FullInput, ghost start: seq<RelayRow>)
      requires Tracks(messages) && queue == [] && FailedHave(start, rows, session.View(), inputs, maxAttempts)
      modifies `rows, `world, session
      ensures Valid() && |old(rows)| <= |rows| && CountSent(rows) == CountSent(old(rows))
      ensures FailedHave(start, rows, session.View(), inputs, maxAttempts)
      ensures NoneBackedOff(old(rows), now) ==> NoneBackedOff(rows, now)
      ensures messages == [] ==> rows == old(rows) && session.View() == old(session.View())
    {
      hide Safe, RowsOk, CountSent, SettledAs, GaveUp, Registered, FailedHave;
      for k := 0 to |messages|
        invariant Tracks(messages[k..]) && |old(rows)| <= |rows| && CountSent(rows) == CountSent(old(rows))
        invariant FailedHave(start, rows, session.View(), inputs, maxAttempts)
        invariant NoneBackedOff(old(rows), now) ==> NoneBackedOff(rows, now)
        invariant k == 0 ==> rows == old(rows) && session.View() == old(session.View())
      {
        assert messages[k..] == [messages[k]] + messages[k + 1..];
        EventsKnown(rows, messages[k..], world.db);
        ghost var before, view := rows, session.View();
        Dispatch(messages[k], now, inputs, messages[k + 1..]);
        DispatchFails(start, before, rows, view, session.View(), messages[k], inputs, maxAttempts);
      }
    }

    /**
     * Relays and dispatches until nothing moves, for at most maxRounds rounds; total counts the messages dispatched.
     * settled says that it stopped early: with a broker that takes every message and no row backed off, every event is
     * then processed or dead-lettered. A row fails only when a consumer gave up on it. With such a broker every message
     * of every row sent is dispatched or still queued, and a pump that ran out of rounds dispatched one in each.
     */
    method Pump(maxRounds: nat, now: Instant, accepted: nat -> nat, inputs: nat -> FullInput)
      returns (total: nat, settled: bool)
      requires Valid()
      modifies this, session
      ensures Valid() && |old(rows)| <= |rows|
      ensures settled ==> queue == []
      ensures settled && (forall k :: accepted(k) >= 2 * limit)
              && NoneBackedOff(rows, now)
              ==> forall e: nat :: e < |rows| ==> rows[e].status == Processed || rows[e].status == Failed
      ensures (forall k :: accepted(k) >= 2 * limit) && NoneBackedOff(old(rows), now) ==> NoneBackedOff(rows, now)
      ensures FailedHave(old(rows), rows, session.View(), inputs, maxAttempts)
      ensures !settled ==> total >= maxRounds
      ensures (forall k :: accepted(k) >= 2 * limit) ==>
                total + |queue| + 2 * CountSent(old(rows)) == |old(queue)| + 2 * CountSent(rows)
      ensures total == 0 ==> session.View() == old(session.View())
    {
      hide Safe, Relay, Batch, RowsOk, CountSent, SettledAs, GaveUp, Registered, FailedHave;
      FailedSoFar(rows, session.View(), inputs, maxAttempts);
      total := 0;
      ghost var healthy := forall k :: accepted(k) >= 2 * limit;
      for round := 0 to maxRounds
        invariant Valid() && |old(rows)| <= |rows| && FailedHave(old(rows), rows, session.View(), inputs, maxAttempts)
        invariant total >= round && (total == 0 ==> session.View() == old(session.View()))
        invariant healthy && NoneBackedOff(old(rows), now) ==> NoneBackedOff(rows, now)
        invariant healthy ==> total + |queue| + 2 * CountSent(old(rows)) == |old(queue)| + 2 * CountSent(rows)
      {
        ghost var start, waiting := rows, queue;
        RelayKeepsRows(rows, queue, Batch(rows, now, limit), accepted(round), now, world.db);
        RelayAccounts(rows, queue, now, limit, accepted(round));
        RelayBacksOffNone(rows, queue, now, limit, accepted(round));
        RelayFailsNone(old(rows), rows, queue, now, limit, accepted(round), session.View(), inputs, maxAttempts);
        var published := RelayOnce(now, accepted(round));
        ghost var relayed, sent := rows, queue;
        var messages := Drain();
        DispatchAll(messages, now, inputs, old(rows));
        total := total + |messages|;
        if published == 0 && messages == [] {
          if accepted(round) >= 2 * limit {
            QuietMeansSettled(start, rows, waiting, sent, accepted(round), limit, now, world.db);
          }
          return total, true;
        }
      }
      settled := false;
    }
  }
}
