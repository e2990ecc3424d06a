/** The outbox relay: what one pass publishes, and the order events reach the broker in over a run of passes. */
module OutboxRelay {
  import opened Delivery

  /** Milliseconds. */
  type Instant = int

  /** The relay's columns of an outbox row. */
  datatype RelayRow = RelayRow(status: OutboxStatus, attempts: nat, availableAt: Instant)

  /** A message names its event; every event is also published once to the audit topic. */
  datatype Message = Message(event: nat, auditCopy: bool)

  predicate IsDue(row: RelayRow, now: Instant) {
    row.status == Unsent && row.availableAt <= now
  }

  ghost predicate Ascending(batch: seq<nat>, size: nat) {
    (forall i, j :: 0 <= i < j < |batch| ==> batch[i] < batch[j]) && (forall i :: 0 <= i < |batch| ==> batch[i] < size)
  }

  /** The positions of the due rows below k, oldest first. */
  function DueBelow(rows: seq<RelayRow>, now: Instant, k: nat): (due: seq<nat>)
    requires k <= |rows|
    ensures Ascending(due, k)
    ensures forall e: nat :: e in due <==> e < k && IsDue(rows[e], now)
  {
    if k == 0 then [] else DueBelow(rows, now, k - 1) + (if IsDue(rows[k - 1], now) then [k - 1] else [])
  }

  function Batch(rows: seq<RelayRow>, now: Instant, limit: nat): (batch: seq<nat>)
    ensures |batch| <= limit && Ascending(batch, |rows|)
    ensures forall i :: 0 <= i < |batch| ==> IsDue(rows[batch[i]], now)
    ensures |batch| < limit ==> forall e: nat :: e < |rows| && IsDue(rows[e], now) ==> e in batch
  {
    var due := DueBelow(rows, now, |rows|);
    assert forall i :: 0 <= i < |due| ==> due[i] in due;
    if |due| <= limit then due else due[..limit]
  }

  /** The pause before the next try: doubling from a second, and never more than half a minute. */
  function Backoff(attempts: nat): nat {
    var exponent := if attempts < 6 then attempts else 6;
    var pause := 500 * Power2(exponent);
    if pause < 30000 then pause else 30000
  }

  function Power2(n: nat): nat {
    if n == 0 then 1 else 2 * Power2(n - 1)
  }

  function BackedOff(row: RelayRow, now: Instant): RelayRow {
    row.(attempts := row.attempts + 1, availableAt := now + Backoff(row.attempts + 1))
  }

  /** What one pass leaves behind when the broker takes its first accepted publishes and refuses the next one. */
  datatype Pass = Pass(rows: seq<RelayRow>, queue: seq<Message>, published: nat)

  function Relay(rows: seq<RelayRow>, queue: seq<Message>, batch: seq<nat>, accepted: nat, now: Instant): (pass: Pass)
    requires Ascending(batch, |rows|)
    ensures |pass.rows| == |rows|
    decreases |batch|
  {
    if batch == [] then Pass(rows, queue, 0)
    else
      var e := batch[0];
      if accepted >= 2 then
        var rest := Relay(rows[e := rows[e].(status := Published)], queue + [Message(e, false), Message(e, true)],
                          batch[1..], accepted - 2, now);
        After(rest, 1)
      else
        Pass(rows[e := BackedOff(rows[e], now)], queue + (if accepted == 1 then [Message(e, false)] else []), 0)
  }

  /** A pass that follows on n published rows. */
  function After(pass: Pass, n: nat): Pass {
    pass.(published := pass.published + n)
  }

  /** The state of a row after a pass, by its place in the batch. */
  ghost predicate RowAfter(before: RelayRow, after: RelayRow, place: int, published: nat, now: Instant) {
    if 0 <= place < published then after == before.(status := Published)
    else if place == published then
      after == RelayRow(before.status, before.attempts + 1, now + Backoff(before.attempts + 1))
    else after == before
  }

  /** A pass publishes a prefix of its batch, backs off the first row the broker refuses, and changes no other row. */
  lemma {:induction false} RelayPublishesPrefix(rows: seq<RelayRow>, queue: seq<Message>, batch: seq<nat>,
                                                accepted: nat, now: Instant)
    requires Ascending(batch, |rows|)
    ensures
      var pass := Relay(rows, queue, batch, accepted, now);
      && pass.published == (if accepted / 2 < |batch| then accepted / 2 else |batch|)
      && (forall k :: 0 <= k < |batch| ==> RowAfter(rows[batch[k]], pass.rows[batch[k]], k, pass.published, now))
      && (forall e: nat :: e < |rows| && e !in batch ==> pass.rows[e] == rows[e])
    decreases |batch|
  {
    hide Backoff;
    if batch != [] && accepted >= 2 {
      var e := batch[0];
      var after := rows[e := rows[e].(status := Published)];
      RelayPublishesPrefix(after, queue + [Message(e, false), Message(e, true)], batch[1..], accepted - 2, now);
      var pass := Relay(rows, queue, batch, accepted, now);
      assert e !in batch[1..];
      forall k | 0 <= k < |batch| ensures RowAfter(rows[batch[k]], pass.rows[batch[k]], k, pass.published, now) {
        if k > 0 {
          assert RowAfter(after[batch[1..][k - 1]], pass.rows[batch[1..][k - 1]], k - 1, pass.published - 1, now);
        }
      }
    }
  }

  /** The pauses of a row the broker keeps refusing double from a second on, and settle at half a minute. */
  lemma BackoffGrows(attempts: nat)
    ensures 500 <= Backoff(attempts) <= Backoff(attempts + 1) <= 30000
    ensures Backoff(1) == 1000 && (1 <= attempts < 5 ==> Backoff(attempts + 1) == 2 * Backoff(attempts))
    ensures attempts >= 6 ==> Backoff(attempts) == 30000
  {
    PowersOfTwo();
    if attempts < 6 { assert attempts in {0, 1, 2, 3, 4, 5}; }
  }

  lemma PowersOfTwo()
    ensures Power2(0) == 1 && Power2(1) == 2 && Power2(2) == 4 && Power2(3) == 8
    ensures Power2(4) == 16 && Power2(5) == 32 && Power2(6) == 64
  {
    assert Power2(3) == 2 * Power2(2);
    assert Power2(5) == 2 * Power2(4);
    assert Power2(6) == 2 * Power2(5);
  }

  // --- the order of one pass ---

  /** The messages of a pass are queued in the order of its batch, each event before its audit copy. */
  lemma {:induction false} QueuedInBatchOrder(rows: seq<RelayRow>, queue: seq<Message>, batch: seq<nat>, accepted: nat,
                                              now: Instant)
    requires Ascending(batch, |rows|)
    ensures
      var pass := Relay(rows, queue, batch, accepted, now);
      && queue <= pass.queue && |pass.queue| - |queue| == (if accepted < 2 * |batch| then accepted else 2 * |batch|)
      && forall q :: |queue| <= q < |pass.queue| ==>
           pass.queue[q] == Message(batch[(q - |queue|) / 2], (q - |queue|) % 2 == 1)
    decreases |batch|
  {
    hide Backoff;
    if batch != [] && accepted >= 2 {
      var e := batch[0];
      var sent := queue + [Message(e, false), Message(e, true)];
      QueuedInBatchOrder(rows[e := rows[e].(status := Published)], sent, batch[1..], accepted - 2, now);
      var pass := Relay(rows, queue, batch, accepted, now);
      forall q | |queue| <= q < |pass.queue|
        ensures pass.queue[q] == Message(batch[(q - |queue|) / 2], (q - |queue|) % 2 == 1)
      {
        if q < |sent| { assert pass.queue[q] == sent[q]; }
      }
    }
  }

  /** A pass only appends messages of its batch, and both messages of every row it publishes. */
  lemma RelayQueues(rows: seq<RelayRow>, queue: seq<Message>, batch: seq<nat>, accepted: nat, now: Instant)
    requires Ascending(batch, |rows|)
    ensures
      var pass := Relay(rows, queue, batch, accepted, now);
      && queue <= pass.queue
      && (forall m :: m in pass.queue ==> m in queue || m.event in batch)
      && (forall k :: 0 <= k < pass.published && k < |batch| ==>
            Message(batch[k], false) in pass.queue && Message(batch[k], true) in pass.queue)
  {
    hide Relay, Backoff;
    var pass := Relay(rows, queue, batch, accepted, now);
    RelayPublishesPrefix(rows, queue, batch, accepted, now);
    QueuedInBatchOrder(rows, queue, batch, accepted, now);
    forall k | 0 <= k < pass.published && k < |batch|
      ensures Message(batch[k], false) in pass.queue && Message(batch[k], true) in pass.queue
    {
      assert pass.queue[|queue| + 2 * k] == Message(batch[k], false);
      assert pass.queue[|queue| + 2 * k + 1] == Message(batch[k], true);
    }
  }

  /** The due rows below k come first, and are all that lie below k. */
  lemma {:induction false} DueBelowSplits(rows: seq<RelayRow>, now: Instant, k: nat, n: nat)
    requires k <= n <= |rows|
    ensures DueBelow(rows, now, k) <= DueBelow(rows, now, n)
    ensures forall j :: |DueBelow(rows, now, k)| <= j < |DueBelow(rows, now, n)| ==> DueBelow(rows, now, n)[j] >= k
    decreases n
  {
    if k < n { DueBelowSplits(rows, now, k, n - 1); }
  }

  /** A pass lets the message of a younger event out while older stays unsent. */
  ghost predicate Overtaken(queued: nat, pass: Pass, older: nat) {
    older < |pass.rows| && pass.rows[older].status == Unsent
    && exists q :: queued <= q < |pass.queue| && pass.queue[q].event > older
  }

  /** The broker gets as far as the younger rows: the due rows before older leave room in the batch and are taken. */
  predicate ReachesPast(rows: seq<RelayRow>, now: Instant, limit: nat, accepted: nat, older: nat)
    requires older < |rows|
  {
    |DueBelow(rows, now, older)| < limit && 2 * |DueBelow(rows, now, older)| < accepted
  }

  predicate YoungerIsDue(rows: seq<RelayRow>, now: Instant, older: nat) {
    exists e :: older < e < |rows| && IsDue(rows[e], now)
  }

  /** Where older stands among the due rows: those before place ahead are older still, and it comes next if due. */
  lemma DuePlaces(rows: seq<RelayRow>, now: Instant, older: nat)
    requires older < |rows|
    ensures
      var due, ahead := DueBelow(rows, now, |rows|), |DueBelow(rows, now, older)|;
      && ahead <= |due| && (forall j :: 0 <= j < ahead ==> due[j] < older)
      && (forall j :: ahead <= j < |due| ==> due[j] >= older)
      && (if IsDue(rows[older], now) then ahead < |due| && due[ahead] == older
          else forall j :: ahead <= j < |due| ==> due[j] > older)
      && (!IsDue(rows[older], now) ==> (YoungerIsDue(rows, now, older) <==> ahead < |due|))
  {
    hide DueBelow;
    DueBelowSplits(rows, now, older, |rows|);
    var due, ahead := DueBelow(rows, now, |rows|), |DueBelow(rows, now, older)|;
    assert forall j :: 0 <= j < |due| ==> due[j] in due;
    forall j | 0 <= j < ahead ensures due[j] < older {
      assert due[j] == DueBelow(rows, now, older)[j] && due[j] in DueBelow(rows, now, older);
    }
    if IsDue(rows[older], now) {
      DueNext(rows, now, older);
    } else if YoungerIsDue(rows, now, older) {
      var e :| older < e < |rows| && IsDue(rows[e], now);
      assert e in due;
    }
  }

  lemma BatchIsPrefix(rows: seq<RelayRow>, now: Instant, limit: nat)
    ensures Batch(rows, now, limit) <= DueBelow(rows, now, |rows|)
    ensures |Batch(rows, now, limit)| ==
              if |DueBelow(rows, now, |rows|)| <= limit then |DueBelow(rows, now, |rows|)| else limit
  {
    hide DueBelow;
  }

  /** A due row is not overtaken. */
  lemma DueIsNotOvertaken(rows: seq<RelayRow>, queue: seq<Message>, now: Instant, limit: nat, accepted: nat, older: nat)
    requires older < |rows| && IsDue(rows[older], now)
    ensures !Overtaken(|queue|, Relay(rows, queue, Batch(rows, now, limit), accepted, now), older)
  {
    hide Relay, DueBelow, Backoff, Batch, YoungerIsDue;
    var batch := Batch(rows, now, limit);
    var pass := Relay(rows, queue, batch, accepted, now);
    RelayPublishesPrefix(rows, queue, batch, accepted, now);
    QueuedInBatchOrder(rows, queue, batch, accepted, now);
    DuePlaces(rows, now, older);
    BatchIsPrefix(rows, now, limit);
    var ahead := |DueBelow(rows, now, older)|;
    if ahead < |batch| { assert RowAfter(rows[batch[ahead]], pass.rows[batch[ahead]], ahead, pass.published, now); }
  }

  /** A backed-off row is overtaken exactly when a younger one is due and the pass gets to that. */
  lemma BackedOffIsOvertakenIff(rows: seq<RelayRow>, queue: seq<Message>, now: Instant, limit: nat, accepted: nat,
                                older: nat)
    requires older < |rows| && rows[older].status == Unsent && rows[older].availableAt > now
    ensures Overtaken(|queue|, Relay(rows, queue, Batch(rows, now, limit), accepted, now), older) <==>
              YoungerIsDue(rows, now, older) && ReachesPast(rows, now, limit, accepted, older)
  {
    hide Relay, DueBelow, Backoff, Batch, YoungerIsDue;
    var batch := Batch(rows, now, limit);
    var pass := Relay(rows, queue, batch, accepted, now);
    RelayPublishesPrefix(rows, queue, batch, accepted, now);
    QueuedInBatchOrder(rows, queue, batch, accepted, now);
    DuePlaces(rows, now, older);
    BatchIsPrefix(rows, now, limit);
    var ahead := |DueBelow(rows, now, older)|;
    assert older !in batch;
    if ahead < |batch| && 2 * ahead < accepted { assert pass.queue[|queue| + 2 * ahead].event == batch[ahead]; }
  }

  /** An unsent row is overtaken exactly when it is backed off, a younger one is due, and the pass gets to that. */
  lemma OvertakenIff(rows: seq<RelayRow>, queue: seq<Message>, now: Instant, limit: nat, accepted: nat, older: nat)
    requires older < |rows| && rows[older].status == Unsent
    ensures Overtaken(|queue|, Relay(rows, queue, Batch(rows, now, limit), accepted, now), older) <==>
              rows[older].availableAt > now && YoungerIsDue(rows, now, older)
              && ReachesPast(rows, now, limit, accepted, older)
  {
    hide Relay, Batch, YoungerIsDue, ReachesPast, Overtaken;
    if rows[older].availableAt > now { BackedOffIsOvertakenIff(rows, queue, now, limit, accepted, older); }
    else { DueIsNotOvertaken(rows, queue, now, limit, accepted, older); }
  }

  /** A due row follows next on the due rows below it. */
  lemma DueNext(rows: seq<RelayRow>, now: Instant, e: nat)
    requires e < |rows| && IsDue(rows[e], now)
    ensures |DueBelow(rows, now, e)| < |DueBelow(rows, now, |rows|)|
    ensures DueBelow(rows, now, |rows|)[|DueBelow(rows, now, e)|] == e
  {
    DueBelowSplits(rows, now, e + 1, |rows|);
    assert DueBelow(rows, now, e + 1) == DueBelow(rows, now, e) + [e];
  }

  /**
   * After a pass that refuses older, and whatever happens to other rows meanwhile, the next pass lets a younger event
   * past it exactly when its pause is not over, a younger row is due, and the pass gets to that.
   */
  lemma RefusedRowIsOvertakenIff(rows: seq<RelayRow>, queue: seq<Message>, now: Instant, limit: nat, accepted: nat,
                                 between: seq<RelayRow>, queued: seq<Message>, later: Instant, room: nat, taken: nat)
    requires accepted / 2 < |Batch(rows, now, limit)|
    requires
      var older := Batch(rows, now, limit)[accepted / 2];
      && older < |between|
      && between[older] == Relay(rows, queue, Batch(rows, now, limit), accepted, now).rows[older]
    ensures
      var older := Batch(rows, now, limit)[accepted / 2];
      Overtaken(|queued|, Relay(between, queued, Batch(between, later, room), taken, later), older) <==>
        later < now + Backoff(rows[older].attempts + 1) && YoungerIsDue(between, later, older)
        && ReachesPast(between, later, room, taken, older)
  {
    hide Relay, DueBelow, Backoff, Batch, YoungerIsDue, ReachesPast, Overtaken;
    var batch := Batch(rows, now, limit);
    var pass := Relay(rows, queue, batch, accepted, now);
    RelayPublishesPrefix(rows, queue, batch, accepted, now);
    var k := accepted / 2;
    assert RowAfter(rows[batch[k]], pass.rows[batch[k]], k, pass.published, now);
    OvertakenIff(between, queued, later, room, taken, batch[k]);
  }

  // --- the order over a run ---

  /** Everything the broker has been handed since the start, and the rows. */
  datatype Relayed = Relayed(rows: seq<RelayRow>, sent: seq<Message>, clock: Instant)

  /**
   * What happens to the outbox: events are committed, a pass runs, a pass is cut off before its commit, so that its
   * rows stay as they were, and a dispatched event is settled. Time passes before each.
   */
  datatype Happening =
    | EventsCommitted(elapsed: nat, count: nat)
    | PassRuns(elapsed: nat, limit: nat, accepted: nat)
    | PassCrashes(elapsed: nat, limit: nat, accepted: nat)
    | EventSettled(elapsed: nat, event: nat, failed: bool)

  function Next(w: Relayed, step: Happening): (r: Relayed)
    ensures |r.rows| >= |w.rows|
  {
    var now := w.clock + step.elapsed;
    match step
    case EventsCommitted(_, count) => Relayed(w.rows + seq(count, _ => RelayRow(Unsent, 0, now)), w.sent, now)
    case PassRuns(_, limit, accepted) =>
      var pass := Relay(w.rows, w.sent, Batch(w.rows, now, limit), accepted, now);
      Relayed(pass.rows, pass.queue, now)
    case PassCrashes(_, limit, accepted) =>
      Relayed(w.rows, Relay(w.rows, w.sent, Batch(w.rows, now, limit), accepted, now).queue, now)
    case EventSettled(_, e, failed) =>
      Relayed(if e < |w.rows| && w.rows[e].status == Published
              then w.rows[e := w.rows[e].(status := if failed then Failed else Processed)] else w.rows,
              w.sent, now)
  }

  /** The broker takes every message of the pass. */
  predicate TakesAll(w: Relayed, step: Happening) {
    match step
    case PassRuns(elapsed, limit, accepted) => accepted >= 2 * |Batch(w.rows, w.clock + elapsed, limit)|
    case _ => true
  }

  ghost predicate Leads(w: Relayed, step: Happening, r: Relayed) {
    r == Next(w, step)
  }

  /** The states a run passes through, from an empty outbox. */
  ghost predicate Visits(steps: seq<Happening>, worlds: seq<Relayed>) {
    |worlds| == |steps| + 1 && worlds[0].rows == [] && worlds[0].sent == []
    && forall k {:trigger steps[k]} :: 0 <= k < |steps| ==> Leads(worlds[k], steps[k], worlds[k + 1])
  }

  /** Event e was handed over before the message at place q. */
  predicate SentBefore(sent: seq<Message>, q: nat, e: nat)
    requires q <= |sent|
  {
    Message(e, false) in sent[..q]
  }

  /** No event has been handed over before each older one had been, but for the given ones. */
  ghost predicate InOrderBut(sent: seq<Message>, passedOver: set<nat>) {
    forall q, e: nat :: 0 <= q < |sent| && e < sent[q].event && e !in passedOver ==> SentBefore(sent, q, e)
  }

  /** The rows the broker has refused at least once. */
  function RefusedRows(rows: seq<RelayRow>): (refused: set<nat>)
    ensures forall e: nat :: e in refused <==> e < |rows| && rows[e].attempts > 0
  {
    set e: nat | e < |rows| && rows[e].attempts > 0
  }

  ghost predicate RelayedOk(w: Relayed) {
    && (forall q :: 0 <= q < |w.sent| ==> w.sent[q].event < |w.rows|)
    && (forall e: nat :: e < |w.rows| && w.rows[e].status != Unsent ==> SentBefore(w.sent, |w.sent|, e))
    && (forall e: nat :: e < |w.rows| && w.rows[e].status == Unsent && w.rows[e].availableAt > w.clock
          ==> w.rows[e].attempts > 0)
    && InOrderBut(w.sent, RefusedRows(w.rows))
  }

  /** Before every row of a batch come the batch's own, those handed over already, and refused ones. */
  lemma BatchFollows(w: Relayed, now: Instant, limit: nat, k: nat, e: nat)
    requires RelayedOk(w) && now >= w.clock && k < |Batch(w.rows, now, limit)| && e < Batch(w.rows, now, limit)[k]
    ensures (exists j :: 0 <= j < k && Batch(w.rows, now, limit)[j] == e) || SentBefore(w.sent, |w.sent|, e)
            || e in RefusedRows(w.rows)
  {
    hide DueBelow, Backoff;
    var due := DueBelow(w.rows, now, |w.rows|);
    var b := Batch(w.rows, now, limit)[k];
    assert due[k] == b && b in due;
    if IsDue(w.rows[e], now) {
      assert e in due;
      var j :| 0 <= j < |due| && due[j] == e;
      assert j < k;
    }
  }

  lemma PassInOrder(w: Relayed, now: Instant, limit: nat, accepted: nat)
    requires RelayedOk(w) && now >= w.clock
    ensures InOrderBut(Relay(w.rows, w.sent, Batch(w.rows, now, limit), accepted, now).queue, RefusedRows(w.rows))
  {
    hide DueBelow, Backoff, Batch, Relay, RefusedRows;
    var batch := Batch(w.rows, now, limit);
    var queue := Relay(w.rows, w.sent, batch, accepted, now).queue;
    QueuedInBatchOrder(w.rows, w.sent, batch, accepted, now);
    forall q, e: nat | 0 <= q < |queue| && e < queue[q].event && e !in RefusedRows(w.rows) ensures SentBefore(queue, q, e)
    {
      if q < |w.sent| {
        assert queue[q] == w.sent[q] && SentBefore(w.sent, q, e);
        assert queue[..q] == w.sent[..q];
      } else {
        BatchFollows(w, now, limit, (q - |w.sent|) / 2, e);
        if SentBefore(w.sent, |w.sent|, e) {
          assert queue[..q][..|w.sent|] == w.sent;
        } else {
          var j :| 0 <= j < (q - |w.sent|) / 2 && batch[j] == e;
          assert queue[..q][|w.sent| + 2 * j] == Message(e, false);
        }
      }
    }
  }

  lemma PassRows(w: Relayed, now: Instant, limit: nat, accepted: nat, e: nat)
    requires RelayedOk(w) && now >= w.clock && e < |w.rows|
    ensures
      var pass := Relay(w.rows, w.sent, Batch(w.rows, now, limit), accepted, now);
      && (pass.rows[e].status != Unsent ==> Message(e, false) in pass.queue)
      && pass.rows[e].attempts >= w.rows[e].attempts
      && (pass.rows[e].status == Unsent && pass.rows[e].availableAt > now ==> pass.rows[e].attempts > 0)
  {
    hide DueBelow, Backoff, Batch, Relay, RefusedRows, InOrderBut;
    var batch := Batch(w.rows, now, limit);
    var pass := Relay(w.rows, w.sent, batch, accepted, now);
    RelayPublishesPrefix(w.rows, w.sent, batch, accepted, now);
    QueuedInBatchOrder(w.rows, w.sent, batch, accepted, now);
    assert w.sent[..|w.sent|] == w.sent;
    if e in batch {
      var k :| 0 <= k < |batch| && batch[k] == e;
      assert RowAfter(w.rows[batch[k]], pass.rows[batch[k]], k, pass.published, now);
      if k < pass.published { assert pass.queue[|w.sent| + 2 * k] == Message(e, false); }
    }
  }

  lemma PassKeeps(w: Relayed, now: Instant, limit: nat, accepted: nat)
    requires RelayedOk(w) && now >= w.clock
    ensures
      var pass := Relay(w.rows, w.sent, Batch(w.rows, now, limit), accepted, now);
      && RelayedOk(Relayed(pass.rows, pass.queue, now)) && RelayedOk(Relayed(w.rows, pass.queue, now))
  {
    hide DueBelow, Backoff, Batch, Relay;
    var pass := Relay(w.rows, w.sent, Batch(w.rows, now, limit), accepted, now);
    QueuedInBatchOrder(w.rows, w.sent, Batch(w.rows, now, limit), accepted, now);
    PassInOrder(w, now, limit, accepted);
    assert pass.queue[..|pass.queue|] == pass.queue && w.sent[..|w.sent|] == w.sent;
    forall e: nat | e < |w.rows|
      ensures pass.rows[e].status != Unsent ==> Message(e, false) in pass.queue
      ensures w.rows[e].status != Unsent ==> Message(e, false) in pass.queue
      ensures pass.rows[e].attempts >= w.rows[e].attempts
      ensures pass.rows[e].status == Unsent && pass.rows[e].availableAt > now ==> pass.rows[e].attempts > 0
    {
      PassRows(w, now, limit, accepted, e);
    }
    StillInOrderBut(pass.queue, RefusedRows(w.rows), RefusedRows(pass.rows));
  }

  lemma StillInOrderBut(sent: seq<Message>, passedOver: set<nat>, more: set<nat>)
    requires InOrderBut(sent, passedOver) && passedOver <= more
    ensures InOrderBut(sent, more)
  {
  }

  lemma NextKeeps(w: Relayed, step: Happening)
    requires RelayedOk(w)
    ensures RelayedOk(Next(w, step))
  {
    hide DueBelow, Backoff, Batch, Relay, InOrderBut;
    match step {
      case PassRuns(elapsed, limit, accepted) => PassKeeps(w, w.clock + elapsed, limit, accepted);
      case PassCrashes(elapsed, limit, accepted) => PassKeeps(w, w.clock + elapsed, limit, accepted);
      case _ => StillInOrderBut(w.sent, RefusedRows(w.rows), RefusedRows(Next(w, step).rows));
    }
  }

  lemma {:induction false} VisitsKeep(steps: seq<Happening>, worlds: seq<Relayed>, n: nat)
    requires Visits(steps, worlds) && n <= |steps|
    ensures RelayedOk(worlds[n])
  {
    hide RelayedOk, Next;
    if n == 0 {
      NothingSent(worlds[0]);
    } else {
      VisitsKeep(steps, worlds, n - 1);
      assert Leads(worlds[n - 1], steps[n - 1], worlds[n]);
      NextKeeps(worlds[n - 1], steps[n - 1]);
    }
  }

  lemma NothingSent(w: Relayed)
    requires w.rows == [] && w.sent == []
    ensures RelayedOk(w)
  {
  }

  // --- main results ---

  /** In every run, only an event the broker has refused is ever passed over by a younger one. */
  lemma OnlyRefusedAreOvertaken(steps: seq<Happening>, worlds: seq<Relayed>, n: nat, q: nat, e: nat)
    requires Visits(steps, worlds) && n <= |steps|
    requires q < |worlds[n].sent| && e < worlds[n].sent[q].event && !SentBefore(worlds[n].sent, q, e)
    ensures e < |worlds[n].rows| && worlds[n].rows[e].attempts > 0
  {
    hide Leads, Next;
    VisitsKeep(steps, worlds, n);
  }

  lemma {:induction false} NoneRefused(steps: seq<Happening>, worlds: seq<Relayed>, n: nat)
    requires Visits(steps, worlds) && n <= |steps|
    requires forall k {:trigger steps[k]} :: 0 <= k < n ==> TakesAll(worlds[k], steps[k])
    ensures RefusedRows(worlds[n].rows) == {}
  {
    hide Relay, Batch, Backoff;
    if n > 0 {
      NoneRefused(steps, worlds, n - 1);
      var w, step := worlds[n - 1], steps[n - 1];
      assert TakesAll(w, step) && Leads(w, step, worlds[n]);
      if step.PassRuns? { NothingRefused(w, w.clock + step.elapsed, step.limit, step.accepted); }
    }
  }

  lemma NothingRefused(w: Relayed, now: Instant, limit: nat, accepted: nat)
    requires accepted >= 2 * |Batch(w.rows, now, limit)|
    ensures
      var pass := Relay(w.rows, w.sent, Batch(w.rows, now, limit), accepted, now);
      forall e :: 0 <= e < |w.rows| ==> pass.rows[e].attempts == w.rows[e].attempts
  {
    hide Relay, DueBelow, Backoff, Batch;
    var batch := Batch(w.rows, now, limit);
    var pass := Relay(w.rows, w.sent, batch, accepted, now);
    RelayPublishesPrefix(w.rows, w.sent, batch, accepted, now);
    forall e | 0 <= e < |w.rows| ensures pass.rows[e].attempts == w.rows[e].attempts {
      if e in batch {
        var k :| 0 <= k < |batch| && batch[k] == e;
        assert RowAfter(w.rows[batch[k]], pass.rows[batch[k]], k, pass.published, now);
      }
    }
  }

  /**
   * While the broker takes everything, no event is handed over before every older one has been, through any commits,
   * cut-off passes and settlements.
   */
  lemma OrderIsPreservedUnrefused(steps: seq<Happening>, worlds: seq<Relayed>, n: nat, q: nat, e: nat)
    requires Visits(steps, worlds) && n <= |steps|
    requires forall k {:trigger steps[k]} :: 0 <= k < n ==> TakesAll(worlds[k], steps[k])
    requires q < |worlds[n].sent| && e < worlds[n].sent[q].event
    ensures SentBefore(worlds[n].sent, q, e)
  {
    hide Leads, Next, RelayedOk;
    NoneRefused(steps, worlds, n);
    if !SentBefore(worlds[n].sent, q, e) { OnlyRefusedAreOvertaken(steps, worlds, n, q, e); }
  }

  /** The messages are in the order of their events, and their rows are no longer unsent. */
  ghost predicate SentInTurn(w: Relayed) {
    && (forall p, q :: 0 <= p < q < |w.sent| ==> w.sent[p].event <= w.sent[q].event)
    && (forall q :: 0 <= q < |w.sent| ==> w.sent[q].event < |w.rows| && w.rows[w.sent[q].event].status != Unsent)
  }

  lemma PassStaysInTurn(w: Relayed, now: Instant, limit: nat, accepted: nat)
    requires RelayedOk(w) && RefusedRows(w.rows) == {} && SentInTurn(w) && now >= w.clock
    requires accepted >= 2 * |Batch(w.rows, now, limit)|
    ensures var pass := Relay(w.rows, w.sent, Batch(w.rows, now, limit), accepted, now);
      SentInTurn(Relayed(pass.rows, pass.queue, now))
  {
    hide Relay, DueBelow, Backoff, Batch;
    var batch := Batch(w.rows, now, limit);
    var pass := Relay(w.rows, w.sent, batch, accepted, now);
    RelayPublishesPrefix(w.rows, w.sent, batch, accepted, now);
    QueuedInBatchOrder(w.rows, w.sent, batch, accepted, now);
    forall k, q | 0 <= k < |batch| && 0 <= q < |w.sent| ensures w.sent[q].event < batch[k] {
      assert batch[k] < w.sent[q].event ==> SentBefore(w.sent, q, batch[k]);
    }
    forall e: nat | e < |w.rows| && (w.rows[e].status != Unsent || e in batch) ensures pass.rows[e].status != Unsent {
      if e in batch {
        var k :| 0 <= k < |batch| && batch[k] == e;
        assert RowAfter(w.rows[batch[k]], pass.rows[batch[k]], k, pass.published, now);
      }
    }
  }

  lemma {:induction false} TurnIsKept(steps: seq<Happening>, worlds: seq<Relayed>, n: nat)
    requires Visits(steps, worlds) && n <= |steps|
    requires forall k {:trigger steps[k]} :: 0 <= k < n ==> TakesAll(worlds[k], steps[k]) && !steps[k].PassCrashes?
    ensures SentInTurn(worlds[n])
  {
    hide Relay, Batch, Backoff, RelayedOk;
    if n > 0 {
      TurnIsKept(steps, worlds, n - 1);
      NoneRefused(steps, worlds, n - 1);
      VisitsKeep(steps, worlds, n - 1);
      var w, step := worlds[n - 1], steps[n - 1];
      assert TakesAll(w, step) && Leads(w, step, worlds[n]) && !step.PassCrashes?;
      if step.PassRuns? { PassStaysInTurn(w, w.clock + step.elapsed, step.limit, step.accepted); }
    }
  }

  /** While the broker takes everything and no pass is cut off, the messages come in the order of the outbox. */
  lemma MessagesComeInOrder(steps: seq<Happening>, worlds: seq<Relayed>, n: nat, p: nat, q: nat)
    requires Visits(steps, worlds) && n <= |steps|
    requires forall k {:trigger steps[k]} :: 0 <= k < n ==> TakesAll(worlds[k], steps[k]) && !steps[k].PassCrashes?
    requires p < q < |worlds[n].sent|
    ensures worlds[n].sent[p].event <= worlds[n].sent[q].event
  {
    hide Visits;
    TurnIsKept(steps, worlds, n);
  }

  const LIMIT: nat := 100

  /** Two events are committed, the broker refuses the first and then takes everything: the second goes out first. */
  lemma OvertakingIsReached() returns (steps: seq<Happening>, worlds: seq<Relayed>)
    ensures Visits(steps, worlds) && |steps| == 3
    ensures |worlds[3].sent| > 0 && worlds[3].sent[0].event == 1 && !SentBefore(worlds[3].sent, 0, 0)
  {
    hide Next, Visits;
    var w := Relayed([], [], 0);
    var a, b, c := EventsCommitted(0, 2), PassRuns(0, LIMIT, 0), PassRuns(0, LIMIT, 4);
    steps, worlds := [a, b, c], [w, Next(w, a), Next(Next(w, a), b), Next(Next(Next(w, a), b), c)];
    ThreeSteps(w, a, b, c);
    TwoCommitted(w);
    FirstRefused(Next(w, a));
    SecondSent(Next(Next(w, a), b));
  }

  lemma ThreeSteps(w: Relayed, a: Happening, b: Happening, c: Happening)
    requires w.rows == [] && w.sent == []
    ensures Visits([a, b, c], [w, Next(w, a), Next(Next(w, a), b), Next(Next(Next(w, a), b), c)])
  {
    hide Next;
  }

  lemma TwoCommitted(w: Relayed)
    requires w == Relayed([], [], 0)
    ensures Next(w, EventsCommitted(0, 2)) == Relayed([RelayRow(Unsent, 0, 0), RelayRow(Unsent, 0, 0)], [], 0)
  {
    hide Relay, Batch;
  }

  lemma FirstRefused(w: Relayed)
    requires |w.rows| == 2 && w.sent == [] && w.clock == 0
    requires w.rows[0] == w.rows[1] == RelayRow(Unsent, 0, 0)
    ensures
      var r := Next(w, PassRuns(0, LIMIT, 0));
      r.rows == [RelayRow(Unsent, 1, 1000), w.rows[1]] && r.sent == [] && r.clock == 0
  {
    hide Batch;
    PowersOfTwo();
    TwoDue(w.rows, 0);
  }

  lemma SecondSent(w: Relayed)
    requires |w.rows| == 2 && w.sent == [] && w.clock == 0
    requires w.rows[0] == RelayRow(Unsent, 1, 1000) && w.rows[1] == RelayRow(Unsent, 0, 0)
    ensures var sent := Next(w, PassRuns(0, LIMIT, 4)).sent; |sent| > 0 && sent[0].event == 1
  {
    hide Batch, Backoff, Relay;
    assert Batch(w.rows, 0, LIMIT) == [1] by { TwoDue(w.rows, 0); }
    FirstOfOne(w.rows, 1);
  }

  lemma FirstOfOne(rows: seq<RelayRow>, e: nat)
    requires e < |rows|
    ensures Ascending([e], |rows|)
    ensures var sent := Relay(rows, [], [e], 4, 0).queue; |sent| > 0 && sent[0].event == e
  {
    hide Relay;
    QueuedInBatchOrder(rows, [], [e], 4, 0);
  }

  lemma TwoDue(rows: seq<RelayRow>, now: Instant)
    requires |rows| == 2
    ensures Batch(rows, now, LIMIT) ==
              (if IsDue(rows[0], now) then [0] else []) + (if IsDue(rows[1], now) then [1] else [])
  {
    assert DueBelow(rows, now, 0) == [];
    assert DueBelow(rows, now, 1) == if IsDue(rows[0], now) then [0] else [];
  }
}
