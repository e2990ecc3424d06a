/** What each operation of the consents and the callback engine leaves behind, and the call behind every dialled callback. */
module CallbackOutcomes {
  import opened Wrappers
  import opened CallbackDesk
  import opened CallbackSafety

  // --- the call of a dialled callback ---

  /** A callback being dialled has a live call of its own. */
  ghost predicate LiveCall(d: Desk, i: nat)
    requires i < |d.callbacks|
  {
    && d.callbacks[i].dialedAt.Some? && d.callbacks[i].call.Some? && d.callbacks[i].call.value < |d.calls|
    && d.calls[d.callbacks[i].call.value].callback == Some(i)
    && d.calls[d.callbacks[i].call.value].state in {Ringing, InProgress, Transferred}
  }

  /** And one not dialled yet has none. */
  ghost predicate LiveCalls(d: Desk) {
    && (forall i :: 0 <= i < |d.callbacks| && d.callbacks[i].status == Dialing ==> LiveCall(d, i))
    && (forall i :: 0 <= i < |d.callbacks| && d.callbacks[i].status == Scheduled ==> d.callbacks[i].call.None?)
  }

  // --- dialling ---

  /** What dialling makes of callback i, by its outcome; j is the number of its new call. */
  predicate DialledAs(before: Callback, after: Callback, call: Call, i: nat, j: nat, outcome: DialOutcome, now: Time) {
    match outcome
    case TelephonyDown => after == before.(status := Failed) && call == Call(Some(i), Unconnected)
    case RingsInBrowser =>
      after == before.(status := Dialing, dialedAt := Some(now), call := Some(j)) && call == Call(Some(i), Ringing)
    case RingsPhone =>
      after == before.(status := Dialing, dialedAt := Some(now), call := Some(j)) && call == Call(Some(i), InProgress)
  }

  lemma DialOne(d: Desk, i: nat, outcome: DialOutcome, now: Time)
    requires DeskOk(d) && i < |d.callbacks| && d.callbacks[i].status == Scheduled && d.callbacks[i].caseId in d.cases
    ensures
      var r := Dial(d, i, outcome, now);
      && |r.callbacks| == |d.callbacks| && |r.calls| == |d.calls| + 1
      && r == d.(callbacks := d.callbacks[i := r.callbacks[i]], calls := d.calls + [r.calls[|d.calls|]],
                 log := d.log + [Dialed(d.callbacks[i].caseId, i)])
      && DialledAs(d.callbacks[i], r.callbacks[i], r.calls[|d.calls|], i, |d.calls|, outcome, now)
  {
    hide DeskOkBut, ActiveOptOut, ValidConsent;
    ScheduledMayBeDialled(d, i);
  }

  /** The first k callbacks of the batch are dialled as their outcomes say; every other one is as before. */
  ghost predicate Dialled(d: Desk, r: Desk, batch: seq<nat>, outcomes: seq<DialOutcome>, k: nat, now: Time)
    requires k <= |batch| == |outcomes| && forall j :: 0 <= j < |batch| ==> batch[j] < |d.callbacks|
  {
    && |r.callbacks| == |d.callbacks| && |r.calls| == |d.calls| + k && |r.log| == |d.log| + k
    && r == d.(callbacks := r.callbacks, calls := r.calls, log := r.log) && d.calls <= r.calls && d.log <= r.log
    && (forall j :: 0 <= j < k ==>
          && r.log[|d.log| + j] == Dialed(d.callbacks[batch[j]].caseId, batch[j])
          && DialledAs(d.callbacks[batch[j]], r.callbacks[batch[j]], r.calls[|d.calls| + j], batch[j], |d.calls| + j,
                       outcomes[j], now))
    && (forall i: nat :: i < |d.callbacks| && i !in batch[..k] ==> r.callbacks[i] == d.callbacks[i])
  }

  lemma {:induction false} DialBelowOutcome(d: Desk, batch: seq<nat>, outcomes: seq<DialOutcome>, k: nat, now: Time)
    requires DeskOk(d) && DueBatch(d.callbacks, now, batch) && k <= |batch| == |outcomes|
    requires forall i :: 0 <= i < |d.callbacks| ==> d.callbacks[i].caseId in d.cases
    ensures Dialled(d, DialBelow(d, batch, outcomes, k, now), batch, outcomes, k, now)
  {
    hide DeskOkBut, Absorbs, Dial, Later, Dialled, DialledAs;
    if k == 0 {
      NothingDialled(d, batch, outcomes, now);
    } else {
      DialBelowOutcome(d, batch, outcomes, k - 1, now);
      DialBelowKeeps(d, batch, outcomes, k - 1, now);
      var before := DialBelow(d, batch, outcomes, k - 1, now);
      DialOne(before, batch[k - 1], outcomes[k - 1], now);
      OneMoreDialled(d, before, DialBelow(d, batch, outcomes, k, now), batch, outcomes, k, now);
    }
  }

  lemma NothingDialled(d: Desk, batch: seq<nat>, outcomes: seq<DialOutcome>, now: Time)
    requires |batch| == |outcomes| && forall j :: 0 <= j < |batch| ==> batch[j] < |d.callbacks|
    ensures Dialled(d, d, batch, outcomes, 0, now)
  {
  }

  lemma OneMoreDialled(d: Desk, m: Desk, r: Desk, batch: seq<nat>, outcomes: seq<DialOutcome>, k: nat, now: Time)
    requires 0 < k <= |batch| == |outcomes| && forall j :: 0 <= j < |batch| ==> batch[j] < |d.callbacks|
    requires forall j, l :: 0 <= j < l < |batch| ==> batch[j] != batch[l]
    requires Dialled(d, m, batch, outcomes, k - 1, now)
    requires
      var i := batch[k - 1];
      && |r.callbacks| == |m.callbacks| && |r.calls| == |m.calls| + 1
      && r == m.(callbacks := m.callbacks[i := r.callbacks[i]], calls := m.calls + [r.calls[|m.calls|]],
                 log := m.log + [Dialed(m.callbacks[i].caseId, i)])
      && DialledAs(m.callbacks[i], r.callbacks[i], r.calls[|m.calls|], i, |m.calls|, outcomes[k - 1], now)
    ensures Dialled(d, r, batch, outcomes, k, now)
  {
    hide DialledAs;
    assert batch[..k] == batch[..k - 1] + [batch[k - 1]];
    assert batch[k - 1] !in batch[..k - 1];
  }

  /** Dialling the due batch: a phone or browser that rings is being dialled, a dead line has failed, nothing else moves. */
  lemma DialDueOutcome(d: Desk, batch: seq<nat>, outcomes: seq<DialOutcome>, now: Time, r: Desk)
    requires Reachable(d) && DueBatch(d.callbacks, now, batch) && |batch| == |outcomes|
    requires Runs(d, [DialDue(batch, outcomes, now)], r)
    ensures Dialled(d, r, batch, outcomes, |batch|, now)
  {
    hide Reachable, DeskOkBut, DueBatch, Dialled;
    ReachableOk(d);
    CasesKnown(d);
    OneStep(d, DialDue(batch, outcomes, now), r);
    DialBelowOutcome(d, batch, outcomes, |batch|, now);
  }

  lemma CasesKnown(d: Desk)
    requires DeskOk(d)
    ensures forall i :: 0 <= i < |d.callbacks| ==> d.callbacks[i].caseId in d.cases
  {
  }

  lemma OneStep(d: Desk, step: DeskStep, r: Desk)
    requires Runs(d, [step], r)
    ensures r == Perform(d, step)
  {
    hide Perform;
    var desks :| Visits([step], desks) && desks[0] == d && desks[1] == r;
    assert Leads(desks[0], [step][0], desks[1]);
  }

  // --- cancelling ---

  /** A callback of the case still open is cancelled, and its ringing call ended; nothing else changes. */
  ghost predicate CancelledAll(d: Desk, r: Desk, c: nat, k: nat) {
    && r == d.(callbacks := r.callbacks, calls := r.calls) && |r.callbacks| == |d.callbacks| && |r.calls| == |d.calls|
    && (forall i :: 0 <= i < |d.callbacks| ==>
          r.callbacks[i] == if i < k && Stops(d, c, i) then d.callbacks[i].(status := Cancelled) else d.callbacks[i])
    && (forall j :: 0 <= j < |d.calls| ==>
          r.calls[j] == if EndsWith(d, c, k, j) then Call(d.calls[j].callback, Ended) else d.calls[j])
  }

  predicate Stops(d: Desk, c: nat, i: nat) {
    i < |d.callbacks| && d.callbacks[i].caseId == c && d.callbacks[i].status in {Scheduled, Dialing}
  }

  /** Call j rings for one of the first k callbacks, which is cancelled. */
  ghost predicate EndsWith(d: Desk, c: nat, k: nat, j: nat)
    requires j < |d.calls|
  {
    d.calls[j].state == Ringing && exists i :: 0 <= i < k && Stops(d, c, i) && d.callbacks[i].call == Some(j)
  }

  lemma {:induction false} CancelOutcome(d: Desk, c: nat, k: nat)
    requires k <= |d.callbacks|
    ensures CancelledAll(d, CancelBelow(d, c, k), c, k)
  {
    if k > 0 {
      CancelOutcome(d, c, k - 1);
      var before, r := CancelBelow(d, c, k - 1), CancelBelow(d, c, k);
      assert before.callbacks[k - 1] == d.callbacks[k - 1];
      forall j | 0 <= j < |d.calls|
        ensures r.calls[j] == if EndsWith(d, c, k, j) then Call(d.calls[j].callback, Ended) else d.calls[j]
      {
        assert EndsWith(d, c, k, j) <==>
               EndsWith(d, c, k - 1, j)
               || (d.calls[j].state == Ringing && Stops(d, c, k - 1) && d.callbacks[k - 1].call == Some(j));
      }
    }
  }

  // --- consents ---

  predicate Consents(r: CaseRecord, kind: ConsentType) {
    exists i :: 0 <= i < |r.consents| && r.consents[i].kind == kind && r.consents[i].granted
  }

  /** A consent is written unless one is granted, a callback consent with the next token. */
  lemma CaptureOutcome(d: Desk, c: nat, kind: ConsentType)
    ensures c in d.cases ==>
      Capture(d, c, kind) ==
        if Consents(d.cases[c], kind) then d
        else
          var token := if kind == CallbackConsent then Some(d.nextToken) else None;
          var more := d.cases[c].consents + [Consent(kind, true, token)];
          if kind == CallbackConsent
          then d.(cases := d.cases[c := d.cases[c].(consents := more)], nextToken := d.nextToken + 1,
                  log := d.log + [ConsentGiven(c)])
          else d.(cases := d.cases[c := d.cases[c].(consents := more)])
  {
  }

  /** Withdrawing takes the grant from the one consent of its type; a callback consent's callbacks are cancelled. */
  lemma RevokeOutcome(d: Desk, c: nat, kind: ConsentType)
    requires c in d.cases
    ensures !Consents(d.cases[c], kind) ==> Revoke(d, c, kind) == d
    ensures
      Consents(d.cases[c], kind) ==>
        var r := d.cases[c];
        exists i :: 0 <= i < |r.consents| && r.consents[i].kind == kind && r.consents[i].granted &&
          var withdrawn := r.(consents := r.consents[i := Consent(kind, false, r.consents[i].token)]);
          if kind == CallbackConsent
          then CancelledAll(d.(cases := d.cases[c := withdrawn], log := d.log + [ConsentWithdrawn(c)]),
                            Revoke(d, c, kind), c, |d.callbacks|)
          else Revoke(d, c, kind) == d.(cases := d.cases[c := withdrawn])
  {
    hide CancelBelow, CancelledAll;
    if Consents(d.cases[c], kind) {
      var r, i := d.cases[c], ActiveConsent(d.cases[c].consents, kind);
      var revoked := d.(cases := d.cases[c := Revoked(r, kind)]);
      CancelOutcome(revoked.(log := d.log + [ConsentWithdrawn(c)]), c, |d.callbacks|);
      assert r.consents[i].kind == kind && r.consents[i].granted;
    }
  }

  /** Opting out adds an opt-out with its time, switches to SMS and cancels every open callback, unless opted out already. */
  lemma OptOutOutcome(d: Desk, c: nat, now: Time)
    requires c in d.cases
    ensures
      var r, t := d.cases[c], OptOut(d, c, now);
      if exists i :: 0 <= i < |r.optOuts| && r.optOuts[i] then t == d
      else CancelledAll(d.(cases := d.cases[c := CaseRecord(SmsOnlyMode, Some(now), r.optOuts + [true], r.consents)],
                           log := d.log + [CallsStopped(c)]),
                        t, c, |d.callbacks|)
  {
    hide CancelBelow, CancelledAll;
    var r := d.cases[c];
    var stopped := r.(optOuts := r.optOuts + [true], channel := SmsOnlyMode, optedOutAt := Some(now));
    CancelOutcome(d.(cases := d.cases[c := stopped], log := d.log + [CallsStopped(c)]), c, |d.callbacks|);
  }

  /** The consents after opting in: the granted callback consent is withdrawn, and a new one added. */
  ghost predicate Renewed(before: seq<Consent>, after: seq<Consent>, token: nat) {
    && |after| == |before| + 1 && after[|before|] == Consent(CallbackConsent, true, Some(token))
    && forall i :: 0 <= i < |before| ==>
         after[i] == if before[i].kind == CallbackConsent && before[i].granted
                     then Consent(CallbackConsent, false, before[i].token) else before[i]
  }

  /** Opting in lifts every opt-out and renews the callback consent; callbacks stay as they are. */
  lemma OptInOutcome(d: Desk, c: nat)
    requires Reachable(d) && c in d.cases
    ensures
      var before, r := d.cases[c], OptIn(d, c);
      && c in r.cases
      && r == d.(cases := d.cases[c := r.cases[c]], nextToken := d.nextToken + 1, log := r.log)
      && r.cases[c].channel == Voice && r.cases[c].optedOutAt == None && |r.cases[c].optOuts| == |before.optOuts|
      && (forall i :: 0 <= i < |before.optOuts| ==> !r.cases[c].optOuts[i])
      && Renewed(before.consents, r.cases[c].consents, d.nextToken)
      && r.log == d.log + (if Consents(before, CallbackConsent) then [ConsentWithdrawn(c)] else [])
                  + [ConsentGiven(c), CallsResumed(c)]
  {
    hide Reachable;
    ReachableOk(d);
    var r := d.cases[c];
    DeskRecord(d, c);
    var back := r.(optOuts := seq(|r.optOuts|, _ => false), channel := Voice, optedOutAt := None);
    OptInRecord(r, d.nextToken);
    var log := if Granted(back, CallbackConsent) then d.log + [ConsentWithdrawn(c)] else d.log;
    assert log + [ConsentGiven(c)] + [CallsResumed(c)] == log + [ConsentGiven(c), CallsResumed(c)];
  }

  // --- requesting ---

  predicate Reaches(cb: Callback, c: nat) {
    cb.caseId == c && cb.status == Scheduled
  }

  /** What asking for a callback does: by SMS, not at all, with the scheduled one, or with a new one a little later. */
  ghost predicate AskedFor(d: Desk, r: Desk, c: nat, reason: Reason, now: Time)
    requires c in d.cases
  {
    var n := |d.asked|;
    && r == d.(asked := d.asked + [(c, reason)], callbacks := r.callbacks)
    && if d.cases[c].channel == SmsOnlyMode then
         r.callbacks == d.callbacks + [Callback(c, reason, [n], SmsOnly, now, None, None)]
       else if !Consents(d.cases[c], CallbackConsent) then
         r.callbacks == d.callbacks + [Callback(c, reason, [n], BlockedNoConsent, now, None, None)]
       else if forall i :: 0 <= i < |d.callbacks| ==> !Reaches(d.callbacks[i], c) then
         r.callbacks == d.callbacks + [Callback(c, reason, [n], Scheduled, now + COALESCE, None, None)]
       else
         exists i :: 0 <= i < |d.callbacks| && Reaches(d.callbacks[i], c)
           && r.callbacks == d.callbacks[i := d.callbacks[i].(reasons := d.callbacks[i].reasons + [n],
                                                              reason := if reason.Urgent? then reason
                                                                        else d.callbacks[i].reason)]
  }

  lemma RequestOutcome(d: Desk, c: nat, reason: Reason, now: Time)
    requires Reachable(d) && c in d.cases
    ensures AskedFor(d, Request(d, c, reason, now), c, reason, now)
  {
    hide Reachable, ToldOnce, DialledOnce, DialsAllowed, LogAgrees, OpenOk, OneScheduled, LinksOk;
    ReachableOk(d);
    DeskRecord(d, c);
    ValidIffGranted(d.cases[c], d.nextToken);
    assert forall i :: 0 <= i < |d.callbacks| ==> (Reaches(d.callbacks[i], c) <==> IsScheduled(d.callbacks[i], c));
    if HasScheduled(d, c) { assert Reaches(d.callbacks[ScheduledFor(d.callbacks, c)], c); }
  }

  /** Asked for by a person, the callback is due at once. */
  lemma TriggerNowOutcome(d: Desk, c: nat, reason: Reason, now: Time)
    requires Reachable(d) && c in d.cases
    ensures
      var r := TriggerNow(d, c, reason, now);
      exists asked :: AskedFor(d, asked, c, reason, now) &&
        if d.cases[c].channel == SmsOnlyMode || !Consents(d.cases[c], CallbackConsent) then r == asked
        else exists i :: 0 <= i < |asked.callbacks| && Reaches(asked.callbacks[i], c)
               && r == asked.(callbacks := asked.callbacks[i := asked.callbacks[i].(scheduledFor := now)])
  {
    hide Reachable, Request, AskedFor, DeskOkBut, ActiveOptOut, Granted;
    RequestOutcome(d, c, reason, now);
    var asked := Request(d, c, reason, now);
    MayReach(d, c);
    if d.cases[c].channel != SmsOnlyMode && Consents(d.cases[c], CallbackConsent) {
      AskedIsScheduled(d, asked, c, reason, now);
    }
    if HasScheduled(asked, c) { assert Reaches(asked.callbacks[ScheduledFor(asked.callbacks, c)], c); }
  }

  lemma MayReach(d: Desk, c: nat)
    requires Reachable(d) && c in d.cases
    ensures ActiveOptOut(d.cases[c]) <==> d.cases[c].channel == SmsOnlyMode
    ensures ValidConsent(d.cases[c]) <==> Consents(d.cases[c], CallbackConsent)
  {
    hide Reachable, ToldOnce, DialledOnce, DialsAllowed, LogAgrees, OpenOk, OneScheduled, LinksOk;
    ReachableOk(d);
    DeskRecord(d, c);
    ValidIffGranted(d.cases[c], d.nextToken);
  }

  lemma AskedIsScheduled(d: Desk, r: Desk, c: nat, reason: Reason, now: Time)
    requires c in d.cases && AskedFor(d, r, c, reason, now)
    requires d.cases[c].channel != SmsOnlyMode && Consents(d.cases[c], CallbackConsent)
    ensures HasScheduled(r, c)
  {
    if forall i :: 0 <= i < |d.callbacks| ==> !Reaches(d.callbacks[i], c) {
      assert IsScheduled(r.callbacks[|d.callbacks|], c);
    } else {
      var i :| 0 <= i < |d.callbacks| && Reaches(d.callbacks[i], c)
               && r.callbacks == d.callbacks[i := d.callbacks[i].(reasons := d.callbacks[i].reasons + [|d.asked|],
                                                                  reason := if reason.Urgent? then reason
                                                                            else d.callbacks[i].reason)];
      assert IsScheduled(r.callbacks[i], c);
    }
  }

  // --- the end of a call ---

  /** The callback has been ringing, unanswered, for longer than the limit. */
  predicate RangTooLong(d: Desk, i: nat, now: Time) {
    && i < |d.callbacks| && d.callbacks[i].status == Dialing && d.callbacks[i].dialedAt.Some?
    && d.callbacks[i].dialedAt.value < now - RING_TIMEOUT
    && (d.callbacks[i].call.Some? && d.callbacks[i].call.value < |d.calls| ==>
          d.calls[d.callbacks[i].call.value].state == Ringing)
  }

  /** The first k callbacks that rang too long were not answered, and their calls have ended; nothing else changes. */
  ghost predicate Swept(d: Desk, r: Desk, k: nat, now: Time) {
    && r == d.(callbacks := r.callbacks, calls := r.calls) && |r.callbacks| == |d.callbacks| && |r.calls| == |d.calls|
    && (forall i :: 0 <= i < |d.callbacks| ==>
          r.callbacks[i] == if i < k && RangTooLong(d, i, now) then d.callbacks[i].(status := NoAnswer)
                            else d.callbacks[i])
    && (forall j :: 0 <= j < |d.calls| ==>
          r.calls[j] == if RingsOut(d, k, j, now) then Call(d.calls[j].callback, Ended) else d.calls[j])
  }

  /** Call j rings for one of the first k callbacks, for too long. */
  ghost predicate RingsOut(d: Desk, k: nat, j: nat, now: Time) {
    exists i :: 0 <= i < k && RangTooLong(d, i, now) && d.callbacks[i].call == Some(j)
  }

  lemma {:induction false} SweepOutcome(d: Desk, k: nat, now: Time)
    requires LiveCalls(d) && k <= |d.callbacks|
    ensures Swept(d, SweepBelow(d, k, now), k, now)
  {
    if k > 0 {
      SweepOutcome(d, k - 1, now);
      var before, r := SweepBelow(d, k - 1, now), SweepBelow(d, k, now);
      var i := k - 1;
      assert before.callbacks[i] == d.callbacks[i];
      if d.callbacks[i].status == Dialing {
        assert LiveCall(d, i);
        assert !RingsOut(d, k - 1, d.callbacks[i].call.value, now) by { OwnCall(d, i, k - 1, now); }
      }
      forall j | 0 <= j < |d.calls|
        ensures r.calls[j] == if RingsOut(d, k, j, now) then Call(d.calls[j].callback, Ended) else d.calls[j]
      {
        assert RingsOut(d, k, j, now) <==>
               RingsOut(d, k - 1, j, now) || (RangTooLong(d, i, now) && d.callbacks[i].call == Some(j));
      }
    }
  }

  /** No other callback being dialled has the same call. */
  lemma OwnCall(d: Desk, i: nat, k: nat, now: Time)
    requires LiveCalls(d) && k <= i < |d.callbacks| && d.callbacks[i].status == Dialing
    ensures !RingsOut(d, k, d.callbacks[i].call.value, now)
  {
    assert LiveCall(d, i);
    forall j: nat | j < k ensures !(RangTooLong(d, j, now) && d.callbacks[j].call == d.callbacks[i].call) {
      assert RangTooLong(d, j, now) ==> LiveCall(d, j);
    }
  }

  /** A ringing call of a callback may be answered, and is in progress then. */
  lemma AnswerOutcome(d: Desk, j: nat)
    ensures
      Answer(d, j) ==
        if j >= |d.calls| then Failure(NotFound)
        else if d.calls[j].callback.Some? && d.calls[j].state == Ringing
        then Success(d.(calls := d.calls[j := Call(d.calls[j].callback, InProgress)]))
        else Failure(Conflict)
  {
  }

  /** A resident's own call is in progress at once and belongs to no callback; a transfer needs a call in progress. */
  lemma ConnectedOutcome(d: Desk, j: nat)
    ensures StartCall(d) == d.(calls := d.calls + [Call(None, InProgress)])
    ensures j < |d.calls| ==>
              Transfer(d, j) == if d.calls[j].state == InProgress
                                then d.(calls := d.calls[j := Call(d.calls[j].callback, Transferred)]) else d
  {
  }

  /** Callback i is over with this status, and call j with it; nothing else changes. */
  ghost predicate Closed(d: Desk, r: Desk, i: nat, j: nat, status: CallbackStatus, state: CallState) {
    && i < |d.callbacks| && j < |d.calls|
    && r == d.(callbacks := d.callbacks[i := d.callbacks[i].(status := status, call := Some(j))],
               calls := d.calls[j := Call(d.calls[j].callback, state)])
  }

  /** Hanging up on a ringing call leaves its callback unanswered; the end of any other live call completes its callback. */
  lemma EndOutcome(d: Desk, j: nat)
    ensures
      var r := End(d, j);
      && (r.Failure? <==> j >= |d.calls|) && (r.Failure? ==> r.error == NotFound)
      && (j < |d.calls| ==>
            var call := d.calls[j];
            var mine := call.callback.Some? && call.callback.value < |d.callbacks|;
            if call.state == Ringing then
              if mine && d.callbacks[call.callback.value].status == Dialing
              then Hangs(d, r.value, call.callback.value, j)
              else r.value == d.(calls := d.calls[j := Call(call.callback, Ended)])
            else Finished(d, r.value, j))
  {
    hide Finish;
    if j < |d.calls| && d.calls[j].state != Ringing { FinishOutcome(d, j); }
  }

  /** A call nobody took: its callback is not answered. */
  ghost predicate Hangs(d: Desk, r: Desk, i: nat, j: nat) {
    && i < |d.callbacks| && j < |d.calls|
    && r == d.(callbacks := d.callbacks[i := d.callbacks[i].(status := NoAnswer)],
               calls := d.calls[j := Call(d.calls[j].callback, Ended)])
  }

  /** A live call is over, a transferred one stays transferred, and a callback of its own still open is completed. */
  ghost predicate Finished(d: Desk, r: Desk, j: nat)
    requires j < |d.calls|
  {
    var call := d.calls[j];
    if call.state in {Ended, Unconnected} then r == d
    else
      var state := if call.state == Transferred then Transferred else Ended;
      if call.callback.Some? && call.callback.value < |d.callbacks|
         && d.callbacks[call.callback.value].status in {Scheduled, Dialing}
      then Closed(d, r, call.callback.value, j, Completed, state)
      else r == d.(calls := d.calls[j := Call(call.callback, state)])
  }

  lemma FinishOutcome(d: Desk, j: nat)
    requires j < |d.calls|
    ensures Finished(d, Finish(d, j), j)
  {
  }

  // --- every run keeps the calls ---

  lemma CancellingKeepsCalls(d: Desk, r: Desk, c: nat)
    requires LiveCalls(d) && CancelledAll(d, r, c, |d.callbacks|)
    ensures LiveCalls(r)
  {
    forall i | 0 <= i < |r.callbacks| && r.callbacks[i].status == Dialing ensures LiveCall(r, i) {
      assert LiveCall(d, i);
      forall k: nat | k < |d.callbacks| ensures !(Stops(d, c, k) && d.callbacks[k].call == d.callbacks[i].call) {
        assert Stops(d, c, k) && d.callbacks[k].status == Dialing ==> LiveCall(d, k);
      }
      assert !EndsWith(d, c, |d.callbacks|, d.callbacks[i].call.value);
    }
  }

  lemma AskingKeepsCalls(d: Desk, r: Desk, c: nat, reason: Reason, now: Time)
    requires LiveCalls(d) && c in d.cases && AskedFor(d, r, c, reason, now)
    ensures LiveCalls(r)
  {
    forall i | 0 <= i < |r.callbacks| && r.callbacks[i].status == Dialing ensures LiveCall(r, i) {
      assert i < |d.callbacks| ==> d.callbacks[i].status == Dialing && r.callbacks[i] == d.callbacks[i];
      assert LiveCall(d, i);
    }
  }

  lemma DiallingKeepsCalls(d: Desk, r: Desk, batch: seq<nat>, outcomes: seq<DialOutcome>, now: Time)
    requires LiveCalls(d) && |batch| == |outcomes| && DueBatch(d.callbacks, now, batch)
    requires Dialled(d, r, batch, outcomes, |batch|, now)
    ensures LiveCalls(r)
  {
    hide Later;
    assert batch[..|batch|] == batch;
    forall i: nat | i < |r.callbacks|
      ensures r.callbacks[i].status == Dialing ==> LiveCall(r, i)
      ensures r.callbacks[i].status == Scheduled ==> r.callbacks[i].call.None?
    {
      if i in batch {
        var k :| 0 <= k < |batch| && batch[k] == i;
        assert DialledAs(d.callbacks[batch[k]], r.callbacks[batch[k]], r.calls[|d.calls| + k], batch[k], |d.calls| + k,
                         outcomes[k], now);
      } else if r.callbacks[i].status == Dialing {
        assert LiveCall(d, i);
      }
    }
  }

  lemma SweepingKeepsCalls(d: Desk, r: Desk, now: Time)
    requires LiveCalls(d) && Swept(d, r, |d.callbacks|, now)
    ensures LiveCalls(r)
  {
    forall i | 0 <= i < |r.callbacks| && r.callbacks[i].status == Dialing ensures LiveCall(r, i) {
      assert LiveCall(d, i);
      forall k: nat | k < |d.callbacks| ensures !(RangTooLong(d, k, now) && d.callbacks[k].call == d.callbacks[i].call) {
        assert RangTooLong(d, k, now) ==> LiveCall(d, k);
      }
      assert !RingsOut(d, |d.callbacks|, d.callbacks[i].call.value, now);
    }
  }

  lemma SameCallsStayLive(d: Desk, r: Desk)
    requires LiveCalls(d) && r.callbacks == d.callbacks && r.calls == d.calls
    ensures LiveCalls(r)
  {
    forall i | 0 <= i < |r.callbacks| && r.callbacks[i].status == Dialing ensures LiveCall(r, i) {
      assert LiveCall(d, i);
    }
  }

  /** A call that ends for good takes its callback with it. */
  lemma EndingKeepsCalls(d: Desk, r: Desk, j: nat)
    requires LiveCalls(d) && j < |d.calls| && |r.callbacks| == |d.callbacks| && |r.calls| == |d.calls|
    requires r.calls == d.calls[j := r.calls[j]] && r.calls[j].callback == d.calls[j].callback
    requires forall i :: 0 <= i < |d.callbacks| ==>
               r.callbacks[i] == d.callbacks[i] || !Open(r.callbacks[i].status)
    requires r.calls[j].state in {Ringing, InProgress, Transferred} || r.calls[j].state == d.calls[j].state
             || forall i :: 0 <= i < |r.callbacks| && d.calls[j].callback == Some(i) ==> r.callbacks[i].status != Dialing
    ensures LiveCalls(r)
  {
    forall i | 0 <= i < |r.callbacks| && r.callbacks[i].status == Dialing ensures LiveCall(r, i) {
      assert LiveCall(d, i);
    }
  }

  lemma PerformKeepsCalls(d: Desk, step: DeskStep)
    requires Reachable(d) && LiveCalls(d)
    ensures LiveCalls(Perform(d, step))
  {
    hide Reachable, DeskOkBut, Capture, Revoke, OptOut, OptIn, Request, TriggerNow, DialBelow, SweepBelow, End, Finish,
         DueBatch, Dialled, Swept, CancelledAll, AskedFor, LiveCalls;
    ReachableOk(d);
    var r := Perform(d, step);
    match step {
      case CaptureConsent(c, kind) => if c in d.cases { CaptureOutcome(d, c, kind); }
        SameCallsStayLive(d, r);
      case RevokeConsent(c, kind) => if c in d.cases { RevokingKeepsCalls(d, c, kind); }
      case StopCalling(c, now) => if c in d.cases { StoppingKeepsCalls(d, c, now); }
      case ResumeCalling(c) => if c in d.cases { OptInOutcome(d, c); }
        SameCallsStayLive(d, r);
      case AskCallback(c, reason, now) =>
        if c in d.cases {
          RequestOutcome(d, c, reason, now);
          AskingKeepsCalls(d, r, c, reason, now);
        }
      case AskCallbackNow(c, reason, now) => if c in d.cases { TriggeringKeepsCalls(d, c, reason, now); }
      case DialDue(batch, outcomes, now) =>
        if r != d {
          DialBelowOutcome(d, batch, outcomes, |batch|, now);
          DiallingKeepsCalls(d, r, batch, outcomes, now);
        }
      case SweepUnanswered(now) =>
        SweepOutcome(d, |d.callbacks|, now);
        SweepingKeepsCalls(d, r, now);
      case AnswerCall(j) => if Answer(d, j).Success? { EndingKeepsCalls(d, r, j); }
      case EndCall(j) =>
        EndOutcome(d, j);
        if j < |d.calls| { EndsKeepCalls(d, j); }
      case ConversationEnds(j) => if j < |d.calls| { FinishKeepsCalls(d, j); }
      case ResidentCalls => StartKeepsCalls(d);
      case TransferCall(j) => if j < |d.calls| { EndingKeepsCalls(d, r, j); }
    }
  }

  lemma RevokingKeepsCalls(d: Desk, c: nat, kind: ConsentType)
    requires LiveCalls(d) && c in d.cases
    ensures LiveCalls(Revoke(d, c, kind))
  {
    hide CancelBelow, CancelledAll, LiveCalls;
    if Granted(d.cases[c], kind) {
      var revoked := d.(cases := d.cases[c := Revoked(d.cases[c], kind)]);
      var told := if kind == CallbackConsent then revoked.(log := d.log + [ConsentWithdrawn(c)]) else revoked;
      SameCallsStayLive(d, told);
      CancelOutcome(told, c, |d.callbacks|);
      if kind == CallbackConsent { CancellingKeepsCalls(told, Revoke(d, c, kind), c); }
    }
  }

  lemma StoppingKeepsCalls(d: Desk, c: nat, now: Time)
    requires LiveCalls(d) && c in d.cases
    ensures LiveCalls(OptOut(d, c, now))
  {
    hide CancelBelow, CancelledAll, LiveCalls;
    var r := d.cases[c];
    if !ActiveOptOut(r) {
      var stopped := r.(optOuts := r.optOuts + [true], channel := SmsOnlyMode, optedOutAt := Some(now));
      var told := d.(cases := d.cases[c := stopped], log := d.log + [CallsStopped(c)]);
      SameCallsStayLive(d, told);
      CancelOutcome(told, c, |d.callbacks|);
      CancellingKeepsCalls(told, OptOut(d, c, now), c);
    }
  }

  lemma TriggeringKeepsCalls(d: Desk, c: nat, reason: Reason, now: Time)
    requires Reachable(d) && LiveCalls(d) && c in d.cases
    ensures LiveCalls(TriggerNow(d, c, reason, now))
  {
    hide Reachable, Request, AskedFor, ActiveOptOut, ValidConsent, ScheduledFor, HasScheduled;
    RequestOutcome(d, c, reason, now);
    var asked := Request(d, c, reason, now);
    AskingKeepsCalls(d, asked, c, reason, now);
    if HasScheduled(asked, c) { FoundScheduled(asked, c); }
    var r := TriggerNow(d, c, reason, now);
    forall i | 0 <= i < |r.callbacks| && r.callbacks[i].status == Dialing ensures LiveCall(r, i) {
      assert LiveCall(asked, i);
    }
  }

  lemma EndsKeepCalls(d: Desk, j: nat)
    requires LiveCalls(d) && j < |d.calls| && End(d, j).Success?
    ensures LiveCalls(End(d, j).value)
  {
    hide Finish, LiveCalls;
    if d.calls[j].state == Ringing { EndingKeepsCalls(d, End(d, j).value, j); } else { FinishKeepsCalls(d, j); }
  }

  lemma FinishKeepsCalls(d: Desk, j: nat)
    requires LiveCalls(d) && j < |d.calls|
    ensures LiveCalls(Finish(d, j))
  {
    hide LiveCalls;
    var call := d.calls[j];
    if call.state != Ended && call.state != Unconnected { EndingKeepsCalls(d, Finish(d, j), j); }
  }

  lemma StartKeepsCalls(d: Desk)
    requires LiveCalls(d)
    ensures LiveCalls(StartCall(d))
  {
    forall i | 0 <= i < |d.callbacks| && d.callbacks[i].status == Dialing ensures LiveCall(StartCall(d), i) {
      assert LiveCall(d, i);
    }
  }

  lemma {:induction false} VisitsKeepCalls(steps: seq<DeskStep>, desks: seq<Desk>, n: nat)
    requires Visits(steps, desks) && n <= |steps| && Untouched(desks[0])
    ensures Reachable(desks[n]) && LiveCalls(desks[n])
  {
    hide Perform, LiveCalls, Untouched;
    PrefixReachable(steps, desks, n);
    if n == 0 {
      NoneDialled(desks[0]);
    } else {
      VisitsKeepCalls(steps, desks, n - 1);
      assert Leads(desks[n - 1], steps[n - 1], desks[n]);
      PerformKeepsCalls(desks[n - 1], steps[n - 1]);
    }
  }

  lemma NoneDialled(d: Desk)
    requires Untouched(d)
    ensures LiveCalls(d)
  {
  }

  lemma PrefixReachable(steps: seq<DeskStep>, desks: seq<Desk>, n: nat)
    requires Visits(steps, desks) && n <= |steps| && Untouched(desks[0])
    ensures Reachable(desks[n])
  {
    hide Leads, Untouched;
    forall k | 0 <= k < n ensures Leads(desks[..n + 1][k], steps[..n][k], desks[..n + 1][k + 1]) {
      assert Leads(desks[k], steps[k], desks[k + 1]);
    }
    assert Visits(steps[..n], desks[..n + 1]);
    assert Runs(desks[0], steps[..n], desks[n]);
  }

  /** In every run a callback being dialled has a call of its own that rings, is in progress or has been transferred. */
  lemma DialledCallIsLive(d: Desk, i: nat)
    requires Reachable(d) && i < |d.callbacks| && d.callbacks[i].status == Dialing
    ensures LiveCall(d, i)
  {
    hide LiveCall, Leads, Untouched;
    ReachableCalls(d);
  }

  lemma ReachableCalls(r: Desk)
    requires Reachable(r)
    ensures LiveCalls(r)
  {
    hide LiveCalls, Leads, Untouched;
    var d, steps :| Untouched(d) && Runs(d, steps, r);
    var desks :| Visits(steps, desks) && desks[0] == d && desks[|steps|] == r;
    VisitsKeepCalls(steps, desks, |steps|);
  }

  /** A sweep closes exactly the callbacks that rang too long, and ends exactly their calls. */
  lemma SweepUnansweredOutcome(d: Desk, now: Time, r: Desk)
    requires Reachable(d) && Runs(d, [SweepUnanswered(now)], r)
    ensures Swept(d, r, |d.callbacks|, now)
  {
    hide Reachable, Swept, LiveCalls;
    ReachableCalls(d);
    OneStep(d, SweepUnanswered(now), r);
    SweepOutcome(d, |d.callbacks|, now);
  }
}
