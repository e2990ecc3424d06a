/** The consent, opt-out and callback services as they work on their tables, proved against CallbackDesk. */
module CallbackSession {
  import opened Wrappers
  import opened CallbackDesk

  lemma {:induction false} IsFirstScheduled(callbacks: seq<Callback>, c: nat, k: nat)
    requires k < |callbacks| && IsScheduled(callbacks[k], c)
    requires forall j :: 0 <= j < k ==> !IsScheduled(callbacks[j], c)
    ensures ScheduledFor(callbacks, c) == k
  {
  }

  class Session {
    var cases: map<nat, CaseRecord>
    var callbacks: seq<Callback>
    var calls: seq<Call>
    var nextToken: nat
    /** What has happened and been asked for: no service reads these two. */
    var log: seq<Happening>
    var asked: seq<(nat, Reason)>

    function View(): Desk
      reads this
    {
      Desk(cases, callbacks, calls, nextToken, asked, log)
    }

    constructor (records: map<nat, CaseRecord>)
      ensures View() == Desk(records, [], [], 0, [], [])
    {
      cases, callbacks, calls, nextToken, log, asked := records, [], [], 0, [], [];
    }

    // --- consent ---

    method Capture(c: nat, kind: ConsentType)
      requires c in cases
      modifies `cases, `nextToken, `log
      ensures View() == CallbackDesk.Capture(old(View()), c, kind)
    {
      var r := cases[c];
      if Granted(r, kind) { return; }
      var token := None;
      if kind == CallbackConsent {
        token := Some(nextToken);
        nextToken := nextToken + 1;
        log := log + [ConsentGiven(c)];
      }
      cases := cases[c := r.(consents := r.consents + [Consent(kind, true, token)])];
    }

    method Revoke(c: nat, kind: ConsentType)
      requires c in cases
      modifies `cases, `callbacks, `calls, `log
      ensures View() == CallbackDesk.Revoke(old(View()), c, kind)
    {
      if !Granted(cases[c], kind) { return; }
      var r := cases[c];
      var i := ActiveConsent(r.consents, kind);
      cases := cases[c := r.(consents := r.consents[i := r.consents[i].(granted := false)])];
      if kind == CallbackConsent {
        log := log + [ConsentWithdrawn(c)];
        CancelPending(c);
      }
    }

    method OptOut(c: nat, now: Time)
      requires c in cases
      modifies `cases, `callbacks, `calls, `log
      ensures View() == CallbackDesk.OptOut(old(View()), c, now)
    {
      if ActiveOptOut(cases[c]) { return; }
      var r := cases[c];
      r := r.(optOuts := r.optOuts + [true]);
      r := r.(channel := SmsOnlyMode, optedOutAt := Some(now));
      cases := cases[c := r];
      log := log + [CallsStopped(c)];
      CancelPending(c);
    }

    method OptIn(c: nat)
      requires c in cases
      modifies `cases, `nextToken, `log
      ensures View() == CallbackDesk.OptIn(old(View()), c)
    {
      var r := cases[c];
      var rows := r.optOuts;
      for k := 0 to |rows|
        invariant |rows| == |r.optOuts|
        invariant forall i :: 0 <= i < k ==> !rows[i]
        invariant forall i :: k <= i < |rows| ==> rows[i] == r.optOuts[i]
      {
        if rows[k] { rows := rows[k := false]; }
      }
      assert rows == seq(|r.optOuts|, _ => false);
      r := r.(optOuts := rows, channel := Voice, optedOutAt := None);
      if Granted(r, CallbackConsent) {
        r := Revoked(r, CallbackConsent);
        log := log + [ConsentWithdrawn(c)];
      }
      cases := cases[c := r];
      Capture(c, CallbackConsent);
      log := log + [CallsResumed(c)];
    }

    // --- callbacks ---

    /** Every open callback of the case is cancelled, and the call it is ringing on ends. */
    method CancelPending(c: nat)
      modifies `callbacks, `calls
      ensures View() == CancelBelow(old(View()), c, |old(callbacks)|)
    {
      for k := 0 to |callbacks|
        invariant |callbacks| == |old(callbacks)| && View() == CancelBelow(old(View()), c, k)
      {
        if callbacks[k].caseId != c || !Open(callbacks[k].status) { continue; }
        var call := callbacks[k].call;
        callbacks := callbacks[k := callbacks[k].(status := Cancelled)];
        if call.Some? && call.value < |calls| && calls[call.value].state == Ringing {
          calls := calls[call.value := calls[call.value].(state := Ended)];
        }
      }
    }

    /** Returns the callback the update went to. */
    method Request(c: nat, reason: Reason, now: Time) returns (i: nat)
      requires c in cases
      modifies `callbacks, `asked
      ensures View() == CallbackDesk.Request(old(View()), c, reason, now)
      ensures i < |callbacks| && callbacks[i].caseId == c
      ensures callbacks[i].status == Scheduled <==> !ActiveOptOut(cases[c]) && ValidConsent(cases[c])
      ensures callbacks[i].status == Scheduled ==> HasScheduled(View(), c) && i == ScheduledFor(callbacks, c)
    {
      hide ActiveOptOut, ValidConsent;
      var n := |asked|;
      asked := asked + [(c, reason)];
      if ActiveOptOut(cases[c]) {
        callbacks := callbacks + [Fresh(c, reason, n, SmsOnly, now)];
        return |callbacks| - 1;
      }
      if !ValidConsent(cases[c]) {
        callbacks := callbacks + [Fresh(c, reason, n, BlockedNoConsent, now)];
        return |callbacks| - 1;
      }
      for k := 0 to |callbacks|
        invariant forall j :: 0 <= j < k ==> !IsScheduled(callbacks[j], c)
      {
        if callbacks[k].caseId == c && callbacks[k].status == Scheduled {
          IsFirstScheduled(callbacks, c, k);
          callbacks := callbacks[k := Coalesced(callbacks[k], n, reason)];
          IsFirstScheduled(callbacks, c, k);
          return k;
        }
      }
      callbacks := callbacks + [Fresh(c, reason, n, Scheduled, now + COALESCE)];
      IsFirstScheduled(callbacks, c, |callbacks| - 1);
      return |callbacks| - 1;
    }

    method TriggerNow(c: nat, reason: Reason, now: Time)
      requires c in cases
      modifies `callbacks, `asked
      ensures View() == CallbackDesk.TriggerNow(old(View()), c, reason, now)
    {
      hide ActiveOptOut, ValidConsent, ScheduledFor, CallbackDesk.Request;
      var i := Request(c, reason, now);
      if callbacks[i].status == Scheduled {
        callbacks := callbacks[i := callbacks[i].(scheduledFor := now)];
      }
    }

    /** One turn of the dialling loop; consent and opt-out are looked at again. */
    method DialOne(i: nat, outcome: DialOutcome, now: Time) returns (placed: bool)
      requires i < |callbacks| && callbacks[i].caseId in cases
      modifies `callbacks, `calls, `log
      ensures View() == Dial(old(View()), i, outcome, now)
    {
      hide ActiveOptOut, ValidConsent;
      var cb := callbacks[i];
      if ActiveOptOut(cases[cb.caseId]) {
        callbacks := callbacks[i := cb.(status := SmsOnly)];
        return false;
      }
      if !ValidConsent(cases[cb.caseId]) {
        callbacks := callbacks[i := cb.(status := BlockedNoConsent)];
        return false;
      }
      log := log + [Dialed(cb.caseId, i)];
      var j := |calls|;
      if outcome == TelephonyDown {
        calls := calls + [Call(Some(i), Unconnected)];
        callbacks := callbacks[i := cb.(status := Failed)];
        return false;
      }
      calls := calls + [Call(Some(i), if outcome == RingsInBrowser then Ringing else InProgress)];
      callbacks := callbacks[i := cb.(status := Dialing, dialedAt := Some(now), call := Some(j))];
      return true;
    }

    /** Places the due callbacks the query returned. */
    method DialDue(batch: seq<nat>, outcomes: seq<DialOutcome>, now: Time) returns (placed: nat)
      requires |batch| == |outcomes| && DueBatch(callbacks, now, batch)
      requires forall i :: 0 <= i < |callbacks| ==> callbacks[i].caseId in cases
      modifies `callbacks, `calls, `log
      ensures View() == DialBelow(old(View()), batch, outcomes, |batch|, now)
    {
      hide Dial, Later;
      placed := 0;
      for k := 0 to |batch|
        invariant View() == DialBelow(old(View()), batch, outcomes, k, now)
      {
        var rings := DialOne(batch[k], outcomes[k], now);
        if rings { placed := placed + 1; }
      }
    }

    method SweepUnanswered(now: Time) returns (swept: nat)
      modifies `callbacks, `calls
      ensures View() == SweepBelow(old(View()), |old(callbacks)|, now)
    {
      swept := 0;
      for k := 0 to |callbacks|
        invariant |callbacks| == |old(callbacks)| && View() == SweepBelow(old(View()), k, now)
      {
        var cb := callbacks[k];
        if cb.status != Dialing || cb.dialedAt.None? || cb.dialedAt.value >= now - RING_TIMEOUT { continue; }
        if cb.call.Some? && cb.call.value < |calls| && calls[cb.call.value].state != Ringing { continue; }
        callbacks := callbacks[k := cb.(status := NoAnswer)];
        if cb.call.Some? && cb.call.value < |calls| {
          calls := calls[cb.call.value := calls[cb.call.value].(state := Ended)];
        }
        swept := swept + 1;
      }
    }

    method Complete(i: nat)
      requires i < |callbacks|
      modifies `callbacks
      ensures View() == CallbackDesk.Complete(old(View()), i)
    {
      if callbacks[i].status == Completed || callbacks[i].status == Cancelled { return; }
      callbacks := callbacks[i := callbacks[i].(status := Completed)];
    }

    /** The call is over; its callback is completed only while it is still open. */
    method Finish(j: nat)
      requires j < |calls|
      modifies `callbacks, `calls
      ensures View() == CallbackDesk.Finish(old(View()), j)
    {
      var call := calls[j];
      if call.state == Ended || call.state == Unconnected { return; }
      calls := calls[j := call.(state := if call.state == Transferred then Transferred else Ended)];
      if call.callback.Some? && call.callback.value < |callbacks| && Open(callbacks[call.callback.value].status) {
        var i := call.callback.value;
        callbacks := callbacks[i := callbacks[i].(call := Some(j))];
        Complete(i);
      }
    }

    method End(j: nat) returns (raised: Option<Error>)
      modifies `callbacks, `calls
      ensures match CallbackDesk.End(old(View()), j)
              case Success(d) => raised.None? && View() == d
              case Failure(e) => raised == Some(e)
    {
      raised := None;
      if j >= |calls| { return Some(NotFound); }
      if calls[j].state == Ringing {
        calls := calls[j := calls[j].(state := Ended)];
        var cb := calls[j].callback;
        if cb.Some? && cb.value < |callbacks| && callbacks[cb.value].status == Dialing {
          callbacks := callbacks[cb.value := callbacks[cb.value].(status := NoAnswer)];
        }
      } else {
        Finish(j);
      }
    }
  }
}
