/**
 * Consent, opt-out and the callback engine: what one unit of work of each does to the callback tables, as functions.
 * log and asked record what has happened and been asked for; no service reads them.
 */
module CallbackDesk {
  import opened Wrappers

  type Time = int

  datatype CallbackStatus =
    | Scheduled | Dialing | Completed | NoAnswer | Failed | Cancelled | BlockedNoConsent | SmsOnly

  predicate Open(status: CallbackStatus) {
    status == Scheduled || status == Dialing
  }

  datatype Reason = Urgent(code: nat) | Routine(code: nat)

  /** A callback carries the numbers of the updates it tells, oldest first. */
  datatype Callback = Callback(
    caseId: nat, reason: Reason, reasons: seq<nat>, status: CallbackStatus, scheduledFor: Time, dialedAt: Option<Time>,
    call: Option<nat>)

  datatype CallState = Ringing | InProgress | Ended | Transferred | Unconnected

  datatype Call = Call(callback: Option<nat>, state: CallState)

  datatype ConsentType = CallbackConsent | DataProcessing | ServiceFiling

  datatype Consent = Consent(kind: ConsentType, granted: bool, token: Option<nat>)

  datatype Channel = Voice | SmsOnlyMode

  /** The consent columns and rows of a case; an opt-out row is its active flag. */
  datatype CaseRecord = CaseRecord(
    channel: Channel, optedOutAt: Option<Time>, optOuts: seq<bool>, consents: seq<Consent>)

  datatype Happening =
    | Dialed(caseId: nat, callback: nat)
    | CallsStopped(caseId: nat)
    | CallsResumed(caseId: nat)
    | ConsentGiven(caseId: nat)
    | ConsentWithdrawn(caseId: nat)

  datatype Desk = Desk(
    cases: map<nat, CaseRecord>, callbacks: seq<Callback>, calls: seq<Call>, nextToken: nat,
    asked: seq<(nat, Reason)>, log: seq<Happening>)

  // --- consent ---

  predicate ActiveOptOut(r: CaseRecord) {
    exists i :: 0 <= i < |r.optOuts| && r.optOuts[i]
  }

  predicate Granted(r: CaseRecord, kind: ConsentType) {
    exists i :: 0 <= i < |r.consents| && r.consents[i].kind == kind && r.consents[i].granted
  }

  /** The position of the active consent of a type: the first one, as there is never more than one. */
  function ActiveConsent(consents: seq<Consent>, kind: ConsentType): (i: nat)
    requires exists j :: 0 <= j < |consents| && consents[j].kind == kind && consents[j].granted
    ensures i < |consents| && consents[i].kind == kind && consents[i].granted
    ensures forall j :: 0 <= j < i ==> !(consents[j].kind == kind && consents[j].granted)
    decreases |consents|
  {
    if consents[0].kind == kind && consents[0].granted then 0
    else
      assert forall j :: 1 <= j < |consents| ==> consents[1..][j - 1] == consents[j];
      1 + ActiveConsent(consents[1..], kind)
  }

  /** A callback consent that carries a token. */
  predicate ValidConsent(r: CaseRecord) {
    Granted(r, CallbackConsent) && r.consents[ActiveConsent(r.consents, CallbackConsent)].token.Some?
  }

  function Revoked(r: CaseRecord, kind: ConsentType): CaseRecord
    requires Granted(r, kind)
  {
    var i := ActiveConsent(r.consents, kind);
    r.(consents := r.consents[i := r.consents[i].(granted := false)])
  }

  function Capture(d: Desk, c: nat, kind: ConsentType): Desk
    requires c in d.cases
  {
    var r := d.cases[c];
    if Granted(r, kind) then d
    else
      var token := if kind == CallbackConsent then Some(d.nextToken) else None;
      d.(cases := d.cases[c := r.(consents := r.consents + [Consent(kind, true, token)])],
         nextToken := if kind == CallbackConsent then d.nextToken + 1 else d.nextToken,
         log := if kind == CallbackConsent then d.log + [ConsentGiven(c)] else d.log)
  }

  function Revoke(d: Desk, c: nat, kind: ConsentType): Desk
    requires c in d.cases
  {
    if !Granted(d.cases[c], kind) then d
    else
      var revoked := d.(cases := d.cases[c := Revoked(d.cases[c], kind)]);
      if kind == CallbackConsent
      then CancelBelow(revoked.(log := d.log + [ConsentWithdrawn(c)]), c, |d.callbacks|) else revoked
  }

  // --- opting out and in ---

  function OptOut(d: Desk, c: nat, now: Time): Desk
    requires c in d.cases
  {
    var r := d.cases[c];
    if ActiveOptOut(r) then d
    else
      var stopped := r.(optOuts := r.optOuts + [true], channel := SmsOnlyMode, optedOutAt := Some(now));
      CancelBelow(d.(cases := d.cases[c := stopped], log := d.log + [CallsStopped(c)]), c, |d.callbacks|)
  }

  /** Calling resumes with a consent, and a token, of its own. */
  function OptIn(d: Desk, c: nat): Desk
    requires c in d.cases
  {
    var r := d.cases[c];
    var back := r.(optOuts := seq(|r.optOuts|, _ => false), channel := Voice, optedOutAt := None);
    var withdrawn := if Granted(back, CallbackConsent) then Revoked(back, CallbackConsent) else back;
    var log := if Granted(back, CallbackConsent) then d.log + [ConsentWithdrawn(c)] else d.log;
    var renewed := Capture(d.(cases := d.cases[c := withdrawn], log := log), c, CallbackConsent);
    renewed.(log := renewed.log + [CallsResumed(c)])
  }

  // --- cancelling ---

  function SetCall(calls: seq<Call>, call: Option<nat>, state: CallState): seq<Call> {
    if call.Some? && call.value < |calls| && calls[call.value].state == Ringing
    then calls[call.value := calls[call.value].(state := state)] else calls
  }

  function Cancel(d: Desk, i: nat): Desk
    requires i < |d.callbacks|
  {
    d.(callbacks := d.callbacks[i := d.callbacks[i].(status := Cancelled)],
       calls := SetCall(d.calls, d.callbacks[i].call, Ended))
  }

  /** cancel_pending on the first k callbacks. */
  function CancelBelow(d: Desk, c: nat, k: nat): (r: Desk)
    requires k <= |d.callbacks|
    ensures |r.callbacks| == |d.callbacks| && |r.calls| == |d.calls|
  {
    if k == 0 then d
    else
      var before := CancelBelow(d, c, k - 1);
      if before.callbacks[k - 1].caseId == c && Open(before.callbacks[k - 1].status) then Cancel(before, k - 1)
      else before
  }

  // --- requesting ---

  /** A setting: how long further updates may join a new callback. */
  const COALESCE: Time

  predicate IsScheduled(cb: Callback, c: nat) {
    cb.caseId == c && cb.status == Scheduled
  }

  predicate HasScheduled(d: Desk, c: nat) {
    exists i :: 0 <= i < |d.callbacks| && IsScheduled(d.callbacks[i], c)
  }

  function ScheduledFor(callbacks: seq<Callback>, c: nat): (i: nat)
    requires exists j :: 0 <= j < |callbacks| && IsScheduled(callbacks[j], c)
    ensures i < |callbacks| && IsScheduled(callbacks[i], c)
    ensures forall j :: 0 <= j < i ==> !IsScheduled(callbacks[j], c)
    decreases |callbacks|
  {
    if IsScheduled(callbacks[0], c) then 0
    else
      assert forall j :: 1 <= j < |callbacks| ==> callbacks[1..][j - 1] == callbacks[j];
      1 + ScheduledFor(callbacks[1..], c)
  }

  function Coalesced(cb: Callback, n: nat, reason: Reason): Callback {
    cb.(reasons := cb.reasons + [n], reason := if reason.Urgent? then reason else cb.reason)
  }

  function Fresh(c: nat, reason: Reason, n: nat, status: CallbackStatus, at: Time): Callback {
    Callback(c, reason, [n], status, at, None, None)
  }

  /** Decides whether and how to reach the resident about an update. */
  function Request(d: Desk, c: nat, reason: Reason, now: Time): Desk
    requires c in d.cases
  {
    var n := |d.asked|;
    var noted := d.(asked := d.asked + [(c, reason)]);
    if ActiveOptOut(d.cases[c]) then noted.(callbacks := d.callbacks + [Fresh(c, reason, n, SmsOnly, now)])
    else if !ValidConsent(d.cases[c]) then
      noted.(callbacks := d.callbacks + [Fresh(c, reason, n, BlockedNoConsent, now)])
    else if HasScheduled(d, c) then
      var i := ScheduledFor(d.callbacks, c);
      noted.(callbacks := d.callbacks[i := Coalesced(d.callbacks[i], n, reason)])
    else
      noted.(callbacks := d.callbacks + [Fresh(c, reason, n, Scheduled, now + COALESCE)])
  }

  /** A callback asked for by a person is due at once. */
  function TriggerNow(d: Desk, c: nat, reason: Reason, now: Time): Desk
    requires c in d.cases
  {
    var asked := Request(d, c, reason, now);
    if HasScheduled(asked, c) && !ActiveOptOut(d.cases[c]) && ValidConsent(d.cases[c]) then
      var i := ScheduledFor(asked.callbacks, c);
      asked.(callbacks := asked.callbacks[i := asked.callbacks[i].(scheduledFor := now)])
    else asked
  }

  // --- dialling ---

  datatype DialOutcome = RingsInBrowser | RingsPhone | TelephonyDown

  const BATCH_LIMIT := 20

  /** The answer of the query for due callbacks: the earliest ones, oldest first. */
  ghost predicate DueBatch(callbacks: seq<Callback>, now: Time, batch: seq<nat>) {
    && |batch| <= BATCH_LIMIT
    && (forall k :: 0 <= k < |batch| ==> batch[k] < |callbacks| && IsDue(callbacks[batch[k]], now))
    && (forall k, l :: 0 <= k < l < |batch| ==>
          batch[k] != batch[l] && callbacks[batch[k]].scheduledFor <= callbacks[batch[l]].scheduledFor)
    && (forall i: nat :: i < |callbacks| && IsDue(callbacks[i], now) && i !in batch ==> Later(callbacks, batch, i))
  }

  predicate IsDue(cb: Callback, now: Time) {
    cb.status == Scheduled && cb.scheduledFor <= now
  }

  /** A due callback is left for later only by a full batch of callbacks due no later. */
  ghost predicate Later(callbacks: seq<Callback>, batch: seq<nat>, i: nat)
    requires i < |callbacks| && forall k :: 0 <= k < |batch| ==> batch[k] < |callbacks|
  {
    |batch| == BATCH_LIMIT
    && forall k :: 0 <= k < |batch| ==> callbacks[batch[k]].scheduledFor <= callbacks[i].scheduledFor
  }

  function SetStatus(d: Desk, i: nat, status: CallbackStatus): Desk
    requires i < |d.callbacks|
  {
    d.(callbacks := d.callbacks[i := d.callbacks[i].(status := status)])
  }

  /** One turn of the dialling loop; consent and opt-out are looked at again. */
  function Dial(d: Desk, i: nat, outcome: DialOutcome, now: Time): Desk
    requires i < |d.callbacks| && d.callbacks[i].caseId in d.cases
  {
    var cb := d.callbacks[i];
    if ActiveOptOut(d.cases[cb.caseId]) then SetStatus(d, i, SmsOnly)
    else if !ValidConsent(d.cases[cb.caseId]) then SetStatus(d, i, BlockedNoConsent)
    else
      var placed := d.(log := d.log + [Dialed(cb.caseId, i)]);
      if outcome == TelephonyDown then SetStatus(placed, i, Failed).(calls := d.calls + [Call(Some(i), Unconnected)])
      else
        placed.(callbacks := d.callbacks[i := cb.(status := Dialing, dialedAt := Some(now), call := Some(|d.calls|))],
                calls := d.calls + [Call(Some(i), if outcome == RingsInBrowser then Ringing else InProgress)])
  }

  /** dial_due on the first k callbacks of a batch. */
  function DialBelow(d: Desk, batch: seq<nat>, outcomes: seq<DialOutcome>, k: nat, now: Time): (r: Desk)
    requires k <= |batch| == |outcomes|
    requires forall j :: 0 <= j < |batch| ==> batch[j] < |d.callbacks|
    requires forall i :: 0 <= i < |d.callbacks| ==> d.callbacks[i].caseId in d.cases
    ensures |r.callbacks| == |d.callbacks| && r.cases == d.cases
    ensures forall i :: 0 <= i < |d.callbacks| ==> r.callbacks[i].caseId == d.callbacks[i].caseId
  {
    if k == 0 then d else Dial(DialBelow(d, batch, outcomes, k - 1, now), batch[k - 1], outcomes[k - 1], now)
  }

  // --- the end of a call ---

  /** A setting: how long a call may ring. */
  const RING_TIMEOUT: Time

  /** One turn of the sweep: a call nobody took. */
  function SweepOne(d: Desk, i: nat, now: Time): (r: Desk)
    requires i < |d.callbacks|
    ensures |r.callbacks| == |d.callbacks|
  {
    var cb := d.callbacks[i];
    if cb.status != Dialing || cb.dialedAt.None? || cb.dialedAt.value >= now - RING_TIMEOUT then d
    else if cb.call.Some? && cb.call.value < |d.calls| && d.calls[cb.call.value].state != Ringing then d
    else SetStatus(d, i, NoAnswer).(calls := SetCall(d.calls, cb.call, Ended))
  }

  function SweepBelow(d: Desk, k: nat, now: Time): (r: Desk)
    requires k <= |d.callbacks|
    ensures |r.callbacks| == |d.callbacks|
  {
    if k == 0 then d else SweepOne(SweepBelow(d, k - 1, now), k - 1, now)
  }

  /** The engine's own complete: it leaves only completed and cancelled callbacks alone. */
  function Complete(d: Desk, i: nat): Desk
    requires i < |d.callbacks|
  {
    if d.callbacks[i].status == Completed || d.callbacks[i].status == Cancelled then d
    else SetStatus(d, i, Completed)
  }

  function Answer(d: Desk, j: nat): Result<Desk> {
    if j >= |d.calls| then Failure(NotFound)
    else if d.calls[j].callback.None? || d.calls[j].state != Ringing then Failure(Conflict)
    else Success(d.(calls := d.calls[j := d.calls[j].(state := InProgress)]))
  }

  /** The end of a connected call completes its callback while that is still open. */
  function Finish(d: Desk, j: nat): Desk
    requires j < |d.calls|
  {
    var call := d.calls[j];
    if call.state == Ended || call.state == Unconnected then d
    else
      var over := d.(calls := d.calls[j := call.(state := if call.state == Transferred then Transferred else Ended)]);
      if call.callback.Some? && call.callback.value < |d.callbacks| && Open(d.callbacks[call.callback.value].status)
      then
        var i := call.callback.value;
        Complete(over.(callbacks := d.callbacks[i := d.callbacks[i].(call := Some(j))]), i)
      else over
  }

  function End(d: Desk, j: nat): Result<Desk> {
    if j >= |d.calls| then Failure(NotFound)
    else if d.calls[j].state == Ringing then
      var over := d.(calls := d.calls[j := d.calls[j].(state := Ended)]);
      var cb := d.calls[j].callback;
      Success(if cb.Some? && cb.value < |d.callbacks| && d.callbacks[cb.value].status == Dialing
              then SetStatus(over, cb.value, NoAnswer) else over)
    else Success(Finish(d, j))
  }

  /** A call of the resident's own, and a warm transfer. */
  function StartCall(d: Desk): Desk {
    d.(calls := d.calls + [Call(None, InProgress)])
  }

  function Transfer(d: Desk, j: nat): Desk
    requires j < |d.calls|
  {
    if d.calls[j].state == InProgress then d.(calls := d.calls[j := d.calls[j].(state := Transferred)]) else d
  }
}
