/** What holds of consents, opt-outs and callbacks in every run of the callback engine. */
module CallbackSafety {
  import opened Wrappers
  import opened CallbackDesk

  // --- reading the log ---

  /** The resident has asked for calls to stop, and not since to resume. */
  predicate Stopped(log: seq<Happening>, c: nat) {
    if log == [] then false
    else
      var last := log[|log| - 1];
      if last == CallsStopped(c) then true else if last == CallsResumed(c) then false
      else Stopped(log[..|log| - 1], c)
  }

  predicate Consented(log: seq<Happening>, c: nat) {
    if log == [] then false
    else
      var last := log[|log| - 1];
      if last == ConsentGiven(c) then true else if last == ConsentWithdrawn(c) then false
      else Consented(log[..|log| - 1], c)
  }

  lemma LogAppend(log: seq<Happening>, h: Happening)
    ensures forall c :: Stopped(log + [h], c) ==
                        (if h == CallsStopped(c) then true else if h == CallsResumed(c) then false else Stopped(log, c))
    ensures forall c :: Consented(log + [h], c) ==
                        (if h == ConsentGiven(c) then true else if h == ConsentWithdrawn(c) then false
                         else Consented(log, c))
  {
    assert (log + [h])[..|log|] == log;
  }

  /** Every dial found calls not stopped and a consent given. */
  ghost predicate DialsAllowed(log: seq<Happening>) {
    forall k :: 0 <= k < |log| && log[k].Dialed? ==> DialAllowed(log, k)
  }

  ghost predicate DialAllowed(log: seq<Happening>, k: nat)
    requires k < |log| && log[k].Dialed?
  {
    !Stopped(log[..k], log[k].caseId) && Consented(log[..k], log[k].caseId)
  }

  lemma DialsAllowedAppend(log: seq<Happening>, h: Happening)
    requires DialsAllowed(log)
    requires h.Dialed? ==> !Stopped(log, h.caseId) && Consented(log, h.caseId)
    ensures DialsAllowed(log + [h])
  {
    forall k | 0 <= k < |log + [h]| && (log + [h])[k].Dialed? ensures DialAllowed(log + [h], k) {
      if k < |log| {
        assert (log + [h])[..k] == log[..k];
        assert DialAllowed(log, k);
      } else {
        assert (log + [h])[..k] == log;
      }
    }
  }

  // --- the invariant ---

  ghost predicate RecordOk(r: CaseRecord, nextToken: nat) {
    && (ActiveOptOut(r) <==> r.channel == SmsOnlyMode) && (ActiveOptOut(r) <==> r.optedOutAt.Some?)
    && (forall i, j :: 0 <= i < j < |r.consents| && r.consents[i].granted && r.consents[j].granted ==>
          r.consents[i].kind != r.consents[j].kind)
    && (forall i :: 0 <= i < |r.consents| && r.consents[i].kind == CallbackConsent ==> r.consents[i].token.Some?)
    && (forall i :: 0 <= i < |r.consents| && r.consents[i].token.Some? ==> r.consents[i].token.value < nextToken)
  }

  ghost predicate RecordsOk(cases: map<nat, CaseRecord>, nextToken: nat) {
    forall c :: c in cases ==> RecordOk(cases[c], nextToken)
  }

  ghost predicate LinksOk(callbacks: seq<Callback>, known: set<nat>, calls: nat) {
    forall i :: 0 <= i < |callbacks| ==>
      callbacks[i].caseId in known && (callbacks[i].call.Some? ==> callbacks[i].call.value < calls)
  }

  predicate MayBeCalled(r: CaseRecord) {
    !ActiveOptOut(r) && Granted(r, CallbackConsent)
  }

  /** A callback is open only while its case may be called; the cases in but are set aside. */
  ghost predicate OpenOk(cases: map<nat, CaseRecord>, callbacks: seq<Callback>, but: set<nat>) {
    forall i :: 0 <= i < |callbacks| && Open(callbacks[i].status) && callbacks[i].caseId !in but ==>
      callbacks[i].caseId in cases && MayBeCalled(cases[callbacks[i].caseId])
  }

  ghost predicate OneScheduled(callbacks: seq<Callback>) {
    forall i, j :: 0 <= i < j < |callbacks| && callbacks[i].status == Scheduled && callbacks[j].status == Scheduled
      ==> callbacks[i].caseId != callbacks[j].caseId
  }

  ghost predicate LogAgrees(cases: map<nat, CaseRecord>, log: seq<Happening>) {
    forall c :: c in cases ==>
      (ActiveOptOut(cases[c]) <==> Stopped(log, c)) && (Granted(cases[c], CallbackConsent) <==> Consented(log, c))
  }

  ghost predicate DialledOnce(log: seq<Happening>, callbacks: seq<Callback>) {
    && (forall k, l :: 0 <= k < l < |log| && log[k].Dialed? && log[l].Dialed? ==> log[k].callback != log[l].callback)
    && (forall k :: 0 <= k < |log| && log[k].Dialed? ==>
          log[k].callback < |callbacks| && callbacks[log[k].callback].status != Scheduled)
  }

  /** Each callback tells updates asked for its case, oldest first. */
  ghost predicate TellsInOrder(cb: Callback, asked: seq<(nat, Reason)>) {
    && (forall i :: 0 <= i < |cb.reasons| ==> cb.reasons[i] < |asked| && asked[cb.reasons[i]].0 == cb.caseId)
    && (forall i, j :: 0 <= i < j < |cb.reasons| ==> cb.reasons[i] < cb.reasons[j])
  }

  ghost predicate ToldBy(callbacks: seq<Callback>, k: nat, n: nat) {
    k < |callbacks| && n in callbacks[k].reasons
  }

  ghost predicate Told(callbacks: seq<Callback>, n: nat) {
    exists k: nat :: ToldBy(callbacks, k, n)
  }

  /** Every update asked for is told by exactly one callback. */
  ghost predicate ToldOnce(callbacks: seq<Callback>, asked: seq<(nat, Reason)>) {
    && (forall k :: 0 <= k < |callbacks| ==> TellsInOrder(callbacks[k], asked))
    && (forall n: nat :: n < |asked| ==> Told(callbacks, n))
    && (forall k: nat, l: nat, n: nat :: ToldBy(callbacks, k, n) && ToldBy(callbacks, l, n) ==> k == l)
  }

  ghost predicate DeskOkBut(d: Desk, but: set<nat>) {
    && RecordsOk(d.cases, d.nextToken) && LinksOk(d.callbacks, d.cases.Keys, |d.calls|)
    && OpenOk(d.cases, d.callbacks, but) && OneScheduled(d.callbacks) && LogAgrees(d.cases, d.log)
    && DialsAllowed(d.log) && DialledOnce(d.log, d.callbacks) && ToldOnce(d.callbacks, d.asked)
  }

  ghost predicate DeskOk(d: Desk) {
    DeskOkBut(d, {})
  }

  /** Callbacks are never removed or moved to another case, and a callback that is no longer open stays as it is. */
  ghost predicate Absorbs(d: Desk, r: Desk) {
    && |d.callbacks| <= |r.callbacks| && d.log <= r.log && d.asked <= r.asked
    && forall i :: 0 <= i < |d.callbacks| ==>
         r.callbacks[i].caseId == d.callbacks[i].caseId && d.callbacks[i].reasons <= r.callbacks[i].reasons
         && (!Open(d.callbacks[i].status) ==>
               r.callbacks[i].status == d.callbacks[i].status && r.callbacks[i].reasons == d.callbacks[i].reasons)
  }

  // --- changes that only close callbacks ---

  /** Open callbacks may be closed and calls may change; nothing else does. */
  ghost predicate Closes(d: Desk, r: Desk) {
    && r == d.(callbacks := r.callbacks, calls := r.calls) && |r.callbacks| == |d.callbacks| && |d.calls| <= |r.calls|
    && forall i :: 0 <= i < |d.callbacks| ==>
         && r.callbacks[i] == d.callbacks[i].(status := r.callbacks[i].status, call := r.callbacks[i].call)
         && (r.callbacks[i].call.Some? ==>
               r.callbacks[i].call.value < |r.calls| || r.callbacks[i].call == d.callbacks[i].call)
         && (r.callbacks[i].status != d.callbacks[i].status ==>
               Open(d.callbacks[i].status) && !Open(r.callbacks[i].status))
  }

  lemma ClosesTransitive(d: Desk, m: Desk, r: Desk)
    requires Closes(d, m) && Closes(m, r)
    ensures Closes(d, r)
  {
  }

  lemma ClosingKeeps(d: Desk, r: Desk, but: set<nat>)
    requires DeskOkBut(d, but) && Closes(d, r)
    ensures DeskOkBut(r, but) && Absorbs(d, r)
  {
    hide ToldOnce, DialledOnce, DialsAllowed, LogAgrees, RecordsOk;
    ClosingTells(d, r);
    ClosingDials(d, r);
  }

  lemma ClosingDials(d: Desk, r: Desk)
    requires DialledOnce(d.log, d.callbacks) && Closes(d, r)
    ensures DialledOnce(r.log, r.callbacks)
  {
  }

  lemma ClosingTells(d: Desk, r: Desk)
    requires ToldOnce(d.callbacks, d.asked) && Closes(d, r)
    ensures ToldOnce(r.callbacks, r.asked)
  {
    forall k: nat, n: nat ensures ToldBy(d.callbacks, k, n) <==> ToldBy(r.callbacks, k, n) {}
    forall k | 0 <= k < |r.callbacks| ensures TellsInOrder(r.callbacks[k], r.asked) {
      assert TellsInOrder(d.callbacks[k], d.asked);
    }
    forall n: nat | n < |r.asked| ensures Told(r.callbacks, n) {
      assert Told(d.callbacks, n);
      var k: nat :| ToldBy(d.callbacks, k, n);
      assert ToldBy(r.callbacks, k, n);
    }
  }

  /** After cancel_pending no callback of the case is open. */
  lemma {:induction false} CancelCloses(d: Desk, c: nat, k: nat)
    requires k <= |d.callbacks|
    ensures Closes(d, CancelBelow(d, c, k))
    ensures forall i :: 0 <= i < k && CancelBelow(d, c, k).callbacks[i].caseId == c ==>
              !Open(CancelBelow(d, c, k).callbacks[i].status)
    ensures forall i :: k <= i < |d.callbacks| ==> CancelBelow(d, c, k).callbacks[i] == d.callbacks[i]
  {
    if k > 0 {
      CancelCloses(d, c, k - 1);
      var before := CancelBelow(d, c, k - 1);
      assert Closes(before, CancelBelow(d, c, k));
      ClosesTransitive(d, before, CancelBelow(d, c, k));
    }
  }

  lemma CancellingRestores(d: Desk, c: nat)
    requires DeskOkBut(d, {c})
    ensures DeskOk(CancelBelow(d, c, |d.callbacks|)) && Absorbs(d, CancelBelow(d, c, |d.callbacks|))
  {
    hide CancelBelow, Closes, RecordsOk, OneScheduled, LogAgrees, DialsAllowed, DialledOnce, ToldOnce, MayBeCalled;
    CancelCloses(d, c, |d.callbacks|);
    ClosingKeeps(d, CancelBelow(d, c, |d.callbacks|), {c});
  }

  // --- consent ---

  lemma GrantedAfterAppend(r: CaseRecord, consent: Consent, kind: ConsentType)
    ensures Granted(r.(consents := r.consents + [consent]), kind)
            <==> Granted(r, kind) || (consent.kind == kind && consent.granted)
  {
    var more := r.consents + [consent];
    if Granted(r, kind) {
      var i :| 0 <= i < |r.consents| && r.consents[i].kind == kind && r.consents[i].granted;
      assert more[i] == r.consents[i];
    }
    if consent.kind == kind && consent.granted { assert more[|r.consents|] == consent; }
  }

  lemma GrantedAfterRevoke(r: CaseRecord, kind: ConsentType, nextToken: nat)
    requires RecordOk(r, nextToken) && Granted(r, kind)
    ensures RecordOk(Revoked(r, kind), nextToken) && !Granted(Revoked(r, kind), kind)
    ensures forall other :: other != kind ==> (Granted(Revoked(r, kind), other) <==> Granted(r, other))
    ensures ActiveOptOut(Revoked(r, kind)) <==> ActiveOptOut(r)
  {
    var i := ActiveConsent(r.consents, kind);
    forall other | other != kind ensures Granted(Revoked(r, kind), other) <==> Granted(r, other) {
      if Granted(r, other) {
        var j :| 0 <= j < |r.consents| && r.consents[j].kind == other && r.consents[j].granted;
        assert Revoked(r, kind).consents[j] == r.consents[j];
      }
    }
  }

  lemma CaptureKeeps(d: Desk, c: nat, kind: ConsentType)
    requires DeskOk(d) && c in d.cases
    ensures DeskOk(Capture(d, c, kind)) && Absorbs(d, Capture(d, c, kind))
    ensures Granted(Capture(d, c, kind).cases[c], kind)
    ensures ActiveOptOut(Capture(d, c, kind).cases[c]) <==> ActiveOptOut(d.cases[c])
  {
    hide ActiveOptOut, Granted, RecordOk, Absorbs, DeskOkBut;
    var r := d.cases[c];
    DeskRecord(d, c);
    if !Granted(r, kind) {
      var consent := Consent(kind, true, if kind == CallbackConsent then Some(d.nextToken) else None);
      var captured := Capture(d, c, kind);
      CaptureRecord(r, consent, d.nextToken);
      GrantedAfterAppend(r, consent, kind);
      GrantedAfterAppend(r, consent, CallbackConsent);
      if kind == CallbackConsent {
        var t := RecordChanges(d, c, captured.cases[c], Some(ConsentGiven(c)), captured.nextToken);
      } else {
        var t := RecordChanges(d, c, captured.cases[c], None, captured.nextToken);
      }
    } else {
      AbsorbsItself(d);
    }
  }

  lemma CaptureRecord(r: CaseRecord, consent: Consent, nextToken: nat)
    requires RecordOk(r, nextToken) && !Granted(r, consent.kind) && consent.granted
    requires consent.token == if consent.kind == CallbackConsent then Some(nextToken) else None
    ensures RecordOk(r.(consents := r.consents + [consent]),
                     if consent.kind == CallbackConsent then nextToken + 1 else nextToken)
    ensures ActiveOptOut(r.(consents := r.consents + [consent])) <==> ActiveOptOut(r)
  {
  }

  lemma LogKeepsDials(log: seq<Happening>, h: Happening, callbacks: seq<Callback>)
    requires DialledOnce(log, callbacks) && !h.Dialed?
    ensures DialledOnce(log + [h], callbacks)
  {
  }

  /** What a happening says of a case: whether calls are stopped, and whether they are consented to. */
  ghost predicate Says(h: Option<Happening>, before: CaseRecord, after: CaseRecord) {
    && (ActiveOptOut(after) <==>
          (if h.Some? && h.value.CallsStopped? then true else if h.Some? && h.value.CallsResumed? then false
           else ActiveOptOut(before)))
    && (Granted(after, CallbackConsent) <==>
          (if h.Some? && h.value.ConsentGiven? then true else if h.Some? && h.value.ConsentWithdrawn? then false
           else Granted(before, CallbackConsent)))
  }

  function Logged(log: seq<Happening>, h: Option<Happening>): seq<Happening> {
    if h.Some? then log + [h.value] else log
  }

  /** A case's record is replaced, and what it says of calling is logged. */
  lemma RecordChanges(d: Desk, c: nat, r: CaseRecord, h: Option<Happening>, nextToken: nat) returns (t: Desk)
    requires DeskOkBut(d, {}) && c in d.cases && d.nextToken <= nextToken && RecordOk(r, nextToken)
    requires h.Some? ==> !h.value.Dialed? && h.value.caseId == c
    requires Says(h, d.cases[c], r)
    ensures t == d.(cases := d.cases[c := r], nextToken := nextToken, log := Logged(d.log, h))
    ensures DeskOkBut(t, {c}) && (MayBeCalled(r) || !MayBeCalled(d.cases[c]) ==> DeskOk(t)) && Absorbs(d, t)
  {
    hide DialsAllowed, DialledOnce, ToldOnce, OneScheduled, Stopped, Consented, ActiveOptOut, Granted, MayBeCalled, Says,
         RecordOk;
    t := d.(cases := d.cases[c := r], nextToken := nextToken, log := Logged(d.log, h));
    assert t.cases.Keys == d.cases.Keys;
    RecordsGrow(d.cases, d.nextToken, c, r, nextToken);
    LogStillAgrees(d.cases, d.log, c, r, h);
    if h.Some? {
      DialsAllowedAppend(d.log, h.value);
      LogKeepsDials(d.log, h.value, d.callbacks);
    }
  }

  lemma RecordsGrow(cases: map<nat, CaseRecord>, token: nat, c: nat, r: CaseRecord, nextToken: nat)
    requires RecordsOk(cases, token) && token <= nextToken && RecordOk(r, nextToken)
    ensures RecordsOk(cases[c := r], nextToken)
  {
    forall x | x in cases ensures RecordOk(cases[x], nextToken) { assert RecordOk(cases[x], token); }
  }

  lemma LogStillAgrees(cases: map<nat, CaseRecord>, log: seq<Happening>, c: nat, r: CaseRecord, h: Option<Happening>)
    requires LogAgrees(cases, log) && c in cases && Says(h, cases[c], r)
    requires h.Some? ==> !h.value.Dialed? && h.value.caseId == c
    ensures LogAgrees(cases[c := r], Logged(log, h))
  {
    hide ActiveOptOut, Granted, Stopped, Consented;
    if h.Some? { LogAppend(log, h.value); }
  }

  lemma RevokeKeeps(d: Desk, c: nat, kind: ConsentType)
    requires DeskOk(d) && c in d.cases
    ensures DeskOk(Revoke(d, c, kind)) && Absorbs(d, Revoke(d, c, kind))
  {
    hide DeskOkBut, CancelBelow, Absorbs, RecordOk, Granted, ActiveOptOut, Revoked;
    if Granted(d.cases[c], kind) {
      DeskRecord(d, c);
      GrantedAfterRevoke(d.cases[c], kind, d.nextToken);
      if kind == CallbackConsent {
        var revoked := RecordChanges(d, c, Revoked(d.cases[c], kind), Some(ConsentWithdrawn(c)), d.nextToken);
        CancellingRestores(revoked, c);
        AbsorbsTransitive(d, revoked, Revoke(d, c, kind));
      } else {
        var revoked := RecordChanges(d, c, Revoked(d.cases[c], kind), None, d.nextToken);
      }
    } else {
      AbsorbsItself(d);
    }
  }

  lemma DeskRecord(d: Desk, c: nat)
    requires DeskOk(d) && c in d.cases
    ensures RecordOk(d.cases[c], d.nextToken)
  {
  }

  lemma AbsorbsItself(d: Desk)
    ensures Absorbs(d, d)
  {
  }

  lemma AbsorbsTransitive(d: Desk, m: Desk, r: Desk)
    requires Absorbs(d, m) && Absorbs(m, r)
    ensures Absorbs(d, r)
  {
  }

  // --- opting out and in ---

  lemma OptOutKeeps(d: Desk, c: nat, now: Time)
    requires DeskOk(d) && c in d.cases
    ensures DeskOk(OptOut(d, c, now)) && Absorbs(d, OptOut(d, c, now))
  {
    hide DeskOkBut, CancelBelow, Absorbs;
    DeskRecord(d, c);
    var r := d.cases[c];
    if !ActiveOptOut(r) {
      var stopped := r.(optOuts := r.optOuts + [true], channel := SmsOnlyMode, optedOutAt := Some(now));
      assert stopped.optOuts[|r.optOuts|];
      var told := RecordChanges(d, c, stopped, Some(CallsStopped(c)), d.nextToken);
      CancellingRestores(told, c);
      AbsorbsTransitive(d, told, OptOut(d, c, now));
    } else {
      AbsorbsItself(d);
    }
  }

  /** Opting in withdraws the old callback consent, captures a new one, and only then allows calls again. */
  lemma OptInKeeps(d: Desk, c: nat)
    requires DeskOk(d) && c in d.cases
    ensures DeskOk(OptIn(d, c)) && Absorbs(d, OptIn(d, c))
    ensures MayBeCalled(OptIn(d, c).cases[c])
  {
    hide ActiveOptOut, Granted, RecordOk, Absorbs, Revoked;
    var r := d.cases[c];
    var back := r.(optOuts := seq(|r.optOuts|, _ => false), channel := Voice, optedOutAt := None);
    OptInRecord(r, d.nextToken);
    var withdrawn := if Granted(back, CallbackConsent) then Revoked(back, CallbackConsent) else back;
    var consent := Consent(CallbackConsent, true, Some(d.nextToken));
    var renewed := withdrawn.(consents := withdrawn.consents + [consent]);
    CaptureRecord(withdrawn, consent, d.nextToken);
    GrantedAfterAppend(withdrawn, consent, CallbackConsent);
    var log := if Granted(back, CallbackConsent) then d.log + [ConsentWithdrawn(c)] else d.log;
    assert OptIn(d, c) == d.(cases := d.cases[c := renewed], nextToken := d.nextToken + 1,
                             log := log + [ConsentGiven(c)] + [CallsResumed(c)]);
    OptInLog(d, c, log, renewed);
  }

  lemma OptInRecord(r: CaseRecord, nextToken: nat)
    requires RecordOk(r, nextToken)
    ensures
      var back := r.(optOuts := seq(|r.optOuts|, _ => false), channel := Voice, optedOutAt := None);
      var withdrawn := if Granted(back, CallbackConsent) then Revoked(back, CallbackConsent) else back;
      RecordOk(withdrawn, nextToken) && !Granted(withdrawn, CallbackConsent) && !ActiveOptOut(withdrawn)
  {
    var back := r.(optOuts := seq(|r.optOuts|, _ => false), channel := Voice, optedOutAt := None);
    if Granted(back, CallbackConsent) { GrantedAfterRevoke(back, CallbackConsent, nextToken); }
  }

  lemma OptInLog(d: Desk, c: nat, log: seq<Happening>, r: CaseRecord)
    requires DeskOk(d) && c in d.cases && (log == d.log || log == d.log + [ConsentWithdrawn(c)])
    requires RecordOk(r, d.nextToken + 1) && MayBeCalled(r)
    ensures
      var t := d.(cases := d.cases[c := r], nextToken := d.nextToken + 1,
                  log := log + [ConsentGiven(c)] + [CallsResumed(c)]);
      DeskOk(t) && Absorbs(d, t)
  {
    hide DialsAllowed, DialledOnce, ToldOnce, OneScheduled, Stopped, Consented, ActiveOptOut, Granted, RecordOk;
    assert d.cases[c := r].Keys == d.cases.Keys;
    RecordsGrow(d.cases, d.nextToken, c, r, d.nextToken + 1);
    if log != d.log {
      LogAppend(d.log, ConsentWithdrawn(c));
      DialsAllowedAppend(d.log, ConsentWithdrawn(c));
      LogKeepsDials(d.log, ConsentWithdrawn(c), d.callbacks);
    }
    LogAppend(log, ConsentGiven(c));
    LogAppend(log + [ConsentGiven(c)], CallsResumed(c));
    DialsAllowedAppend(log, ConsentGiven(c));
    DialsAllowedAppend(log + [ConsentGiven(c)], CallsResumed(c));
    LogKeepsDials(log, ConsentGiven(c), d.callbacks);
    LogKeepsDials(log + [ConsentGiven(c)], CallsResumed(c), d.callbacks);
  }

  // --- requesting ---

  lemma AppendTells(callbacks: seq<Callback>, asked: seq<(nat, Reason)>, cb: Callback, reason: Reason)
    requires ToldOnce(callbacks, asked) && cb.reasons == [|asked|]
    ensures ToldOnce(callbacks + [cb], asked + [(cb.caseId, reason)])
  {
    var more, noted := callbacks + [cb], asked + [(cb.caseId, reason)];
    forall k | 0 <= k < |more| ensures TellsInOrder(more[k], noted) {
      if k < |callbacks| { assert TellsInOrder(callbacks[k], asked); }
    }
    forall k: nat, n: nat ensures ToldBy(more, k, n) <==> ToldBy(callbacks, k, n) || (k == |callbacks| && n == |asked|) {}
    NewNumber(callbacks, asked);
    forall n: nat | n < |noted| ensures Told(more, n) {
      if n < |asked| {
        assert Told(callbacks, n);
        var k: nat :| ToldBy(callbacks, k, n);
        assert ToldBy(more, k, n);
      } else {
        assert ToldBy(more, |callbacks|, n);
      }
    }
  }

  lemma NewNumber(callbacks: seq<Callback>, asked: seq<(nat, Reason)>)
    requires ToldOnce(callbacks, asked)
    ensures forall k: nat :: !ToldBy(callbacks, k, |asked|)
  {
    forall k: nat | k < |callbacks| ensures |asked| !in callbacks[k].reasons {
      assert TellsInOrder(callbacks[k], asked);
    }
  }

  lemma CoalesceTells(callbacks: seq<Callback>, asked: seq<(nat, Reason)>, i: nat, reason: Reason)
    requires ToldOnce(callbacks, asked) && i < |callbacks|
    ensures ToldOnce(callbacks[i := Coalesced(callbacks[i], |asked|, reason)], asked + [(callbacks[i].caseId, reason)])
  {
    var cb := Coalesced(callbacks[i], |asked|, reason);
    var more, noted := callbacks[i := cb], asked + [(callbacks[i].caseId, reason)];
    forall k | 0 <= k < |more| ensures TellsInOrder(more[k], noted) { assert TellsInOrder(callbacks[k], asked); }
    forall k: nat, n: nat ensures ToldBy(more, k, n) <==> ToldBy(callbacks, k, n) || (k == i && n == |asked|) {
      assert n in cb.reasons <==> n in callbacks[i].reasons || n == |asked|;
    }
    NewNumber(callbacks, asked);
    forall n: nat | n < |noted| ensures Told(more, n) {
      if n < |asked| {
        assert Told(callbacks, n);
        var k: nat :| ToldBy(callbacks, k, n);
        assert ToldBy(more, k, n);
      } else {
        assert ToldBy(more, i, n);
      }
    }
  }

  lemma AppendRows(d: Desk, cb: Callback)
    requires DeskOk(d) && cb.caseId in d.cases && cb.call.None?
    requires Open(cb.status) ==> MayBeCalled(d.cases[cb.caseId])
    requires cb.status == Scheduled ==> !HasScheduled(d, cb.caseId)
    ensures
      var more := d.callbacks + [cb];
      LinksOk(more, d.cases.Keys, |d.calls|) && OpenOk(d.cases, more, {}) && OneScheduled(more) && DialledOnce(d.log, more)
  {
    hide ActiveOptOut, Granted, ToldOnce, LogAgrees, DialsAllowed, RecordsOk;
    forall i | 0 <= i < |d.callbacks| && d.callbacks[i].status == Scheduled && cb.status == Scheduled
      ensures d.callbacks[i].caseId != cb.caseId
    {
      assert !IsScheduled(d.callbacks[i], cb.caseId);
    }
  }

  lemma ValidIffGranted(r: CaseRecord, nextToken: nat)
    requires RecordOk(r, nextToken)
    ensures ValidConsent(r) <==> Granted(r, CallbackConsent)
  {
  }

  lemma RequestKeeps(d: Desk, c: nat, reason: Reason, now: Time)
    requires DeskOk(d) && c in d.cases
    ensures DeskOk(Request(d, c, reason, now)) && Absorbs(d, Request(d, c, reason, now))
  {
    hide ActiveOptOut, Granted, ValidConsent, RecordOk, ToldOnce, LogAgrees, DialsAllowed, RecordsOk, HasScheduled,
         ScheduledFor, LinksOk, OpenOk, OneScheduled, DialledOnce;
    DeskRecord(d, c);
    ValidIffGranted(d.cases[c], d.nextToken);
    var n := |d.asked|;
    if MayBeCalled(d.cases[c]) && HasScheduled(d, c) {
      FoundScheduled(d, c);
      var i := ScheduledFor(d.callbacks, c);
      CoalesceTells(d.callbacks, d.asked, i, reason);
      CoalesceRows(d, i, Coalesced(d.callbacks[i], n, reason));
    } else {
      var status := if ActiveOptOut(d.cases[c]) then SmsOnly
                    else if !Granted(d.cases[c], CallbackConsent) then BlockedNoConsent else Scheduled;
      var at := if status == Scheduled then now + COALESCE else now;
      var cb := Fresh(c, reason, n, status, at);
      AppendTells(d.callbacks, d.asked, cb, reason);
      AppendRows(d, cb);
    }
  }

  lemma FoundScheduled(d: Desk, c: nat)
    requires HasScheduled(d, c)
    ensures ScheduledFor(d.callbacks, c) < |d.callbacks| && IsScheduled(d.callbacks[ScheduledFor(d.callbacks, c)], c)
  {
  }

  lemma CoalesceRows(d: Desk, i: nat, cb: Callback)
    requires DeskOk(d) && i < |d.callbacks|
    requires cb == d.callbacks[i].(reasons := cb.reasons, reason := cb.reason, scheduledFor := cb.scheduledFor)
    ensures
      var more := d.callbacks[i := cb];
      LinksOk(more, d.cases.Keys, |d.calls|) && OpenOk(d.cases, more, {}) && OneScheduled(more) && DialledOnce(d.log, more)
  {
    hide ActiveOptOut, Granted, ToldOnce, LogAgrees, DialsAllowed, RecordsOk, MayBeCalled;
  }

  lemma RescheduleKeeps(d: Desk, i: nat, at: Time)
    requires DeskOk(d) && i < |d.callbacks|
    ensures
      var r := d.(callbacks := d.callbacks[i := d.callbacks[i].(scheduledFor := at)]);
      DeskOk(r) && Absorbs(d, r)
  {
    hide ToldOnce, LogAgrees, DialsAllowed, RecordsOk, LinksOk, OpenOk, OneScheduled, DialledOnce;
    var cb := d.callbacks[i].(scheduledFor := at);
    CoalesceRows(d, i, cb);
    SameTells(d.callbacks, d.callbacks[i := cb], d.asked);
  }

  lemma SameTells(callbacks: seq<Callback>, more: seq<Callback>, asked: seq<(nat, Reason)>)
    requires ToldOnce(callbacks, asked) && |more| == |callbacks|
    requires forall k :: 0 <= k < |more| ==>
               more[k].caseId == callbacks[k].caseId && more[k].reasons == callbacks[k].reasons
    ensures ToldOnce(more, asked)
  {
    forall k: nat, n: nat ensures ToldBy(more, k, n) <==> ToldBy(callbacks, k, n) {}
    forall k | 0 <= k < |more| ensures TellsInOrder(more[k], asked) { assert TellsInOrder(callbacks[k], asked); }
    forall n: nat | n < |asked| ensures Told(more, n) {
      assert Told(callbacks, n);
      var k: nat :| ToldBy(callbacks, k, n);
      assert ToldBy(more, k, n);
    }
  }

  lemma TriggerKeeps(d: Desk, c: nat, reason: Reason, now: Time)
    requires DeskOk(d) && c in d.cases
    ensures DeskOk(TriggerNow(d, c, reason, now)) && Absorbs(d, TriggerNow(d, c, reason, now))
  {
    hide DeskOk, Absorbs, Request, ActiveOptOut, ValidConsent, HasScheduled, ScheduledFor;
    RequestKeeps(d, c, reason, now);
    var asked := Request(d, c, reason, now);
    if HasScheduled(asked, c) && !ActiveOptOut(d.cases[c]) && ValidConsent(d.cases[c]) {
      FoundScheduled(asked, c);
      RescheduleKeeps(asked, ScheduledFor(asked.callbacks, c), now);
      AbsorbsTransitive(d, asked, TriggerNow(d, c, reason, now));
    }
  }

  // --- dialling ---

  /** At dial time a scheduled callback always has a consent with a token, and no opt-out: the engine cancels in time. */
  lemma ScheduledMayBeDialled(d: Desk, i: nat)
    requires DeskOk(d) && i < |d.callbacks| && d.callbacks[i].status == Scheduled
    ensures d.callbacks[i].caseId in d.cases
    ensures !ActiveOptOut(d.cases[d.callbacks[i].caseId]) && ValidConsent(d.cases[d.callbacks[i].caseId])
  {
    hide ToldOnce, DialledOnce, DialsAllowed;
    DeskRecord(d, d.callbacks[i].caseId);
    ValidIffGranted(d.cases[d.callbacks[i].caseId], d.nextToken);
  }

  lemma DialKeeps(d: Desk, i: nat, outcome: DialOutcome, now: Time)
    requires DeskOk(d) && i < |d.callbacks| && d.callbacks[i].status == Scheduled && d.callbacks[i].caseId in d.cases
    ensures DeskOk(Dial(d, i, outcome, now)) && Absorbs(d, Dial(d, i, outcome, now))
    ensures forall j :: 0 <= j < |d.callbacks| && j != i ==> Dial(d, i, outcome, now).callbacks[j] == d.callbacks[j]
  {
    hide ActiveOptOut, ValidConsent, DeskOkBut, Absorbs;
    ScheduledMayBeDialled(d, i);
    DialledKeeps(d, i, outcome, now);
  }

  lemma DialledKeeps(d: Desk, i: nat, outcome: DialOutcome, now: Time)
    requires DeskOk(d) && i < |d.callbacks| && d.callbacks[i].status == Scheduled && d.callbacks[i].caseId in d.cases
    requires !ActiveOptOut(d.cases[d.callbacks[i].caseId]) && ValidConsent(d.cases[d.callbacks[i].caseId])
    ensures DeskOk(Dial(d, i, outcome, now)) && Absorbs(d, Dial(d, i, outcome, now))
  {
    hide ActiveOptOut, Granted, ToldOnce, DialsAllowed, RecordsOk, LogAgrees, Stopped, Consented;
    var r := Dial(d, i, outcome, now);
    var c := d.callbacks[i].caseId;
    SameTells(d.callbacks, r.callbacks, d.asked);
    MayDial(d, c);
    DialsAllowedAppend(d.log, Dialed(c, i));
    DialLog(d.cases, d.log, c, i);
  }

  lemma MayDial(d: Desk, c: nat)
    requires DeskOk(d) && c in d.cases && !ActiveOptOut(d.cases[c]) && ValidConsent(d.cases[c])
    ensures !Stopped(d.log, c) && Consented(d.log, c)
  {
  }

  lemma DialLog(cases: map<nat, CaseRecord>, log: seq<Happening>, c: nat, i: nat)
    requires LogAgrees(cases, log)
    ensures LogAgrees(cases, log + [Dialed(c, i)])
  {
    hide ActiveOptOut, Granted, Stopped, Consented;
    LogAppend(log, Dialed(c, i));
  }

  lemma {:induction false} DialBelowKeeps(d: Desk, batch: seq<nat>, outcomes: seq<DialOutcome>, k: nat, now: Time)
    requires DeskOk(d) && DueBatch(d.callbacks, now, batch) && k <= |batch| == |outcomes|
    requires forall i :: 0 <= i < |d.callbacks| ==> d.callbacks[i].caseId in d.cases
    ensures DeskOk(DialBelow(d, batch, outcomes, k, now)) && Absorbs(d, DialBelow(d, batch, outcomes, k, now))
    ensures forall j :: k <= j < |batch| ==>
              DialBelow(d, batch, outcomes, k, now).callbacks[batch[j]] == d.callbacks[batch[j]]
  {
    hide DeskOkBut, Absorbs, Dial, Later;
    if k == 0 {
      AbsorbsItself(d);
    } else {
      DialBelowKeeps(d, batch, outcomes, k - 1, now);
      var before := DialBelow(d, batch, outcomes, k - 1, now);
      DialKeeps(before, batch[k - 1], outcomes[k - 1], now);
      AbsorbsTransitive(d, before, DialBelow(d, batch, outcomes, k, now));
    }
  }

  // --- the end of a call ---

  lemma {:induction false} SweepCloses(d: Desk, k: nat, now: Time)
    requires k <= |d.callbacks|
    ensures Closes(d, SweepBelow(d, k, now))
  {
    if k > 0 {
      SweepCloses(d, k - 1, now);
      var before := SweepBelow(d, k - 1, now);
      assert Closes(before, SweepBelow(d, k, now));
      ClosesTransitive(d, before, SweepBelow(d, k, now));
    }
  }

  lemma FinishCloses(d: Desk, j: nat)
    requires j < |d.calls|
    ensures Closes(d, Finish(d, j))
  {
  }

  lemma EndCloses(d: Desk, j: nat)
    requires End(d, j).Success?
    ensures Closes(d, End(d, j).value)
  {
    hide Finish;
    if d.calls[j].state != Ringing { FinishCloses(d, j); }
  }

  /**
   * Called directly, complete keeps finished callbacks as they are exactly when its own is open, completed or cancelled.
   * Its one caller for live calls looks whether the callback is open, so no call of the source reaches the other case.
   */
  lemma CompleteAbsorbsIff(d: Desk, i: nat)
    requires i < |d.callbacks|
    ensures Absorbs(d, Complete(d, i)) <==>
              Open(d.callbacks[i].status) || d.callbacks[i].status == Completed || d.callbacks[i].status == Cancelled
  {
    var r := Complete(d, i);
    assert r.callbacks[i].status != d.callbacks[i].status ==> r.callbacks[i].status == Completed;
  }

  // --- runs ---

  datatype DeskStep =
    | CaptureConsent(caseId: nat, kind: ConsentType)
    | RevokeConsent(caseId: nat, kind: ConsentType)
    | StopCalling(caseId: nat, now: Time)
    | ResumeCalling(caseId: nat)
    | AskCallback(caseId: nat, reason: Reason, now: Time)
    | AskCallbackNow(caseId: nat, reason: Reason, now: Time)
    | DialDue(batch: seq<nat>, outcomes: seq<DialOutcome>, now: Time)
    | SweepUnanswered(now: Time)
    | AnswerCall(call: nat)
    | EndCall(call: nat)
    | ConversationEnds(call: nat)
    | ResidentCalls
    | TransferCall(call: nat)

  /** A step of the run; one its tables do not allow does nothing. */
  ghost function Perform(d: Desk, step: DeskStep): Desk {
    match step
    case CaptureConsent(c, kind) => if c in d.cases then Capture(d, c, kind) else d
    case RevokeConsent(c, kind) => if c in d.cases then Revoke(d, c, kind) else d
    case StopCalling(c, now) => if c in d.cases then OptOut(d, c, now) else d
    case ResumeCalling(c) => if c in d.cases then OptIn(d, c) else d
    case AskCallback(c, reason, now) => if c in d.cases then Request(d, c, reason, now) else d
    case AskCallbackNow(c, reason, now) => if c in d.cases then TriggerNow(d, c, reason, now) else d
    case DialDue(batch, outcomes, now) =>
      if |batch| == |outcomes| && DueBatch(d.callbacks, now, batch)
         && forall i :: 0 <= i < |d.callbacks| ==> d.callbacks[i].caseId in d.cases
      then DialBelow(d, batch, outcomes, |batch|, now) else d
    case SweepUnanswered(now) => SweepBelow(d, |d.callbacks|, now)
    case AnswerCall(j) => if Answer(d, j).Success? then Answer(d, j).value else d
    case EndCall(j) => if End(d, j).Success? then End(d, j).value else d
    case ConversationEnds(j) => if j < |d.calls| then Finish(d, j) else d
    case ResidentCalls => StartCall(d)
    case TransferCall(j) => if j < |d.calls| then Transfer(d, j) else d
  }

  lemma PerformKeeps(d: Desk, step: DeskStep)
    requires DeskOk(d)
    ensures DeskOk(Perform(d, step)) && Absorbs(d, Perform(d, step))
  {
    hide DeskOkBut, Absorbs, Capture, Revoke, OptOut, OptIn, Request, TriggerNow, DialBelow, SweepBelow, End, Finish,
         DueBatch;
    AbsorbsItself(d);
    match step {
      case CaptureConsent(c, kind) => if c in d.cases { CaptureKeeps(d, c, kind); }
      case RevokeConsent(c, kind) => if c in d.cases { RevokeKeeps(d, c, kind); }
      case StopCalling(c, now) => if c in d.cases { OptOutKeeps(d, c, now); }
      case ResumeCalling(c) => if c in d.cases { OptInKeeps(d, c); }
      case AskCallback(c, reason, now) => if c in d.cases { RequestKeeps(d, c, reason, now); }
      case AskCallbackNow(c, reason, now) => if c in d.cases { TriggerKeeps(d, c, reason, now); }
      case DialDue(batch, outcomes, now) =>
        if Perform(d, step) != d { DialBelowKeeps(d, batch, outcomes, |batch|, now); }
      case SweepUnanswered(now) =>
        SweepCloses(d, |d.callbacks|, now);
        ClosingKeeps(d, Perform(d, step), {});
      case EndCall(j) =>
        if End(d, j).Success? {
          EndCloses(d, j);
          ClosingKeeps(d, End(d, j).value, {});
        }
      case ConversationEnds(j) =>
        if j < |d.calls| {
          FinishCloses(d, j);
          ClosingKeeps(d, Finish(d, j), {});
        }
      case _ => ClosingKeeps(d, Perform(d, step), {});
    }
  }

  /** Cases as intake leaves them: calls not stopped, nothing captured yet, no callback. */
  ghost predicate Untouched(d: Desk) {
    && d.callbacks == [] && d.calls == [] && d.asked == [] && d.log == []
    && forall c :: c in d.cases ==> d.cases[c] == CaseRecord(Voice, None, [], [])
  }

  lemma UntouchedOk(d: Desk)
    requires Untouched(d)
    ensures DeskOk(d)
  {
  }

  /** The desks a run passes through. */
  ghost predicate Visits(steps: seq<DeskStep>, desks: seq<Desk>) {
    |desks| == |steps| + 1
    && forall k {:trigger steps[k]} :: 0 <= k < |steps| ==> Leads(desks[k], steps[k], desks[k + 1])
  }

  ghost predicate Leads(d: Desk, step: DeskStep, r: Desk) {
    r == Perform(d, step)
  }

  ghost predicate Runs(d: Desk, steps: seq<DeskStep>, r: Desk) {
    exists desks :: Visits(steps, desks) && desks[0] == d && desks[|steps|] == r
  }

  /** The desks the callback engine may come to from cases as intake leaves them. */
  ghost predicate Reachable(r: Desk) {
    exists d, steps :: Untouched(d) && Runs(d, steps, r)
  }

  lemma {:induction false} VisitsOk(steps: seq<DeskStep>, desks: seq<Desk>, n: nat)
    requires Visits(steps, desks) && n <= |steps| && DeskOk(desks[0])
    ensures DeskOk(desks[n]) && Absorbs(desks[0], desks[n])
  {
    hide DeskOkBut, Absorbs, Perform;
    if n == 0 {
      AbsorbsItself(desks[0]);
    } else {
      VisitsOk(steps, desks, n - 1);
      assert Leads(desks[n - 1], steps[n - 1], desks[n]);
      PerformKeeps(desks[n - 1], steps[n - 1]);
      AbsorbsTransitive(desks[0], desks[n - 1], desks[n]);
    }
  }

  lemma RunsOk(d: Desk, steps: seq<DeskStep>, r: Desk)
    requires DeskOk(d) && Runs(d, steps, r)
    ensures DeskOk(r) && Absorbs(d, r)
  {
    hide DeskOkBut, Absorbs, Leads;
    var desks :| Visits(steps, desks) && desks[0] == d && desks[|steps|] == r;
    VisitsOk(steps, desks, |steps|);
  }

  lemma ReachableOk(r: Desk)
    requires Reachable(r)
    ensures DeskOk(r)
  {
    hide DeskOkBut, Absorbs, Runs, Untouched;
    var d, steps :| Untouched(d) && Runs(d, steps, r);
    UntouchedOk(d);
    RunsOk(d, steps, r);
  }

  // --- main results ---

  /** Between the resident's asking for calls to stop and their resuming no call is placed. */
  lemma NoDialAfterOptOut(r: Desk, k: nat, l: nat) returns (m: nat)
    requires Reachable(r) && k < l < |r.log| && r.log[l].Dialed? && r.log[k] == CallsStopped(r.log[l].caseId)
    ensures k < m < l && r.log[m] == CallsResumed(r.log[l].caseId)
  {
    hide Reachable, Stopped, Consented;
    ReachableOk(r);
    assert DialAllowed(r.log, l);
    ResumedBetween(r.log[..l], k, r.log[l].caseId);
    m :| k < m < l && r.log[..l][m] == CallsResumed(r.log[l].caseId);
  }

  lemma {:induction false} ResumedBetween(log: seq<Happening>, k: nat, c: nat)
    requires k < |log| && log[k] == CallsStopped(c) && !Stopped(log, c)
    ensures exists m :: k < m < |log| && log[m] == CallsResumed(c)
  {
    var last := |log| - 1;
    if log[last] == CallsResumed(c) {
      assert k < last;
    } else {
      ResumedBetween(log[..last], k, c);
      var m :| k < m < last && log[..last][m] == CallsResumed(c);
      assert log[m] == CallsResumed(c);
    }
  }

  /** Between the withdrawal of a callback consent and the next one no call is placed. */
  lemma NoDialAfterRevoke(r: Desk, k: nat, l: nat) returns (m: nat)
    requires Reachable(r) && k < l < |r.log| && r.log[l].Dialed? && r.log[k] == ConsentWithdrawn(r.log[l].caseId)
    ensures k < m < l && r.log[m] == ConsentGiven(r.log[l].caseId)
  {
    hide Reachable, Stopped, Consented;
    ReachableOk(r);
    assert DialAllowed(r.log, l);
    GivenBetween(r.log[..l], k, r.log[l].caseId);
    m :| k < m < l && r.log[..l][m] == ConsentGiven(r.log[l].caseId);
  }

  lemma {:induction false} GivenBetween(log: seq<Happening>, k: nat, c: nat)
    requires k < |log| && log[k] == ConsentWithdrawn(c) && Consented(log, c)
    ensures exists m :: k < m < |log| && log[m] == ConsentGiven(c)
  {
    var last := |log| - 1;
    if log[last] == ConsentGiven(c) {
      assert k < last;
    } else {
      GivenBetween(log[..last], k, c);
      var m :| k < m < last && log[..last][m] == ConsentGiven(c);
      assert log[m] == ConsentGiven(c);
    }
  }

  /** No callback is dialled twice. */
  lemma DialledAtMostOnce(r: Desk, k: nat, l: nat)
    requires Reachable(r) && k < l < |r.log| && r.log[k].Dialed? && r.log[l].Dialed?
    ensures r.log[k].callback != r.log[l].callback
  {
    hide Reachable;
    ReachableOk(r);
  }

  /** When it is dialled a scheduled callback always has a consent with a token and no opt-out: it is cancelled in time. */
  lemma DialTimeCheckAlwaysPasses(r: Desk, i: nat)
    requires Reachable(r) && i < |r.callbacks| && r.callbacks[i].status == Scheduled
    ensures r.callbacks[i].caseId in r.cases
    ensures !ActiveOptOut(r.cases[r.callbacks[i].caseId]) && ValidConsent(r.cases[r.callbacks[i].caseId])
  {
    hide Reachable, DeskOkBut, ActiveOptOut, ValidConsent;
    ReachableOk(r);
    ScheduledMayBeDialled(r, i);
  }

  /** A callback that is no longer open keeps its status and its updates for good. */
  lemma FinalStatusesAbsorb(d: Desk, steps: seq<DeskStep>, r: Desk, i: nat)
    requires Reachable(d) && Runs(d, steps, r) && i < |d.callbacks| && !Open(d.callbacks[i].status)
    ensures i < |r.callbacks| && r.callbacks[i].status == d.callbacks[i].status
    ensures r.callbacks[i].reasons == d.callbacks[i].reasons
  {
    hide Reachable, Runs, DeskOkBut;
    ReachableOk(d);
    RunsOk(d, steps, r);
  }

  /** Coalescing loses and repeats nothing: each update is told by exactly one callback, of its case, in order. */
  lemma EveryUpdateIsToldOnce(r: Desk, n: nat) returns (k: nat)
    requires Reachable(r) && n < |r.asked|
    ensures ToldBy(r.callbacks, k, n) && r.callbacks[k].caseId == r.asked[n].0 && TellsInOrder(r.callbacks[k], r.asked)
    ensures forall l: nat :: ToldBy(r.callbacks, l, n) ==> l == k
  {
    hide Reachable;
    ReachableOk(r);
    assert Told(r.callbacks, n);
    k :| ToldBy(r.callbacks, k, n);
    assert TellsInOrder(r.callbacks[k], r.asked);
    var i :| 0 <= i < |r.callbacks[k].reasons| && r.callbacks[k].reasons[i] == n;
  }

  /** A case has at most one scheduled callback. */
  lemma AtMostOneScheduled(r: Desk, i: nat, j: nat)
    requires Reachable(r) && i < j < |r.callbacks|
    requires r.callbacks[i].status == Scheduled && r.callbacks[j].status == Scheduled
    ensures r.callbacks[i].caseId != r.callbacks[j].caseId
  {
    hide Reachable;
    ReachableOk(r);
  }

  /** An active opt-out is the SMS-only channel is the opt-out time, and leaves no callback open. */
  lemma OptOutIsOneState(r: Desk, c: nat)
    requires Reachable(r) && c in r.cases
    ensures ActiveOptOut(r.cases[c]) <==> r.cases[c].channel == SmsOnlyMode
    ensures ActiveOptOut(r.cases[c]) <==> r.cases[c].optedOutAt.Some?
    ensures forall i :: 0 <= i < |r.callbacks| && r.callbacks[i].caseId == c && Open(r.callbacks[i].status) ==>
              !ActiveOptOut(r.cases[c])
  {
    hide Reachable, Granted;
    ReachableOk(r);
    assert RecordOk(r.cases[c], r.nextToken);
  }

  /** A case has at most one granted consent of each type. */
  lemma OneConsentPerType(r: Desk, c: nat, i: nat, j: nat)
    requires Reachable(r) && c in r.cases && i < j < |r.cases[c].consents|
    requires r.cases[c].consents[i].granted && r.cases[c].consents[j].granted
    ensures r.cases[c].consents[i].kind != r.cases[c].consents[j].kind
  {
    hide Reachable;
    ReachableOk(r);
    assert RecordOk(r.cases[c], r.nextToken);
  }

  predicate Carries(r: CaseRecord, token: nat) {
    exists i :: 0 <= i < |r.consents| && r.consents[i].token == Some(token)
  }

  /** Opting in leaves a valid callback consent with a token that no consent of any case has carried before. */
  lemma OptInIssuesFreshToken(d: Desk, c: nat)
    requires Reachable(d) && c in d.cases
    ensures
      var r := OptIn(d, c).cases[c];
      Granted(r, CallbackConsent) && r.consents[ActiveConsent(r.consents, CallbackConsent)].token == Some(d.nextToken)
    ensures forall x :: x in d.cases ==> !Carries(d.cases[x], d.nextToken)
  {
    hide Reachable;
    ReachableOk(d);
    var r := d.cases[c];
    DeskRecord(d, c);
    var back := r.(optOuts := seq(|r.optOuts|, _ => false), channel := Voice, optedOutAt := None);
    OptInRecord(r, d.nextToken);
    var withdrawn := if Granted(back, CallbackConsent) then Revoked(back, CallbackConsent) else back;
    GrantedAfterAppend(withdrawn, Consent(CallbackConsent, true, Some(d.nextToken)), CallbackConsent);
  }
}
