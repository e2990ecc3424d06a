/** The document centre, escalations, the consulate, the watchdog and the consumers keep the invariant. */
module CaseConsumerSafety {
  import opened Wrappers
  import opened StateMachine
  import opened LifeEventGraph
  import opened CaseModel
  import opened CaseServices
  import opened CaseEvolution
  import opened CaseInvariants
  import opened CaseSteps
  import opened CaseFilingSteps
  import opened CaseServiceSafety

  // --- document centre ---

  lemma ResumeSafe(s: CaseState, i: nat, now: Time) returns (t: CaseState)
    requires Inv(s, None) && i < |s.nodes| && Resume(s, i, now).Success?
    ensures t == Resume(s, i, now).value
    ensures Sound(s, t) && Inv(t, None)
  {
    hide Transition, RequestApproval, Sound, Evolves;
    if s.nodes[i].state != NodeState.DocumentMissing || MissingForNode(s, i) != [] {
      t := s;
      SoundReflexive(s);
    } else if s.nodes[i].spec.kind == ParentReported {
      t := TransitionKeeps(s, None, i, WaitingForParent, None, NoStall, now);
    } else {
      t := RequestApprovalSafe(s, i, now);
    }
  }

  lemma {:induction false} ResumeAfterDocumentsSafe(s: CaseState, k: nat, now: Time) returns (t: CaseState)
    requires Inv(s, None) && k <= |s.nodes| && ResumeAfterDocuments(s, k, now).Success?
    ensures t == ResumeAfterDocuments(s, k, now).value
    ensures Sound(s, t) && Inv(t, None)
  {
    hide Resume, Sound;
    if k == 0 {
      t := s;
      SoundReflexive(s);
    } else {
      var before := ResumeAfterDocumentsSafe(s, k - 1, now);
      t := ResumeSafe(before, k - 1, now);
      SoundTransitive(s, before, t);
    }
  }

  lemma DocKeeps(s: CaseState, d: DocType, doc: Document) returns (t: CaseState)
    requires Inv(s, None)
    ensures t == s.(docs := s.docs[d := doc])
    ensures Inv(t, None) && Evolves(s, t) && Orderly(s, t)
    ensures !HeldFromAuthority(doc) || Produced(s, d) || (d in s.docs && HeldFromAuthority(s.docs[d])) ==> Sound(s, t)
  {
    t := s.(docs := s.docs[d := doc]);
    SideRowsKeep(s, None, t);
    InvWithin(s);
    if Produced(s, d) { ProducedStays(s, t, d); }
  }

  lemma UploadSafe(s: CaseState, d: DocType, now: Time) returns (t: CaseState)
    requires Inv(s, None) && Upload(s, d, now).Success?
    ensures t == Upload(s, d, now).value
    ensures Sound(s, t) && Inv(t, None)
  {
    hide ResumeAfterDocuments, Sound, Inv, IsOutput, Evolves, Orderly;
    var stored := DocKeeps(s, d, Document(Uploaded, Resident));
    var told := EmitKeeps(stored, None, DocumentUploaded(d));
    t := ResumeAfterDocumentsSafe(told, |s.nodes|, now);
    SoundTransitive(s, stored, told);
    SoundTransitive(s, told, t);
  }

  lemma VerifySafe(s: CaseState, d: DocType, officer: Officer) returns (t: CaseState)
    requires Inv(s, None) && Verify(s, d, officer).Success?
    ensures t == Verify(s, d, officer).value
    ensures Sound(s, t) && Inv(t, None)
  {
    hide Sound, Inv, Evolves, Orderly;
    var checked := DocKeeps(s, d, s.docs[d].(status := Verified));
    t := EmitKeeps(checked, None, DocumentVerified(d));
    SoundTransitive(s, checked, t);
  }

  /** A document status an officer may set without claiming that an authority issued the document. */
  predicate Modest(s: CaseState, d: DocType, status: DocumentStatus)
    requires d in s.docs
  {
    HeldFromAuthority(s.docs[d].(status := status)) ==> HeldFromAuthority(s.docs[d])
  }

  /** Documents other than those in but are newly held from an authority only when produced. */
  ghost predicate DocsJustifiedBut(s: CaseState, t: CaseState, but: set<DocType>) {
    forall d :: d in t.docs && d !in but && HeldFromAuthority(t.docs[d])
      ==> Produced(t, d) || (d in s.docs && HeldFromAuthority(s.docs[d]))
  }

  lemma SetStatusSafe(s: CaseState, d: DocType, status: DocumentStatus, officer: Officer, now: Time)
    returns (t: CaseState)
    requires Inv(s, None) && SetStatus(s, d, status, officer, now).Success?
    ensures t == SetStatus(s, d, status, officer, now).value && d in s.docs
    ensures Evolves(s, t) && Orderly(s, t) && Inv(t, None)
    ensures Modest(s, d, status) || Produced(s, d) ==> Sound(s, t)
    ensures DocsJustifiedBut(s, t, {d})
  {
    hide ResumeAfterDocuments, Sound, Inv, HeldFromAuthority, Evolves, Orderly, DocsJustifiedBut;
    var changed := DocKeeps(s, d, s.docs[d].(status := status));
    t := changed;
    InvWithin(s);
    if status == NotApplicable || status == Uploaded || status == Verified {
      t := ResumeAfterDocumentsSafe(changed, |s.nodes|, now);
      ThenSound(s, changed, t);
      SetStatusDocs(s, changed, t, d);
    } else {
      SoundReflexiveFrom(s, changed);
      SetStatusDocs(s, changed, t, d);
    }
  }

  lemma SoundReflexiveFrom(s: CaseState, t: CaseState)
    requires Within(|s.nodes|, s.edges) && Evolves(s, t)
    ensures Sound(t, t)
  {
  }

  lemma SetStatusDocs(s: CaseState, changed: CaseState, t: CaseState, d: DocType)
    requires d in s.docs && d in changed.docs && changed.docs == s.docs[d := changed.docs[d]] && Sound(changed, t)
    ensures DocsJustifiedBut(s, t, {d})
  {
  }

  lemma ThenSound(s: CaseState, t: CaseState, u: CaseState)
    requires Within(|s.nodes|, s.edges) && Evolves(s, t) && Orderly(s, t) && Sound(t, u)
    ensures Evolves(s, u) && Orderly(s, u) && (Sound(s, t) ==> Sound(s, u))
  {
    EvolvesTransitive(s, t, u);
    OrderlyTransitive(s, t, u);
    if Sound(s, t) { SoundTransitive(s, t, u); }
  }

  // --- escalations ---

  lemma EscalateSafe(s: CaseState, reason: EscalationReason, node: Option<nat>, warmTransfer: bool)
    returns (t: CaseState)
    requires Inv(s, None)
    ensures t == Escalate(s, reason, node, warmTransfer) && SameNodes(s, t)
    ensures Sound(s, t) && Inv(t, None)
  {
    hide Inv, OpenFor, Refresh;
    InvWithin(s);
    if OpenFor(s, reason, node) {
      t := s;
      SoundReflexive(s);
    } else {
      var raised := s.(escalations := s.escalations + [Escalation(reason, node, Open)]);
      EscalationsSound(s, raised);
      hide Sound, Evolves, Orderly;
      var told := EmitKeeps(raised, None, HumanEscalationRequired(|s.escalations|, warmTransfer));
      t := RefreshKeeps(told, None);
      SoundTransitive(s, raised, told);
      SoundTransitive(s, told, t);
    }
  }

  lemma EscalationsSound(s: CaseState, t: CaseState)
    requires Inv(s, None) && t == s.(escalations := t.escalations) && |s.escalations| <= |t.escalations|
    ensures Sound(s, t) && Inv(t, None)
  {
    hide Evolves, Orderly, RecordsOk, CompletionOk, KeysOnce, Gated, Conserved, RequestsOk, StatusesOk, EventsOk,
         ProvenanceOk, Untouched, DecisionsOk;
    SideRowsKeep(s, None, t);
  }

  lemma ResolveSafe(s: CaseState, k: nat, officer: Officer) returns (t: CaseState)
    requires Inv(s, None) && Resolve(s, k, officer).Success?
    ensures t == Resolve(s, k, officer).value
    ensures Sound(s, t) && Inv(t, None)
  {
    hide Inv, Refresh, Sound;
    var resolved := s.(escalations := s.escalations[k := s.escalations[k].(status := Resolved)]);
    EscalationsSound(s, resolved);
    var told := EmitKeeps(resolved, None, EscalationResolved(k));
    t := RefreshKeeps(told, None);
    SoundTransitive(s, resolved, told);
    SoundTransitive(s, told, t);
  }

  lemma TakeSafe(s: CaseState, k: nat, officer: Officer) returns (t: CaseState)
    requires Inv(s, None) && Take(s, k, officer).Success?
    ensures t == Take(s, k, officer).value
    ensures Sound(s, t) && Inv(t, None)
  {
    hide Inv, Sound;
    t := Take(s, k, officer).value;
    EscalationsSound(s, t);
  }

  // --- consulate ---

  lemma ExpectPassportKeeps(s: CaseState) returns (t: CaseState)
    requires Inv(s, None)
    ensures t == ExpectPassport(s)
    ensures Sound(s, t) && Inv(t, None)
  {
    hide Inv;
    t := s;
    InvWithin(s);
    if ExpectPassport(s) != s {
      hide Sound, Evolves, Orderly;
      t := DocKeeps(s, CHILD_PASSPORT, s.docs[CHILD_PASSPORT].(status := Required));
    } else {
      SoundReflexive(s);
    }
  }

  lemma MoveOnReportSafe(s: CaseState, i: nat, m: Milestone, now: Time) returns (t: CaseState)
    requires Inv(s, None) && i < |s.nodes| && s.nodes[i].state != Pending && MoveOnReport(s, i, m, now).Success?
    requires m == PassportIssued ==> Justified(s, i)
    ensures t == MoveOnReport(s, i, m, now).value
    ensures Sound(s, t) && Inv(t, None)
  {
    hide Transition, Sound, Evolves, Justified, Inv, Escalate, ExpectPassport;
    InvWithin(s);
    if m == Delayed {
      var reason := Some("Parent reports no progress at the consulate");
      var moved := TransitionKeeps(s, None, i, Stalled, reason, ConsulateKind, now);
      t := EscalateSafe(moved, ConsulateStall, Some(i), false);
      SoundTransitive(s, moved, t);
    } else {
      var moved := s;
      if MilestoneState(m) != s.nodes[i].state {
        moved := TransitionKeeps(s, None, i, MilestoneState(m), None, NoStall, now);
      } else {
        SoundReflexive(s);
      }
      t := moved;
      if m == PassportIssued {
        t := ExpectPassportKeeps(moved);
        SoundTransitive(s, moved, t);
      }
    }
  }

  lemma ReportSafe(s: CaseState, m: Milestone, present: bool, now: Time) returns (t: CaseState)
    requires Inv(s, None) && ReportMilestone(s, m, present, now).Success?
    ensures t == ReportMilestone(s, m, present, now).value
    ensures Sound(s, t) && Inv(t, None)
  {
    hide Sound, Inv, MoveOnReport;
    InvRows(s, None);
    var i := s.consulate.value;
    var noted := ReportKeeps(s, None, i, MilestoneReport(m, present));
    var told := EmitKeeps(noted, None, ConsulateMilestoneReported(m));
    SoundTransitive(s, noted, told);
    if m == PassportIssued { ReportJustifies(told, i); }
    t := MoveOnReportSafe(told, i, m, now);
    SoundTransitive(s, told, t);
  }

  lemma ReportJustifies(s: CaseState, i: nat)
    requires Inv(s, None) && s.consulate == Some(i) && i < |s.nodes| && s.nodes[i].spec.kind == ParentReported
    requires PassportReported(s.nodes[i])
    ensures Justified(s, i)
  {
  }

  // --- watchdog ---

  lemma StallIfOverdueSafe(s: CaseState, i: nat, now: Time) returns (t: CaseState)
    requires Inv(s, None) && i < |s.nodes| && StallIfOverdue(s, i, now).Success?
    ensures t == StallIfOverdue(s, i, now).value
    ensures Sound(s, t) && Inv(t, None)
  {
    hide Transition, Sound, Evolves;
    t := s;
    if Overdue(s.nodes[i], now) {
      var reason := Some("Past the expected hours - not cleared yet");
      t := TransitionKeeps(s, None, i, Stalled, reason, SlaKind, now);
    } else {
      SoundReflexive(s);
    }
  }

  lemma {:induction false} StallOverdueSafe(s: CaseState, k: nat, now: Time) returns (t: CaseState)
    requires Inv(s, None) && k <= |s.nodes| && StallOverdue(s, k, now).Success?
    ensures t == StallOverdue(s, k, now).value
    ensures Sound(s, t) && Inv(t, None)
  {
    hide StallIfOverdue, Sound;
    if k == 0 {
      t := s;
      SoundReflexive(s);
    } else {
      var before := StallOverdueSafe(s, k - 1, now);
      t := StallIfOverdueSafe(before, k - 1, now);
      SoundTransitive(s, before, t);
    }
  }

  lemma WatchdogSafe(s: CaseState, silent: bool, now: Time) returns (t: CaseState)
    requires Inv(s, None) && Watchdog(s, silent, now).Success?
    ensures t == Watchdog(s, silent, now).value
    ensures Sound(s, t) && Inv(t, None)
  {
    hide Sound, Inv, StallOverdue, Escalate;
    InvRows(s, None);
    var stalled := StallOverdueSafe(s, |s.nodes|, now);
    t := Watchdog(s, silent, now).value;
    if t != stalled {
      t := EscalateSafe(stalled, ConsulateStall, s.consulate, false);
      SoundTransitive(s, stalled, t);
    }
  }

  // --- orchestrator ---

  lemma ActSafe(s: CaseState, i: nat, action: Action, now: Time) returns (t: CaseState)
    requires Inv(s, None) && i < |s.nodes| && DependenciesDone(s, i) && Act(s, i, action, now).Success?
    ensures t == Act(s, i, action, now).value
    ensures Sound(s, t) && Inv(t, None)
  {
    hide Transition, RequestApproval, Sound, Evolves, Titles, DependenciesDone;
    if s.nodes[i].state != Pending {
      t := s;
      SoundReflexive(s);
    } else {
      match action {
        case AskParent => t := TransitionKeeps(s, None, i, WaitingForParent, None, NoStall, now);
        case ReportMissing =>
          t := TransitionKeeps(s, None, i, NodeState.DocumentMissing, Some(Titles(MissingForNode(s, i))), NoStall, now);
        case PrepareForOfficer =>
          var ready := TransitionKeeps(s, None, i, Ready, None, NoStall, now);
          t := RequestApprovalSafe(ready, i, now);
          SoundTransitive(s, ready, t);
      }
    }
  }

  lemma {:induction false} EntityActionSafe(s: CaseState, plan: seq<(nat, Action)>, k: nat, now: Time)
    returns (t: CaseState)
    requires Inv(s, None) && k <= |plan| && (forall p :: p in plan ==> p.0 < |s.nodes| && DependenciesDone(s, p.0))
    requires EntityAction(s, plan, k, now).Success?
    ensures t == EntityAction(s, plan, k, now).value
    ensures Sound(s, t) && Inv(t, None)
  {
    hide Act, Sound, DependenciesDone;
    if k == 0 {
      t := s;
      SoundReflexive(s);
    } else {
      var before := EntityActionSafe(s, plan, k - 1, now);
      assert plan[k - 1] in plan;
      SoundKeepsDone(s, before, plan[k - 1].0);
      t := ActSafe(before, plan[k - 1].0, plan[k - 1].1, now);
      SoundTransitive(s, before, t);
    }
  }

  lemma SoundKeepsDone(s: CaseState, t: CaseState, i: nat)
    requires Sound(s, t) && i < |s.nodes| && DependenciesDone(s, i)
    ensures Within(|t.nodes|, t.edges) && i < |t.nodes| && DependenciesDone(t, i)
  {
    DoneStays(s, t, i);
  }

  lemma OrchestrateSafe(s: CaseState, e: nat, now: Time) returns (t: CaseState)
    requires Inv(s, None) && e < |s.outbox| && Orchestrate(s, e, now).Success?
    ensures t == Orchestrate(s, e, now).value
    ensures Sound(s, t) && Inv(t, None)
  {
    hide Sound, Inv, EntityAction, Plan, Escalate, Refresh, EmitOnce, Evaluate;
    InvRows(s, None);
    var plan := Plan(s);
    var acted := EntityActionSafe(s, plan, |plan|, now);
    var verdict := Evaluate(acted, s.outbox[e].event);
    var subject := SubjectOf(s.outbox[e].event);
    var escalated := acted;
    if verdict.escalate.Some? {
      escalated := EscalateSafe(acted, verdict.escalate.value, subject, false);
      SoundTransitive(s, acted, escalated);
    }
    var called := escalated;
    if verdict.callback.Some? {
      called := EmitOnceKeeps(escalated, None, CallbackRequired(verdict.callback.value, subject), CallbackKey(e));
      SoundTransitive(s, escalated, called);
    }
    t := called;
    if verdict.complete && (verdict.escalate.None? || verdict.callback.Some?) {
      t := RefreshKeeps(called, None);
      SoundTransitive(s, called, t);
    }
  }

  // --- deliveries ---

  lemma RecordCallbackSafe(s: CaseState, outcome: CallbackOutcome) returns (t: CaseState)
    requires Inv(s, None)
    ensures t == RecordCallback(s, outcome)
    ensures Sound(s, t) && Inv(t, None)
  {
    hide Sound, Inv;
    InvWithin(s);
    match outcome {
      case Scheduled => t := EmitKeeps(s, None, CallbackScheduled);
      case Coalesced =>
        t := s;
        SoundReflexive(s);
      case SentBySms =>
        var sent := EmitKeeps(s, None, NotificationRequested);
        t := EmitKeeps(sent, None, CallbackBlocked);
        SoundTransitive(s, sent, t);
      case NoConsent => t := EmitKeeps(s, None, CallbackBlocked);
    }
  }

  lemma HandleSafe(s: CaseState, c: Consumer, e: nat, input: FullInput) returns (t: CaseState)
    requires Inv(s, None) && e < |s.outbox| && Registered(c, s.outbox[e].event) && Handle(s, c, e, input).Success?
    ensures t == Handle(s, c, e, input).value
    ensures Sound(s, t) && Inv(t, None)
  {
    hide Sound, Inv, Orchestrate, Submit, ApplyStatus, RecordCallback;
    InvEvent(s, None, e);
    InvRows(s, None);
    var event := s.outbox[e].event;
    match c {
      case Orchestrator => t := OrchestrateSafe(s, e, input.now);
      case GraphProjection =>
        t := s;
        SoundReflexive(s);
      case CallbackScheduler => t := RecordCallbackSafe(s, input.outcome);
      case EntitySubmitter => t := SubmitSafe(s, event.request, input.replies, input.now);
      case EntityStatusApplier =>
        t := ApplyStatusSafe(s, event.request, event.status, event.detail, event.missing, input.now);
      case Notifier =>
        t := s;
        SoundReflexive(s);
    }
  }

  lemma DeliverSafe(s: CaseState, c: Consumer, e: nat, input: FullInput) returns (t: CaseState)
    requires Inv(s, None) && Deliver(s, c, e, input).Success?
    ensures t == Deliver(s, c, e, input).value
    ensures Sound(s, t) && Inv(t, None)
  {
    hide Sound, Inv, Handle;
    InvWithin(s);
    if (c, e) in s.receipts {
      t := s;
      SoundReflexive(s);
    } else {
      var handled := HandleSafe(s, c, e, input);
      SoundGrows(s, handled);
      t := ReceiptKeeps(handled, None, c, e);
      SoundTransitive(s, handled, t);
    }
  }

  lemma SoundGrows(s: CaseState, t: CaseState)
    requires Sound(s, t)
    ensures |s.outbox| <= |t.outbox|
  {
  }
}
