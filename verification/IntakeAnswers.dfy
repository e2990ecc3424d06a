/** What the intake sends is what it heard: every slot of every call of create_case, traced back to the conversation. */
module IntakeAnswers {
  import opened Wrappers
  import opened IntakeDialog

  // --- reading a conversation ---

  /** The utterance after dialog k was heard by the intake. */
  predicate HeardAt(happenings: seq<Happening>, dialogs: seq<Dialog>, k: nat) {
    k < |happenings| && k < |dialogs| && happenings[k].Says? && dialogs[k].stage == Intake
  }

  /** And it was the answer to the question of this step. */
  predicate AskedAt(happenings: seq<Happening>, dialogs: seq<Dialog>, k: nat, step: IntakeStep) {
    HeardAt(happenings, dialogs, k) && dialogs[k].step == step
  }

  /** The last yes or no among the answers to a question. */
  function LastYesNo(happenings: seq<Happening>, dialogs: seq<Dialog>, n: nat, step: IntakeStep): Option<bool> {
    if n == 0 then None
    else if AskedAt(happenings, dialogs, n - 1, step) && happenings[n - 1].heard.yesNo.Some?
    then happenings[n - 1].heard.yesNo
    else LastYesNo(happenings, dialogs, n - 1, step)
  }

  /** The name understood in the last answer to a question, if any was. */
  function LastName(happenings: seq<Happening>, dialogs: seq<Dialog>, n: nat, step: IntakeStep): Option<string> {
    if n == 0 then None
    else if AskedAt(happenings, dialogs, n - 1, step) then happenings[n - 1].heard.personName
    else LastName(happenings, dialogs, n - 1, step)
  }

  function LastNationality(happenings: seq<Happening>, dialogs: seq<Dialog>, n: nat): Option<string> {
    if n == 0 then None
    else if AskedAt(happenings, dialogs, n - 1, Nationality) then happenings[n - 1].heard.nationality
    else LastNationality(happenings, dialogs, n - 1)
  }

  /** The first birth date heard at all. */
  function FirstDate(happenings: seq<Happening>, dialogs: seq<Dialog>, n: nat): Option<string> {
    if n == 0 then None
    else
      var before := FirstDate(happenings, dialogs, n - 1);
      if before.None? && HeardAt(happenings, dialogs, n - 1) then happenings[n - 1].heard.birthDate else before
  }

  /** The first emirate heard at all. */
  function FirstEmirate(happenings: seq<Happening>, dialogs: seq<Dialog>, n: nat): Option<string> {
    if n == 0 then None
    else
      var before := FirstEmirate(happenings, dialogs, n - 1);
      if before.None? && HeardAt(happenings, dialogs, n - 1) && Given(happenings[n - 1].heard.emirate)
      then happenings[n - 1].heard.emirate else before
  }

  /** The first hospital heard by the way, or the words of the answer to its question while none is known. */
  function HospitalHeard(happenings: seq<Happening>, dialogs: seq<Dialog>, n: nat): Option<string> {
    if n == 0 then None
    else
      var before := HospitalHeard(happenings, dialogs, n - 1);
      if !HeardAt(happenings, dialogs, n - 1) then before
      else
        var heard := happenings[n - 1].heard;
        var known := if before.None? && Given(heard.hospital) then heard.hospital else before;
        if dialogs[n - 1].step == Hospital && !Given(known) then heard.words else known
  }

  /** Some answer to the question had an Emirates ID in it. */
  predicate EidHeard(happenings: seq<Happening>, dialogs: seq<Dialog>, n: nat, step: IntakeStep) {
    exists k :: 0 <= k < n && AskedAt(happenings, dialogs, k, step) && Given(happenings[k].heard.eid)
  }

  /** The call of create_case made on the utterance after dialog k. */
  predicate CreatesAt(dialogs: seq<Dialog>, k: nat) {
    k + 1 < |dialogs| && |dialogs[k + 1].creations| > |dialogs[k].creations|
  }

  /** The last Emirates ID in an answer to the question that has not expired or been sent since. */
  function EidHeld(happenings: seq<Happening>, dialogs: seq<Dialog>, n: nat, step: IntakeStep): Option<string> {
    if n == 0 then None
    else if (n - 1 < |happenings| && happenings[n - 1].IdsExpire?) || CreatesAt(dialogs, n - 1) then None
    else if AskedAt(happenings, dialogs, n - 1, step) && Given(happenings[n - 1].heard.eid)
    then happenings[n - 1].heard.eid
    else EidHeld(happenings, dialogs, n - 1, step)
  }

  // --- the slots ---

  /** The slots hold what the conversation so far has said, each from its own question, or by the way. */
  ghost predicate SaidSo(happenings: seq<Happening>, dialogs: seq<Dialog>, n: nat, s: Slots) {
    && s.dob == FirstDate(happenings, dialogs, n)
    && s.childName == LastName(happenings, dialogs, n, ChildName)
    && s.emirate == FirstEmirate(happenings, dialogs, n)
    && s.hospital == HospitalHeard(happenings, dialogs, n)
    && s.fatherName == LastName(happenings, dialogs, n, FatherName)
    && s.motherName == LastName(happenings, dialogs, n, MotherName)
    && s.nationality == LastNationality(happenings, dialogs, n)
    && s.marriageAttested == LastYesNo(happenings, dialogs, n, Marriage)
    && s.consentCallback == LastYesNo(happenings, dialogs, n, ConsentCallback)
  }

  lemma {:induction false} SlotsSaidSo(happenings: seq<Happening>, dialogs: seq<Dialog>, n: nat)
    requires Visits(happenings, dialogs) && dialogs[0] == OPENING && n <= |happenings|
    ensures SaidSo(happenings, dialogs, n, dialogs[n].slots)
  {
    hide Next, NextStep, Place;
    if n > 0 {
      SlotsSaidSo(happenings, dialogs, n - 1);
      assert Leads(dialogs[n - 1], happenings[n - 1], dialogs[n]);
      NextSaidSo(happenings, dialogs, n - 1);
    }
  }

  /** The answer to a question ends the intake instead of being taken. */
  predicate Ends(step: IntakeStep, h: Heard) {
    h.yesNo == Some(false) && ((step == ConfirmBirth && !h.aboutBaby) || step == ConsentFiling)
  }

  /** But for the marks of the Emirates IDs, the slots after a turn are those filled by the way and by the answer. */
  lemma TurnSlots(d: Dialog, h: Heard, created: bool)
    requires d.stage == Intake
    ensures
      var s, r := Opportunistic(d.slots, h), Turn(d, h, created).slots;
      var taken := if Ends(d.step, h) then s else Answered(s, d.step, h);
      r == taken.(fatherEidOk := r.fatherEidOk, motherEidOk := r.motherEidOk)
  {
    hide NextStep, Opportunistic, Answered, Advances, StoredEids;
  }

  /** An answer fills the slot of its own question with what was heard, and no other. */
  lemma AnswerOutcome(s: Slots, step: IntakeStep, h: Heard)
    ensures
      Answered(s, step, h) ==
        match step {
          case ChildName => s.(childName := h.personName)
          case FatherName => s.(fatherName := h.personName)
          case MotherName => s.(motherName := h.personName)
          case Nationality => s.(nationality := h.nationality)
          case Marriage => s.(marriageAttested := if h.yesNo.Some? then h.yesNo else s.marriageAttested)
          case ConsentFiling => s.(consentFiling := h.yesNo)
          case ConsentCallback => s.(consentCallback := if h.yesNo.Some? then h.yesNo else s.consentCallback)
          case Hospital => s.(hospital := if s.hospital.Some? && s.hospital.value != "" then s.hospital else h.words)
          case FatherEid => s.(fatherEidOk := s.fatherEidOk || (h.eid.Some? && h.eid.value != ""))
          case MotherEid => s.(motherEidOk := s.motherEidOk || (h.eid.Some? && h.eid.value != ""))
          case ConfirmBirth => s
          case BirthDate => s
          case Emirate => s
        }
  {
  }

  /** What is filled by the way: the birth date, the emirate and the hospital, each only while it is not known. */
  lemma ByTheWayOutcome(s: Slots, h: Heard)
    ensures
      Opportunistic(s, h) ==
        s.(dob := if s.dob.None? then h.birthDate else s.dob,
           emirate := if s.emirate.None? && h.emirate.Some? && h.emirate.value != "" then h.emirate else s.emirate,
           hospital := if s.hospital.None? && h.hospital.Some? && h.hospital.value != "" then h.hospital else s.hospital)
  {
  }

  /** One utterance, slot by slot: what it adds to each of them, given the question it answers. */
  ghost predicate Adds(s: Slots, r: Slots, step: IntakeStep, h: Heard) {
    && r.dob == (if s.dob.None? then h.birthDate else s.dob)
    && r.childName == (if step == ChildName then h.personName else s.childName)
    && r.emirate == (if s.emirate.None? && Given(h.emirate) then h.emirate else s.emirate)
    && r.hospital == (var known := if s.hospital.None? && Given(h.hospital) then h.hospital else s.hospital;
                      if step == Hospital && !Given(known) then h.words else known)
    && r.fatherName == (if step == FatherName then h.personName else s.fatherName)
    && r.motherName == (if step == MotherName then h.personName else s.motherName)
    && r.nationality == (if step == Nationality then h.nationality else s.nationality)
    && r.marriageAttested == (if step == Marriage && h.yesNo.Some? then h.yesNo else s.marriageAttested)
    && r.consentCallback == (if step == ConsentCallback && h.yesNo.Some? then h.yesNo else s.consentCallback)
  }

  lemma TurnAdds(d: Dialog, h: Heard, created: bool)
    requires d.stage == Intake
    ensures Adds(d.slots, Turn(d, h, created).slots, d.step, h)
  {
    hide Turn, Answered, Opportunistic;
    TurnSlots(d, h, created);
    ByTheWayOutcome(d.slots, h);
    AnswerOutcome(Opportunistic(d.slots, h), d.step, h);
  }

  lemma NextSaidSo(happenings: seq<Happening>, dialogs: seq<Dialog>, n: nat)
    requires n < |happenings| && n + 1 < |dialogs| && dialogs[n + 1] == Next(dialogs[n], happenings[n])
    requires SaidSo(happenings, dialogs, n, dialogs[n].slots)
    ensures SaidSo(happenings, dialogs, n + 1, dialogs[n + 1].slots)
  {
    hide Next, Turn, SaidSo, Adds;
    if HeardAt(happenings, dialogs, n) {
      HeardTurns(dialogs[n], happenings[n]);
      TurnAdds(dialogs[n], happenings[n].heard, happenings[n].created);
      HeardAdds(happenings, dialogs, n, dialogs[n].slots, dialogs[n + 1].slots);
    } else {
      SilentKeepsSlots(dialogs[n], happenings[n]);
      SilenceAddsNothing(happenings, dialogs, n, dialogs[n].slots);
    }
  }

  lemma HeardAdds(happenings: seq<Happening>, dialogs: seq<Dialog>, n: nat, s: Slots, r: Slots)
    requires HeardAt(happenings, dialogs, n) && SaidSo(happenings, dialogs, n, s)
    requires Adds(s, r, dialogs[n].step, happenings[n].heard)
    ensures SaidSo(happenings, dialogs, n + 1, r)
  {
  }

  lemma SilenceAddsNothing(happenings: seq<Happening>, dialogs: seq<Dialog>, n: nat, s: Slots)
    requires !HeardAt(happenings, dialogs, n) && SaidSo(happenings, dialogs, n, s)
    ensures SaidSo(happenings, dialogs, n + 1, s)
  {
  }

  lemma HeardTurns(d: Dialog, happening: Happening)
    requires d.stage == Intake && happening.Says?
    ensures Next(d, happening) == Turn(d, happening.heard, happening.created)
  {
  }

  lemma SilentKeepsSlots(d: Dialog, happening: Happening)
    requires !(d.stage == Intake && happening.Says?)
    ensures Next(d, happening).slots == d.slots && Next(d, happening).creations == d.creations
    ensures Next(d, happening).eids == if happening.IdsExpire? then NO_EIDS else d.eids
  {
  }

  // --- the Emirates IDs ---

  ghost predicate EidsSaidSo(happenings: seq<Happening>, dialogs: seq<Dialog>, n: nat)
    requires n < |dialogs|
  {
    && dialogs[n].eids.father == EidHeld(happenings, dialogs, n, FatherEid)
    && dialogs[n].eids.mother == EidHeld(happenings, dialogs, n, MotherEid)
    && (dialogs[n].stage == Intake ==>
          && (dialogs[n].slots.fatherEidOk <==> EidHeard(happenings, dialogs, n, FatherEid))
          && (dialogs[n].slots.motherEidOk <==> EidHeard(happenings, dialogs, n, MotherEid)))
  }

  /** What a turn makes of the Emirates IDs, and of the marks that they have been recorded. */
  lemma TurnEids(d: Dialog, h: Heard, created: bool)
    requires d.stage == Intake
    ensures
      var r := Turn(d, h, created);
      && (if |r.creations| > |d.creations| then r.eids == NO_EIDS
          else
            && r.eids.father == (if d.step == FatherEid && Given(h.eid) then h.eid else d.eids.father)
            && r.eids.mother == (if d.step == MotherEid && Given(h.eid) then h.eid else d.eids.mother))
      && (r.stage == Intake ==>
            && r.slots.fatherEidOk == (d.slots.fatherEidOk || (d.step == FatherEid && Given(h.eid)))
            && r.slots.motherEidOk == (d.slots.motherEidOk || (d.step == MotherEid && Given(h.eid))))
  {
    hide NextStep, Advances;
  }

  lemma {:induction false} EidsAreSaidSo(happenings: seq<Happening>, dialogs: seq<Dialog>, n: nat)
    requires Visits(happenings, dialogs) && dialogs[0] == OPENING && n <= |happenings|
    ensures EidsSaidSo(happenings, dialogs, n)
  {
    hide Next, EidsSaidSo;
    if n == 0 {
      NoEidsAtFirst(happenings, dialogs);
    } else {
      EidsAreSaidSo(happenings, dialogs, n - 1);
      assert Leads(dialogs[n - 1], happenings[n - 1], dialogs[n]);
      NextEids(happenings, dialogs, n - 1);
    }
  }

  lemma NoEidsAtFirst(happenings: seq<Happening>, dialogs: seq<Dialog>)
    requires |dialogs| > 0 && dialogs[0] == OPENING
    ensures EidsSaidSo(happenings, dialogs, 0)
  {
  }

  lemma EidHeardNext(happenings: seq<Happening>, dialogs: seq<Dialog>, n: nat, step: IntakeStep)
    ensures EidHeard(happenings, dialogs, n + 1, step) <==>
              EidHeard(happenings, dialogs, n, step)
              || (AskedAt(happenings, dialogs, n, step) && Given(happenings[n].heard.eid))
  {
  }

  lemma NextEids(happenings: seq<Happening>, dialogs: seq<Dialog>, n: nat)
    requires n < |happenings| && n + 1 < |dialogs| && dialogs[n + 1] == Next(dialogs[n], happenings[n])
    requires EidsSaidSo(happenings, dialogs, n)
    ensures EidsSaidSo(happenings, dialogs, n + 1)
  {
    hide Turn, EidHeard;
    EidHeardNext(happenings, dialogs, n, FatherEid);
    EidHeardNext(happenings, dialogs, n, MotherEid);
    if HeardAt(happenings, dialogs, n) {
      HeardTurns(dialogs[n], happenings[n]);
      TurnEids(dialogs[n], happenings[n].heard, happenings[n].created);
    } else {
      SilentKeepsSlots(dialogs[n], happenings[n]);
    }
  }

  // --- what create_case is sent ---

  /** A turn that calls create_case sends its slots with both IDs recorded, and the IDs held then. */
  lemma TurnSends(d: Dialog, h: Heard, created: bool)
    requires d.stage == Intake && |Turn(d, h, created).creations| != |d.creations|
    ensures
      var r := Turn(d, h, created);
      && |r.creations| == |d.creations| + 1 && d.creations <= r.creations
      && Adds(d.slots, r.creations[|d.creations|].slots, d.step, h)
      && r.creations[|d.creations|].eids.father == (if d.step == FatherEid && Given(h.eid) then h.eid else d.eids.father)
      && r.creations[|d.creations|].eids.mother == (if d.step == MotherEid && Given(h.eid) then h.eid else d.eids.mother)
      && r.creations[|d.creations|].slots.consentFiling == r.slots.consentFiling
      && (if created then r.stage == Status else r.stage == Intake && r.step == ConfirmBirth)
  {
    hide NextStep, Advances, Place, Opportunistic, Answered, Adds;
    TurnAdds(d, h, created);
    var s := Answered(Opportunistic(d.slots, h), d.step, h);
    SameAdds(d.slots, Turn(d, h, created).slots, s, d.step, h);
  }

  lemma SameAdds(s: Slots, r: Slots, t: Slots, step: IntakeStep, h: Heard)
    requires Adds(s, r, step, h) && t == r.(fatherEidOk := t.fatherEidOk, motherEidOk := t.motherEidOk)
    ensures Adds(s, t, step, h)
  {
  }

  /**
   * Every call of create_case sends exactly what the conversation up to it has said: the last answer to each question
   * of its own, what was first heard by the way, and the Emirates IDs still held.
   */
  lemma {:induction false} CreationSendsWhatWasSaid(happenings: seq<Happening>, dialogs: seq<Dialog>, c: nat, m: nat)
    returns (n: nat)
    requires Visits(happenings, dialogs) && dialogs[0] == OPENING && m <= |happenings| && c < |dialogs[m].creations|
    ensures n < m && HeardAt(happenings, dialogs, n) && CreatesAt(dialogs, n) && |dialogs[n].creations| == c
    ensures SaidSo(happenings, dialogs, n + 1, dialogs[m].creations[c].slots)
    ensures
      var sent, h := dialogs[m].creations[c].eids, happenings[n].heard;
      && sent.father == (if AskedAt(happenings, dialogs, n, FatherEid) && Given(h.eid) then h.eid
                         else EidHeld(happenings, dialogs, n, FatherEid))
      && sent.mother == (if AskedAt(happenings, dialogs, n, MotherEid) && Given(h.eid) then h.eid
                         else EidHeld(happenings, dialogs, n, MotherEid))
  {
    hide Next, Turn, SaidSo, Adds;
    var d, r := dialogs[m - 1], dialogs[m];
    assert Leads(d, happenings[m - 1], r);
    KeepsCreations(d, happenings[m - 1]);
    if c < |d.creations| {
      n := CreationSendsWhatWasSaid(happenings, dialogs, c, m - 1);
    } else {
      n := m - 1;
      HeardTurns(d, happenings[n]);
      TurnSends(d, happenings[n].heard, happenings[n].created);
      SlotsSaidSo(happenings, dialogs, n);
      HeardAdds(happenings, dialogs, n, d.slots, r.creations[c].slots);
      EidsAreSaidSo(happenings, dialogs, n);
    }
  }

  lemma KeepsCreations(d: Dialog, happening: Happening)
    ensures d.creations <= Next(d, happening).creations
    ensures Next(d, happening).creations != d.creations ==> d.stage == Intake && happening.Says?
  {
    hide NextStep, Advances, Opportunistic, Answered, StoredEids;
  }

  // --- where a turn leads ---

  /** The answer holds what its question asks for; s are the slots after it. */
  predicate AnswersIt(s: Slots, step: IntakeStep, h: Heard) {
    match step
    case ConfirmBirth => true
    case BirthDate => s.dob.Some?
    case ChildName => h.personName.Some? && h.personName.value != ""
    case Emirate => s.emirate.Some?
    case Hospital => s.hospital.Some?
    case FatherName => h.personName.Some? && h.personName.value != ""
    case FatherEid => h.eid.Some? && h.eid.value != ""
    case MotherName => h.personName.Some? && h.personName.value != ""
    case MotherEid => h.eid.Some? && h.eid.value != ""
    case Nationality => h.nationality.Some? && h.nationality.value != ""
    case Marriage => h.yesNo.Some?
    case ConsentFiling => h.yesNo.Some?
    case ConsentCallback => h.yesNo.Some?
  }

  /** No later question than this one is still open. */
  ghost predicate NothingOpenAfter(s: Slots, step: IntakeStep) {
    forall other :: Place(other) > Place(step) ==> Filled(s, other)
  }

  /**
   * A refusal ends the intake; an answer that does not hold what was asked repeats the question; any other leads to the
   * first later question still open, or to create_case when there is none.
   */
  lemma TurnLeads(d: Dialog, h: Heard, created: bool)
    requires d.stage == Intake
    ensures
      var r := Turn(d, h, created);
      if Ends(d.step, h) then
        r.stage == (if d.step == ConfirmBirth then Status else Over) && r.creations == d.creations && r.step == d.step
      else if !AnswersIt(r.slots, d.step, h) then
        r.stage == Intake && r.step == d.step && r.creations == d.creations
      else if r.creations == d.creations then
        && r.stage == Intake && Place(r.step) > Place(d.step) && !Filled(r.slots, r.step)
        && forall other :: Place(d.step) < Place(other) < Place(r.step) ==> Filled(r.slots, other)
      else
        && |r.creations| == |d.creations| + 1 && NothingOpenAfter(r.creations[|d.creations|].slots, d.step)
        && r.stage == (if created then Status else Intake)
  {
    hide Opportunistic, StoredEids, Filled, Place, FirstEmpty;
    var s := Answered(Opportunistic(d.slots, h), d.step, h);
    StepsByPlace();
    if !Ends(d.step, h) { AdvancesIff(s, d.step, h); }
  }

  lemma AdvancesIff(s: Slots, step: IntakeStep, h: Heard)
    ensures Advances(s, step, h) <==> AnswersIt(s, step, h)
  {
  }

  lemma StepsByPlace()
    ensures forall step :: STEPS[Place(step)] == step
  {
  }
}
