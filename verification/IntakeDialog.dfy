/** The intake dialog: slot filling over an arbitrary understanding of what the resident says, up to create_case. */
module IntakeDialog {
  import opened Wrappers

  datatype IntakeStep =
    | ConfirmBirth | BirthDate | ChildName | Emirate | Hospital | FatherName | FatherEid | MotherName | MotherEid
    | Nationality | Marriage | ConsentFiling | ConsentCallback

  const STEPS: seq<IntakeStep> := [
    ConfirmBirth, BirthDate, ChildName, Emirate, Hospital, FatherName, FatherEid, MotherName, MotherEid, Nationality,
    Marriage, ConsentFiling, ConsentCallback]

  /** A step's place in the list. */
  function Place(step: IntakeStep): (k: nat)
    ensures k < |STEPS| && STEPS[k] == step
  {
    match step
    case ConfirmBirth => 0
    case BirthDate => 1
    case ChildName => 2
    case Emirate => 3
    case Hospital => 4
    case FatherName => 5
    case FatherEid => 6
    case MotherName => 7
    case MotherEid => 8
    case Nationality => 9
    case Marriage => 10
    case ConsentFiling => 11
    case ConsentCallback => 12
  }

  datatype Slots = Slots(
    dob: Option<string>, childName: Option<string>, emirate: Option<string>, hospital: Option<string>,
    fatherName: Option<string>, fatherEidOk: bool, motherName: Option<string>, motherEidOk: bool,
    nationality: Option<string>, marriageAttested: Option<bool>, consentFiling: Option<bool>,
    consentCallback: Option<bool>)

  const NO_SLOTS := Slots(None, None, None, None, None, false, None, false, None, None, None, None)

  /** Whether the slot of a step is filled. The opening step has none. */
  predicate Filled(s: Slots, step: IntakeStep) {
    match step
    case ConfirmBirth => true
    case BirthDate => s.dob.Some?
    case ChildName => s.childName.Some?
    case Emirate => s.emirate.Some?
    case Hospital => s.hospital.Some?
    case FatherName => s.fatherName.Some?
    case FatherEid => s.fatherEidOk
    case MotherName => s.motherName.Some?
    case MotherEid => s.motherEidOk
    case Nationality => s.nationality.Some?
    case Marriage => s.marriageAttested.Some?
    case ConsentFiling => s.consentFiling.Some?
    case ConsentCallback => s.consentCallback.Some?
  }

  /** The first step from place k on whose slot is empty. */
  function FirstEmpty(s: Slots, k: nat): (r: Option<IntakeStep>)
    requires k <= |STEPS|
    ensures r.None? ==> forall j :: k <= j < |STEPS| ==> Filled(s, STEPS[j])
    ensures r.Some? ==>
              Place(r.value) >= k && !Filled(s, r.value) && forall j :: k <= j < Place(r.value) ==> Filled(s, STEPS[j])
    decreases |STEPS| - k
  {
    if k == |STEPS| then None else if !Filled(s, STEPS[k]) then Some(STEPS[k]) else FirstEmpty(s, k + 1)
  }

  function NextStep(s: Slots, after: IntakeStep): Option<IntakeStep> {
    FirstEmpty(s, Place(after) + 1)
  }

  /** What the language engine makes of one utterance; every part of it is arbitrary. */
  datatype Heard = Heard(
    birthDate: Option<string>, emirate: Option<string>, hospital: Option<string>, words: Option<string>,
    yesNo: Option<bool>, aboutBaby: bool, personName: Option<string>, eid: Option<string>, nationality: Option<string>)

  /** The Emirates IDs in process memory. */
  datatype Eids = Eids(father: Option<string>, mother: Option<string>)

  const NO_EIDS := Eids(None, None)

  datatype Stage = Intake | Status | Over

  /** A call of create_case: the slots and the Emirates IDs it sends. */
  datatype Creation = Creation(slots: Slots, eids: Eids)

  /** The dialog; creations are the create_case calls made, agreed the yeses heard at the filing-consent step. */
  datatype Dialog = Dialog(
    stage: Stage, step: IntakeStep, slots: Slots, eids: Eids, creations: seq<Creation>, agreed: nat)

  const OPENING := Dialog(Intake, ConfirmBirth, NO_SLOTS, NO_EIDS, [], 0)

  predicate Given(text: Option<string>) {
    text.Some? && text.value != ""
  }

  function Or(held: Option<string>, heard: Option<string>): Option<string> {
    if held.Some? then held else heard
  }

  /** A word list that comes out empty does not fill the emirate or the hospital. */
  function OrGiven(held: Option<string>, heard: Option<string>): Option<string> {
    if held.None? && Given(heard) then heard else held
  }

  function Opportunistic(s: Slots, h: Heard): Slots {
    s.(dob := Or(s.dob, h.birthDate), emirate := OrGiven(s.emirate, h.emirate),
       hospital := OrGiven(s.hospital, h.hospital))
  }

  /** The slots after the answer to a step. */
  function Answered(s: Slots, step: IntakeStep, h: Heard): Slots {
    match step
    case ChildName => s.(childName := h.personName)
    case Hospital => s.(hospital := if Given(s.hospital) then s.hospital else h.words)
    case FatherName => s.(fatherName := h.personName)
    case MotherName => s.(motherName := h.personName)
    case FatherEid => if Given(h.eid) then s.(fatherEidOk := true) else s
    case MotherEid => if Given(h.eid) then s.(motherEidOk := true) else s
    case Nationality => s.(nationality := h.nationality)
    case Marriage => if h.yesNo.Some? then s.(marriageAttested := h.yesNo) else s
    case ConsentFiling => s.(consentFiling := h.yesNo)
    case ConsentCallback => if h.yesNo.Some? then s.(consentCallback := h.yesNo) else s
    case _ => s
  }

  /** Whether the answer lets the dialog go on; s are the slots after it. */
  predicate Advances(s: Slots, step: IntakeStep, h: Heard) {
    match step
    case ConfirmBirth => true
    case BirthDate => s.dob.Some?
    case ChildName => Given(h.personName)
    case Emirate => s.emirate.Some?
    case Hospital => s.hospital.Some?
    case FatherName => Given(h.personName)
    case MotherName => Given(h.personName)
    case FatherEid => Given(h.eid)
    case MotherEid => Given(h.eid)
    case Nationality => Given(h.nationality)
    case _ => h.yesNo.Some?
  }

  function StoredEids(eids: Eids, step: IntakeStep, h: Heard): Eids {
    if step == FatherEid && Given(h.eid) then eids.(father := h.eid)
    else if step == MotherEid && Given(h.eid) then eids.(mother := h.eid)
    else eids
  }

  /** One utterance at the intake stage; created says whether create_case, if called, succeeds. */
  function Turn(d: Dialog, h: Heard, created: bool): Dialog
    requires d.stage == Intake
  {
    var s := Opportunistic(d.slots, h);
    if d.step == ConfirmBirth && h.yesNo == Some(false) && !h.aboutBaby then d.(slots := s, stage := Status)
    else if d.step == ConsentFiling && h.yesNo == Some(false) then d.(slots := s, stage := Over)
    else
      var told := d.(slots := Answered(s, d.step, h), eids := StoredEids(d.eids, d.step, h),
                     agreed := if d.step == ConsentFiling && h.yesNo == Some(true) then d.agreed + 1 else d.agreed);
      if !Advances(told.slots, d.step, h) then told
      else
        match NextStep(told.slots, d.step)
        case Some(next) => told.(step := next)
        case None => Created(told, created)
  }

  /** The hand-over to create_case: the stored IDs are gone afterwards, and a refusal starts the dialog over. */
  function Created(d: Dialog, created: bool): Dialog {
    var filed := d.(creations := d.creations + [Creation(d.slots, d.eids)], eids := NO_EIDS);
    if created then filed.(stage := Status, slots := d.slots.(fatherEidOk := false, motherEidOk := false))
    else filed.(step := ConfirmBirth)
  }

  /** Opportunistic filling, slot by slot. */
  method FillByTheWay(s: Slots, h: Heard) returns (slots: Slots)
    ensures slots == Opportunistic(s, h)
  {
    slots := s;
    if slots.dob.None? && h.birthDate.Some? { slots := slots.(dob := h.birthDate); }
    if slots.emirate.None? && Given(h.emirate) { slots := slots.(emirate := h.emirate); }
    if slots.hospital.None? && Given(h.hospital) { slots := slots.(hospital := h.hospital); }
  }

  /** The answer to the present question. */
  method TakeAnswer(s: Slots, held: Eids, step: IntakeStep, h: Heard)
    returns (slots: Slots, eids: Eids, advanced: bool)
    ensures slots == Answered(s, step, h) && eids == StoredEids(held, step, h)
    ensures advanced == Advances(slots, step, h)
  {
    slots, eids, advanced := s, held, true;
    match step {
      case ConfirmBirth =>
      case BirthDate => advanced := slots.dob.Some?;
      case ChildName =>
        advanced := Given(h.personName);
        slots := slots.(childName := h.personName);
      case Emirate => advanced := slots.emirate.Some?;
      case Hospital =>
        if !Given(slots.hospital) { slots := slots.(hospital := h.words); }
        advanced := slots.hospital.Some?;
      case FatherName =>
        slots := slots.(fatherName := h.personName);
        advanced := Given(slots.fatherName);
      case MotherName =>
        slots := slots.(motherName := h.personName);
        advanced := Given(slots.motherName);
      case FatherEid =>
        advanced := Given(h.eid);
        if advanced {
          eids := eids.(father := h.eid);
          slots := slots.(fatherEidOk := true);
        }
      case MotherEid =>
        advanced := Given(h.eid);
        if advanced {
          eids := eids.(mother := h.eid);
          slots := slots.(motherEidOk := true);
        }
      case Nationality =>
        slots := slots.(nationality := h.nationality);
        advanced := Given(slots.nationality);
      case Marriage =>
        advanced := h.yesNo.Some?;
        if advanced { slots := slots.(marriageAttested := h.yesNo); }
      case ConsentFiling =>
        advanced := h.yesNo.Some?;
        slots := slots.(consentFiling := h.yesNo);
      case ConsentCallback =>
        advanced := h.yesNo.Some?;
        if advanced { slots := slots.(consentCallback := h.yesNo); }
    }
  }

  /** The same turn as the node takes it, step by step. */
  method IntakeNode(d: Dialog, h: Heard, created: bool) returns (r: Dialog)
    requires d.stage == Intake
    ensures r == Turn(d, h, created)
  {
    hide Opportunistic, Answered, Advances, NextStep, StoredEids;
    var step := d.step;
    var slots := FillByTheWay(d.slots, h);
    if step == ConfirmBirth && h.yesNo == Some(false) && !h.aboutBaby { return d.(slots := slots, stage := Status); }
    if step == ConsentFiling && h.yesNo == Some(false) { return d.(slots := slots, stage := Over); }
    var eids, advanced;
    slots, eids, advanced := TakeAnswer(slots, d.eids, step, h);
    var agreed := if step == ConsentFiling && h.yesNo == Some(true) then d.agreed + 1 else d.agreed;
    r := d.(slots := slots, eids := eids, agreed := agreed);
    if !advanced { return; }
    var next := NextStep(slots, step);
    if next.Some? { return r.(step := next.value); }
    r := r.(creations := d.creations + [Creation(slots, eids)], eids := NO_EIDS);
    if created {
      r := r.(stage := Status, slots := slots.(fatherEidOk := false, motherEidOk := false));
    } else {
      r := r.(step := ConfirmBirth);
    }
  }

  // --- runs ---

  /** A turn of the conversation: an utterance, an interruption the exception node handles, or the IDs timing out. */
  datatype Happening = Says(heard: Heard, created: bool) | Interrupted(ends: bool) | IdsExpire

  function Next(d: Dialog, happening: Happening): Dialog {
    match happening
    case Says(h, created) => if d.stage == Intake then Turn(d, h, created) else d
    case Interrupted(ends) => if ends then d.(stage := Over) else d
    case IdsExpire => d.(eids := NO_EIDS)
  }

  /** The dialogs a conversation passes through. */
  ghost predicate Visits(happenings: seq<Happening>, dialogs: seq<Dialog>) {
    |dialogs| == |happenings| + 1
    && forall k {:trigger happenings[k]} :: 0 <= k < |happenings| ==> Leads(dialogs[k], happenings[k], dialogs[k + 1])
  }

  ghost predicate Leads(d: Dialog, happening: Happening, r: Dialog) {
    r == Next(d, happening)
  }

  /** The dialogs a conversation may come to. */
  ghost predicate Reachable(d: Dialog) {
    exists happenings, dialogs :: Visits(happenings, dialogs) && dialogs[0] == OPENING && dialogs[|happenings|] == d
  }

  // --- the invariant ---

  ghost predicate FilledBefore(s: Slots, step: IntakeStep) {
    forall k :: 0 <= k < Place(step) ==> Filled(s, STEPS[k])
  }

  ghost predicate AllFilled(s: Slots) {
    forall k :: 0 <= k < |STEPS| ==> Filled(s, STEPS[k])
  }

  /** A filled filing consent is a yes that was heard at its step. */
  ghost predicate ConsentOk(s: Slots, agreed: nat) {
    s.consentFiling.Some? ==> s.consentFiling == Some(true) && agreed > 0
  }

  /** Every call of create_case came after that yes, with every slot filled. */
  ghost predicate CreationOk(c: Creation, agreed: nat) {
    AllFilled(c.slots) && c.slots.consentFiling == Some(true) && agreed > 0
  }

  ghost predicate DialogOk(d: Dialog) {
    && (d.stage == Intake ==> FilledBefore(d.slots, d.step) && ConsentOk(d.slots, d.agreed))
    && (forall k :: 0 <= k < |d.creations| ==> CreationOk(d.creations[k], d.agreed))
    && (forall k :: 1 <= k < |d.creations| ==> d.creations[k].eids == NO_EIDS)
    && (d.stage == Intake && d.creations != [] ==> AllFilled(d.slots) && d.step == ConfirmBirth && d.eids == NO_EIDS)
  }

  lemma AnswerFills(s: Slots, step: IntakeStep, h: Heard)
    requires Advances(Answered(s, step, h), step, h)
    ensures Filled(Answered(s, step, h), step)
    ensures forall other :: other != step ==> (Filled(Answered(s, step, h), other) <==> Filled(s, other))
  {
  }

  lemma AnswerTouchesItsSlot(s: Slots, step: IntakeStep, h: Heard)
    ensures forall other :: other != step ==> (Filled(Answered(s, step, h), other) <==> Filled(s, other))
    ensures step != ConsentFiling ==> Answered(s, step, h).consentFiling == s.consentFiling
  {
  }

  lemma OpportunisticFills(s: Slots, h: Heard)
    ensures forall step :: Filled(s, step) ==> Filled(Opportunistic(s, h), step)
    ensures Opportunistic(s, h).consentFiling == s.consentFiling
  {
  }

  lemma PlaceIsPosition(k: nat)
    requires k < |STEPS|
    ensures Place(STEPS[k]) == k
  {
  }

  lemma TurnKeeps(d: Dialog, h: Heard, created: bool)
    requires d.stage == Intake && DialogOk(d)
    ensures DialogOk(Turn(d, h, created))
  {
    hide Filled, Opportunistic, Answered, Advances, NextStep;
    var s := Opportunistic(d.slots, h);
    OpportunisticFills(d.slots, h);
    var refused := (d.step == ConfirmBirth && h.yesNo == Some(false) && !h.aboutBaby)
                   || (d.step == ConsentFiling && h.yesNo == Some(false));
    if !refused {
      var slots := Answered(s, d.step, h);
      AnswerTouchesItsSlot(s, d.step, h);
      forall k | 0 <= k < |STEPS| && k != Place(d.step) && Filled(d.slots, STEPS[k]) ensures Filled(slots, STEPS[k]) {
        PlaceIsPosition(k);
      }
      ConsentHeard(s, d.step, h);
      if Advances(slots, d.step, h) {
        AnswerFills(s, d.step, h);
        AdvanceKeeps(d, h, created, slots);
      } else {
        OpeningAdvances(slots, h);
      }
    }
  }

  lemma OpeningAdvances(s: Slots, h: Heard)
    ensures Advances(s, ConfirmBirth, h)
  {
  }

  /** After an answer to the consent step that is not a refusal, a filled consent is a yes. */
  lemma ConsentHeard(s: Slots, step: IntakeStep, h: Heard)
    ensures step == ConsentFiling ==> Answered(s, step, h).consentFiling == h.yesNo
    ensures h.yesNo.Some? && h.yesNo != Some(false) ==> h.yesNo == Some(true)
  {
    if h.yesNo.Some? && !h.yesNo.value { assert h.yesNo == Some(false); }
  }

  lemma AdvanceKeeps(d: Dialog, h: Heard, created: bool, slots: Slots)
    requires d.stage == Intake && DialogOk(d)
    requires !(d.step == ConfirmBirth && h.yesNo == Some(false) && !h.aboutBaby)
    requires !(d.step == ConsentFiling && h.yesNo == Some(false))
    requires slots == Answered(Opportunistic(d.slots, h), d.step, h) && Advances(slots, d.step, h)
    requires FilledBefore(slots, d.step) && Filled(slots, d.step)
    requires d.step != ConsentFiling ==> slots.consentFiling == d.slots.consentFiling
    requires d.step == ConsentFiling && h.yesNo.Some? ==> slots.consentFiling == h.yesNo == Some(true)
    requires d.step == ConsentFiling && h.yesNo.None? ==> slots.consentFiling.None?
    requires d.creations != [] ==> forall k :: 0 <= k < |STEPS| && k != Place(d.step) ==> Filled(slots, STEPS[k])
    ensures DialogOk(Turn(d, h, created))
  {
    hide Opportunistic, Answered, Advances, Filled, Place;
    FilledUpTo(slots, d.step);
    FilledConsent(slots);
    if d.creations != [] { OpeningComesFirst(); }
  }

  lemma OpeningComesFirst()
    ensures Place(ConfirmBirth) == 0 && forall s: Slots :: Filled(s, ConfirmBirth)
  {
  }

  lemma FilledUpTo(s: Slots, step: IntakeStep)
    requires FilledBefore(s, step) && Filled(s, step)
    ensures NextStep(s, step).Some? ==> FilledBefore(s, NextStep(s, step).value) && !Filled(s, NextStep(s, step).value)
    ensures NextStep(s, step).None? ==> AllFilled(s)
    ensures AllFilled(s) ==> NextStep(s, step).None?
  {
    hide Filled;
    PlaceIsPosition(Place(step));
  }

  lemma FilledConsent(s: Slots)
    ensures AllFilled(s) ==> s.consentFiling.Some?
  {
    assert STEPS[11] == ConsentFiling;
  }

  lemma NextKeeps(d: Dialog, happening: Happening)
    requires DialogOk(d)
    ensures DialogOk(Next(d, happening))
  {
    hide Turn, Filled, Place;
    if happening.Says? && d.stage == Intake { TurnKeeps(d, happening.heard, happening.created); }
  }

  lemma {:induction false} VisitsOk(happenings: seq<Happening>, dialogs: seq<Dialog>, n: nat)
    requires Visits(happenings, dialogs) && n <= |happenings| && DialogOk(dialogs[0])
    ensures DialogOk(dialogs[n])
  {
    hide Next, DialogOk;
    if n > 0 {
      VisitsOk(happenings, dialogs, n - 1);
      assert Leads(dialogs[n - 1], happenings[n - 1], dialogs[n]);
      NextKeeps(dialogs[n - 1], happenings[n - 1]);
    }
  }

  lemma ReachableOk(d: Dialog)
    requires Reachable(d)
    ensures DialogOk(d)
  {
    hide DialogOk, Leads;
    var happenings, dialogs :| Visits(happenings, dialogs) && dialogs[0] == OPENING && dialogs[|happenings|] == d;
    OpeningOk();
    VisitsOk(happenings, dialogs, |happenings|);
  }

  lemma OpeningOk()
    ensures DialogOk(OPENING)
  {
  }

  // --- main results ---

  /** Whatever is said and heard, create_case is only called with every slot filled, after a yes to filing. */
  lemma CreatedOnlyWithConsent(d: Dialog, k: nat, step: IntakeStep)
    requires Reachable(d) && k < |d.creations|
    ensures Filled(d.creations[k].slots, step) && d.creations[k].slots.consentFiling == Some(true) && d.agreed > 0
  {
    hide Reachable, Filled;
    ReachableOk(d);
    assert CreationOk(d.creations[k], d.agreed) && STEPS[Place(step)] == step;
  }

  /** Every question before the present one has been answered. */
  lemma EarlierSlotsAreFilled(d: Dialog, step: IntakeStep)
    requires Reachable(d) && d.stage == Intake && Place(step) < Place(d.step)
    ensures Filled(d.slots, step)
  {
    hide Reachable, Filled;
    ReachableOk(d);
    assert STEPS[Place(step)] == step;
  }

  /** While no creation is refused, the dialog never comes back to a question it has left, whatever is said. */
  lemma {:induction false} QuestionsMoveForward(happenings: seq<Happening>, dialogs: seq<Dialog>, j: nat, k: nat)
    requires Visits(happenings, dialogs) && j <= k <= |happenings|
    ensures |dialogs[j].creations| <= |dialogs[k].creations|
    ensures |dialogs[j].creations| == |dialogs[k].creations| ==> Place(dialogs[j].step) <= Place(dialogs[k].step)
  {
    hide Next, Place;
    if j < k {
      QuestionsMoveForward(happenings, dialogs, j, k - 1);
      assert Leads(dialogs[k - 1], happenings[k - 1], dialogs[k]);
      NextMovesForward(dialogs[k - 1], happenings[k - 1]);
    }
  }

  /** Only a refused creation goes back, and then to the start. */
  lemma NextMovesForward(d: Dialog, happening: Happening)
    ensures
      var r := Next(d, happening);
      && |d.creations| <= |r.creations| <= |d.creations| + 1
      && (|d.creations| < |r.creations| && r.stage == Intake ==>
            r.step == ConfirmBirth && happening.Says? && !happening.created)
      && (|d.creations| == |r.creations| ==> Place(d.step) <= Place(r.step))
  {
    hide Answered, Advances, Opportunistic, StoredEids, Filled, FirstEmpty, Place;
  }

  /** What has been filled by the way is never overwritten by what is heard later, and only skips its question. */
  lemma OpportunityOnlySkips(s: Slots, h: Heard, after: IntakeStep)
    ensures Opportunistic(s, h) == s.(dob := Opportunistic(s, h).dob, emirate := Opportunistic(s, h).emirate,
                                      hospital := Opportunistic(s, h).hospital)
    ensures s.dob.Some? ==> Opportunistic(s, h).dob == s.dob
    ensures s.emirate.Some? ==> Opportunistic(s, h).emirate == s.emirate
    ensures s.hospital.Some? ==> Opportunistic(s, h).hospital == s.hospital
    ensures NextStep(s, after).None? ==> NextStep(Opportunistic(s, h), after).None?
    ensures NextStep(s, after).Some? && NextStep(Opportunistic(s, h), after).Some? ==>
              Place(NextStep(Opportunistic(s, h), after).value) >= Place(NextStep(s, after).value)
  {
    hide Opportunistic, Filled, Place;
    OpportunisticFills(s, h);
    OpportunisticKeeps(s, h);
    FirstEmptyGrows(s, Opportunistic(s, h), Place(after) + 1);
  }

  lemma OpportunisticKeeps(s: Slots, h: Heard)
    ensures Opportunistic(s, h) == s.(dob := Opportunistic(s, h).dob, emirate := Opportunistic(s, h).emirate,
                                      hospital := Opportunistic(s, h).hospital)
    ensures s.dob.Some? ==> Opportunistic(s, h).dob == s.dob
    ensures s.emirate.Some? ==> Opportunistic(s, h).emirate == s.emirate
    ensures s.hospital.Some? ==> Opportunistic(s, h).hospital == s.hospital
  {
  }

  lemma {:induction false} FirstEmptyGrows(s: Slots, more: Slots, k: nat)
    requires k <= |STEPS| && forall step :: Filled(s, step) ==> Filled(more, step)
    ensures FirstEmpty(s, k).None? ==> FirstEmpty(more, k).None?
    ensures FirstEmpty(s, k).Some? && FirstEmpty(more, k).Some? ==>
              Place(FirstEmpty(more, k).value) >= Place(FirstEmpty(s, k).value)
    decreases |STEPS| - k
  {
    hide Filled, Place;
    if k < |STEPS| {
      PlaceIsPosition(k);
      FirstEmptyGrows(s, more, k + 1);
    }
  }

  /**
   * The Emirates IDs are sent with the first call of create_case or not at all: a refused call forgets them while the
   * dialog still takes them for recorded, so it never asks for them again.
   */
  lemma LaterCreationsSendNoIds(d: Dialog, k: nat)
    requires Reachable(d) && 1 <= k < |d.creations|
    ensures d.creations[k].eids == NO_EIDS && d.creations[k].slots.fatherEidOk && d.creations[k].slots.motherEidOk
  {
    hide Reachable;
    ReachableOk(d);
    assert CreationOk(d.creations[k], d.agreed);
    assert STEPS[6] == FatherEid && STEPS[8] == MotherEid;
  }

  /** After a refused creation any answer but a no repeats it at once, without a question asked. */
  lemma RefusedCreationRepeats(d: Dialog, h: Heard, created: bool)
    requires Reachable(d) && d.stage == Intake && d.creations != [] && (h.yesNo != Some(false) || h.aboutBaby)
    ensures |Turn(d, h, created).creations| == |d.creations| + 1
  {
    hide Reachable, Filled, Opportunistic;
    ReachableOk(d);
    OpportunisticFills(d.slots, h);
    OpeningComesFirst();
    FilledUpTo(Opportunistic(d.slots, h), ConfirmBirth);
  }

  /** An utterance that answers every question. */
  const AGREEABLE := Heard(Some("today"), Some("Dubai"), Some("hospital"), Some("hospital"), Some(true), true,
                           Some("name"), Some("784"), Some("nationality"))

  lemma AgreeableAdvances(d: Dialog)
    requires d.stage == Intake
    ensures
      var r := Turn(d, AGREEABLE, false);
      && r.stage == Intake
      && (|r.creations| == |d.creations| + 1 || (r.creations == d.creations && Place(r.step) > Place(d.step)))
  {
    hide Place;
  }

  lemma ReachableNext(d: Dialog, happening: Happening)
    requires Reachable(d)
    ensures Reachable(Next(d, happening))
  {
    hide Next;
    var happenings, dialogs :| Visits(happenings, dialogs) && dialogs[0] == OPENING && dialogs[|happenings|] == d;
    var more, passed := happenings + [happening], dialogs + [Next(d, happening)];
    forall k | 0 <= k < |more| ensures Leads(passed[k], more[k], passed[k + 1]) {
      if k < |happenings| { assert Leads(dialogs[k], happenings[k], dialogs[k + 1]); }
    }
    assert Visits(more, passed);
  }

  /** Answering on and on leads to one more call of create_case. */
  lemma {:induction false} OneMoreCreation(d: Dialog) returns (r: Dialog)
    requires Reachable(d) && d.stage == Intake
    ensures Reachable(r) && r.stage == Intake && |r.creations| == |d.creations| + 1
    decreases |STEPS| - Place(d.step)
  {
    hide Reachable, Place;
    var next := Turn(d, AGREEABLE, false);
    ReachableNext(d, Says(AGREEABLE, false));
    assert next == Next(d, Says(AGREEABLE, false));
    AgreeableAdvances(d);
    if next.creations == d.creations { r := OneMoreCreation(next); } else { r := next; }
  }

  /** create_case can be refused and called again any number of times. */
  lemma {:induction false} CreationsAreRepeated(n: nat) returns (d: Dialog)
    ensures Reachable(d) && d.stage == Intake && |d.creations| == n
  {
    hide Reachable;
    if n == 0 {
      d := OPENING;
      OpeningReachable();
    } else {
      var before := CreationsAreRepeated(n - 1);
      d := OneMoreCreation(before);
    }
  }

  lemma OpeningReachable()
    ensures Reachable(OPENING)
  {
    assert Visits([], [OPENING]);
  }
}
