/** The small independent reference model of registration lifetimes, and the relation that ties it to a
    scripted poller with one slot. */
module ReferenceModels {
  import opened Vocabulary
  import opened Token
  import opened Slots
  import opened RegistrationTables
  import opened MutationMachine
  import opened ScriptedDrivers
  import opened ScriptedPolls
  import opened ModelActions

  datatype RefEntry = RefEntry(registration: Registration, interest: Interest, mode: Mode, state: RegistrationState)

  /** Why the reference model refused a transition. */
  datatype Misuse = NotVacant | Reissued | HandleKept | HandleMissing | NoHandle | NotArmedOneShot | NotProven

  function RefBackend(entry: RefEntry): BackendState {
    match entry.state
    case Registered(arm) => Installed(entry.interest, entry.mode, arm)
    case Uncertain => UnknownState
  }

  function ExpectedBackend(active: Option<RefEntry>, id: RegistrationId): BackendState {
    match active
    case Some(entry) => if entry.registration.id == id then RefBackend(entry) else Absent
    case None => Absent
  }

  function PhaseOf(active: Option<RefEntry>): Phase {
    match active
    case None => Vacant
    case Some(entry) =>
      match entry.state
      case Registered(arm) => Held(entry.mode, arm)
      case Uncertain => Doubtful
  }

  function Retain(registration: Registration, interest: Interest, mode: Mode,
                  state: RegistrationState): Option<RefEntry>
  {
    Some(RefEntry(registration, interest, mode, state))
  }

  datatype RefState = RefState(active: Option<RefEntry>, retired: seq<Registration>, issued: seq<RegistrationId>,
                               calls: seq<MutationCall>)

  function AbstractOf(state: RefState): Abstract { Abstract(PhaseOf(state.active), state.retired != []) }

  class ReferenceModel {
    var active: Option<RefEntry>
    var retired: seq<Registration>
    var issued: seq<RegistrationId>
    var calls: seq<MutationCall>

    constructor ()
      ensures active == None && retired == [] && issued == [] && calls == []
    {
      active, retired, issued, calls := None, [], [], [];
    }

    function State(): RefState
      reads this
    {
      RefState(active, retired, issued, calls)
    }

    method Stale() returns (r: Option<Registration>)
      ensures r.Some? <==> retired != []
      ensures r.Some? ==> r.value == retired[|retired| - 1]
    {
      r := if retired == [] then None else Some(retired[|retired| - 1]);
    }

    method RecordRegister(id: RegistrationId, key: Key, interest: Interest, mode: Mode)
      returns (r: Result<Unit, Misuse>)
      modifies `issued, `calls
      ensures r.Ok? <==> active.None? && id !in old(issued)
      ensures r.Ok? ==> issued == old(issued) + [id] && calls == old(calls) + [RegisterCall(id, key, interest, mode)]
      ensures r.Err? ==> issued == old(issued) && calls == old(calls)
    {
      if active.Some? { return Err(NotVacant); }
      if id in issued { return Err(Reissued); }
      issued, calls := issued + [id], calls + [RegisterCall(id, key, interest, mode)];
      r := Ok(Unit);
    }

    method CompleteRegister(outcome: Outcome, registration: Option<Registration>, interest: Interest, mode: Mode)
      returns (r: Result<Unit, Misuse>)
      modifies `active
      ensures r.Ok? <==> (outcome.FailsNotApplied? <==> registration.None?)
      ensures r.Ok? ==>
                active == match registration
                          case None => None
                          case Some(handle) =>
                            Retain(handle, interest, mode, if outcome.FailsUnknown? then Uncertain else ARMED)
    {
      match outcome {
        case FailsNotApplied =>
          if registration.Some? { return Err(HandleKept); }
          active := None;
        case FailsUnknown =>
          if registration.None? { return Err(HandleMissing); }
          active := Retain(registration.value, interest, mode, Uncertain);
        case _ =>
          if registration.None? { return Err(HandleMissing); }
          active := Retain(registration.value, interest, mode, ARMED);
      }
      r := Ok(Unit);
    }

    method Disarm() returns (r: Result<RegistrationId, Misuse>)
      modifies `active, `calls
      ensures r.Ok? <==> old(active).Some? && old(active).value.mode == OneShot && old(active).value.state == ARMED
      ensures r.Ok? ==>
                && r.value == old(active).value.registration.id
                && State() == old(State()).(active := Some(old(active).value.(state := DISARMED)),
                                            calls := old(calls) + [EstablishDisarmedCall(r.value)])
    {
      if active.None? { return Err(NoHandle); }
      var entry := active.value;
      if entry.mode != OneShot || entry.state != ARMED { return Err(NotArmedOneShot); }
      calls := calls + [EstablishDisarmedCall(entry.registration.id)];
      active := Some(entry.(state := DISARMED));
      r := Ok(entry.registration.id);
    }

    method RecordModify(interest: Interest, mode: Mode) returns (r: Result<RefEntry, Misuse>)
      modifies `calls
      ensures r.Ok? <==> active.Some? && active.value.state.Registered?
      ensures r.Ok? ==>
                && r.value == active.value
                && var e := r.value;
                   State() == old(State()).(calls := old(calls) + [ModifyCall(e.registration.id, e.interest, e.mode,
                                                                              e.state.arm, interest, mode)])
    {
      if active.None? { return Err(NoHandle); }
      var entry := active.value;
      match entry.state {
        case Uncertain => r := Err(NotProven);
        case Registered(arm) =>
          calls := calls + [ModifyCall(entry.registration.id, entry.interest, entry.mode, arm, interest, mode)];
          r := Ok(entry);
      }
    }

    method CompleteModify(outcome: Outcome, interest: Interest, mode: Mode) returns (r: Result<Unit, Misuse>)
      modifies `active
      ensures r.Ok? <==> old(active).Some?
      ensures r.Ok? ==>
                var entry := old(active).value;
                State() == match outcome
                           case FailsNotApplied => old(State())
                           case FailsUnknown => old(State()).(active := Some(entry.(state := Uncertain)))
                           case _ => old(State()).(active := Retain(entry.registration, interest, mode, ARMED))
    {
      if active.None? { return Err(NoHandle); }
      var entry := active.value;
      match outcome {
        case FailsNotApplied =>
        case FailsUnknown => active := Some(entry.(state := Uncertain));
        case _ => active := Some(entry.(interest := interest, mode := mode, state := ARMED));
      }
      r := Ok(Unit);
    }

    method RecordDelete() returns (r: Result<RefEntry, Misuse>)
      modifies `calls
      ensures r.Ok? <==> active.Some?
      ensures r.Ok? ==>
                && r.value == active.value
                && State() == old(State()).(calls := old(calls) + [DeleteCall(r.value.registration.id, r.value.interest,
                                                                              r.value.state)])
    {
      if active.None? { return Err(NoHandle); }
      calls := calls + [DeleteCall(active.value.registration.id, active.value.interest, active.value.state)];
      r := Ok(active.value);
    }

    method CompleteDelete(outcome: Outcome) returns (r: Result<Unit, Misuse>)
      modifies `active, `retired
      ensures r.Ok? <==> old(active).Some? || outcome.FailsNotApplied?
      ensures r.Ok? && old(active).Some? ==>
                var entry := old(active).value;
                State() == match outcome
                           case FailsNotApplied => old(State())
                           case FailsUnknown => old(State()).(active := Some(entry.(state := Uncertain)))
                           case _ => old(State()).(active := None, retired := old(retired) + [entry.registration])
    {
      if outcome.FailsNotApplied? { return Ok(Unit); }
      if active.None? { return Err(NoHandle); }
      if outcome.FailsUnknown? {
        active := Some(active.value.(state := Uncertain));
      } else {
        retired := retired + [active.value.registration];
        active := None;
      }
      r := Ok(Unit);
    }
  }

  // ---------- Agreement of the model with a one-slot table ----------

  ghost predicate HoldsExactly(active: Option<RefEntry>, raw: U64, live: LiveMap) {
    match active
    case None => live == map[]
    case Some(e) =>
      var id := e.registration.id;
      && e.registration.owner == raw != 0
      && id in live && live == map[id := live[id]]
      && live[id].interest == e.interest && live[id].mode == e.mode && live[id].state == e.state
  }

  /** Every registration attempt, failed ones included, took one more generation of the single slot. */
  ghost predicate CountsGenerations(issued: seq<RegistrationId>, slots: seq<Slot>) {
    && (if issued == [] then slots == [] else |slots| == 1 && slots[0].generation == |issued|)
    && forall i | 0 <= i < |issued| :: Issued(slots, issued[i])
  }

  ghost predicate Retires(retired: seq<Registration>, raw: U64, live: LiveMap, slots: seq<Slot>) {
    forall i | 0 <= i < |retired| ::
      retired[i].owner == raw != 0 && retired[i].id !in live && Issued(slots, retired[i].id)
  }

  /** No call was ever made for an empty interest. */
  predicate NoEmptyRegister(calls: seq<MutationCall>) {
    forall i | 0 <= i < |calls| :: calls[i].RegisterCall? ==> !calls[i].interest.IsEmpty()
  }

  /** Every registration call was for an id that the model has on record. */
  predicate CallsIssued(calls: seq<MutationCall>, issued: seq<RegistrationId>) {
    forall i | 0 <= i < |calls| && calls[i].RegisterCall? :: calls[i].registration in issued
  }

  /** What a scripted poller shows, as a value. */
  datatype PollView = PollView(raw: U64, live: LiveMap, slots: seq<Slot>, calls: seq<MutationCall>,
                               steps: seq<Step>, fault: Option<ScriptError>)

  ghost function View(poll: ScriptedPoll): PollView
    reads poll, poll.owner, poll.table, poll.driver
  {
    PollView(poll.owner.raw, poll.table.live, poll.table.slots, poll.driver.calls, poll.driver.steps, poll.driver.fault)
  }

  /** The model and the poller tell the same story. */
  ghost predicate Tied(model: RefState, view: PollView) {
    && view.fault == None
    && view.calls == model.calls && NoEmptyRegister(model.calls) && CallsIssued(model.calls, model.issued)
    && HoldsExactly(model.active, view.raw, view.live)
    && CountsGenerations(model.issued, view.slots)
    && Retires(model.retired, view.raw, view.live, view.slots)
  }

  /** The poller and the model agree in full, and `rest` of the script is still to be played. */
  ghost predicate Agree(model: ReferenceModel, poll: ScriptedPoll, rest: seq<Step>)
    reads model, poll, poll.ids, poll.owner, poll.table, poll.driver, poll.driver.model
  {
    && poll.Valid() && poll.table.limit == 1 && poll.driver.steps == rest
    && Tied(model.State(), View(poll))
  }

  /** A vacant slot has room exactly while it is short of its last generation. */
  lemma {:induction false} VacantRoom(model: ReferenceModel, poll: ScriptedPoll, rest: seq<Step>)
    requires Agree(model, poll, rest) && model.active.None?
    ensures HasRoom(poll.table) <==> |model.issued| < MAX_GENERATION
  {
    var slots := poll.table.slots;
    if |slots| == 1 {
      FindAt(slots, 0);
      FindRepresented(poll.table.live, slots, IdAt(slots, 0));
      assert slots[0].entry.None?;
      assert Terminals(slots) == if slots[0].generation == MAX_GENERATION then {0} else {};
    } else {
      assert Terminals(slots) == {};
    }
    RoomIsExact(poll.table);
  }

  /** A first issue counts one generation on, and repeats nothing. */
  lemma {:induction false} IssueCounts(issued: seq<RegistrationId>, before: seq<Slot>, after: seq<Slot>,
                                       id: RegistrationId)
    requires CountsGenerations(issued, before) && IssuesFirst(before, after, id) && OneSlotAdvances(1, before, after)
    ensures id !in issued && CountsGenerations(issued + [id], after)
  {
  }

  /** Retired handles stay retired when another id takes the slot. */
  lemma {:induction false} IssueRetires(retired: seq<Registration>, before: U64, raw: U64, live: LiveMap,
                                        later: LiveMap, slots: seq<Slot>, after: seq<Slot>, id: RegistrationId)
    requires Retires(retired, before, live, slots) && IssuesFirst(slots, after, id)
    requires before != 0 ==> raw == before
    requires later.Keys <= live.Keys + {id}
    ensures Retires(retired, raw, later, after)
  {
    forall i | 0 <= i < |retired| ensures retired[i].id !in later {
      assert retired[i].id != id;
    }
  }
}
