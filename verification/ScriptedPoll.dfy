/** A mutation-only poller over the scripted driver. It shares the production state machine, so its
    table and the scripted backend must never disagree, whatever the script says. */
module ScriptedPolls {
  import opened Vocabulary
  import opened Slots
  import opened RegistrationTables
  import opened PollOwners
  import opened MutationMachine
  import opened ScriptedDrivers

  function BackendOf(entry: Entry): BackendState {
    match entry.state
    case Registered(arm) => Installed(entry.interest, entry.mode, arm)
    case Uncertain => UnknownState
  }

  /** The backend holds exactly what the table claims of every live registration, and nothing of any
      other. */
  ghost predicate Mirrors(live: LiveMap, known: KnownMap) {
    && (forall id | id in live :: id in known && known[id] == Known(live[id].descriptor, BackendOf(live[id])))
    && (forall id | id in known && id !in live :: known[id].state == Absent)
  }

  ghost predicate KnownIssued(known: KnownMap, slots: seq<Slot>) {
    forall id | id in known :: Issued(slots, id)
  }

  // ---------- The commit contract, on values ----------

  lemma {:induction false} RegisterMirrors(live: LiveMap, known: KnownMap, id: RegistrationId, entry: Entry,
                                           native: NativeResult)
    requires Mirrors(live, known) && id !in live && id !in known && entry.state == ARMED
    ensures Mirrors(MutationMachine.Registered(live, id, entry, CommitOf(native)),
                    known[id := Known(entry.descriptor,
                                      Completed(Absent, Installed(entry.interest, entry.mode, Armed), native))])
  {
  }

  lemma {:induction false} ModifyMirrors(live: LiveMap, known: KnownMap, id: RegistrationId, interest: Interest,
                                         mode: Mode, native: NativeResult)
    requires Mirrors(live, known) && id in live
    ensures Mirrors(Modified(live, id, interest, mode, CommitOf(native)),
                    known[id := Known(live[id].descriptor,
                                      Completed(known[id].state, Installed(interest, mode, Armed), native))])
  {
  }

  lemma {:induction false} DeleteMirrors(live: LiveMap, known: KnownMap, id: RegistrationId, native: NativeResult)
    requires Mirrors(live, known) && id in live
    ensures Mirrors(Deleted(live, id, CommitOf(native)),
                    known[id := Known(live[id].descriptor, Completed(known[id].state, Absent, native))])
  {
  }

  lemma {:induction false} DisarmMirrors(live: LiveMap, known: KnownMap, id: RegistrationId)
    requires Mirrors(live, known) && Disarmable(live, id)
    ensures Mirrors(live[id := live[id].(state := DISARMED)],
                    known[id := Known(live[id].descriptor, Installed(live[id].interest, OneShot, Disarmed))])
  {
  }

  /** Disarming a disarmed registration changes nothing in the backend. */
  lemma {:induction false} AlreadyDisarmed(live: LiveMap, known: KnownMap, id: RegistrationId)
    requires Mirrors(live, known) && id in live && live[id].state.Registered? && live[id].state != ARMED
    ensures known[id := Known(known[id].descriptor, known[id].state.(arm := Disarmed))] == known
  {
    match live[id].state {
      case Registered(Armed) =>
      case Registered(Disarmed) => assert known[id].state == Installed(live[id].interest, live[id].mode, Disarmed);
      case Uncertain =>
    }
  }

  /** Settling keeps the issue: the id is the one new id, and the backend still knows issued ids only. */
  lemma {:induction false} SettledIssue(before: seq<Slot>, middle: seq<Slot>, after: seq<Slot>, id: RegistrationId,
                                        known: KnownMap, later: KnownMap)
    requires IssuesFirst(before, middle, id) && SameGenerations(middle, after)
    requires KnownIssued(known, before) && later.Keys == known.Keys + {id}
    ensures IssuesFirst(before, after, id) && KnownIssued(later, after)
  {
    SameGenerationsSameIssued(middle, after);
  }

  lemma {:induction false} KnownStaysIssued(known: KnownMap, later: KnownMap, before: seq<Slot>, after: seq<Slot>)
    requires KnownIssued(known, before) && SameGenerations(before, after) && later.Keys <= known.Keys
    ensures KnownIssued(later, after)
  {
    SameGenerationsSameIssued(before, after);
  }

  /** One registration call and its settlement, by the script alone. */
  method CallAndSettleRegister(table: RegistrationTable, driver: ScriptedDriver, lease: nat, handle: Registration,
                               request: RegisterRequest)
    returns (r: Result<Registration, RegisterError>)
    requires table.Valid() && driver.Valid() && Leased(table, lease, handle.id) && request.registration == handle.id
    requires handle.id !in driver.model.known
    modifies table, driver, driver.model
    ensures table.Valid() && driver.Valid() && SameGenerations(old(table.slots), table.slots)
    ensures var native := Planned(old(driver.steps), OpRegister);
            && handle.id in old(table.live) && table.live == Settled(old(table.live), handle.id, CommitOf(native))
            && driver.model.known == old(driver.model.known)[handle.id :=
                 Known(request.descriptor, Completed(Absent, Installed(request.interest, request.mode, Armed), native))]
            && r == match native
                    case Ok(_) => Ok(handle)
                    case Err(failure) =>
                      Err(RegisterError(MutationError(OpRegister, failure),
                                        if failure.commit.NotApplied? then None else Some(handle)))
    ensures driver.calls == old(driver.calls) + [RegisterCall(handle.id, request.key, request.interest, request.mode)]
    ensures Plans(old(driver.steps), OpRegister) ==>
              driver.steps == old(driver.steps)[1..] && driver.fault == old(driver.fault)
  {
    var native := driver.Register(request);
    r := SettleRegister(table, lease, handle, native);
  }

  class ScriptedPoll {
    const ids: PollIds
    const owner: PollOwner
    const table: RegistrationTable
    const driver: ScriptedDriver

    ghost predicate Valid()
      reads this, ids, owner, table, driver, driver.model
    {
      && owner.Valid(ids) && table.Valid() && driver.Valid()
      && Mirrors(table.live, driver.model.known) && KnownIssued(driver.model.known, table.slots)
    }

    constructor (ids: PollIds, table: RegistrationTable, steps: seq<Step>)
      requires ids.Valid() && table.Valid() && table.live == map[]
      ensures Valid() && this.ids == ids && this.table == table && fresh(owner) && fresh(driver) && fresh(driver.model)
      ensures owner.raw == 0 && driver.steps == steps && driver.calls == [] && driver.fault == None
              && driver.model.known == map[]
    {
      this.ids, this.table := ids, table;
      owner := new PollOwner();
      driver := new ScriptedDriver(steps);
    }

    static method WithCapacity(ids: PollIds, registrations: nat, steps: seq<Step>)
      returns (r: Result<ScriptedPoll, Error>)
      requires ids.Valid()
      ensures r.Ok? <==> 0 < registrations <= Token.MAX_REGISTRATIONS
      ensures r.Ok? ==> fresh(r.value) && fresh(r.value.owner) && fresh(r.value.table) && fresh(r.value.driver)
                        && fresh(r.value.driver.model) && r.value.Valid() && r.value.ids == ids
                        && r.value.table.limit == registrations && r.value.table.slots == []
                        && r.value.table.live == map[]
                        && r.value.owner.raw == 0 && r.value.driver.steps == steps && r.value.driver.calls == []
                        && r.value.driver.fault == None && r.value.driver.model.known == map[]
    {
      if registrations == 0 { return Err(Capacity(0)); }
      var table := RegistrationTable.New(registrations);
      match table {
        case Err(e) => r := Err(e);
        case Ok(created) =>
          var poll := new ScriptedPoll(ids, created, steps);
          r := Ok(poll);
      }
    }

    /** Neither the table nor the driver was touched. */
    twostate predicate Unchanged()
      reads table, driver, driver.model
    {
      && table.slots == old(table.slots) && table.live == old(table.live)
      && driver.steps == old(driver.steps) && driver.calls == old(driver.calls)
      && driver.fault == old(driver.fault) && driver.model.known == old(driver.model.known)
    }

    /** One driver call was recorded, and its step consumed if the script planned it. */
    twostate predicate Called(call: MutationCall, operation: Operation)
      reads driver
    {
      && driver.calls == old(driver.calls) + [call]
      && (Plans(old(driver.steps), operation) ==>
          driver.steps == old(driver.steps)[1..] && driver.fault == old(driver.fault))
    }

    method Register(descriptor: Descriptor, key: Key, interest: Interest, mode: Mode)
      returns (r: Result<Registration, RegisterError>, ghost id: RegistrationId)
      requires Valid()
      modifies owner, ids, table, driver, driver.model
      ensures Valid() && KeepsOwners(owner, ids)
      ensures old(RegisterRefused(owner, ids, table, interest)) ==>
                && Unchanged() && owner.raw == old(owner.raw)
                && r == Err(RegisterError(old(RefusalCause(table, interest)), None))
      ensures !old(RegisterRefused(owner, ids, table, interest)) ==>
                var native := Planned(old(driver.steps), OpRegister);
                && owner.raw != 0
                && Called(RegisterCall(id, key, interest, mode), OpRegister)
                && IssuesFirst(old(table.slots), table.slots, id) && id !in old(table.live)
                && table.live == MutationMachine.Registered(old(table.live), id,
                                                            Entry(descriptor, key, interest, mode, ARMED),
                                                            CommitOf(native))
                && OneSlotAdvances(table.limit, old(table.slots), table.slots)
                && r == match native
                        case Ok(_) => Ok(Handle(owner.raw, id))
                        case Err(failure) =>
                          Err(RegisterError(MutationError(OpRegister, failure),
                                            if failure.commit.NotApplied? then None else Some(Handle(owner.raw, id))))
    {
      ghost var live, slots := table.live, table.slots;
      id := 0;
      var step := BeginRegister(owner, ids, table, descriptor, key, interest, mode);
      match step {
        case RegisterRejected(cause) => r := Err(RegisterError(cause, None));
        case CallRegister(handle, lease, request) =>
          id := handle.id;
          assert OneSlotAdvances(table.limit, slots, table.slots);
          r := CallReserved(lease, handle, request, live, slots);
      }
    }

    /** The second half of a registration: the reserved slot is settled by what the script says. */
    method CallReserved(lease: nat, handle: Registration, request: RegisterRequest, ghost live: LiveMap,
                        ghost slots: seq<Slot>)
      returns (r: Result<Registration, RegisterError>)
      requires owner.Valid(ids) && table.Valid() && driver.Valid() && Leased(table, lease, handle.id)
      requires request.registration == handle.id && handle.id !in live
      requires var entry := Entry(request.descriptor, request.key, request.interest, request.mode, ARMED);
               table.live == live[handle.id := entry]
      requires IssuesFirst(slots, table.slots, handle.id)
      requires Mirrors(live, driver.model.known) && KnownIssued(driver.model.known, slots)
      modifies table, driver, driver.model
      ensures Valid() && SameGenerations(old(table.slots), table.slots) && IssuesFirst(slots, table.slots, handle.id)
      ensures Called(RegisterCall(handle.id, request.key, request.interest, request.mode), OpRegister)
      ensures var native := Planned(old(driver.steps), OpRegister);
              var entry := Entry(request.descriptor, request.key, request.interest, request.mode, ARMED);
              && table.live == MutationMachine.Registered(live, handle.id, entry, CommitOf(native))
              && r == match native
                      case Ok(_) => Ok(handle)
                      case Err(failure) =>
                        Err(RegisterError(MutationError(OpRegister, failure),
                                          if failure.commit.NotApplied? then None else Some(handle)))
    {
      ghost var middle, known, id := table.slots, driver.model.known, handle.id;
      ghost var entry, native := table.live[id], Planned(driver.steps, OpRegister);
      assert id !in known;
      r := CallAndSettleRegister(table, driver, lease, handle, request);
      SettledIssue(slots, middle, table.slots, id, known, driver.model.known);
      SettledIsRegistered(live, id, entry, CommitOf(native));
      RegisterMirrors(live, known, id, entry, native);
    }

    method Modify(registration: Registration, interest: Interest, mode: Mode) returns (r: Result<Unit, Error>)
      requires Valid()
      modifies table, driver, driver.model
      ensures Valid()
      ensures var id, live := registration.id, old(table.live);
              if owner.Current() != Some(registration.owner) then Unchanged() && r == Err(WrongPoller(id))
              else if interest.IsEmpty() then Unchanged() && r == Err(InvalidInterest)
              else if id !in live then Unchanged() && r == Err(Stale(id))
              else if live[id].state.Uncertain? then Unchanged() && r == Err(UncertainState(id))
              else
                var native := Planned(old(driver.steps), OpModify);
                && Called(ModifyCall(id, live[id].interest, live[id].mode, live[id].state.arm, interest, mode),
                          OpModify)
                && table.live == Modified(live, id, interest, mode, CommitOf(native))
                && SameGenerations(old(table.slots), table.slots)
                && r == match native case Ok(_) => Ok(Unit) case Err(failure) => Err(MutationError(OpModify, failure))
    {
      ghost var live, slots, known := table.live, table.slots, driver.model.known;
      var step := BeginModify(owner, table, registration, interest, mode);
      match step {
        case ModifyRejected(cause) => r := Err(cause);
        case CallModify(request) =>
          var native := driver.Modify(request);
          r := SettleModify(table, request, native);
          KnownStaysIssued(known, driver.model.known, slots, table.slots);
          ModifyMirrors(live, known, registration.id, interest, mode, native);
      }
    }

    method Delete(registration: Registration) returns (r: Result<Unit, DeleteError>)
      requires Valid()
      modifies table, driver, driver.model
      ensures Valid()
      ensures var id, live := registration.id, old(table.live);
              if owner.Current() != Some(registration.owner)
              then Unchanged() && r == Err(DeleteError(WrongPoller(id), registration))
              else if id !in live then Unchanged() && r == Err(DeleteError(Stale(id), registration))
              else
                var native := Planned(old(driver.steps), OpDelete);
                && Called(DeleteCall(id, live[id].interest, live[id].state), OpDelete)
                && table.live == Deleted(live, id, CommitOf(native))
                && SameGenerations(old(table.slots), table.slots)
                && r == match native
                        case Ok(_) => Ok(Unit)
                        case Err(failure) => Err(DeleteError(MutationError(OpDelete, failure), registration))
    {
      ghost var live, slots, known := table.live, table.slots, driver.model.known;
      var step := BeginDelete(owner, table, registration);
      match step {
        case DeleteRejected(cause) => r := Err(DeleteError(cause, registration));
        case CallDelete(lease, request) =>
          var native := driver.Delete(request);
          r := SettleDelete(table, lease, registration, native);
          KnownStaysIssued(known, driver.model.known, slots, table.slots);
          DeleteMirrors(live, known, registration.id, native);
      }
    }

    method StateOf(registration: Registration) returns (r: Result<RegistrationState, Error>)
      requires Valid()
      ensures r == if owner.Current() != Some(registration.owner) then Err(WrongPoller(registration.id))
                   else if registration.id in table.live then Ok(table.live[registration.id].state)
                   else Err(Stale(registration.id))
    {
      r := QueryState(owner, table, registration);
    }

    method BackendStateOf(id: RegistrationId) returns (state: BackendState)
      requires Valid()
      ensures state == if id in table.live then BackendOf(table.live[id]) else Absent
    {
      state := driver.model.State(id);
    }

    /** Moves an armed one-shot to disarmed in the table and in the backend. */
    method EstablishDisarmed(registration: Registration) returns (r: Result<Unit, Error>)
      requires Valid()
      modifies table, driver, driver.model
      ensures Valid() && SameGenerations(old(table.slots), table.slots) && driver.steps == old(driver.steps)
      ensures r.Ok? <==> owner.Current() == Some(registration.owner) && Disarmable(old(table.live), registration.id)
      ensures r.Ok? ==>
                && table.live == old(table.live)[registration.id :=
                  old(table.live)[registration.id].(state := DISARMED)]
                && driver.calls == old(driver.calls) + [EstablishDisarmedCall(registration.id)]
                && driver.fault == old(driver.fault)
      ensures r.Err? ==> table.live == old(table.live)
    {
      var id := registration.id;
      var state := StateOf(registration);
      match state { case Err(e) => return Err(e); case Ok(_) => }
      var found := table.BindingOf(id, false);
      match found {
        case Err(e) => r := Err(e);
        case Ok(binding) =>
          if binding.mode != OneShot { return Err(Invariant); }
          r := DisarmBoth(id, binding.descriptor);
      }
    }

    /** The backend first, then the table, which refuses a registration that is disarmed already. */
    method DisarmBoth(id: RegistrationId, descriptor: Descriptor) returns (r: Result<Unit, Error>)
      requires Valid() && id in table.live && table.live[id].descriptor == descriptor
      requires table.live[id].mode == OneShot && table.live[id].state.Registered?
      modifies table, driver, driver.model
      ensures Valid() && SameGenerations(old(table.slots), table.slots) && driver.steps == old(driver.steps)
      ensures r.Ok? <==> old(table.live)[id].state == ARMED
      ensures r.Ok? ==>
                driver.calls == old(driver.calls) + [EstablishDisarmedCall(id)] && driver.fault == old(driver.fault)
      ensures table.live == if r.Ok? then old(table.live)[id := old(table.live)[id].(state := DISARMED)]
                            else old(table.live)
    {
      ghost var live, slots, known := table.live, table.slots, driver.model.known;
      var established := driver.EstablishDisarmed(id, descriptor);
      if established.Err? { return Err(Invariant); }
      var applied := table.ApplyDisarm(id, Applied);
      KnownStaysIssued(known, driver.model.known, slots, table.slots);
      if applied.Ok? { DisarmMirrors(live, known, id); } else { AlreadyDisarmed(live, known, id); }
      match applied {
        case Err(e) => r := Err(e);
        case Ok(_) => r := Ok(Unit);
      }
    }

    method Finish() returns (r: Result<Unit, ScriptError>)
      requires Valid()
      ensures r.Ok? <==> driver.fault.None? && driver.steps == []
    {
      r := driver.Finish();
    }
  }

  /** In a one-slot table every registration takes the slot's next generation. */
  ghost predicate OneSlotAdvances(limit: nat, before: seq<Slot>, after: seq<Slot>) {
    limit == 1 ==> |after| == 1 && after[0].generation == if |before| == 0 then 1 else before[0].generation + 1
  }
}
