/** The portable registration state machine over a mutation driver.

    Each operation runs in two halves around its one native call: `Begin…` validates and reserves and
    hands out the request, `Settle…` takes whatever the driver reported and settles the table. The
    report is an arbitrary value, so every contract below holds over every driver. */
module MutationMachine {
  import opened Vocabulary
  import opened Token
  import opened Slots
  import opened RegistrationTables
  import opened PollOwners

  datatype Handle = Handle(owner: PollId, id: RegistrationId)

  /** Handles are made by the library alone, so their ids decode. */
  type Registration = h: Handle | Decode(h.id).Ok? witness Handle(0, HALF + 1)

  datatype RegisterError = RegisterError(cause: Error, registration: Option<Registration>)
  datatype DeleteError = DeleteError(cause: Error, registration: Registration)

  datatype RegisterRequest = RegisterRequest(descriptor: Descriptor, registration: RegistrationId, key: Key,
                                             interest: Interest, mode: Mode)
  datatype ModifyRequest = ModifyRequest(descriptor: Descriptor, registration: RegistrationId,
                                         previousInterest: Interest, previousMode: Mode, previousArm: ArmState,
                                         desiredInterest: Interest, desiredMode: Mode)
  datatype DeleteRequest = DeleteRequest(descriptor: Descriptor, registration: RegistrationId,
                                         interest: Interest, state: RegistrationState)

  /** Either the operation ended before any native call, or it must now make exactly this one. `lease`
      is the slot that the settlement owns. */
  datatype RegisterStep =
    | RegisterRejected(cause: Error)
    | CallRegister(handle: Registration, lease: nat, registering: RegisterRequest)
  datatype ModifyStep = ModifyRejected(cause: Error) | CallModify(modifying: ModifyRequest)
  datatype DeleteStep = DeleteRejected(cause: Error) | CallDelete(lease: nat, deleting: DeleteRequest)

  type LiveMap = map<RegistrationId, Entry>

  // ---------- What a settled operation does to the live map ----------

  function Registered(live: LiveMap, id: RegistrationId, entry: Entry, commit: CommitStatus): LiveMap {
    match commit
    case Applied => live[id := entry]
    case NotApplied => live
    case Unknown => live[id := entry.(state := Uncertain)]
  }

  /** What settling does to a reservation that is already in the live map. */
  function Settled(live: LiveMap, id: RegistrationId, commit: CommitStatus): LiveMap
    requires id in live
  {
    match commit
    case Applied => live
    case NotApplied => live - {id}
    case Unknown => live[id := live[id].(state := Uncertain)]
  }

  /** Reserving first and settling afterwards is registering by the reported commit. */
  lemma {:induction false} SettledIsRegistered(live: LiveMap, id: RegistrationId, entry: Entry, commit: CommitStatus)
    requires id !in live
    ensures Settled(live[id := entry], id, commit) == Registered(live, id, entry, commit)
  {
    assert live[id := entry] - {id} == live;
  }

  function Modified(live: LiveMap, id: RegistrationId, interest: Interest, mode: Mode, commit: CommitStatus): LiveMap
    requires id in live
  {
    match commit
    case Applied => live[id := live[id].(interest := interest, mode := mode, state := ARMED)]
    case NotApplied => live
    case Unknown => live[id := live[id].(state := Uncertain)]
  }

  function Deleted(live: LiveMap, id: RegistrationId, commit: CommitStatus): LiveMap
    requires id in live
  {
    match commit
    case Applied => live - {id}
    case NotApplied => live
    case Unknown => live[id := live[id].(state := Uncertain)]
  }

  /** A modification as a whole: rejections are ranked and leave the live map alone, and what reached its
      native call moved exactly one entry, by the reported commit. */
  predicate ModifyTells(owner: Option<PollId>, live: LiveMap, later: LiveMap, registration: Registration,
                        interest: Interest, mode: Mode, r: Result<Unit, Error>)
  {
    var id := registration.id;
    if owner != Some(registration.owner) then later == live && r == Err(WrongPoller(id))
    else if interest.IsEmpty() then later == live && r == Err(InvalidInterest)
    else if id !in live then later == live && r == Err(Stale(id))
    else if live[id].state.Uncertain? then later == live && r == Err(UncertainState(id))
    else
      && (r.Ok? || r.error.Mutation?)
      && later == Modified(live, id, interest, mode, if r.Ok? then Applied else r.error.commit)
  }

  /** A deletion as a whole, likewise. Every failure returns the handle. */
  predicate DeleteTells(owner: Option<PollId>, live: LiveMap, later: LiveMap, registration: Registration,
                        r: Result<Unit, DeleteError>)
  {
    var id := registration.id;
    if owner != Some(registration.owner) then later == live && r == Err(DeleteError(WrongPoller(id), registration))
    else if id !in live then later == live && r == Err(DeleteError(Stale(id), registration))
    else
      && (r.Err? ==> r.error.cause.Mutation? && r.error.registration == registration)
      && later == Deleted(live, id, if r.Ok? then Applied else r.error.cause.commit)
  }

  function MutationError(operation: Operation, failure: MutationFailure): Error {
    Mutation(operation, failure.commit, failure.source)
  }

  function RequireOwner(owner: Option<PollId>, registration: Registration): (r: Result<Unit, Error>)
    ensures r.Ok? <==> owner == Some(registration.owner)
  {
    if owner == Some(registration.owner) then Ok(Unit) else Err(WrongPoller(registration.id))
  }

  method QueryState(owner: PollOwner, table: RegistrationTable, registration: Registration)
    returns (r: Result<RegistrationState, Error>)
    requires table.Valid()
    ensures r == if owner.Current() != Some(registration.owner) then Err(WrongPoller(registration.id))
                 else if registration.id in table.live then Ok(table.live[registration.id].state)
                 else Err(Stale(registration.id))
  {
    var owned := RequireOwner(owner.Current(), registration);
    if owned.Err? { return Err(owned.error); }
    r := table.State(registration.id);
  }

  // ---------- Register ----------

  /** Room for one more live registration, now or by reuse. */
  predicate HasRoom(table: RegistrationTable)
    reads table
  {
    table.HasReusableSlot() || |table.slots| < table.limit
  }

  /** A registration that ends before its native call. */
  predicate RegisterRefused(owner: PollOwner, ids: PollIds, table: RegistrationTable, interest: Interest)
    reads owner, ids, table
  {
    interest.IsEmpty() || !HasRoom(table) || (owner.raw == 0 && ids.next == U64_MAX)
  }

  /** The ranked cause of such an end. */
  function RefusalCause(table: RegistrationTable, interest: Interest): Error
    reads table
  {
    if interest.IsEmpty() then InvalidInterest
    else if HasRoom(table) then Invariant
    else if table.exhausted == table.limit then RegistrationSpaceExhausted
    else Capacity(table.limit)
  }

  /** The table is full exactly when live and spent slots together use the limit. */
  lemma {:induction false} RoomIsExact(table: RegistrationTable)
    requires table.Valid()
    ensures HasRoom(table) <==> |table.live| + table.exhausted < table.limit
  {
    table.Accounted();
  }

  /** Slot `lease` holds the live generation `id`. */
  predicate Leased(table: RegistrationTable, lease: nat, id: RegistrationId)
    reads table
  {
    && Fits(table.slots) && lease < |table.slots|
    && table.slots[lease].entry.Some? && IdAt(table.slots, lease) == id
  }

  /** An assigned owner keeps its id, and no id changes hands. */
  twostate predicate KeepsOwners(owner: PollOwner, ids: PollIds)
    reads owner, ids
  {
    && (old(owner.raw) != 0 ==> owner.raw == old(owner.raw))
    && (owner.raw == old(owner.raw) ==> ids.next == old(ids.next))
    && (owner.raw != old(owner.raw) ==> ids.next == old(ids.next) + 1)
    && forall other | other in old(ids.holders) :: other in ids.holders && ids.holders[other] == old(ids.holders)[other]
  }

  /** The table gained exactly `entry`, armed under an id never issued before. */
  twostate predicate Reserved(owner: PollOwner, table: RegistrationTable, handle: Registration, lease: nat,
                              entry: Entry)
    requires Fits(old(table.slots)) && Fits(table.slots)
    reads owner, table
  {
    && handle.owner == owner.raw != 0
    && Leased(table, lease, handle.id)
    && handle.id !in old(table.live)
    && table.live == old(table.live)[handle.id := entry]
    && IssuesFirst(old(table.slots), table.slots, handle.id)
  }

  method BeginRegister(owner: PollOwner, ids: PollIds, table: RegistrationTable,
                       descriptor: Descriptor, key: Key, interest: Interest, mode: Mode)
    returns (step: RegisterStep)
    requires table.Valid() && owner.Valid(ids)
    modifies owner, ids, table
    ensures table.Valid() && owner.Valid(ids) && table.exhausted == old(table.exhausted)
    ensures KeepsOwners(owner, ids)
    ensures step.RegisterRejected? <==> old(RegisterRefused(owner, ids, table, interest))
    ensures step.RegisterRejected? ==>
              && table.slots == old(table.slots) && table.live == old(table.live) && owner.raw == old(owner.raw)
              && step.cause == old(RefusalCause(table, interest))
    ensures step.CallRegister? ==>
              && Reserved(owner, table, step.handle, step.lease, Entry(descriptor, key, interest, mode, ARMED))
              && step.registering == RegisterRequest(descriptor, step.handle.id, key, interest, mode)
    ensures step.CallRegister? && old(table.HasReusableSlot()) ==>
              && step.lease == old(table.freeHead) as nat < |old(table.slots)|
              && |table.slots| == |old(table.slots)|
              && table.slots[step.lease].generation == old(table.slots)[step.lease].generation + 1
    ensures step.CallRegister? && !old(table.HasReusableSlot()) ==>
              && step.lease == |old(table.slots)| && |table.slots| == step.lease + 1
              && table.slots[step.lease].generation == 1
  {
    if interest.IsEmpty() { return RegisterRejected(InvalidInterest); }
    if table.HasReusableSlot() {
      step := BeginReused(owner, ids, table, descriptor, key, interest, mode);
    } else {
      step := BeginFresh(owner, ids, table, descriptor, key, interest, mode);
    }
  }

  method BeginReused(owner: PollOwner, ids: PollIds, table: RegistrationTable,
                     descriptor: Descriptor, key: Key, interest: Interest, mode: Mode)
    returns (step: RegisterStep)
    requires table.Valid() && owner.Valid(ids) && table.HasReusableSlot()
    modifies owner, ids, table
    ensures table.Valid() && owner.Valid(ids) && table.exhausted == old(table.exhausted)
    ensures KeepsOwners(owner, ids)
    ensures step.RegisterRejected? <==> old(owner.raw) == 0 && old(ids.next) == U64_MAX
    ensures step.RegisterRejected? ==>
              table.slots == old(table.slots) && table.live == old(table.live) && owner.raw == old(owner.raw)
              && step.cause == Invariant
    ensures step.CallRegister? ==>
              && Reserved(owner, table, step.handle, step.lease, Entry(descriptor, key, interest, mode, ARMED))
              && step.registering == RegisterRequest(descriptor, step.handle.id, key, interest, mode)
              && step.lease == old(table.freeHead) as nat < |old(table.slots)|
              && |table.slots| == |old(table.slots)|
              && table.slots[step.lease].generation == old(table.slots)[step.lease].generation + 1
  {
    var permit := table.TakeReusedPermit();
    match permit { case Err(e) => return RegisterRejected(e); case Ok(_) => }
    var poller := owner.GetOrAssign(ids);
    if poller.Err? { return RegisterRejected(poller.error); }
    var registration: Registration := Handle(poller.value, permit.value.id);
    var lease := table.ReserveReused(permit.value, Entry(descriptor, key, interest, mode, ARMED));
    match lease { case Err(e) => return RegisterRejected(e); case Ok(_) => }
    step := CallRegister(registration, lease.value, RegisterRequest(descriptor, registration.id, key, interest, mode));
  }

  method BeginFresh(owner: PollOwner, ids: PollIds, table: RegistrationTable,
                    descriptor: Descriptor, key: Key, interest: Interest, mode: Mode)
    returns (step: RegisterStep)
    requires table.Valid() && owner.Valid(ids) && !table.HasReusableSlot()
    modifies owner, ids, table
    ensures table.Valid() && owner.Valid(ids) && table.exhausted == old(table.exhausted)
    ensures KeepsOwners(owner, ids)
    ensures step.RegisterRejected? <==>
              |old(table.slots)| == table.limit || (old(owner.raw) == 0 && old(ids.next) == U64_MAX)
    ensures step.RegisterRejected? ==>
              && table.slots == old(table.slots) && table.live == old(table.live) && owner.raw == old(owner.raw)
              && step.cause == if |table.slots| < table.limit then Invariant
                               else if table.exhausted == table.limit then RegistrationSpaceExhausted
                               else Capacity(table.limit)
    ensures step.CallRegister? ==>
              && Reserved(owner, table, step.handle, step.lease, Entry(descriptor, key, interest, mode, ARMED))
              && step.registering == RegisterRequest(descriptor, step.handle.id, key, interest, mode)
              && step.lease == |old(table.slots)| && |table.slots| == step.lease + 1
              && table.slots[step.lease].generation == 1
  {
    var permit := table.TakeFreshPermit();
    match permit { case Err(e) => return RegisterRejected(e); case Ok(_) => }
    var poller := owner.GetOrAssign(ids);
    if poller.Err? { return RegisterRejected(poller.error); }
    var registration: Registration := Handle(poller.value, permit.value.id);
    var lease := table.ReserveFresh(permit.value, Entry(descriptor, key, interest, mode, ARMED));
    match lease { case Err(e) => return RegisterRejected(e); case Ok(_) => }
    step := CallRegister(registration, lease.value, RegisterRequest(descriptor, registration.id, key, interest, mode));
  }

  /** A proven refusal releases the slot and returns no handle; every other failure keeps the handle. */
  method SettleRegister(table: RegistrationTable, lease: nat, registration: Registration, native: NativeResult)
    returns (r: Result<Registration, RegisterError>)
    requires table.Valid() && Leased(table, lease, registration.id)
    modifies table
    ensures table.Valid() && SameGenerations(old(table.slots), table.slots)
    ensures table.exhausted == old(table.exhausted)
                               + if CommitOf(native).NotApplied? && table.slots[lease].generation == MAX_GENERATION
                                 then 1 else 0
    ensures registration.id in old(table.live)
            && table.live == Settled(old(table.live), registration.id, CommitOf(native))
    ensures r == match native
                 case Ok(_) => Ok(registration)
                 case Err(failure) =>
                   Err(RegisterError(MutationError(OpRegister, failure),
                                     if failure.commit.NotApplied? then None else Some(registration)))
  {
    FindAt(table.slots, lease);
    FindRepresented(table.live, table.slots, registration.id);
    if native.Ok? { return Ok(registration); }
    var failure := native.error;
    var error := MutationError(OpRegister, failure);
    match failure.commit {
      case NotApplied =>
        var retired := table.Retire(lease);
        match retired { case Err(e) => return Err(RegisterError(e, None)); case Ok(_) => }
        r := Err(RegisterError(error, None));
      case Applied =>
        r := Err(RegisterError(error, Some(registration)));
      case Unknown =>
        var marked := table.MarkUncertain(registration.id);
        match marked { case Err(e) => return Err(RegisterError(e, Some(registration))); case Ok(_) => }
        r := Err(RegisterError(error, Some(registration)));
    }
  }

  // ---------- Modify ----------

  /** Rejections leave the table alone and are ranked: owner, interest, staleness, uncertainty. */
  method BeginModify(owner: PollOwner, table: RegistrationTable, registration: Registration, interest: Interest,
                     mode: Mode)
    returns (step: ModifyStep)
    requires table.Valid()
    ensures var id, live := registration.id, table.live;
            step == if owner.Current() != Some(registration.owner) then ModifyRejected(WrongPoller(id))
                    else if interest.IsEmpty() then ModifyRejected(InvalidInterest)
                    else if id !in live then ModifyRejected(Stale(id))
                    else if live[id].state.Uncertain? then ModifyRejected(UncertainState(id))
                    else CallModify(ModifyRequest(live[id].descriptor, id, live[id].interest, live[id].mode,
                                                  live[id].state.arm, interest, mode))
  {
    var owned := RequireOwner(owner.Current(), registration);
    if owned.Err? { return ModifyRejected(owned.error); }
    if interest.IsEmpty() { return ModifyRejected(InvalidInterest); }
    var found := table.BindingOf(registration.id, false);
    if found.Err? { return ModifyRejected(found.error); }
    var binding := found.value;
    if binding.state.Uncertain? { return ModifyRejected(UncertainState(registration.id)); }
    step := CallModify(ModifyRequest(binding.descriptor, registration.id, binding.interest, binding.mode,
                                     binding.state.arm, interest, mode));
  }

  method SettleModify(table: RegistrationTable, request: ModifyRequest, native: NativeResult)
    returns (r: Result<Unit, Error>)
    requires table.Valid() && request.registration in table.live
    modifies table
    ensures table.Valid() && SameGenerations(old(table.slots), table.slots) && table.exhausted == old(table.exhausted)
    ensures table.live == Modified(old(table.live), request.registration, request.desiredInterest, request.desiredMode,
                                     CommitOf(native))
    ensures r == match native
                 case Ok(_) => Ok(Unit)
                 case Err(failure) => Err(MutationError(OpModify, failure))
  {
    if native.Err? {
      var failure := native.error;
      match failure.commit {
        case NotApplied =>
        case Applied =>
          var committed := table.CommitModify(request.registration, request.desiredInterest, request.desiredMode);
          if committed.Err? { return committed; }
        case Unknown =>
          var marked := table.MarkUncertain(request.registration);
          if marked.Err? { return marked; }
      }
      return Err(MutationError(OpModify, failure));
    }
    r := table.CommitModify(request.registration, request.desiredInterest, request.desiredMode);
  }

  // ---------- Delete ----------

  method BeginDelete(owner: PollOwner, table: RegistrationTable, registration: Registration)
    returns (step: DeleteStep)
    requires table.Valid()
    ensures var id, live := registration.id, table.live;
            if owner.Current() != Some(registration.owner) then step == DeleteRejected(WrongPoller(id))
            else if id !in live then step == DeleteRejected(Stale(id))
            else && step.CallDelete? && Leased(table, step.lease, id)
                 && step.deleting == DeleteRequest(live[id].descriptor, id, live[id].interest, live[id].state)
  {
    var owned := RequireOwner(owner.Current(), registration);
    if owned.Err? { return DeleteRejected(owned.error); }
    var prepared := table.PrepareRetire(registration.id, true);
    if prepared.Err? { return DeleteRejected(prepared.error); }
    var entry := table.slots[prepared.value].entry.value;
    step := CallDelete(prepared.value, DeleteRequest(entry.descriptor, registration.id, entry.interest, entry.state));
  }

  method SettleDelete(table: RegistrationTable, lease: nat, registration: Registration, native: NativeResult)
    returns (r: Result<Unit, DeleteError>)
    requires table.Valid() && Leased(table, lease, registration.id)
    modifies table
    ensures table.Valid() && SameGenerations(old(table.slots), table.slots)
    ensures table.exhausted == old(table.exhausted)
                               + if CommitOf(native).Applied? && table.slots[lease].generation == MAX_GENERATION then 1
                                 else 0
    ensures registration.id in old(table.live)
    ensures table.live == Deleted(old(table.live), registration.id, CommitOf(native))
    ensures r == match native
                 case Ok(_) => Ok(Unit)
                 case Err(failure) => Err(DeleteError(MutationError(OpDelete, failure), registration))
  {
    FindAt(table.slots, lease);
    FindRepresented(table.live, table.slots, registration.id);
    if native.Err? {
      var failure := native.error;
      var settled := Ok(Unit);
      match failure.commit {
        case NotApplied =>
        case Applied => settled := table.Retire(lease);
        case Unknown => settled := table.MarkUncertain(registration.id);
      }
      match settled { case Err(e) => return Err(DeleteError(e, registration)); case Ok(_) => }
      return Err(DeleteError(MutationError(OpDelete, failure), registration));
    }
    var retired := table.Retire(lease);
    match retired { case Err(e) => return Err(DeleteError(e, registration)); case Ok(_) => }
    r := Ok(Unit);
  }
}
