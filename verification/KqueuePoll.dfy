/** The kqueue poller: table, mutation machine, policy and wait pipeline over one kernel. */
module KqueuePolls {
  import opened Vocabulary
  import opened Slots
  import opened RegistrationTables
  import opened PollOwners
  import opened MutationMachine
  import opened Kernels
  import opened KqueuePolicy
  import opened KeventBatches
  import opened DisarmBatches
  import opened Events
  import opened Pending
  import opened Recovery
  import opened Containment
  import opened Agreement
  import opened Runs
  import opened KqueueMutations
  import opened KqueueWait

  class KqueuePoll {
    const ids: PollIds
    const owner: PollOwner
    const table: RegistrationTable
    const kernel: Kernel
    const raw: KeventBatch
    const disarms: DisarmBatch
    const pending: KqueuePending
    const eventCapacity: nat
    var wakeKey: Option<Key>
    /** Every one-shot delivery, committed modification and unapplied disarm so far. */
    ghost var log: seq<LogEntry>

    ghost function Objects(): set<object>
    {
      {this, ids, owner, table, kernel, raw, raw.storage, disarms, pending, pending.bySlot}
    }

    /** The four fixed capacities fit together: both filters of every registration plus the wake, and
        one plan with two changes for every entry that can be delivered. */
    ghost predicate CapacitiesFit()
      reads table
    {
      && 1 <= eventCapacity == pending.capacity
      && pending.bySlot.Length == table.limit
      && raw.eventCapacity == 2 * table.limit + 1
      && disarms.planCapacity == Min(eventCapacity, table.limit)
      && raw.changeCapacity == disarms.changeCapacity
    }

    ghost predicate Valid()
      reads Objects()
    {
      && owner.Valid(ids) && table.Valid() && raw.Valid() && disarms.Valid() && pending.Valid()
      && CapacitiesFit()
      && Sound(log, table.live, table.slots) && Contained(table.live, kernel.filters)
    }

    /** Table and kernel agree. */
    ghost predicate InStep()
      reads table, kernel
    {
      Agrees(table.live, kernel.filters)
    }

    ghost function Now(): Moment
      reads table
    {
      Moment(table.live, table.slots)
    }

    constructor (ids: PollIds, kernel: Kernel, table: RegistrationTable, raw: KeventBatch, eventCapacity: nat)
      requires ids.Valid() && table.Valid() && raw.Valid() && table.live == map[] && table.slots == []
      requires 1 <= eventCapacity && raw.eventCapacity == 2 * table.limit + 1
      requires raw.changeCapacity == 2 * Min(eventCapacity, table.limit)
      requires forall k | k in kernel.filters :: k == WAKE_KNOTE
      ensures Valid() && this.ids == ids && this.kernel == kernel && this.table == table && this.raw == raw
      ensures this.eventCapacity == eventCapacity && log == []
      ensures fresh(owner) && fresh(disarms) && fresh(pending) && fresh(pending.bySlot)
    {
      this.ids, this.kernel, this.table, this.raw, this.eventCapacity := ids, kernel, table, raw, eventCapacity;
      owner := new PollOwner();
      disarms := new DisarmBatch(Min(eventCapacity, table.limit));
      pending := new KqueuePending(eventCapacity, table.limit);
      wakeKey, log := None, [];
    }

    /** Construction fails exactly on an empty capacity or when the complete native batch exceeds what
        one native call can carry. */
    static method WithCapacity(ids: PollIds, kernel: Kernel, events: nat, registrations: nat)
      returns (r: Result<KqueuePoll, Error>)
      requires ids.Valid() && forall k | k in kernel.filters :: k == WAKE_KNOTE
      ensures r.Ok? <==> 0 < events && 0 < registrations && 2 * registrations + 1 <= I32_MAX
      ensures r.Ok? ==> fresh(r.value) && r.value.Valid() && r.value.InStep() && r.value.table.live == map[]
                        && r.value.kernel == kernel && r.value.table.limit == registrations
      ensures r.Err? ==> r.error == if events == 0 || registrations == 0 then Capacity(0) else BackendOverflow
    {
      if events == 0 { return Err(Capacity(0)); }
      if registrations == 0 { return Err(Capacity(0)); }
      var batch := KeventBatch.New(2 * registrations + 1, 2 * Min(events, registrations));
      if batch.None? { return Err(BackendOverflow); }
      var table := RegistrationTable.New(registrations);
      match table {
        case Err(e) => r := Err(e);
        case Ok(fresh_table) =>
          var poll := new KqueuePoll(ids, kernel, fresh_table, batch.value, events);
          r := Ok(poll);
      }
    }

    // ---------- Mutations ----------

    /** Registers a descriptor that no live registration uses. Whatever the kernel does, the result
        tells what happened, the table follows it, and agreement is kept; a rejection makes no native
        call at all. */
    method Register(descriptor: Descriptor, key: Key, interest: Interest, mode: Mode)
      returns (r: Result<Registration, RegisterError>, ghost id: RegistrationId)
      requires Valid() && !Owned(table.live, descriptor)
      modifies owner, ids, table, kernel
      ensures Valid() && Evolves(old(Now()), Now())
      ensures old(InStep()) ==> InStep()
      ensures r.Ok? || r.error.cause.Mutation? ==>
                RegisterTells(old(Now()), Now(), Entry(descriptor, key, interest, mode, ARMED), r, id)
      ensures (r.Err? && !r.error.cause.Mutation?) <==> old(RegisterRefused(owner, ids, table, interest))
      ensures !old(RegisterRefused(owner, ids, table, interest)) ==>
                && RegisterServed(old(kernel.history), kernel.history, descriptor, id, interest, Told(RegisterCause(r)))
                && var reply := kernel.history[|old(kernel.history)|].reply;
                   (reply == AppliedWithoutReceipts || reply == Receipts(0) ==>
                      && r.Ok? && r.value.id in table.live
                      && table.live[r.value.id] == Entry(descriptor, key, interest, mode, ARMED))
      ensures r.Err? && !r.error.cause.Mutation? ==>
                NothingCalled(table, kernel) && r.error == RegisterError(old(RefusalCause(table, interest)), None)
    {
      r, id := RegisterWith(owner, ids, table, kernel, log, descriptor, key, interest, mode);
    }

    /** Replaces interest and mode and rearms. A proven failure restores the complete prior state; an
        unprovable one leaves the registration uncertain. */
    method Modify(registration: Registration, interest: Interest, mode: Mode) returns (r: Result<Unit, Error>)
      requires Valid()
      modifies table, kernel, `log
      ensures Valid() && Evolves(old(Now()), Now()) && SameGenerations(old(table.slots), table.slots)
      ensures old(InStep()) ==> InStep()
      ensures log == old(log) + ModifyLog(registration.id, ModifyCause(r))
      ensures ModifyTells(owner.Current(), old(table.live), table.live, registration, interest, mode, r)
      ensures r.Ok? || r.error.Mutation? ==>
                var before := old(table.live)[registration.id];
                ModifyServed(old(kernel.history), kernel.history, before.descriptor, registration.id, before.interest,
                             before.state.arm, interest, Told(ModifyCause(r)))
      ensures r.Err? && !r.error.Mutation? ==> NothingCalled(table, kernel)
    {
      ghost var longer;
      r, longer := ModifyWith(owner, table, kernel, log, registration, interest, mode);
      log := longer;
    }

    /** Deletes a registration. Success retires the generation and leaves no filter of it behind, although
        only the filters the table believes in were named, and whatever failed before. */
    method Delete(registration: Registration) returns (r: Result<Unit, DeleteError>)
      requires Valid()
      modifies table, kernel
      ensures Valid() && Evolves(old(Now()), Now()) && SameGenerations(old(table.slots), table.slots)
      ensures old(InStep()) ==> InStep()
      ensures DeleteTells(owner.Current(), old(table.live), table.live, registration, r)
      ensures r.Ok? ==> NothingInstalled(kernel.filters, old(table.live)[registration.id].descriptor)
      ensures r.Err? && r.error.cause.Mutation? ==> r.error.cause.commit == Unknown
      ensures r.Ok? || r.error.cause.Mutation? ==>
                var before := old(table.live)[registration.id];
                DeleteServed(old(kernel.history), kernel.history, before.descriptor, before.interest, before.state,
                             Told(DeleteCause(r)))
      ensures r.Err? && !r.error.cause.Mutation? ==> NothingCalled(table, kernel)
    {
      r := DeleteWith(owner, table, kernel, log, registration);
    }

    /** The native batch has room for every filter that can be installed, in agreement or not, so no
        registration's split observation is cut. */
    lemma {:induction false} NativeBatchHoldsEveryFilter()
      requires Valid()
      ensures |kernel.filters| <= 2 * |table.live| + 1 <= raw.eventCapacity
    {
      FiltersFit(table.live, kernel.filters);
      table.Accounted();
    }

    // ---------- Waiting ----------

    /** One observation. The destination is cleared first, and left empty by every error. */
    method Wait(events: EventBuffer, native: Result<seq<Kevent>, IoError>)
      returns (r: Result<WaitReport, Error>, ghost entries: seq<PendingResource>, ghost outcomes: seq<RecoveryOutcome>)
      requires Valid() && events.Valid()
      modifies table, kernel, raw, raw.storage, disarms, pending, pending.bySlot, events, `log
      ensures Valid() && events.Valid()
      ensures WaitOutcome(old(Now()), Now(), old(log), log, Answered(native, raw.eventCapacity),
                          eventCapacity, events.capacity, wakeKey, entries, outcomes, events.items, r,
                          old(kernel.history), kernel.history)
      ensures SameGenerations(old(table.slots), table.slots)
      ensures old(InStep()) && r.Ok? ==> InStep()
      ensures FailureTells(old(table.live), Answered(native, raw.eventCapacity), eventCapacity, events.capacity,
                           entries, old(kernel.filters), kernel.filters, old(kernel.history), kernel.history, r)
    {
      ghost var longer;
      r, entries, outcomes, longer :=
        WaitWith(table, kernel, raw, disarms, pending, events, eventCapacity, wakeKey, log, native);
      log := longer;
    }
  }
}
