/** Whole runs of the kqueue poller: any number of calls, each chosen by an adversary among those a
    caller may make, over a kernel that may fail any filter change. An honest kernel reports only filters
    that are installed and enabled; what holds over any kernel is proved without that. */
module KqueueRuns {
  import opened Vocabulary
  import opened Slots
  import opened RegistrationTables
  import opened MutationMachine
  import opened Kernels
  import opened KeventBatches
  import opened Events
  import opened Pending
  import opened Recovery
  import opened Containment
  import opened Runs
  import opened Observation
  import opened KqueueWait
  import opened WaitAccounts
  import opened KqueuePolls

  datatype KqueueCall =
    | Registers(descriptor: Descriptor, key: Key, interest: Interest, mode: Mode)
    | Modifies(registration: Registration, interest: Interest, mode: Mode)
    | Deletes(registration: Registration)
    | Waits(native: Result<seq<Kevent>, IoError>)
  {
    /** The handle that the caller used. */
    function Used(): Option<RegistrationId> {
      if Modifies? || Deletes? then Some(registration.id) else None
    }
  }

  predicate Occupies(slots: seq<Slot>, descriptor: Descriptor) {
    exists i | 0 <= i < |slots| :: slots[i].entry.Some? && slots[i].entry.value.descriptor == descriptor
  }

  predicate HonestRecords(filters: Filters, records: seq<Kevent>) {
    forall i | 0 <= i < |records| :: Honest(filters, records[i])
  }

  /** A caller registers no descriptor twice; any handle may be used, stale and foreign ones included. An
      honest kernel answers a wait with honest records. */
  predicate Permitted(slots: seq<Slot>, filters: Filters, honest: bool, call: KqueueCall) {
    match call
    case Registers(descriptor, _, _, _) => !Occupies(slots, descriptor)
    case Waits(Ok(records)) => honest ==> HonestRecords(filters, records)
    case _ => true
  }

  lemma {:induction false} UnoccupiedIsUnowned(table: RegistrationTable, descriptor: Descriptor)
    requires table.Valid() && !Occupies(table.slots, descriptor)
    ensures !Owned(table.live, descriptor)
  {
    forall id | id in table.live ensures table.live[id].descriptor != descriptor {
      FindRepresented(table.live, table.slots, id);
    }
  }

  // ---------- What is recorded of one call ----------

  /** One call of a run, the error it returned, and for a wait the coalesced batch and the reported
      outcomes of the one-shots it delivered. */
  datatype Played = Played(call: KqueueCall, error: Option<Error>, entries: seq<PendingResource>,
                           outcomes: seq<RecoveryOutcome>)

  /** A wait that delivered: its batch was coalesced and deliverable, and the outcomes are those of the
      one-shots among the delivered entries, in order. */
  ghost predicate WaitDelivered(live: LiveMap, later: LiveMap, capacity: nat, native: seq<Kevent>,
                                entries: seq<PendingResource>, outcomes: seq<RecoveryOutcome>)
    requires 1 <= capacity
  {
    && Summarizes(entries, SeenUpTo(live, native, |native|), capacity)
    && WaitDelivers(live, native, capacity, entries)
    && OutcomesFor(outcomes, OneShotIds(live, entries, DeliveredCount(|entries|, capacity, Woke(native, |native|))))
    && later == ApplyOutcomes(live, outcomes, |outcomes|)
  }

  /** How the recorded call moved the table. */
  ghost predicate Moves(live: LiveMap, later: LiveMap, capacity: nat, played: Played, issued: Option<RegistrationId>)
    requires 1 <= capacity
  {
    match played.call
    case Registers(descriptor, key, interest, mode) =>
      RegisterMoves(live, later, Entry(descriptor, key, interest, mode, ARMED), played.error, issued)
    case Modifies(registration, interest, mode) =>
      ModifyMoves(live, later, registration.id, interest, mode, played.error)
    case Deletes(registration) => DeleteMoves(live, later, registration.id, played.error)
    case Waits(native) =>
      if played.error.Some? then later == live
      else native.Ok? && WaitDelivered(live, later, capacity, native.value, played.entries, played.outcomes)
  }

  /** What the recorded call added to the delivery log. */
  function Logged(played: Played): seq<LogEntry> {
    match played.call
    case Modifies(registration, _, _) => ModifyLog(registration.id, played.error)
    case Waits(_) => if played.error.None? then OutcomesLog(played.outcomes, |played.outcomes|) else []
    case _ => []
  }

  function LogOf(trace: seq<Played>, n: nat): seq<LogEntry>
    requires n <= |trace|
  {
    if n == 0 then [] else LogOf(trace, n - 1) + Logged(trace[n - 1])
  }

  lemma {:induction false} LogOfPrefix(trace: seq<Played>, played: Played, n: nat)
    requires n <= |trace|
    ensures LogOf(trace + [played], n) == LogOf(trace, n)
  {
    if n > 0 { LogOfPrefix(trace, played, n - 1); }
  }

  lemma {:induction false} LogGrows(log: seq<LogEntry>, trace: seq<Played>, played: Played)
    ensures log + LogOf(trace + [played], |trace| + 1) == log + LogOf(trace, |trace|) + Logged(played)
  {
    LogOfPrefix(trace, played, |trace|);
  }

  /** The recorded call leads from one moment to the next. */
  ghost predicate Follows(before: Moment, after: Moment, capacity: nat, played: Played, issued: Option<RegistrationId>,
                          honest: bool)
    requires 1 <= capacity
  {
    && Evolves(before, after) && Issuing(before, after, issued)
    && RefusesRetired(before.live, played.call.Used(), played.error)
    && Moves(before.live, after.live, capacity, played, issued)
    && (honest && played.call.Waits? ==> played.error != Some(Invariant))
  }

  /** A call that keeps every generation issues nothing. */
  lemma {:induction false} KeepingFollows(before: Moment, after: Moment, capacity: nat, played: Played, honest: bool)
    requires 1 <= capacity && Evolves(before, after) && SameGenerations(before.slots, after.slots)
    requires RefusesRetired(before.live, played.call.Used(), played.error)
    requires Moves(before.live, after.live, capacity, played, None)
    requires honest && played.call.Waits? ==> played.error != Some(Invariant)
    ensures Follows(before, after, capacity, played, None, honest)
  {
    SameGenerationsSameIssued(before.slots, after.slots);
  }

  // ---------- One call ----------

  method PlayRegister(poll: KqueuePoll, descriptor: Descriptor, key: Key, interest: Interest, mode: Mode)
    returns (error: Option<Error>, ghost played: Played, ghost issued: Option<RegistrationId>)
    requires poll.Valid() && !Owned(poll.table.live, descriptor)
    modifies poll.owner, poll.ids, poll.table, poll.kernel
    ensures poll.Valid() && (old(poll.InStep()) ==> poll.InStep())
    ensures played == Played(Registers(descriptor, key, interest, mode), error, [], [])
    ensures Follows(old(poll.Now()), poll.Now(), poll.eventCapacity, played, issued, true)
    ensures poll.log == old(poll.log) + Logged(played)
  {
    ghost var before, id := poll.Now(), 0;
    var registered;
    registered, id := poll.Register(descriptor, key, interest, mode);
    error, issued := RegisterCause(registered), IssuedBy(registered, id);
    RegisterTellsMove(before, poll.Now(), Entry(descriptor, key, interest, mode, ARMED), registered, id);
    played := Played(Registers(descriptor, key, interest, mode), error, [], []);
  }

  method PlayModify(poll: KqueuePoll, registration: Registration, interest: Interest, mode: Mode)
    returns (error: Option<Error>, ghost played: Played)
    requires poll.Valid()
    modifies poll.table, poll.kernel, poll`log
    ensures poll.Valid() && (old(poll.InStep()) ==> poll.InStep())
    ensures played == Played(Modifies(registration, interest, mode), error, [], [])
    ensures Follows(old(poll.Now()), poll.Now(), poll.eventCapacity, played, None, true)
    ensures poll.log == old(poll.log) + Logged(played)
  {
    ghost var before := poll.Now();
    var modified := poll.Modify(registration, interest, mode);
    error := ModifyCause(modified);
    ModifyTellsMove(poll.owner.Current(), before.live, poll.table.live, registration, interest, mode, modified);
    played := Played(Modifies(registration, interest, mode), error, [], []);
    KeepingFollows(before, poll.Now(), poll.eventCapacity, played, true);
  }

  method PlayDelete(poll: KqueuePoll, registration: Registration)
    returns (error: Option<Error>, ghost played: Played)
    requires poll.Valid()
    modifies poll.table, poll.kernel
    ensures poll.Valid() && (old(poll.InStep()) ==> poll.InStep())
    ensures played == Played(Deletes(registration), error, [], [])
    ensures Follows(old(poll.Now()), poll.Now(), poll.eventCapacity, played, None, true)
    ensures poll.log == old(poll.log) + Logged(played)
  {
    ghost var before := poll.Now();
    var deleted := poll.Delete(registration);
    error := DeleteCause(deleted);
    DeleteTellsMove(poll.owner.Current(), before.live, poll.table.live, registration, deleted);
    played := Played(Deletes(registration), error, [], []);
    KeepingFollows(before, poll.Now(), poll.eventCapacity, played, true);
  }

  /** Over an honest kernel a wait fails for want of storage or by the native call, and for no other
      reason. */
  method PlayWait(poll: KqueuePoll, events: EventBuffer, native: Result<seq<Kevent>, IoError>, honest: bool)
    returns (r: Result<WaitReport, Error>, ghost played: Played)
    requires poll.Valid() && events.Valid() && (honest ==> poll.InStep())
    requires honest && native.Ok? ==> HonestRecords(poll.kernel.filters, native.value)
    modifies poll.Objects(), events
    ensures poll.Valid() && events.Valid() && (honest ==> poll.InStep())
    ensures played.call == Waits(native) && played.error == if r.Ok? then None else Some(r.error)
    ensures Follows(old(poll.Now()), poll.Now(), poll.eventCapacity, played, None, honest)
    ensures poll.log == old(poll.log) + Logged(played)
    ensures honest ==>
              (r.Ok? <==> Answered(native, poll.raw.eventCapacity).Ok? && poll.eventCapacity <= events.capacity)
    ensures r.Err? ==> events.items == []
  {
    ghost var before, filters := poll.Now(), poll.kernel.filters;
    ghost var entries, outcomes;
    r, entries, outcomes := poll.Wait(events, native);
    if honest && Answered(native, poll.raw.eventCapacity).Ok? && poll.eventCapacity <= events.capacity {
      HonestWaitDelivers(before.live, filters, native.value, entries, poll.eventCapacity);
    }
    played := Played(Waits(native), if r.Ok? then None else Some(r.error), entries, outcomes);
    KeepingFollows(before, poll.Now(), poll.eventCapacity, played, honest);
  }

  method PlayOne(poll: KqueuePoll, events: EventBuffer, call: KqueueCall, honest: bool)
    returns (error: Option<Error>, ghost played: Played, ghost issued: Option<RegistrationId>)
    requires poll.Valid() && events.Valid() && (honest ==> poll.InStep())
    requires Permitted(poll.table.slots, poll.kernel.filters, honest, call)
    modifies poll.Objects(), events
    ensures poll.Valid() && events.Valid() && (honest ==> poll.InStep())
    ensures played.call == call && played.error == error
    ensures Follows(old(poll.Now()), poll.Now(), poll.eventCapacity, played, issued, honest)
    ensures poll.log == old(poll.log) + Logged(played)
  {
    error, issued := None, None;
    match call {
      case Registers(descriptor, key, interest, mode) =>
        UnoccupiedIsUnowned(poll.table, descriptor);
        error, played, issued := PlayRegister(poll, descriptor, key, interest, mode);
      case Modifies(registration, interest, mode) =>
        error, played := PlayModify(poll, registration, interest, mode);
      case Deletes(registration) =>
        error, played := PlayDelete(poll, registration);
      case Waits(native) =>
        var waited;
        waited, played := PlayWait(poll, events, native, honest);
        if waited.Err? { error := Some(waited.error); }
    }
  }

  /** Some permitted call, whichever the adversary likes. */
  method PlayAny(poll: KqueuePoll, events: EventBuffer, honest: bool)
    returns (ghost played: Played, ghost issued: Option<RegistrationId>)
    requires poll.Valid() && events.Valid() && (honest ==> poll.InStep())
    modifies poll.Objects(), events
    ensures poll.Valid() && events.Valid()
    ensures Follows(old(poll.Now()), poll.Now(), poll.eventCapacity, played, issued, honest)
    ensures poll.log == old(poll.log) + Logged(played)
    ensures honest ==> poll.InStep()
  {
    assert Permitted(poll.table.slots, poll.kernel.filters, honest, Waits(Err(Kind(OtherKind))));
    var call :| Permitted(poll.table.slots, poll.kernel.filters, honest, call);
    var error;
    error, played, issued := PlayOne(poll, events, call, honest);
  }

  // ---------- Whole runs ----------

  /** What the record of a run says: moments in order, the ids issued in between, and every call with what
      it returned. */
  ghost predicate Recorded(run: seq<Moment>, ledger: seq<Option<RegistrationId>>, trace: seq<Played>, capacity: nat,
                           honest: bool)
    requires 1 <= capacity
  {
    && |run| == |trace| + 1 && |ledger| == |trace|
    && forall i | 0 <= i < |trace| :: Follows(run[i], run[i + 1], capacity, trace[i], ledger[i], honest)
  }

  lemma {:induction false} RecordOne(run: seq<Moment>, ledger: seq<Option<RegistrationId>>, trace: seq<Played>,
                                     capacity: nat, honest: bool, next: Moment, issued: Option<RegistrationId>,
                                     played: Played)
    requires 1 <= capacity && Recorded(run, ledger, trace, capacity, honest)
    requires Follows(run[|run| - 1], next, capacity, played, issued, honest)
    ensures Recorded(run + [next], ledger + [issued], trace + [played], capacity, honest)
  {
    var longer, issues, calls := run + [next], ledger + [issued], trace + [played];
    forall i | 0 <= i < |calls| ensures Follows(longer[i], longer[i + 1], capacity, calls[i], issues[i], honest) {
      if i < |trace| { assert Follows(run[i], run[i + 1], capacity, trace[i], ledger[i], honest); }
    }
  }

  lemma {:induction false} RecordsAreOrderly(run: seq<Moment>, ledger: seq<Option<RegistrationId>>, trace: seq<Played>,
                                             capacity: nat, honest: bool)
    requires 1 <= capacity && Recorded(run, ledger, trace, capacity, honest)
    ensures NeverRepeats(ledger) && StaysRetired(run)
  {
    RecordsAreRuns(run, ledger, trace, capacity, honest);
    RunsAreOrderly(run, ledger);
  }

  lemma {:induction false} RecordsAreRuns(run: seq<Moment>, ledger: seq<Option<RegistrationId>>, trace: seq<Played>,
                                          capacity: nat, honest: bool)
    requires 1 <= capacity && Recorded(run, ledger, trace, capacity, honest)
    ensures IsRun(run) && IsLedger(run, ledger)
  {
    forall i | 0 <= i < |trace| ensures Evolves(run[i], run[i + 1]) && Issuing(run[i], run[i + 1], ledger[i]) {
      assert Follows(run[i], run[i + 1], capacity, trace[i], ledger[i], honest);
    }
  }

  // ---------- One-shots handed over ----------

  /** The call is a wait that handed over the one-shot `id`. */
  predicate HandsOverOneShot(live: LiveMap, capacity: nat, played: Played, id: RegistrationId)
    requires 1 <= capacity
  {
    && played.call.Waits? && played.error.None? && played.call.native.Ok? && id in live && live[id].mode == OneShot
    && var native := played.call.native.value;
       exists k | 0 <= k < DeliveredCount(|played.entries|, capacity, Woke(native, |native|)) ::
         played.entries[k].registration == id
  }

  /** The call is a modification of `id` that was committed. */
  predicate RearmsOneShot(played: Played, id: RegistrationId) {
    && played.call.Modifies? && played.call.registration.id == id
    && (played.error.None? || (played.error.value.Mutation? && played.error.value.commit == Applied))
  }

  /** The call is a delivered wait that reported that the disarm of `id` was not applied. */
  predicate SparesOneShot(played: Played, id: RegistrationId) {
    && played.call.Waits? && played.error.None?
    && exists a | 0 <= a < |played.outcomes| ::
         played.outcomes[a].registration == id && played.outcomes[a].commit == NotApplied
  }

  lemma {:induction false} DeliveredReports(live: LiveMap, later: LiveMap, capacity: nat, native: seq<Kevent>,
                                            entries: seq<PendingResource>, outcomes: seq<RecoveryOutcome>)
    requires 1 <= capacity && WaitDelivered(live, later, capacity, native, entries, outcomes)
    ensures ReportsOneShots(live, entries, DeliveredCount(|entries|, capacity, Woke(native, |native|)), outcomes)
    ensures MovesReported(live, later, outcomes)
  {
    var n := DeliveredCount(|entries|, capacity, Woke(native, |native|));
    EntriesDistinct(entries, SeenUpTo(live, native, |native|), capacity);
    OutcomesReport(live, entries, n, outcomes);
    OutcomesDisarmable(live, entries, n, outcomes);
    OutcomesMove(live, outcomes);
  }

  /** No call arms a generation but a committed modification of it, or a report that its disarm was not
      applied. */
  lemma {:induction false} StaysUnarmed(before: Moment, after: Moment, capacity: nat, played: Played,
                                        issued: Option<RegistrationId>, honest: bool, id: RegistrationId)
    requires 1 <= capacity && Follows(before, after, capacity, played, issued, honest)
    requires Issued(before.slots, id) && Unarmed(before.live, id)
    requires !RearmsOneShot(played, id) && !SparesOneShot(played, id)
    ensures Unarmed(after.live, id)
  {
    if played.call.Waits? && played.error.None? {
      DeliveredReports(before.live, after.live, capacity, played.call.native.value, played.entries, played.outcomes);
    }
  }

  /** A handed over one-shot was armed, and is not armed afterwards unless its disarm was not applied. */
  lemma {:induction false} HandingOverUnarms(before: Moment, after: Moment, capacity: nat, played: Played,
                                             issued: Option<RegistrationId>, honest: bool, id: RegistrationId)
    requires 1 <= capacity && Follows(before, after, capacity, played, issued, honest)
    requires HandsOverOneShot(before.live, capacity, played, id)
    ensures before.live[id].state == ARMED && (SparesOneShot(played, id) || Unarmed(after.live, id))
  {
    DeliveredReports(before.live, after.live, capacity, played.call.native.value, played.entries, played.outcomes);
  }

  /** Between two waits of a run that hand over one one-shot generation comes a committed modification of it, or
      the report that a disarm of it was not applied. */
  ghost predicate OneShotsApart(run: seq<Moment>, trace: seq<Played>, capacity: nat)
    requires 1 <= capacity && |trace| <= |run|
  {
    forall i, j, id: RegistrationId | 0 <= i < j < |trace| && HandsOverOneShot(run[i].live, capacity, trace[i], id)
                                      && HandsOverOneShot(run[j].live, capacity, trace[j], id) ::
      exists k | i <= k < j :: SparesOneShot(trace[k], id) || (i < k && RearmsOneShot(trace[k], id))
  }

  lemma {:induction false} RunsKeepOneShotsApart(run: seq<Moment>, ledger: seq<Option<RegistrationId>>,
                                                 trace: seq<Played>, capacity: nat, honest: bool)
    requires 1 <= capacity && Recorded(run, ledger, trace, capacity, honest) && AllIssued(run)
    ensures OneShotsApart(run, trace, capacity)
  {
    forall i, j, id: RegistrationId | 0 <= i < j < |trace| && HandsOverOneShot(run[i].live, capacity, trace[i], id)
                                      && HandsOverOneShot(run[j].live, capacity, trace[j], id)
      ensures exists k | i <= k < j :: SparesOneShot(trace[k], id) || (i < k && RearmsOneShot(trace[k], id))
    {
      if forall k | i <= k < j :: !SparesOneShot(trace[k], id) && !(i < k && RearmsOneShot(trace[k], id)) {
        NotHandedOverAgain(run, ledger, trace, capacity, honest, i, j, id);
      }
    }
  }

  lemma {:induction false} NotHandedOverAgain(run: seq<Moment>, ledger: seq<Option<RegistrationId>>, trace: seq<Played>,
                                              capacity: nat, honest: bool, i: nat, j: nat, id: RegistrationId)
    requires 1 <= capacity && Recorded(run, ledger, trace, capacity, honest) && AllIssued(run) && i < j < |trace|
    requires HandsOverOneShot(run[i].live, capacity, trace[i], id)
    requires forall k | i <= k < j :: !SparesOneShot(trace[k], id) && !(i < k && RearmsOneShot(trace[k], id))
    ensures !HandsOverOneShot(run[j].live, capacity, trace[j], id)
  {
    RecordsAreRuns(run, ledger, trace, capacity, honest);
    assert Follows(run[i], run[i + 1], capacity, trace[i], ledger[i], honest);
    HandingOverUnarms(run[i], run[i + 1], capacity, trace[i], ledger[i], honest, id);
    RunEvolves(run, i, i + 1);
    forall k | i + 1 <= k < j && Issued(run[k].slots, id) && Unarmed(run[k].live, id)
      ensures Unarmed(run[k + 1].live, id)
    {
      assert Follows(run[k], run[k + 1], capacity, trace[k], ledger[k], honest);
      StaysUnarmed(run[k], run[k + 1], capacity, trace[k], ledger[k], honest, id);
    }
    UnarmedPersists(run, i + 1, j, id);
    if HandsOverOneShot(run[j].live, capacity, trace[j], id) {
      assert Follows(run[j], run[j + 1], capacity, trace[j], ledger[j], honest);
      HandingOverUnarms(run[j], run[j + 1], capacity, trace[j], ledger[j], honest, id);
    }
  }

  /** Every run, of any length. Whatever the kernel fails or reports, the record says how each call moved
      the table and what it added to the log; no id is issued twice, no retired id becomes live again, a
      handle that is not live is refused, and one-shot deliveries are kept apart. The kernel holds only
      filters that live registrations claim, and the native batch has room for all of them. If the kernel
      is honest, table and kernel agree throughout and no wait fails internally. */
  method PlayRun(poll: KqueuePoll, events: EventBuffer, calls: nat, honest: bool)
    returns (ghost run: seq<Moment>, ghost ledger: seq<Option<RegistrationId>>, ghost trace: seq<Played>)
    requires poll.Valid() && events.Valid() && (honest ==> poll.InStep())
    modifies poll.Objects(), events
    ensures poll.Valid() && events.Valid() && (honest ==> poll.InStep())
    ensures |trace| == calls && Recorded(run, ledger, trace, poll.eventCapacity, honest)
    ensures run[0] == old(poll.Now()) && run[calls] == poll.Now()
    ensures NeverRepeats(ledger) && StaysRetired(run) && OneShotsApart(run, trace, poll.eventCapacity)
    ensures poll.log == old(poll.log) + LogOf(trace, calls) && Separated(poll.log)
    ensures Contained(poll.table.live, poll.kernel.filters)
    ensures |poll.kernel.filters| <= 2 * |poll.table.live| + 1 <= poll.raw.eventCapacity
  {
    run, ledger, trace := [poll.Now()], [], [];
    poll.table.AllLiveIssued();
    for i := 0 to calls
      invariant poll.Valid() && events.Valid() && (honest ==> poll.InStep())
      invariant |trace| == i && Recorded(run, ledger, trace, poll.eventCapacity, honest)
      invariant run[0] == old(poll.Now()) && run[i] == poll.Now() && AllIssued(run)
      invariant poll.log == old(poll.log) + LogOf(trace, i)
    {
      ghost var played, issued;
      played, issued := PlayAny(poll, events, honest);
      RecordOne(run, ledger, trace, poll.eventCapacity, honest, poll.Now(), issued, played);
      LogGrows(old(poll.log), trace, played);
      poll.table.AllLiveIssued();
      AllIssuedOnwards(run, poll.Now());
      run, ledger, trace := run + [poll.Now()], ledger + [issued], trace + [played];
    }
    RecordsAreOrderly(run, ledger, trace, poll.eventCapacity, honest);
    RunsKeepOneShotsApart(run, ledger, trace, poll.eventCapacity, honest);
    poll.NativeBatchHoldsEveryFilter();
  }
}
