/** The Linux poller: table and mutation machine over a driver that may report anything, and one
    observation as wait, translation in place, and nothing left behind on error. */
module EpollPolls {
  import opened Vocabulary
  import opened Slots
  import opened RegistrationTables
  import opened PollOwners
  import opened MutationMachine
  import opened Events
  import opened Recovery
  import opened Runs
  import opened EpollTranslations
  import opened EpollBatches

  // ---------- The delivery log ----------

  /** No delivery was reported with its disarm not applied, so only a modification can separate two. */
  predicate NoneSpared(log: seq<LogEntry>) {
    forall i | 0 <= i < |log| :: !log[i].Spared?
  }

  /** One delivery for every one-shot among the first `n` records. */
  function FiredLog(live: LiveMap, records: seq<RawRecord>, n: nat): (log: seq<LogEntry>)
    requires n <= |records|
    ensures NoneSpared(log)
  {
    if n == 0 then []
    else
      var token := records[n - 1].token;
      FiredLog(live, records, n - 1) + if Fires(live, token) then [Delivered(token)] else []
  }

  lemma {:induction false} OneFiringFits(log: seq<LogEntry>, live: LiveMap, slots: seq<Slot>, id: RegistrationId)
    requires LogFits(log, live, slots) && Disarmable(live, id) && Issued(slots, id)
    ensures LogFits(log + [Delivered(id)], live[id := live[id].(state := DISARMED)], slots)
  {
    OneDeliveryFits(log, live, slots, NewOutcome(id, Applied));
    assert OutcomeLog(NewOutcome(id, Applied)) == [Delivered(id)];
  }

  /** A translated batch keeps one-shot deliveries apart, whatever the kernel reported. */
  lemma {:induction false} FiringFits(log: seq<LogEntry>, live: LiveMap, slots: seq<Slot>, records: seq<RawRecord>,
                                      n: nat)
    requires n <= |records| && FiresOnce(live, records, n) && LogFits(log, live, slots)
    requires forall id | id in live :: Issued(slots, id)
    ensures LogFits(log + FiredLog(live, records, n), DisarmedBy(live, records, n), slots)
  {
    if n == 0 {
      assert log + [] == log && DisarmedBy(live, records, 0) == live;
    } else {
      FiringFits(log, live, slots, records, n - 1);
      DisarmedSteps(live, records, n);
      var id, fitting := records[n - 1].token, log + FiredLog(live, records, n - 1);
      if Fires(live, id) {
        assert !Seen(records, n - 1, id);
        OneFiringFits(fitting, DisarmedBy(live, records, n - 1), slots, id);
        assert log + FiredLog(live, records, n) == fitting + [Delivered(id)];
      } else {
        assert log + FiredLog(live, records, n) == fitting;
      }
    }
  }

  /** What translation does to the entries, accepted or refused. */
  ghost function Afterwards(live: LiveMap, records: seq<RawRecord>): LiveMap {
    DisarmedBy(live, records, AcceptedPrefix(live, records, |records|))
  }

  /** The result of a settled registration hands on the native report. */
  lemma {:induction false} SettledTells(handle: Registration, native: NativeResult,
                                        r: Result<Registration, RegisterError>)
    requires r == match native
                  case Ok(_) => Ok(handle)
                  case Err(failure) =>
                    Err(RegisterError(MutationError(OpRegister, failure),
                                      if failure.commit.NotApplied? then None else Some(handle)))
    ensures Reached(RegisterCause(r)) == Some(CommitOf(native)) && Told(RegisterCause(r)) == native
  {
    match native
    case Ok(u) => assert u == Unit;
    case Err(_) =>
  }

  class EpollPoll {
    const ids: PollIds
    const owner: PollOwner
    const table: RegistrationTable
    const batch: EpollBatch
    const eventCapacity: nat
    var wakeKey: Option<Key>
    /** Every one-shot delivery and committed modification so far. */
    ghost var log: seq<LogEntry>

    ghost predicate Valid()
      reads this, ids, owner, table
    {
      && owner.Valid(ids) && table.Valid() && batch.Valid() && batch.capacity == eventCapacity
      && LogFits(log, table.live, table.slots) && NoneSpared(log)
    }

    ghost function Now(): Moment
      reads table
    {
      Moment(table.live, table.slots)
    }

    constructor (ids: PollIds, table: RegistrationTable, batch: EpollBatch, eventCapacity: nat)
      requires ids.Valid() && table.Valid() && table.live == map[] && batch.Valid() && batch.capacity == eventCapacity
      ensures Valid() && this.ids == ids && this.table == table && this.batch == batch
              && this.eventCapacity == eventCapacity
      ensures fresh(owner) && log == []
    {
      this.ids, this.table, this.batch, this.eventCapacity := ids, table, batch, eventCapacity;
      owner := new PollOwner();
      wakeKey, log := None, [];
    }

    // ---------- Mutations, for every report of the native call ----------

    method Register(descriptor: Descriptor, key: Key, interest: Interest, mode: Mode, native: NativeResult)
      returns (r: Result<Registration, RegisterError>, ghost id: RegistrationId)
      requires Valid()
      modifies owner, ids, table
      ensures Valid() && Evolves(old(Now()), Now())
      ensures (r.Err? && !r.error.cause.Mutation?) <==> old(RegisterRefused(owner, ids, table, interest))
      ensures r.Ok? || r.error.cause.Mutation? ==>
                && RegisterTells(old(Now()), Now(), Entry(descriptor, key, interest, mode, ARMED), r, id)
                && Told(RegisterCause(r)) == native
      ensures r.Err? && !r.error.cause.Mutation? ==>
                Now() == old(Now()) && r.error == RegisterError(old(RefusalCause(table, interest)), None)
    {
      ghost var before := Now();
      var step := BeginRegister(owner, ids, table, descriptor, key, interest, mode);
      match step {
        case RegisterRejected(cause) =>
          r := Err(RegisterError(cause, None));
          id := 0;
        case CallRegister(handle, lease, request) =>
          id := handle.id;
          ghost var middle, entry := table.slots, Entry(descriptor, key, interest, mode, ARMED);
          r := SettleRegister(table, lease, handle, native);
          SettledTells(handle, native, r);
          SettledIsRegistered(before.live, id, entry, CommitOf(native));
          SameGenerationsSameIssued(middle, table.slots);
          assert table.live - {id} == before.live - {id};
          RegisterFits(log, before.live, before.slots, table.slots, table.live, id);
      }
    }

    method Modify(registration: Registration, interest: Interest, mode: Mode, native: NativeResult)
      returns (r: Result<Unit, Error>)
      requires Valid()
      modifies table, `log
      ensures Valid() && Evolves(old(Now()), Now()) && SameGenerations(old(table.slots), table.slots)
      ensures ModifyTells(owner.Current(), old(table.live), table.live, registration, interest, mode, r)
      ensures if r.Ok? || r.error.Mutation? then
                r == match native case Ok(_) => Ok(Unit) case Err(failure) => Err(MutationError(OpModify, failure))
              else Now() == old(Now())
      ensures log == old(log) + ModifyLog(registration.id, ModifyCause(r))
    {
      ghost var before, id := Now(), registration.id;
      var step := BeginModify(owner, table, registration, interest, mode);
      match step {
        case ModifyRejected(cause) =>
          r := Err(cause);
          assert log + [] == log;
        case CallModify(request) =>
          table.LiveIsIssued(id);
          r := SettleModify(table, request, native);
          SameGenerationsSameIssued(before.slots, table.slots);
          assert Reached(ModifyCause(r)) == Some(CommitOf(native));
          ModifyFits(log, before.live, before.slots, table.slots, id, interest, mode, ModifyCause(r));
          log := log + ModifyLog(id, ModifyCause(r));
      }
    }

    method Delete(registration: Registration, native: NativeResult) returns (r: Result<Unit, DeleteError>)
      requires Valid()
      modifies table
      ensures Valid() && Evolves(old(Now()), Now()) && SameGenerations(old(table.slots), table.slots)
      ensures DeleteTells(owner.Current(), old(table.live), table.live, registration, r)
      ensures if r.Ok? || r.error.cause.Mutation? then
                r == match native
                     case Ok(_) => Ok(Unit)
                     case Err(failure) => Err(DeleteError(MutationError(OpDelete, failure), registration))
              else Now() == old(Now())
    {
      ghost var before := Now();
      var step := BeginDelete(owner, table, registration);
      match step {
        case DeleteRejected(cause) => r := Err(DeleteError(cause, registration));
        case CallDelete(lease, request) =>
          r := SettleDelete(table, lease, registration, native);
          SameGenerationsSameIssued(before.slots, table.slots);
          DisarmingFits(log, before.live, before.slots, table.live, table.slots);
      }
    }

    // ---------- Waiting ----------

    /** A wait succeeds exactly when the storage is large enough, the kernel answers, and no one-shot is
        reported while disarmed or twice. It then delivers every observable record once and in order,
        then the wake, and disarms exactly the one-shots it delivered. Every error leaves the storage
        empty. A refused batch has disarmed the one-shots before the record that was refused, logs no
        delivery, and takes a reported wake with it. */
    method Wait(storage: EventStorage, flagMap: FlagMap, native: Result<seq<RawRecord>, IoError>)
      returns (r: Result<Unit, Error>)
      requires Valid() && storage.Valid() && storage.layout == batch.layout
      requires native.Ok? ==> |native.value| <= batch.maxEvents
      modifies table, batch, storage, storage.memory, `log
      ensures Valid() && storage.Valid() && SameGenerations(old(table.slots), table.slots) && Evolves(old(Now()), Now())
      ensures r.Ok? <==> eventCapacity <= storage.capacity && native.Ok?
                         && FiresOnce(old(table.live), native.value, |native.value|)
      ensures r.Ok? ==>
                var records := native.value;
                && storage.Items() == FilterMap(old(table.live), flagMap, records, |records|)
                                      + (if Woke(records, |records|) && wakeKey.Some? then [Event.Wake(wakeKey.value)]
                                         else [])
                && table.live == DisarmedBy(old(table.live), records, |records|)
                && log == old(log) + FiredLog(old(table.live), records, |records|)
      ensures native.Ok? && eventCapacity <= storage.capacity ==>
                BatchAccount(old(table.live), table.live, flagMap, native.value, wakeKey, r.Ok?, storage.Items())
      ensures r.Err? ==> storage.len == 0 && log == old(log)
      ensures r.Err? ==>
                if storage.capacity < eventCapacity then r.error == EventsTooSmall(eventCapacity, storage.capacity)
                else if native.Err? then r.error == Io(OpWait, native.error)
                else r.error == Invariant
      ensures r.Err? && r.error != Invariant ==> table.live == old(table.live)
      ensures r.Err? && r.error == Invariant ==>
                var m := AcceptedPrefix(old(table.live), native.value, |native.value|);
                && table.live == DisarmedBy(old(table.live), native.value, m)
                && (table.live == old(table.live) <==>
                    forall i | 0 <= i < m :: !Fires(old(table.live), native.value[i].token))
      ensures native.Ok? && eventCapacity <= storage.capacity && Woke(native.value, |native.value|) && wakeKey.Some? ==>
                (Event.Wake(wakeKey.value) in storage.Items() <==> r.Ok?)
    {
      ghost var live := table.live;
      table.WakeIsNotLive();
      storage.Clear();
      r := Observe(storage, flagMap, native);
      if native.Ok? && eventCapacity <= storage.capacity {
        TranslationAccount(live, table.live, flagMap, native.value, wakeKey, r.Ok?, storage.Items());
      }
      if r.Err? {
        storage.Clear();
        if r.error == Invariant {
          NothingDisarmed(live, native.value, AcceptedPrefix(live, native.value, |native.value|));
        }
      } else {
        log := log + FiredLog(live, native.value, |native.value|);
      }
    }

    method Observe(storage: EventStorage, flagMap: FlagMap, native: Result<seq<RawRecord>, IoError>)
      returns (r: Result<Unit, Error>)
      requires Valid() && storage.Valid() && storage.layout == batch.layout && storage.len == 0
      requires native.Ok? ==> |native.value| <= batch.maxEvents
      modifies table, batch, storage, storage.memory
      ensures table.Valid() && storage.Valid() && SameGenerations(old(table.slots), table.slots)
              && Evolves(old(Now()), Now())
      ensures r.Ok? <==> eventCapacity <= storage.capacity && native.Ok?
                         && FiresOnce(old(table.live), native.value, |native.value|)
      ensures r.Ok? ==>
                var records := native.value;
                && storage.Items() == FilterMap(old(table.live), flagMap, records, |records|)
                                      + (if Woke(records, |records|) && wakeKey.Some? then [Event.Wake(wakeKey.value)]
                                         else [])
                && table.live == DisarmedBy(old(table.live), records, |records|)
                && LogFits(log + FiredLog(old(table.live), records, |records|), table.live, table.slots)
      ensures r.Err? ==> LogFits(log, table.live, table.slots)
      ensures r.Err? ==>
                if storage.capacity < eventCapacity then r.error == EventsTooSmall(eventCapacity, storage.capacity)
                else if native.Err? then r.error == Io(OpWait, native.error)
                else r.error == Invariant
      ensures r.Err? && r.error != Invariant ==> table.live == old(table.live)
      ensures r.Err? && r.error == Invariant ==> table.live == Afterwards(old(table.live), native.value)
    {
      ghost var live, slots := table.live, table.slots;
      table.AllLiveIssued();
      if storage.capacity < eventCapacity { return Err(EventsTooSmall(eventCapacity, storage.capacity)); }
      var observed := batch.Wait(storage, native);
      match observed {
        case Err(source) => r := Err(Io(OpWait, source));
        case Ok(count) =>
          ghost var records := native.value;
          SequentialIsFilterMap(live, flagMap, records, |records|);
          r := batch.Translate(storage, count, wakeKey, table, flagMap, records);
          SettleWait(live, slots, flagMap, records, r.Ok?);
      }
    }

    /** The log after a batch, accepted or refused. */
    lemma {:induction false} SettleWait(live: LiveMap, slots: seq<Slot>, flagMap: FlagMap, records: seq<RawRecord>,
                                        accepted: bool)
      requires LogFits(log, live, slots) && SameGenerations(slots, table.slots)
      requires forall id | id in live :: Issued(slots, id)
      requires accepted <==> FiresOnce(live, records, |records|)
      requires table.live == Sequential(live, flagMap, records, |records|).live
      ensures table.live == Afterwards(live, records) && Evolves(Moment(live, slots), Now())
      ensures LogFits(log + if accepted then FiredLog(live, records, |records|) else [], table.live, table.slots)
    {
      SameGenerationsSameIssued(slots, table.slots);
      if accepted {
        SequentialIsFilterMap(live, flagMap, records, |records|);
        FiringFits(log, live, slots, records, |records|);
      } else {
        RefusalKeepsPrefix(live, flagMap, records, |records|);
        assert log + [] == log;
        DisarmingFits(log, live, slots, table.live, table.slots);
      }
    }
  }
}
