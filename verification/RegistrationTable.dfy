/** The poller-local fixed slot table: a generational allocator with an intrusive free list,
    standing for a bounded map from registration ids to entries. */
module RegistrationTables {
  import opened Vocabulary
  import opened Token
  import opened Slots

  /** Capacity proof for one exact slot, handed to the reservation that follows it. */
  datatype Permit =
    | FreshPermit(slotIndex: nat, id: RegistrationId)
    | ReusedPermit(freeIndex: U32, nextFree: U32, nextGeneration: Generation, id: RegistrationId)

  datatype Binding = Binding(descriptor: Descriptor, interest: Interest, mode: Mode, state: RegistrationState)

  datatype Observation = Observation(id: RegistrationId, descriptor: Descriptor, key: Key, mode: Mode)

  class RegistrationTable {
    const limit: nat
    var slots: seq<Slot>
    var freeHead: U32
    var exhausted: nat
    /** The order in which the free list visits its slots. */
    ghost var free: seq<nat>

    /** The abstract value: the bounded map that the slots stand for. */
    ghost var live: map<RegistrationId, Entry>

    ghost predicate Valid()
      reads this
    {
      WellFormed(limit, slots, freeHead, exhausted, free) && Represents(live, slots)
    }

    constructor (limit: nat)
      requires 1 <= limit <= MAX_REGISTRATIONS
      ensures Valid() && this.limit == limit && slots == [] && live == map[] && exhausted == 0 && !HasReusableSlot()
    {
      this.limit := limit;
      slots, freeHead, exhausted, free, live := [], FREE_END, 0, [], map[];
    }

    /** Construction fails exactly when the limit is not a representable count. */
    static method New(limit: nat) returns (r: Result<RegistrationTable, Error>)
      requires limit > 0
      ensures r.Ok? <==> limit <= MAX_REGISTRATIONS
      ensures r.Err? ==> r.error == BackendOverflow
      ensures r.Ok? ==>
                fresh(r.value) && r.value.Valid() && r.value.limit == limit && r.value.slots == []
                && r.value.live == map[]
    {
      if limit > MAX_REGISTRATIONS { return Err(BackendOverflow); }
      var table := new RegistrationTable(limit);
      return Ok(table);
    }

    // ---------- Lookups ----------

    method BindingOf(id: RegistrationId, allowUncertain: bool) returns (r: Result<Binding, Error>)
      requires Valid()
      ensures id !in live ==> r == Err(Stale(id))
      ensures id in live ==>
                var e := live[id];
                r == if !allowUncertain && e.state.Uncertain? then Err(UncertainState(id))
                     else Ok(Binding(e.descriptor, e.interest, e.mode, e.state))
    {
      FindRepresented(live, slots, id);
      match Find(slots, id) {
        case Err(e) => r := Err(e);
        case Ok((_, entry)) =>
          if !allowUncertain && entry.state == Uncertain { return Err(UncertainState(id)); }
          r := Ok(Binding(entry.descriptor, entry.interest, entry.mode, entry.state));
      }
    }

    /** Resolves a native token: only a live registration with a proven state is observable. */
    method Resolve(token: RegistrationId) returns (r: Option<Observation>)
      requires Valid()
      ensures r == if token in live && live[token].state.Registered?
                   then Some(Observation(token, live[token].descriptor, live[token].key, live[token].mode)) else None
    {
      FindRepresented(live, slots, token);
      match Find(slots, token) {
        case Err(_) => r := None;
        case Ok((_, entry)) =>
          r := if entry.state.Registered? then Some(Observation(token, entry.descriptor, entry.key, entry.mode))
               else None;
      }
    }

    method State(id: RegistrationId) returns (r: Result<RegistrationState, Error>)
      requires Valid()
      ensures r == if id in live then Ok(live[id].state) else Err(Stale(id))
    {
      FindRepresented(live, slots, id);
      match Find(slots, id) {
        case Err(e) => r := Err(e);
        case Ok((_, entry)) => r := Ok(entry.state);
      }
    }

    lemma {:induction false} LiveIsIssued(id: RegistrationId)
      requires Valid() && id in live
      ensures Issued(slots, id)
    {
      FindRepresented(live, slots, id);
    }

    /** The wake token is no registration. */
    lemma {:induction false} WakeIsNotLive()
      requires Valid()
      ensures 0 !in live
    {
      FindRepresented(live, slots, 0);
    }

    lemma {:induction false} AllLiveIssued()
      requires Valid()
      ensures forall id | id in live :: Issued(slots, id)
    {
      forall id | id in live ensures Issued(slots, id) {
        LiveIsIssued(id);
      }
    }

    /** A slot holds one generation at a time. */
    lemma {:induction false} OneGenerationPerSlot(a: RegistrationId, b: RegistrationId)
      requires Valid() && a in live
      ensures Decode(a).Ok? && Decode(a).value.0 < limit
      ensures b in live && Decode(b).Ok? && Decode(b).value.0 == Decode(a).value.0 ==> a == b
    {
      FindRepresented(live, slots, a);
      FindRepresented(live, slots, b);
    }

    // ---------- Changing a live entry ----------

    /** The write half of a mutable entry lookup. */
    method StoreEntry(i: nat, entry: Entry)
      requires Valid() && i < |slots| && slots[i].entry.Some?
      modifies this
      ensures Valid() && exhausted == old(exhausted) && free == old(free)
      ensures live == old(live)[old(IdAt(slots, i)) := entry]
      ensures SameGenerations(old(slots), slots)
    {
      var slot := slots[i].(entry := Some(entry));
      UpdateKeepsWellFormed(limit, slots, freeHead, exhausted, free, i, slot);
      RepresentStore(live, slots, i, slot);
      live := live[IdAt(slots, i) := entry];
      slots := slots[i := slot];
    }

    method CommitModify(id: RegistrationId, interest: Interest, mode: Mode) returns (r: Result<Unit, Error>)
      requires Valid()
      modifies this
      ensures Valid() && exhausted == old(exhausted)
      ensures SameGenerations(old(slots), slots)
      ensures id !in old(live) ==> r == Err(Stale(id)) && live == old(live)
      ensures id in old(live) ==>
                && r == Ok(Unit)
                && live == old(live)[id := old(live)[id].(interest := interest, mode := mode, state := ARMED)]
    {
      FindRepresented(live, slots, id);
      match Find(slots, id) {
        case Err(e) => r := Err(e);
        case Ok((i, entry)) =>
          StoreEntry(i, entry.(interest := interest, mode := mode, state := ARMED));
          r := Ok(Unit);
      }
    }

    method MarkUncertain(id: RegistrationId) returns (r: Result<Unit, Error>)
      requires Valid()
      modifies this
      ensures Valid() && exhausted == old(exhausted)
      ensures SameGenerations(old(slots), slots)
      ensures id !in old(live) ==> r == Err(Stale(id)) && live == old(live)
      ensures id in old(live) ==>
                r == Ok(Unit) && live == old(live)[id := old(live)[id].(state := Uncertain)]
    {
      FindRepresented(live, slots, id);
      match Find(slots, id) {
        case Err(e) => r := Err(e);
        case Ok((i, entry)) =>
          StoreEntry(i, entry.(state := Uncertain));
          r := Ok(Unit);
      }
    }

    /** Moves an armed one-shot entry to the state its disarm established; anything else is refused. */
    method ApplyDisarm(id: RegistrationId, commit: CommitStatus) returns (r: Result<RegistrationState, Error>)
      requires Valid()
      modifies this
      ensures Valid() && exhausted == old(exhausted)
      ensures SameGenerations(old(slots), slots)
      ensures r.Ok? <==> Disarmable(old(live), id)
      ensures r.Err? ==> live == old(live) && r.error == if id in old(live) then Invariant else Stale(id)
      ensures r.Ok? ==> r.value == StateAfterDisarm(commit)
      ensures r.Ok? ==> live == old(live)[id := old(live)[id].(state := StateAfterDisarm(commit))]
    {
      FindRepresented(live, slots, id);
      match Find(slots, id) {
        case Err(e) => r := Err(e);
        case Ok((i, entry)) =>
          if entry.mode != OneShot || entry.state != ARMED { return Err(Invariant); }
          var state := match commit case Applied => DISARMED case NotApplied => entry.state case Unknown => Uncertain;
          StoreEntry(i, entry.(state := state));
          r := Ok(state);
      }
    }

    // ---------- Reserving ----------

    lemma {:induction false} Accounted()
      requires Valid()
      ensures |live| + |free| + exhausted + (limit - |slots|) == limit
      ensures exhausted == limit ==> live == map[]
      ensures HasReusableSlot() <==> free != []
    {
      RepresentsLive(live, slots);
      SlotsAccounted(limit, slots, freeHead, exhausted, free);
      assert free != [] ==> free[0] in free;
    }

    predicate HasReusableSlot()
      reads this
    {
      freeHead != FREE_END
    }

    /** The permit names the slot that the next reservation takes and the id it will issue. */
    predicate Grants(permit: Permit)
      reads this
    {
      match permit
      case FreshPermit(slotIndex, id) =>
        !HasReusableSlot() && slotIndex == |slots| < limit <= MAX_REGISTRATIONS && Encode(slotIndex, 1) == Some(id)
      case ReusedPermit(freeIndex, nextFree, nextGeneration, id) =>
        && freeIndex == freeHead < |slots| <= MAX_REGISTRATIONS && Reusable(slots[freeIndex])
        && nextFree == slots[freeIndex].nextFree && nextGeneration == slots[freeIndex].generation + 1
        && Encode(freeIndex, nextGeneration) == Some(id)
    }

    /** A virgin slot, offered only when nothing can be reused. At the limit the error tells a full
        table from one whose every generation is spent. */
    method TakeFreshPermit() returns (r: Result<Permit, Error>)
      requires Valid() && !HasReusableSlot()
      ensures r.Ok? <==> |slots| < limit
      ensures r.Ok? ==> r.value.FreshPermit? && Grants(r.value) && Decode(r.value.id).Ok?
      ensures r.Err? && exhausted == limit ==> r.error == RegistrationSpaceExhausted && live == map[]
      ensures r.Err? && exhausted != limit ==> r.error == Capacity(limit)
      ensures r.Err? ==> |live| + exhausted == limit
    {
      Accounted();
      EncodeRoundTrip(|slots|, 1);
      if HasReusableSlot() { return Err(Invariant); }
      if |slots| < limit {
        var slotIndex := |slots|;
        match Encode(slotIndex, 1) {
          case None => return Err(RegistrationSpaceExhausted);
          case Some(id) => return Ok(FreshPermit(slotIndex, id));
        }
      }
      if exhausted == limit { return Err(RegistrationSpaceExhausted); }
      return Err(Capacity(limit));
    }

    /** The head of the free list; none of the refusals is reachable. */
    method TakeReusedPermit() returns (r: Result<Permit, Error>)
      requires Valid() && HasReusableSlot()
      ensures r.Ok? && r.value.ReusedPermit? && Grants(r.value) && Decode(r.value.id).Ok?
    {
      assert free != [] && free[0] in free;
      var freeIndex := freeHead;
      if freeIndex == FREE_END { return Err(Invariant); }
      if freeIndex >= |slots| { return Err(Invariant); }
      var slot := slots[freeIndex];
      if slot.entry.Some? || slot.generation == MAX_GENERATION { return Err(Invariant); }
      var nextGeneration := slot.generation + 1;
      EncodeRoundTrip(freeIndex, nextGeneration);
      match Encode(freeIndex, nextGeneration) {
        case None => return Err(RegistrationSpaceExhausted);
        case Some(id) => return Ok(ReusedPermit(freeIndex, slot.nextFree, nextGeneration, id));
      }
    }

    /** Pushes a virgin slot. Its id was never issued before, and is from now on. */
    method ReserveFresh(permit: Permit, entry: Entry) returns (r: Result<nat, Error>)
      requires Valid() && permit.FreshPermit? && Grants(permit)
      modifies this
      ensures Valid() && exhausted == old(exhausted)
      ensures r == Ok(permit.slotIndex) && slots == old(slots) + [Slot(1, Some(entry), FREE_END)]
      ensures IdAt(slots, r.value) == permit.id && IssuesFirst(old(slots), slots, permit.id)
      ensures permit.id !in old(live) && live == old(live)[permit.id := entry]
    {
      var slot := Slot(1, Some(entry), FREE_END);
      assert free == [];
      PushKeepsWellFormed(limit, slots, freeHead, exhausted, slot);
      RepresentPush(live, slots, slot);
      IssuedPush(slots, slot);
      NotIssuedNotLive(live, slots, permit.id);
      slots, live := slots + [slot], live[permit.id := entry];
      r := Ok(permit.slotIndex);
    }

    /** Pops the head of the free list into its next generation. */
    method ReserveReused(permit: Permit, entry: Entry) returns (r: Result<nat, Error>)
      requires Valid() && permit.ReusedPermit? && Grants(permit)
      modifies this
      ensures Valid() && exhausted == old(exhausted)
      ensures r == Ok(permit.freeIndex as nat)
      ensures slots == old(slots)[permit.freeIndex := Slot(permit.nextGeneration, Some(entry), permit.nextFree)]
      ensures IdAt(slots, r.value) == permit.id && IssuesFirst(old(slots), slots, permit.id)
      ensures permit.id !in old(live) && live == old(live)[permit.id := entry]
    {
      if slots[freeHead].entry.Some? { return Err(Invariant); }
      var slot := Slot(permit.nextGeneration, Some(entry), slots[freeHead].nextFree);
      PopKeepsWellFormed(limit, slots, freeHead, exhausted, free, slot);
      RepresentStore(live, slots, freeHead, slot);
      IssuedStore(slots, freeHead, slot);
      NotIssuedNotLive(live, slots, permit.id);
      slots, freeHead, free, live := slots[freeHead := slot], permit.nextFree, free[1..], live[permit.id := entry];
      r := Ok(permit.freeIndex);
    }

    // ---------- Settling one occupied slot ----------

    /** Vacates a slot. Its generation is never issued again; the slot itself is reused unless the
        generation was the last one. */
    method Retire(i: nat) returns (r: Result<Unit, Error>)
      requires Valid() && i < |slots| && slots[i].entry.Some?
      modifies this
      ensures Valid() && r == Ok(Unit) && SameGenerations(old(slots), slots)
      ensures live == old(live) - {old(IdAt(slots, i))}
      ensures exhausted == old(exhausted) + if slots[i].generation == MAX_GENERATION then 1 else 0
      ensures free == if slots[i].generation == MAX_GENERATION then old(free) else [i] + old(free)
      ensures forall j | 0 <= j < |slots| && j != i :: slots[j] == old(slots)[j]
    {
      if slots[i].generation == MAX_GENERATION {
        RetireTerminalKeepsWellFormed(limit, slots, freeHead, exhausted, free, i);
        RepresentVacate(live, slots, i, slots[i].(entry := None, nextFree := FREE_END));
        live := live - {IdAt(slots, i)};
        slots, exhausted := slots[i := slots[i].(entry := None, nextFree := FREE_END)], exhausted + 1;
      } else {
        RetireReusableKeepsWellFormed(limit, slots, freeHead, exhausted, free, i);
        RepresentVacate(live, slots, i, slots[i].(entry := None, nextFree := freeHead));
        live := live - {IdAt(slots, i)};
        slots, freeHead, free := slots[i := slots[i].(entry := None, nextFree := freeHead)], i, [i] + free;
      }
      r := Ok(Unit);
    }

    /** Finds the slot a deletion will settle, splitting a handle's own id without checks. */
    method PrepareRetire(id: RegistrationId, allowUncertain: bool) returns (r: Result<nat, Error>)
      requires Valid() && Decode(id).Ok?
      ensures id !in live ==> r == Err(Stale(id))
      ensures id in live ==>
                if !allowUncertain && live[id].state.Uncertain? then r == Err(UncertainState(id))
                else r.Ok? && r.value < |slots| && IdAt(slots, r.value) == id && slots[r.value].entry == Some(live[id])
    {
      FindRepresented(live, slots, id);
      DecodeRoundTrip(id);
      EncodeRoundTrip(Decode(id).value.0, Decode(id).value.1);
      var (index, generation) := Parts(id);
      if index >= |slots| { return Err(Stale(id)); }
      if slots[index].generation != generation { return Err(Stale(id)); }
      match slots[index].entry {
        case None => r := Err(Stale(id));
        case Some(entry) =>
          if !allowUncertain && entry.state == Uncertain { return Err(UncertainState(id)); }
          r := Ok(index);
      }
    }
  }

  ghost predicate Disarmable(live: map<RegistrationId, Entry>, id: RegistrationId) {
    id in live && live[id].mode == OneShot && live[id].state == ARMED
  }

  function StateAfterDisarm(commit: CommitStatus): RegistrationState {
    match commit
    case Applied => DISARMED
    case NotApplied => ARMED
    case Unknown => Uncertain
  }

  /** `id` was never issued before, and is the one id issued in between. */
  ghost predicate IssuesFirst(before: seq<Slot>, after: seq<Slot>, id: RegistrationId) {
    && !Issued(before, id)
    && forall other: RegistrationId :: Issued(after, other) <==> Issued(before, other) || other == id
  }

  lemma {:induction false} NotIssuedNotLive(live: map<RegistrationId, Entry>, slots: seq<Slot>, id: RegistrationId)
    requires Fits(slots) && Represents(live, slots) && !Issued(slots, id)
    ensures id !in live
  {
    FindRepresented(live, slots, id);
  }

  lemma {:induction false} IssuedPush(slots: seq<Slot>, slot: Slot)
    requires |slots| < MAX_REGISTRATIONS && slot.generation == 1
    ensures IssuesFirst(slots, slots + [slot], IdAt(slots + [slot], |slots|))
  {
    var after := slots + [slot];
    FindAt(after, |slots|);
    forall id: RegistrationId
      ensures Issued(after, id) <==> Issued(slots, id) || id == IdAt(after, |slots|)
    {
      DecodeRoundTrip(id);
    }
  }

  lemma {:induction false} IssuedStore(slots: seq<Slot>, i: nat, slot: Slot)
    requires Fits(slots) && i < |slots| && slots[i].generation != MAX_GENERATION
             && slot.generation == slots[i].generation + 1
    ensures IssuesFirst(slots, slots[i := slot], IdAt(slots[i := slot], i))
  {
    var after := slots[i := slot];
    FindAt(after, i);
    forall id: RegistrationId
      ensures Issued(after, id) <==> Issued(slots, id) || id == IdAt(after, i)
    {
      DecodeRoundTrip(id);
    }
  }

}
