/** Sparse-slot coalescing of split observations in first-observation order. */
module Pending {
  import opened Vocabulary
  import opened Token
  import opened Slots
  import opened Events

  const EMPTY: U32 := U32_MAX

  /** One native observation, resolved to a registration. */
  datatype Seen = Seen(id: RegistrationId, key: Key, readiness: Readiness)

  datatype PendingResource = PendingResource(registration: RegistrationId, key: Key, readiness: Readiness)

  // ---------- What coalescing means ----------

  /** The distinct registrations of a batch, in the order in which they were first seen. */
  function FirstSeen(batch: seq<Seen>): seq<RegistrationId> {
    if batch == [] then []
    else
      var n := |batch| - 1;
      var earlier := FirstSeen(batch[..n]);
      if batch[n].id in earlier then earlier else earlier + [batch[n].id]
  }

  /** Every hint that some observation of `id` carries. */
  ghost function HintsOf(batch: seq<Seen>, id: RegistrationId): Readiness {
    set i, h | 0 <= i < |batch| && batch[i].id == id && h in batch[i].readiness :: h
  }

  /** The key of the first observation of `id`. */
  function KeyOf(batch: seq<Seen>, id: RegistrationId): Option<Key> {
    if batch == [] then None
    else
      var n := |batch| - 1;
      var earlier := KeyOf(batch[..n], id);
      if earlier.Some? then earlier else if batch[n].id == id then Some(batch[n].key) else None
  }

  /** The entries are the first `capacity` distinct registrations in first-seen order, each with its
      first key and with the union of all its hints in the whole batch. */
  ghost predicate Summarizes(entries: seq<PendingResource>, batch: seq<Seen>, capacity: nat) {
    var seen := FirstSeen(batch);
    && |entries| == (if |seen| <= capacity then |seen| else capacity)
    && forall k | 0 <= k < |entries| ::
         && entries[k].registration == seen[k]
         && KeyOf(batch, seen[k]) == Some(entries[k].key)
         && entries[k].readiness == HintsOf(batch, seen[k])
  }

  lemma {:induction false} FirstSeenIsSeen(batch: seq<Seen>, id: RegistrationId)
    ensures id in FirstSeen(batch) <==> exists i | 0 <= i < |batch| :: batch[i].id == id
    ensures id in FirstSeen(batch) <==> KeyOf(batch, id).Some?
    ensures id !in FirstSeen(batch) ==> HintsOf(batch, id) == {}
  {
    if |batch| > 0 {
      var n := |batch| - 1;
      FirstSeenIsSeen(batch[..n], id);
      if id in FirstSeen(batch[..n]) {
        var i :| 0 <= i < n && batch[..n][i].id == id;
        assert batch[i].id == id;
      } else if batch[n].id != id {
        forall i | 0 <= i < |batch| ensures batch[i].id != id {
          if i < n { assert batch[..n][i].id != id; }
        }
      }
    }
  }

  lemma {:induction false} FirstSeenDistinct(batch: seq<Seen>)
    ensures forall j, k | 0 <= j < k < |FirstSeen(batch)| :: FirstSeen(batch)[j] != FirstSeen(batch)[k]
  {
    if |batch| > 0 { FirstSeenDistinct(batch[..|batch| - 1]); }
  }

  lemma {:induction false} HintsExtend(batch: seq<Seen>, next: Seen, id: RegistrationId)
    ensures HintsOf(batch + [next], id) == HintsOf(batch, id) + if next.id == id then next.readiness else {}
  {
    var longer := batch + [next];
    forall h | h in HintsOf(batch, id) ensures h in HintsOf(longer, id) {
      var i :| 0 <= i < |batch| && batch[i].id == id && h in batch[i].readiness;
      assert longer[i] == batch[i];
    }
    if next.id == id {
      forall h | h in next.readiness ensures h in HintsOf(longer, id) {
        assert longer[|batch|] == next;
      }
    }
  }

  lemma {:induction false} BatchExtend(batch: seq<Seen>, next: Seen)
    ensures FirstSeen(batch + [next]) == if next.id in FirstSeen(batch) then FirstSeen(batch)
                                         else FirstSeen(batch) + [next.id]
    ensures forall id: RegistrationId ::
              KeyOf(batch + [next], id) == if KeyOf(batch, id).None? && next.id == id then Some(next.key)
                                           else KeyOf(batch, id)
  {
    assert (batch + [next])[..|batch|] == batch;
  }

  // ---------- The bounded index ----------

  function SlotOf(id: RegistrationId): Option<U32> {
    match Decode(id) case Ok((slot, _)) => Some(slot) case Err(_) => None
  }

  /** Every entry is indexed under its slot, and nothing else is indexed. */
  predicate Indexed(entries: seq<PendingResource>, bySlot: seq<U32>) {
    && (forall k | 0 <= k < |entries| ::
          var slot := SlotOf(entries[k].registration);
          slot.Some? && slot.value < |bySlot| && bySlot[slot.value] == k)
    && (forall s | 0 <= s < |bySlot| && bySlot[s] != EMPTY ::
          bySlot[s] < |entries|
          && var slot := SlotOf(entries[bySlot[s]].registration);
          slot.Some? && slot.value == s)
  }

  ghost function EntrySlots(entries: seq<PendingResource>, bySlot: seq<U32>): (slots: seq<nat>)
    requires Indexed(entries, bySlot)
    ensures |slots| == |entries| && forall k | 0 <= k < |entries| :: slots[k] < |bySlot| && bySlot[slots[k]] == k
  {
    seq(|entries|, k requires 0 <= k < |entries| && SlotOf(entries[k].registration).Some? =>
                   SlotOf(entries[k].registration).value as nat)
  }

  /** Distinct slots leave room: with one slot unindexed there are fewer entries than slots. */
  lemma {:induction false} UnindexedSlotLeavesRoom(entries: seq<PendingResource>, bySlot: seq<U32>, slot: nat)
    requires Indexed(entries, bySlot) && slot < |bySlot| && bySlot[slot] == EMPTY && |entries| <= U32_MAX
    ensures |entries| < |bySlot|
  {
    SlotsLeaveRoom(EntrySlots(entries, bySlot), bySlot, slot);
  }

  lemma {:induction false} SlotsLeaveRoom(slots: seq<nat>, bySlot: seq<U32>, slot: nat)
    requires forall k | 0 <= k < |slots| :: slots[k] < |bySlot| && bySlot[slots[k]] == k
    requires slot < |bySlot| && bySlot[slot] == EMPTY && |slots| <= U32_MAX
    ensures |slots| < |bySlot|
  {
    assert Distinct(slots) by {
      forall j, k | 0 <= j < k < |slots| ensures slots[j] != slots[k] {
        assert bySlot[slots[j]] == j && bySlot[slots[k]] == k;
      }
    }
    DistinctCount(slots);
    var others := Indexes(|bySlot|) - {slot};
    forall s | s in Members(slots) ensures s in others {
      var k :| 0 <= k < |slots| && slots[k] == s;
      assert bySlot[slots[k]] == k;
    }
    SubsetCount(Members(slots), others);
  }

  lemma {:induction false} IndexedPush(entries: seq<PendingResource>, bySlot: seq<U32>, slot: nat,
                                       entry: PendingResource)
    requires Indexed(entries, bySlot) && slot < |bySlot| && bySlot[slot] == EMPTY && |entries| < U32_MAX
    requires SlotOf(entry.registration).Some? && SlotOf(entry.registration).value == slot
    ensures Indexed(entries + [entry], bySlot[slot := |entries|])
  {
    var longer := entries + [entry];
    forall k | 0 <= k < |longer|
      ensures var s := SlotOf(longer[k].registration);
              s.Some? && s.value < |bySlot| && bySlot[slot := |entries|][s.value] == k
    {
      if k < |entries| { assert longer[k] == entries[k]; }
    }
  }

  class KqueuePending {
    const capacity: nat
    var entries: seq<PendingResource>
    const bySlot: array<U32>
    /** Every observation since the last clear. */
    ghost var batch: seq<Seen>

    ghost predicate Valid()
      reads this, bySlot
    {
      && 1 <= capacity && bySlot.Length <= MAX_REGISTRATIONS
      && |entries| <= bySlot.Length
      && Indexed(entries, bySlot[..])
      && Summarizes(entries, batch, capacity)
    }

    constructor (capacity: nat, registrations: nat)
      requires 1 <= capacity && registrations <= MAX_REGISTRATIONS
      ensures Valid() && fresh(bySlot) && entries == [] && batch == []
      ensures this.capacity == capacity && bySlot.Length == registrations
    {
      this.capacity := capacity;
      bySlot := new U32[registrations](_ => EMPTY);
      entries, batch := [], [];
    }

    /** Unindexes the entries one by one, which leaves the whole index empty; an index that disagrees
        with the entries is emptied outright. */
    method Clear()
      modifies this, bySlot
      ensures entries == [] && batch == []
      ensures old(Valid()) ==> Valid() && forall s | 0 <= s < bySlot.Length :: bySlot[s] == EMPTY
    {
      var valid := true;
      ghost var index := bySlot[..];
      for k := 0 to |entries|
        invariant valid && entries == old(entries)
        invariant forall s | 0 <= s < bySlot.Length :: bySlot[s] == EMPTY || bySlot[s] == index[s]
        invariant old(Valid()) ==>
                    forall s | 0 <= s < bySlot.Length :: bySlot[s] == if index[s] < k then EMPTY else index[s]
      {
        match SlotOf(entries[k].registration) {
          case None => valid := false; break;
          case Some(slot) =>
            if slot >= bySlot.Length { valid := false; break; }
            if bySlot[slot] != k { valid := false; break; }
            bySlot[slot] := EMPTY;
        }
      }
      if !valid {
        forall s | 0 <= s < bySlot.Length { bySlot[s] := EMPTY; }
      }
      entries, batch := [], [];
    }

    /** The token decodes to an indexable slot that no other registration occupies. */
    predicate Admits(id: RegistrationId)
      reads this
    {
      var slot := SlotOf(id);
      && slot.Some? && slot.value < bySlot.Length
      && forall k | 0 <= k < |entries| :: SlotOf(entries[k].registration) == slot ==> entries[k].registration == id
    }

    /** Folds one more observation into the summary. A registration beyond the capacity is dropped
        without error; two registrations of one slot are refused. */
    method Add(id: RegistrationId, key: Key, readiness: Readiness) returns (r: Result<Unit, Error>)
      requires Valid()
      modifies this, bySlot
      ensures Valid()
      ensures r.Ok? <==> old(Admits(id))
      ensures r.Ok? ==> batch == old(batch) + [Seen(id, key, readiness)]
      ensures r.Err? ==> entries == old(entries) && batch == old(batch)
    {
      match Decode(id) {
        case Err(e) => r := Err(e);
        case Ok((slot, _)) =>
          if slot >= bySlot.Length { return Err(Invariant); }
          var index := bySlot[slot];
          assert bySlot[..][slot] == index;
          if index == EMPTY {
            r := Retain(slot, PendingResource(id, key, readiness));
          } else {
            if index >= |entries| { return Err(Invariant); }
            var entry := entries[index];
            if entry.registration != id { return Err(Invariant); }
            UnionKeepsSummary(entries, batch, capacity, index, Seen(id, key, readiness));
            entries := entries[index := entry.(readiness := entry.readiness + readiness)];
            batch := batch + [Seen(id, key, readiness)];
            r := Ok(Unit);
          }
      }
    }

    /** A registration not retained yet: kept while there is capacity, and dropped afterwards. */
    method Retain(slot: U32, entry: PendingResource) returns (r: Result<Unit, Error>)
      requires Valid() && slot < bySlot.Length && bySlot[slot] == EMPTY
      requires SlotOf(entry.registration) == Some(slot)
      modifies this, bySlot
      ensures Valid() && r == Ok(Unit)
      ensures batch == old(batch) + [Seen(entry.registration, entry.key, entry.readiness)]
    {
      ghost var next := Seen(entry.registration, entry.key, entry.readiness);
      ghost var index := bySlot[..];
      UnindexedSlotLeavesRoom(entries, index, slot);
      assert forall k | 0 <= k < |entries| :: entries[k].registration != entry.registration;
      if |entries| >= capacity {
        DropKeepsSummary(entries, batch, capacity, next);
        batch := batch + [next];
        return Ok(Unit);
      }
      var entryIndex := |entries|;
      if entryIndex > U32_MAX { return Err(Invariant); }
      PushKeepsSummary(entries, batch, capacity, next);
      IndexedPush(entries, index, slot, entry);
      entries := entries + [entry];
      batch := batch + [next];
      bySlot[slot] := entryIndex;
      assert bySlot[..] == index[slot := entryIndex as U32];
      r := Ok(Unit);
    }
  }

  lemma {:induction false} UnionKeepsSummary(entries: seq<PendingResource>, batch: seq<Seen>, capacity: nat, index: nat,
                                             next: Seen)
    requires Summarizes(entries, batch, capacity) && index < |entries| && entries[index].registration == next.id
    ensures Summarizes(entries[index := entries[index].(readiness := entries[index].readiness + next.readiness)],
                       batch + [next], capacity)
  {
    BatchExtend(batch, next);
    FirstSeenDistinct(batch);
    forall k | 0 <= k < |entries| ensures HintsOf(batch + [next], FirstSeen(batch)[k])
                                          == entries[k].readiness + if k == index then next.readiness else {} {
      HintsExtend(batch, next, FirstSeen(batch)[k]);
    }
  }

  lemma {:induction false} DropKeepsSummary(entries: seq<PendingResource>, batch: seq<Seen>, capacity: nat, next: Seen)
    requires Summarizes(entries, batch, capacity) && |entries| == capacity
    requires forall k | 0 <= k < |entries| :: entries[k].registration != next.id
    ensures Summarizes(entries, batch + [next], capacity)
  {
    BatchExtend(batch, next);
    forall k | 0 <= k < |entries| ensures HintsOf(batch + [next], FirstSeen(batch)[k]) == entries[k].readiness {
      HintsExtend(batch, next, FirstSeen(batch)[k]);
    }
  }

  lemma {:induction false} PushKeepsSummary(entries: seq<PendingResource>, batch: seq<Seen>, capacity: nat, next: Seen)
    requires Summarizes(entries, batch, capacity) && |entries| < capacity
    requires forall k | 0 <= k < |entries| :: entries[k].registration != next.id
    ensures Summarizes(entries + [PendingResource(next.id, next.key, next.readiness)], batch + [next], capacity)
  {
    BatchExtend(batch, next);
    FirstSeenIsSeen(batch, next.id);
    forall k | 0 <= k < |entries| ensures HintsOf(batch + [next], FirstSeen(batch)[k]) == entries[k].readiness {
      HintsExtend(batch, next, FirstSeen(batch)[k]);
    }
    HintsExtend(batch, next, next.id);
  }

  /** A summary is determined by the batch. */
  lemma {:induction false} SummaryUnique(a: seq<PendingResource>, b: seq<PendingResource>, batch: seq<Seen>,
                                         capacity: nat)
    requires Summarizes(a, batch, capacity) && Summarizes(b, batch, capacity)
    ensures a == b
  {
    assert forall k | 0 <= k < |a| :: a[k] == b[k];
  }
}
