/** Slots of the registration table as values: lookup by token, the live map they stand for,
    and the intrusive free list. */
module Slots {
  import opened Vocabulary
  import opened Token

  /** Ends the free list. A capacity is a count, so every index is below this value. */
  const FREE_END: U32 := U32_MAX

  datatype Entry = Entry(descriptor: Descriptor, key: Key, interest: Interest, mode: Mode, state: RegistrationState)

  datatype Slot = Slot(generation: Generation, entry: Option<Entry>, nextFree: U32)

  predicate Fits(slots: seq<Slot>) { |slots| <= MAX_REGISTRATIONS }

  /** The token of the generation that slot `i` holds or held last. */
  function IdAt(slots: seq<Slot>, i: nat): RegistrationId
    requires Fits(slots) && i < |slots|
  {
    Encode(i, slots[i].generation).value
  }

  function Find(slots: seq<Slot>, id: RegistrationId): Result<(nat, Entry), Error> {
    match Decode(id)
    case Err(e) => Err(e)
    case Ok((index, generation)) =>
      if index >= |slots| then Err(Stale(id))
      else if slots[index].generation != generation then Err(Stale(id))
      else match slots[index].entry
           case None => Err(Stale(id))
           case Some(entry) => Ok((index as nat, entry))
  }

  // ---------- The live map ----------

  ghost function OccupiedIds(slots: seq<Slot>): set<RegistrationId>
    requires Fits(slots)
  {
    set i | 0 <= i < |slots| && slots[i].entry.Some? :: IdAt(slots, i)
  }

  /** The bounded map that the table stands for: live generations and their entries. */
  ghost function Live(slots: seq<Slot>): map<RegistrationId, Entry>
    requires Fits(slots)
  {
    map id | id in OccupiedIds(slots) && Find(slots, id).Ok? :: Find(slots, id).value.1
  }

  /** Lookup by token and the live map agree on every 64-bit token, library-made or not. */
  lemma {:induction false} FindIsLive(slots: seq<Slot>, id: RegistrationId)
    requires Fits(slots)
    ensures id in Live(slots) <==> Find(slots, id).Ok?
    ensures id in Live(slots) ==> Live(slots)[id] == Find(slots, id).value.1
    ensures Find(slots, id).Ok? ==>
              var i := Find(slots, id).value.0;
              i < |slots| && id == IdAt(slots, i) && slots[i].entry == Some(Find(slots, id).value.1)
    ensures Find(slots, id).Err? ==> Find(slots, id) == Err(Stale(id))
  {
    DecodeRoundTrip(id);
    if Find(slots, id).Ok? {
      var i := Find(slots, id).value.0;
      assert id == IdAt(slots, i);
      assert id in OccupiedIds(slots);
    }
  }

  lemma {:induction false} FindAt(slots: seq<Slot>, i: nat)
    requires Fits(slots) && i < |slots|
    ensures Decode(IdAt(slots, i)) == Ok((i as U32, slots[i].generation))
    ensures slots[i].entry.Some? ==> Find(slots, IdAt(slots, i)) == Ok((i, slots[i].entry.value))
    ensures slots[i].entry.None? ==> Find(slots, IdAt(slots, i)).Err?
  {
    EncodeRoundTrip(i, slots[i].generation);
  }

  /** Replacing slot `i` touches the live map at the slot's two tokens only. */
  lemma {:induction false} LiveElsewhere(slots: seq<Slot>, i: nat, slot: Slot, id: RegistrationId)
    requires Fits(slots) && i < |slots|
    requires id != IdAt(slots, i) && id != IdAt(slots[i := slot], i)
    ensures Find(slots[i := slot], id) == Find(slots, id)
  {
    DecodeRoundTrip(id);
  }

  lemma {:induction false} LiveStoreAt(slots: seq<Slot>, i: nat, slot: Slot, id: RegistrationId)
    requires Fits(slots) && i < |slots|
    requires slot.entry.Some?
    requires slots[i].entry.Some? ==> slot.generation == slots[i].generation
    ensures Find(slots[i := slot], id).Ok? <==> id == IdAt(slots[i := slot], i) || Find(slots, id).Ok?
    ensures id == IdAt(slots[i := slot], i) ==> Find(slots[i := slot], id) == Ok((i, slot.entry.value))
    ensures id != IdAt(slots[i := slot], i) && Find(slots, id).Ok? ==> Find(slots[i := slot], id) == Find(slots, id)
  {
    var after := slots[i := slot];
    FindAt(after, i);
    FindAt(slots, i);
    if id != IdAt(after, i) {
      if id == IdAt(slots, i) {
        assert Find(after, id).Err?;
      } else {
        LiveElsewhere(slots, i, slot, id);
      }
    }
  }

  lemma {:induction false} LiveStore(slots: seq<Slot>, i: nat, slot: Slot)
    requires Fits(slots) && i < |slots|
    requires slot.entry.Some?
    requires slots[i].entry.Some? ==> slot.generation == slots[i].generation
    ensures Live(slots[i := slot]) == Live(slots)[IdAt(slots[i := slot], i) := slot.entry.value]
  {
    var after := slots[i := slot];
    var expected := Live(slots)[IdAt(after, i) := slot.entry.value];
    forall id: RegistrationId
      ensures id in Live(after) <==> id in expected
      ensures id in Live(after) ==> Live(after)[id] == expected[id]
    {
      FindIsLive(slots, id);
      FindIsLive(after, id);
      LiveStoreAt(slots, i, slot, id);
    }
  }

  lemma {:induction false} LiveVacate(slots: seq<Slot>, i: nat, slot: Slot)
    requires Fits(slots) && i < |slots|
    requires slot.entry.None? && slot.generation == slots[i].generation
    ensures Live(slots[i := slot]) == Live(slots) - {IdAt(slots, i)}
  {
    var after := slots[i := slot];
    var expected := Live(slots) - {IdAt(slots, i)};
    FindAt(after, i);
    forall id: RegistrationId
      ensures id in Live(after) <==> id in expected
      ensures id in Live(after) ==> Live(after)[id] == expected[id]
    {
      FindIsLive(slots, id);
      FindIsLive(after, id);
      if id != IdAt(slots, i) { LiveElsewhere(slots, i, slot, id); }
    }
  }

  lemma {:induction false} LivePushElsewhere(slots: seq<Slot>, slot: Slot, id: RegistrationId)
    requires |slots| < MAX_REGISTRATIONS && id != IdAt(slots + [slot], |slots|)
    ensures Find(slots + [slot], id) == Find(slots, id)
  {
    DecodeRoundTrip(id);
  }

  lemma {:induction false} LivePush(slots: seq<Slot>, slot: Slot)
    requires |slots| < MAX_REGISTRATIONS && slot.entry.Some?
    ensures Live(slots + [slot]) == Live(slots)[IdAt(slots + [slot], |slots|) := slot.entry.value]
  {
    var after := slots + [slot];
    var expected := Live(slots)[IdAt(after, |slots|) := slot.entry.value];
    FindAt(after, |slots|);
    forall id: RegistrationId
      ensures id in Live(after) <==> id in expected
      ensures id in Live(after) ==> Live(after)[id] == expected[id]
    {
      FindIsLive(slots, id);
      FindIsLive(after, id);
      if id != IdAt(after, |slots|) { LivePushElsewhere(slots, slot, id); }
    }
  }

  // ---------- Representing the live map ----------

  /** Marks the ids at which a representation is looked into. */
  predicate Audit(id: RegistrationId) { true }

  /** `live` is the live map of `slots`, stated id by id. */
  ghost predicate Represents(live: map<RegistrationId, Entry>, slots: seq<Slot>) {
    forall id: RegistrationId {:trigger Audit(id)} :: Audit(id) ==>
      && (id in live <==> Find(slots, id).Ok?)
      && (id in live ==> live[id] == Find(slots, id).value.1)
  }

  lemma {:induction false} RepresentsLive(live: map<RegistrationId, Entry>, slots: seq<Slot>)
    requires Fits(slots)
    ensures Represents(live, slots) <==> live == Live(slots)
  {
    forall id: RegistrationId
      ensures id in Live(slots) <==> Find(slots, id).Ok?
      ensures id in Live(slots) ==> Live(slots)[id] == Find(slots, id).value.1
    {
      FindIsLive(slots, id);
    }
    if Represents(live, slots) {
      forall id: RegistrationId
        ensures id in live <==> id in Live(slots)
        ensures id in live ==> live[id] == Live(slots)[id]
      {
        assert Audit(id);
      }
    }
  }

  lemma {:induction false} FindRepresented(live: map<RegistrationId, Entry>, slots: seq<Slot>, id: RegistrationId)
    requires Fits(slots) && Represents(live, slots)
    ensures id in live <==> Find(slots, id).Ok?
    ensures id in live ==> live[id] == Find(slots, id).value.1
    ensures Find(slots, id).Ok? ==>
              var i := Find(slots, id).value.0;
              i < |slots| && id == IdAt(slots, i) && slots[i].entry == Some(Find(slots, id).value.1)
    ensures Find(slots, id).Err? ==> Find(slots, id) == Err(Stale(id))
  {
    FindIsLive(slots, id);
    assert Audit(id);
  }

  lemma {:induction false} RepresentStore(live: map<RegistrationId, Entry>, slots: seq<Slot>, i: nat, slot: Slot)
    requires Fits(slots) && i < |slots| && Represents(live, slots)
    requires slot.entry.Some?
    requires slots[i].entry.Some? ==> slot.generation == slots[i].generation
    ensures Represents(live[IdAt(slots[i := slot], i) := slot.entry.value], slots[i := slot])
  {
    RepresentsLive(live, slots);
    LiveStore(slots, i, slot);
    RepresentsLive(live[IdAt(slots[i := slot], i) := slot.entry.value], slots[i := slot]);
  }

  lemma {:induction false} RepresentVacate(live: map<RegistrationId, Entry>, slots: seq<Slot>, i: nat, slot: Slot)
    requires Fits(slots) && i < |slots| && Represents(live, slots)
    requires slot.entry.None? && slot.generation == slots[i].generation
    ensures Represents(live - {IdAt(slots, i)}, slots[i := slot])
  {
    RepresentsLive(live, slots);
    LiveVacate(slots, i, slot);
    RepresentsLive(live - {IdAt(slots, i)}, slots[i := slot]);
  }

  lemma {:induction false} RepresentPush(live: map<RegistrationId, Entry>, slots: seq<Slot>, slot: Slot)
    requires |slots| < MAX_REGISTRATIONS && slot.entry.Some? && Represents(live, slots)
    ensures Represents(live[IdAt(slots + [slot], |slots|) := slot.entry.value], slots + [slot])
  {
    RepresentsLive(live, slots);
    LivePush(slots, slot);
    RepresentsLive(live[IdAt(slots + [slot], |slots|) := slot.entry.value], slots + [slot]);
  }

  // ---------- Issued generations ----------

  /** A slot hands out generations in order from one, so these are the ids ever issued. */
  predicate Issued(slots: seq<Slot>, id: RegistrationId) {
    match Decode(id)
    case Err(_) => false
    case Ok((index, generation)) => index < |slots| && generation <= slots[index].generation
  }

  ghost predicate SameGenerations(before: seq<Slot>, after: seq<Slot>) {
    |before| == |after| && forall i | 0 <= i < |after| :: after[i].generation == before[i].generation
  }

  /** Issuing depends on the generations alone. */
  lemma {:induction false} SameGenerationsSameIssued(before: seq<Slot>, after: seq<Slot>)
    requires SameGenerations(before, after)
    ensures forall id: RegistrationId :: Issued(after, id) <==> Issued(before, id)
  {
  }

  // ---------- The free list ----------

  function LinkAt(free: seq<nat>, k: nat): U32
    requires Bounded(free)
  {
    if k < |free| then free[k] else FREE_END
  }

  predicate Bounded(free: seq<nat>) {
    forall k | 0 <= k < |free| :: free[k] < MAX_REGISTRATIONS
  }

  ghost predicate Distinct(free: seq<nat>) {
    forall j, k | 0 <= j < k < |free| :: free[j] != free[k]
  }

  predicate Reusable(slot: Slot) { slot.entry.None? && slot.generation != MAX_GENERATION }

  predicate Terminal(slot: Slot) { slot.entry.None? && slot.generation == MAX_GENERATION }

  /** The links from `head` visit exactly `free`, in order, and stop. */
  ghost predicate Chain(slots: seq<Slot>, head: U32, free: seq<nat>) {
    && Bounded(free)
    && head == LinkAt(free, 0)
    && (forall k | 0 <= k < |free| :: free[k] < |slots|)
    && forall k {:trigger slots[free[k]]} | 0 <= k < |free| :: slots[free[k]].nextFree == LinkAt(free, k + 1)
  }

  /** The free list is acyclic and reaches every vacant non-terminal slot exactly once. */
  ghost predicate FreeListExact(slots: seq<Slot>, head: U32, free: seq<nat>) {
    && Chain(slots, head, free)
    && Distinct(free)
    && forall i | 0 <= i < |slots| :: i in free <==> Reusable(slots[i])
  }

  ghost function Terminals(slots: seq<Slot>): set<int> {
    set i | 0 <= i < |slots| && Terminal(slots[i])
  }

  ghost predicate WellFormed(limit: nat, slots: seq<Slot>, head: U32, exhausted: nat, free: seq<nat>) {
    && 1 <= limit <= MAX_REGISTRATIONS
    && |slots| <= limit
    && FreeListExact(slots, head, free)
    && exhausted == |Terminals(slots)|
  }

  lemma {:induction false} PushKeepsWellFormed(limit: nat, slots: seq<Slot>, head: U32, exhausted: nat, slot: Slot)
    requires WellFormed(limit, slots, head, exhausted, []) && |slots| < limit && slot.entry.Some?
    ensures WellFormed(limit, slots + [slot], head, exhausted, [])
  {
    assert Terminals(slots + [slot]) == Terminals(slots);
  }

  lemma {:induction false} PopKeepsWellFormed(limit: nat, slots: seq<Slot>, head: U32, exhausted: nat, free: seq<nat>,
                                              slot: Slot)
    requires WellFormed(limit, slots, head, exhausted, free) && free != []
    requires slot.entry.Some? && slot.nextFree == slots[free[0]].nextFree
    ensures WellFormed(limit, slots[free[0] := slot], slot.nextFree, exhausted, free[1..])
  {
    var after := slots[free[0] := slot];
    assert free[0] in free;
    assert Terminals(after) == Terminals(slots);
    forall i | 0 <= i < |after|
      ensures i in free[1..] <==> Reusable(after[i])
    {
      assert i in free <==> i == free[0] || i in free[1..];
    }
  }

  lemma {:induction false} RetireTerminalKeepsWellFormed(limit: nat, slots: seq<Slot>, head: U32, exhausted: nat,
                                                         free: seq<nat>, i: nat)
    requires WellFormed(limit, slots, head, exhausted, free)
    requires i < |slots| && slots[i].entry.Some? && slots[i].generation == MAX_GENERATION
    ensures WellFormed(limit, slots[i := slots[i].(entry := None, nextFree := FREE_END)], head, exhausted + 1, free)
  {
    assert i !in free;
    var after := slots[i := slots[i].(entry := None, nextFree := FREE_END)];
    assert Terminals(after) == Terminals(slots) + {i};
  }

  lemma {:induction false} RetireReusableKeepsWellFormed(limit: nat, slots: seq<Slot>, head: U32, exhausted: nat,
                                                         free: seq<nat>, i: nat)
    requires WellFormed(limit, slots, head, exhausted, free)
    requires i < |slots| && slots[i].entry.Some? && slots[i].generation != MAX_GENERATION
    ensures WellFormed(limit, slots[i := slots[i].(entry := None, nextFree := head)], i, exhausted, [i] + free)
  {
    var after, longer := slots[i := slots[i].(entry := None, nextFree := head)], [i] + free;
    assert Terminals(after) == Terminals(slots);
    assert i !in free;
    ChainPrepend(slots, head, free, i);
    assert Distinct(longer);
    forall j | 0 <= j < |after|
      ensures j in longer <==> Reusable(after[j])
    {
      assert j in longer <==> j == i || j in free;
    }
  }

  lemma {:induction false} ChainPrepend(slots: seq<Slot>, head: U32, free: seq<nat>, i: nat)
    requires Chain(slots, head, free) && i < |slots| <= MAX_REGISTRATIONS && i !in free
    ensures Chain(slots[i := slots[i].(entry := None, nextFree := head)], i, [i] + free)
  {
    var after, longer := slots[i := slots[i].(entry := None, nextFree := head)], [i] + free;
    forall k | 0 <= k < |longer|
      ensures longer[k] < |after| && after[longer[k]].nextFree == LinkAt(longer, k + 1)
    {
      if k > 0 { assert longer[k] == free[k - 1] && free[k - 1] in free; }
    }
  }

  lemma {:induction false} UpdateKeepsWellFormed(limit: nat, slots: seq<Slot>, head: U32, exhausted: nat,
                                                 free: seq<nat>, i: nat, slot: Slot)
    requires WellFormed(limit, slots, head, exhausted, free)
    requires i < |slots| && slots[i].entry.Some? && slot.entry.Some?
    ensures WellFormed(limit, slots[i := slot], head, exhausted, free)
  {
    assert i !in free;
    assert Terminals(slots[i := slot]) == Terminals(slots);
  }

  // ---------- Accounting ----------

  ghost function Occupied(slots: seq<Slot>): set<int> {
    set i | 0 <= i < |slots| && slots[i].entry.Some?
  }

  ghost function Indexes(n: nat): (r: set<int>)
    ensures |r| == n && forall i :: i in r <==> 0 <= i < n
  {
    if n == 0 then {} else Indexes(n - 1) + {n - 1}
  }

  lemma {:induction false} LiveWithoutLast(prior: seq<Slot>, last: Slot)
    requires |prior| < MAX_REGISTRATIONS && last.entry.None?
    ensures Live(prior + [last]) == Live(prior)
  {
    var slots := prior + [last];
    forall id: RegistrationId
      ensures id in Live(slots) <==> id in Live(prior)
      ensures id in Live(prior) ==> Live(slots)[id] == Live(prior)[id]
    {
      FindIsLive(slots, id);
      FindIsLive(prior, id);
    }
  }

  lemma {:induction false} LiveWithLast(prior: seq<Slot>, last: Slot)
    requires |prior| < MAX_REGISTRATIONS && last.entry.Some?
    ensures |Live(prior + [last])| == |Live(prior)| + 1
  {
    LivePush(prior, last);
    FindAt(prior + [last], |prior|);
    var id := IdAt(prior + [last], |prior|);
    FindIsLive(prior, id);
    assert id !in Live(prior);
  }

  lemma {:induction false} OccupiedWithLast(prior: seq<Slot>, last: Slot)
    ensures |Occupied(prior + [last])| == |Occupied(prior)| + if last.entry.Some? then 1 else 0
  {
    var after := Occupied(prior + [last]);
    if last.entry.Some? {
      assert after == Occupied(prior) + {|prior|};
    } else {
      assert after == Occupied(prior);
    }
  }

  lemma {:induction false} NothingLive()
    ensures |Live([])| == |Occupied([])|
  {
    assert Live([]) == map[] && Occupied([]) == {};
  }

  lemma {:induction false} LiveCountStep(prior: seq<Slot>, last: Slot)
    requires |prior| < MAX_REGISTRATIONS && |Live(prior)| == |Occupied(prior)|
    ensures |Live(prior + [last])| == |Occupied(prior + [last])|
  {
    OccupiedWithLast(prior, last);
    if last.entry.Some? { LiveWithLast(prior, last); } else { LiveWithoutLast(prior, last); }
  }

  lemma {:induction false} LiveCount(slots: seq<Slot>)
    requires Fits(slots)
    ensures |Live(slots)| == |Occupied(slots)|
    decreases |slots|
  {
    if |slots| == 0 {
      assert slots == [];
      NothingLive();
    } else {
      var n := |slots| - 1;
      assert slots == slots[..n] + [slots[n]];
      LiveCount(slots[..n]);
      LiveCountStep(slots[..n], slots[n]);
    }
  }

  ghost function Members(free: seq<nat>): set<int> {
    set k | 0 <= k < |free| :: free[k]
  }

  lemma {:induction false} DistinctCount(free: seq<nat>)
    requires Distinct(free)
    ensures |Members(free)| == |free|
  {
    if free == [] {
      assert Members(free) == {};
    } else {
      var n := |free| - 1;
      DistinctCount(free[..n]);
      assert Members(free) == Members(free[..n]) + {free[n]};
    }
  }

  /** Live, free, exhausted and never-used slots partition the table's limit. */
  lemma {:induction false} SlotsAccounted(limit: nat, slots: seq<Slot>, head: U32, exhausted: nat, free: seq<nat>)
    requires WellFormed(limit, slots, head, exhausted, free)
    ensures |Live(slots)| + |free| + exhausted + (limit - |slots|) == limit
  {
    var indexes := Indexes(|slots|);
    var reusable := Members(free);
    assert forall i :: i in reusable <==> i in free;
    assert indexes == Occupied(slots) + reusable + Terminals(slots);
    assert Occupied(slots) !! reusable && (Occupied(slots) + reusable) !! Terminals(slots);
    DistinctCount(free);
    LiveCount(slots);
  }

  /** The free list is determined by the links: no other order could be read from them. */
  lemma {:induction false} ChainUnique(slots: seq<Slot>, head: U32, free: seq<nat>, other: seq<nat>)
    requires Chain(slots, head, free) && Chain(slots, head, other)
    ensures free == other
    decreases |free|
  {
    if free != [] && other != [] {
      assert Chain(slots, slots[free[0]].nextFree, free[1..]);
      assert Chain(slots, slots[free[0]].nextFree, other[1..]);
      ChainUnique(slots, slots[free[0]].nextFree, free[1..], other[1..]);
    }
  }
}
