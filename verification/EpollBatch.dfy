/** The epoll batch: kernel records staged in the tail of the caller's event storage and rewritten
    forward, in the same bytes, into the larger portable events. */
module EpollBatches {
  import opened Vocabulary
  import opened Slots
  import opened RegistrationTables
  import opened Events
  import opened EpollTranslations

  type Byte = bv8

  const C_INT_MAX: nat := I32_MAX
  const USIZE_MAX: nat := U64_MAX

  /** The two record layouts. Sizes and alignments are abstract, and so is what the bytes of a record
      say, as long as reading undoes writing. */
  datatype Layout = Layout(eventSize: nat, eventAlign: nat, nativeSize: nat, nativeAlign: nat,
                           putEvent: Event -> seq<Byte>, getEvent: seq<Byte> -> Event,
                           putNative: RawRecord -> seq<Byte>, getNative: seq<Byte> -> RawRecord)
  {
    ghost predicate Valid() {
      && 0 < nativeAlign && 0 < eventAlign && 0 < nativeSize && 0 < eventSize
      && (forall e :: |putEvent(e)| == eventSize && getEvent(putEvent(e)) == e)
      && (forall r :: |putNative(r)| == nativeSize && getNative(putNative(r)) == r)
    }
  }

  /** The caller's event storage: a vector of `len` events over `capacity` slots of raw bytes. */
  class EventStorage {
    const layout: Layout
    const capacity: nat
    const address: nat
    const memory: array<Byte>
    var len: nat

    ghost predicate Valid()
      reads this
    {
      layout.Valid() && memory.Length == capacity * layout.eventSize && len <= capacity && 0 < address
    }

    /** An empty vector; the allocator picks the address. */
    constructor (layout: Layout, capacity: nat, address: nat)
      requires layout.Valid() && 0 < address
      ensures Valid() && fresh(memory) && this.layout == layout && this.capacity == capacity && this.address == address
              && len == 0
    {
      this.layout, this.capacity, this.address, len := layout, capacity, address, 0;
      memory := new Byte[capacity * layout.eventSize];
    }

    /** The events as the caller reads them. */
    ghost function Items(): (items: seq<Event>)
      requires Valid()
      reads this, memory
    {
      EventsIn(layout, memory[..], len)
    }

    method Clear()
      requires Valid()
      modifies this
      ensures Valid() && len == 0
    {
      len := 0;
    }
  }

  // ---------- Regions of the storage ----------

  ghost predicate EventAt(layout: Layout, bytes: seq<Byte>, j: nat, event: Event) {
    && (j + 1) * layout.eventSize <= |bytes|
    && bytes[j * layout.eventSize..(j + 1) * layout.eventSize] == layout.putEvent(event)
  }

  ghost predicate NativeAt(layout: Layout, bytes: seq<Byte>, offset: nat, k: nat, record: RawRecord) {
    && offset + (k + 1) * layout.nativeSize <= |bytes|
    && bytes[offset + k * layout.nativeSize..offset + (k + 1) * layout.nativeSize] == layout.putNative(record)
  }

  ghost function EventsIn(layout: Layout, bytes: seq<Byte>, n: nat): (items: seq<Event>)
    requires n * layout.eventSize <= |bytes|
    ensures |items| == n
  {
    if n == 0 then []
    else
      assert (n - 1) * layout.eventSize <= n * layout.eventSize;
      EventsIn(layout, bytes, n - 1) + [layout.getEvent(bytes[(n - 1) * layout.eventSize..n * layout.eventSize])]
  }

  /** Storage that holds the encodings of these events reads back as these events. */
  lemma {:induction false} EventsReadBack(layout: Layout, bytes: seq<Byte>, events: seq<Event>, n: nat)
    requires layout.Valid() && n <= |events| && n * layout.eventSize <= |bytes|
    requires forall j | 0 <= j < n :: EventAt(layout, bytes, j, events[j])
    ensures EventsIn(layout, bytes, n) == events[..n]
  {
    if n > 0 {
      assert (n - 1) * layout.eventSize <= n * layout.eventSize;
      EventsReadBack(layout, bytes, events, n - 1);
      assert EventAt(layout, bytes, n - 1, events[n - 1]);
      assert events[..n] == events[..n - 1] + [events[n - 1]];
    }
  }

  lemma {:induction false} Scale(a: nat, b: nat, size: nat)
    requires a <= b
    ensures a * size <= b * size
  {
  }

  /** The heart of the in-place rewrite: with native records in the tail, the slot of an event that is
      no later than its record ends before the next unread record begins. */
  lemma {:induction false} WriteStaysBehind(capacity: nat, eventSize: nat, nativeSize: nat, resources: nat, source: nat)
    requires nativeSize <= eventSize && resources <= source < capacity
    ensures (resources + 1) * eventSize <= capacity * (eventSize - nativeSize) + (source + 1) * nativeSize
  {
    Scale(resources + 1, source + 1, eventSize);
    Scale(source + 1, capacity, eventSize - nativeSize);
    assert (source + 1) * eventSize == (source + 1) * (eventSize - nativeSize) + (source + 1) * nativeSize;
  }

  /** Bytes `at..at + |bytes|` now hold `bytes`, and no other byte changed. */
  twostate predicate Wrote(memory: array<Byte>, at: nat, bytes: seq<Byte>)
    reads memory
  {
    && at + |bytes| <= memory.Length
    && memory[at..at + |bytes|] == bytes
    && forall i | 0 <= i < memory.Length && !(at <= i < at + |bytes|) :: memory[i] == old(memory[i])
  }

  method Write(memory: array<Byte>, at: nat, bytes: seq<Byte>)
    requires at + |bytes| <= memory.Length
    modifies memory
    ensures Wrote(memory, at, bytes)
  {
    for i := 0 to |bytes|
      invariant forall j | 0 <= j < i :: memory[at + j] == bytes[j]
      invariant forall j | 0 <= j < memory.Length && !(at <= j < at + i) :: memory[j] == old(memory[j])
    {
      memory[at + i] := bytes[i];
    }
  }

  /** Every unread native record, and every event written so far, is where it should be. */
  ghost predicate Intact(layout: Layout, bytes: seq<Byte>, offset: nat, records: seq<RawRecord>, source: nat,
                         events: seq<Event>)
  {
    && (forall j | 0 <= j < |events| :: EventAt(layout, bytes, j, events[j]))
    && (forall k | source <= k < |records| :: NativeAt(layout, bytes, offset, k, records[k]))
  }

  /** Overwriting elsewhere leaves a region as it was. */
  lemma {:induction false} RegionKept(before: seq<Byte>, after: seq<Byte>, at: nat, size: nat, lo: nat, hi: nat)
    requires |before| == |after| && lo <= hi <= |before| && (hi <= at || at + size <= lo)
    requires forall i | 0 <= i < |after| && !(at <= i < at + size) :: after[i] == before[i]
    ensures after[lo..hi] == before[lo..hi]
  {
  }

  ghost predicate OnlyAt(before: seq<Byte>, after: seq<Byte>, at: nat, size: nat) {
    |before| == |after| && forall i | 0 <= i < |after| && !(at <= i < at + size) :: after[i] == before[i]
  }

  lemma {:induction false} EventKept(layout: Layout, before: seq<Byte>, after: seq<Byte>, n: nat, j: nat, event: Event)
    requires EventAt(layout, before, j, event) && j < n && OnlyAt(before, after, n * layout.eventSize, layout.eventSize)
    ensures EventAt(layout, after, j, event)
  {
    Scale(j + 1, n, layout.eventSize);
    Scale(j, j + 1, layout.eventSize);
    RegionKept(before, after, n * layout.eventSize, layout.eventSize, j * layout.eventSize, (j + 1) * layout.eventSize);
  }

  lemma {:induction false} NativeKept(layout: Layout, before: seq<Byte>, after: seq<Byte>, offset: nat, at: nat,
                                      source: nat, k: nat, record: RawRecord)
    requires NativeAt(layout, before, offset, k, record) && source < k
    requires OnlyAt(before, after, at, layout.eventSize)
             && at + layout.eventSize <= offset + (source + 1) * layout.nativeSize
    ensures NativeAt(layout, after, offset, k, record)
  {
    Scale(source + 1, k, layout.nativeSize);
    Scale(k, k + 1, layout.nativeSize);
    RegionKept(before, after, at, layout.eventSize, offset + k * layout.nativeSize,
               offset + (k + 1) * layout.nativeSize);
  }

  lemma {:induction false} EarlierNativeKept(layout: Layout, before: seq<Byte>, after: seq<Byte>, offset: nat, j: nat,
                                             k: nat, record: RawRecord)
    requires NativeAt(layout, before, offset, j, record) && j < k
    requires OnlyAt(before, after, offset + k * layout.nativeSize, layout.nativeSize)
    ensures NativeAt(layout, after, offset, j, record)
  {
    Scale(j + 1, k, layout.nativeSize);
    Scale(j, j + 1, layout.nativeSize);
    RegionKept(before, after, offset + k * layout.nativeSize, layout.nativeSize,
               offset + j * layout.nativeSize, offset + (j + 1) * layout.nativeSize);
  }

  /** Writing the next event after reading record `source` keeps everything that is still needed. */
  lemma {:induction false} PutKeepsIntact(layout: Layout, before: seq<Byte>, after: seq<Byte>, capacity: nat,
                                          offset: nat, records: seq<RawRecord>, source: nat, events: seq<Event>,
                                          event: Event)
    requires layout.nativeSize <= layout.eventSize && offset == capacity * (layout.eventSize - layout.nativeSize)
    requires |events| <= source < |records| <= capacity
    requires Intact(layout, before, offset, records, source, events)
    requires EventAt(layout, after, |events|, event)
             && OnlyAt(before, after, |events| * layout.eventSize, layout.eventSize)
    ensures Intact(layout, after, offset, records, source + 1, events + [event])
  {
    WriteStaysBehind(capacity, layout.eventSize, layout.nativeSize, |events|, source);
    var at := |events| * layout.eventSize;
    assert at + layout.eventSize == (|events| + 1) * layout.eventSize;
    forall j | 0 <= j < |events| ensures EventAt(layout, after, j, events[j]) {
      EventKept(layout, before, after, |events|, j, events[j]);
    }
    forall k | source + 1 <= k < |records| ensures NativeAt(layout, after, offset, k, records[k]) {
      NativeKept(layout, before, after, offset, at, source, k, records[k]);
    }
  }

  /** Where the records of a batch lie fits the storage. */
  lemma {:induction false} TailFits(capacity: nat, storage: nat, eventSize: nat, nativeSize: nat, k: nat)
    requires nativeSize <= eventSize && k < capacity <= storage
    ensures capacity * (eventSize - nativeSize) + (k + 1) * nativeSize <= storage * eventSize
    ensures capacity * (eventSize - nativeSize) + k * nativeSize
            <= capacity * (eventSize - nativeSize) + (k + 1) * nativeSize
  {
    Scale(k + 1, capacity, nativeSize);
    Scale(k, k + 1, nativeSize);
    Scale(capacity, storage, eventSize);
    assert capacity * (eventSize - nativeSize) + capacity * nativeSize == capacity * eventSize;
  }

  /** What the classifier of the poller does with one record: resolve the token, and disarm a one-shot. */
  method Classify(table: RegistrationTable, token: U64) returns (r: Result<Option<Key>, Error>)
    requires table.Valid() && token != 0
    modifies table
    ensures table.Valid() && SameGenerations(old(table.slots), table.slots)
    ensures !(token in old(table.live) && old(table.live)[token].state.Registered?) ==>
              r == Ok(None) && table.live == old(table.live)
    ensures token in old(table.live) && old(table.live)[token].state.Registered? ==>
              var entry := old(table.live)[token];
              if entry.mode == OneShot && entry.state != ARMED then r == Err(Invariant) && table.live == old(table.live)
              else && r == Ok(Some(entry.key))
                   && table.live == if entry.mode == OneShot then old(table.live)[token := entry.(state := DISARMED)]
                                    else old(table.live)
  {
    var resolved := table.Resolve(token);
    match resolved {
      case None => r := Ok(None);
      case Some(resource) =>
        if resource.mode == OneShot {
          var applied := table.ApplyDisarm(resource.id, Applied);
          if applied.Err? { return Err(applied.error); }
        }
        r := Ok(Some(resource.key));
    }
  }

  /** The pointer write of one portable event. */
  method PutEvent(storage: EventStorage, slot: nat, event: Event)
    requires storage.Valid() && slot < storage.capacity
    modifies storage.memory
    ensures EventAt(storage.layout, storage.memory[..], slot, event)
    ensures OnlyAt(old(storage.memory[..]), storage.memory[..], slot * storage.layout.eventSize,
                   storage.layout.eventSize)
  {
    Scale(slot + 1, storage.capacity, storage.layout.eventSize);
    assert (slot + 1) * storage.layout.eventSize == slot * storage.layout.eventSize + storage.layout.eventSize;
    Write(storage.memory, slot * storage.layout.eventSize, storage.layout.putEvent(event));
  }

  /** Reads record `source` and, if it resolves, writes its event. Yields the event count so far and
      whether the record was the wake source. */
  method TranslateRecord(storage: EventStorage, capacity: nat, offset: nat, source: nat, resources: nat,
                         table: RegistrationTable, flagMap: FlagMap, ghost records: seq<RawRecord>, ghost p: Progress)
    returns (r: Result<(nat, bool), Error>)
    requires storage.Valid() && table.Valid() && table.live == p.live && !p.refused
    requires storage.layout.nativeSize <= storage.layout.eventSize
    requires offset == capacity * (storage.layout.eventSize - storage.layout.nativeSize)
    requires resources == |p.events| <= source < |records| <= capacity <= storage.capacity
    requires Intact(storage.layout, storage.memory[..], offset, records, source, p.events)
    modifies storage.memory, table
    ensures table.Valid() && SameGenerations(old(table.slots), table.slots)
    ensures var q := Advanced(p, flagMap, records[source]);
            && table.live == q.live && (r.Err? <==> q.refused)
            && (r.Err? ==> r.error == Invariant)
            && (r.Ok? ==> && r.value.0 == |q.events| && (r.value.1 <==> records[source].token == 0)
                          && Intact(storage.layout, storage.memory[..], offset, records, source + 1, q.events))
  {
    assert NativeAt(storage.layout, storage.memory[..], offset, source, records[source]);
    var record := storage.layout.getNative(
      storage.memory[offset + source * storage.layout.nativeSize..offset + (source + 1) * storage.layout.nativeSize]);
    if record.token == 0 { return Ok((resources, true)); }
    var key := Classify(table, record.token);
    match key {
      case Err(e) => r := Err(e);
      case Ok(None) => r := Ok((resources, false));
      case Ok(Some(k)) =>
        ghost var bytes := storage.memory[..];
        var event := Resource(k, flagMap(record.flags));
        PutEvent(storage, resources, event);
        PutKeepsIntact(storage.layout, bytes, storage.memory[..], capacity, offset, records, source, p.events, event);
        r := Ok((resources + 1, false));
    }
  }

  method TranslateRecords(storage: EventStorage, capacity: nat, offset: nat, count: nat, table: RegistrationTable,
                          flagMap: FlagMap, ghost records: seq<RawRecord>)
    returns (r: Result<Unit, Error>, resources: nat, woke: bool)
    requires storage.Valid() && table.Valid()
    requires storage.layout.nativeSize <= storage.layout.eventSize
    requires offset == capacity * (storage.layout.eventSize - storage.layout.nativeSize)
    requires |records| == count <= capacity <= storage.capacity
    requires Intact(storage.layout, storage.memory[..], offset, records, 0, [])
    modifies storage.memory, table
    ensures table.Valid() && SameGenerations(old(table.slots), table.slots)
    ensures var p := Sequential(old(table.live), flagMap, records, count);
            && table.live == p.live && (r.Err? <==> p.refused)
            && (r.Err? ==> r.error == Invariant)
            && (r.Ok? ==> resources == |p.events| && (woke <==> Woke(records, count))
                          && Intact(storage.layout, storage.memory[..], offset, records, count, p.events))
  {
    resources, woke := 0, false;
    ghost var live := table.live;
    ghost var p := Sequential(live, flagMap, records, 0);
    for source := 0 to count
      invariant table.Valid() && SameGenerations(old(table.slots), table.slots)
      invariant p == Sequential(live, flagMap, records, source) && !p.refused && table.live == p.live
      invariant resources == |p.events| && (woke <==> Woke(records, source))
      invariant Intact(storage.layout, storage.memory[..], offset, records, source, p.events)
    {
      TranslationFits(live, flagMap, records, source);
      WokeSteps(records, source + 1);
      var step := TranslateRecord(storage, capacity, offset, source, resources, table, flagMap, records, p);
      p := Sequential(live, flagMap, records, source + 1);
      if step.Err? {
        RefusalStays(live, flagMap, records, source + 1, count);
        return Err(step.error), resources, woke;
      }
      resources, woke := step.value.0, woke || step.value.1;
    }
    r := Ok(Unit);
  }

  lemma {:induction false} WakeKeepsEvents(layout: Layout, before: seq<Byte>, after: seq<Byte>, events: seq<Event>,
                                           wake: Event)
    requires forall j | 0 <= j < |events| :: EventAt(layout, before, j, events[j])
    requires EventAt(layout, after, |events|, wake)
             && OnlyAt(before, after, |events| * layout.eventSize, layout.eventSize)
    ensures forall j | 0 <= j < |events + [wake]| :: EventAt(layout, after, j, (events + [wake])[j])
  {
    forall j | 0 <= j < |events| ensures EventAt(layout, after, j, events[j]) {
      EventKept(layout, before, after, |events|, j, events[j]);
    }
  }

  class EpollBatch {
    const layout: Layout
    const maxEvents: nat
    const capacity: nat
    const nativeOffset: nat
    var observed: nat
    var storageAddress: nat

    ghost predicate Valid() {
      && layout.Valid() && layout.nativeSize <= layout.eventSize
      && 0 < capacity == maxEvents <= C_INT_MAX
      && nativeOffset == capacity * (layout.eventSize - layout.nativeSize)
    }

    constructor (layout: Layout, capacity: nat, nativeOffset: nat)
      ensures this.layout == layout && this.capacity == capacity && maxEvents == capacity
              && this.nativeOffset == nativeOffset
      ensures storageAddress == 0
    {
      this.layout, this.capacity, maxEvents, this.nativeOffset := layout, capacity, capacity, nativeOffset;
      observed, storageAddress := 0, 0;
    }

    /** A batch exists for a positive C-int capacity whose native tail starts on an aligned address. */
    static method New(layout: Layout, capacity: nat) returns (r: Option<EpollBatch>)
      requires layout.Valid()
      ensures r.Some? <==>
                && 0 < capacity <= C_INT_MAX && layout.nativeSize <= layout.eventSize
                && layout.nativeAlign <= layout.eventAlign
                && capacity * (layout.eventSize - layout.nativeSize) <= USIZE_MAX
                && (capacity * (layout.eventSize - layout.nativeSize)) % layout.nativeAlign == 0
      ensures r.Some? ==> fresh(r.value) && r.value.Valid() && r.value.capacity == capacity && r.value.layout == layout
                          && r.value.storageAddress == 0
    {
      if capacity == 0 || capacity > C_INT_MAX { return None; }
      if layout.eventSize < layout.nativeSize || layout.eventAlign < layout.nativeAlign { return None; }
      var gap := layout.eventSize - layout.nativeSize;
      var nativeOffset := capacity * gap;
      if nativeOffset > USIZE_MAX || nativeOffset % layout.nativeAlign != 0 { return None; }
      var batch := new EpollBatch(layout, capacity, nativeOffset);
      r := Some(batch);
    }

    /** What the stamp promises of the storage it names. */
    ghost predicate Stamped(storage: EventStorage, records: seq<RawRecord>)
      reads this, storage, storage.memory
    {
      storageAddress == storage.address ==>
        |records| == observed && Intact(layout, storage.memory[..], nativeOffset, records, 0, [])
    }

    method Invalidate()
      modifies this
      ensures observed == 0 && storageAddress == 0
    {
      observed, storageAddress := 0, 0;
    }

    /** One native wait: the kernel answers with at most `maxEvents` records, which land in the tail. */
    method Wait(storage: EventStorage, native: Result<seq<RawRecord>, IoError>) returns (r: Result<nat, IoError>)
      requires Valid() && storage.Valid() && storage.layout == layout
      requires native.Ok? ==> |native.value| <= maxEvents
      modifies this, storage.memory
      ensures r == if storage.len != 0 || storage.capacity < capacity then Err(Kind(InvalidInput))
                   else match native case Ok(records) => Ok(|records|) case Err(e) => Err(e)
      ensures r.Ok? ==>
                Stamped(storage, native.value) && observed == |native.value| && storageAddress == storage.address
      ensures r.Err? ==> storageAddress == 0
    {
      Invalidate();
      if storage.len != 0 || storage.capacity < capacity { return Err(Kind(InvalidInput)); }
      if native.Err? { return Err(native.error); }
      var records := native.value;
      for k := 0 to |records|
        invariant forall j | 0 <= j < k :: NativeAt(layout, storage.memory[..], nativeOffset, j, records[j])
      {
        TailFits(capacity, storage.capacity, layout.eventSize, layout.nativeSize, k);
        ghost var before := storage.memory[..];
        Write(storage.memory, nativeOffset + k * layout.nativeSize, layout.putNative(records[k]));
        forall j | 0 <= j < k ensures NativeAt(layout, storage.memory[..], nativeOffset, j, records[j]) {
          EarlierNativeKept(layout, before, storage.memory[..], nativeOffset, j, k, records[j]);
        }
      }
      observed, storageAddress := |records|, storage.address;
      r := Ok(|records|);
    }

    /** Translates a stamped batch in place. A broken stamp is refused and touches nothing. Otherwise the
        records are taken in order: a refusal leaves the destination empty, and success fills it with
        the resources and then the wake. Either way the stamp is spent. */
    method Translate(storage: EventStorage, count: nat, wakeKey: Option<Key>, table: RegistrationTable,
                     flagMap: FlagMap, ghost records: seq<RawRecord>)
      returns (r: Result<Unit, Error>)
      requires Valid() && storage.Valid() && storage.layout == layout && table.Valid() && Stamped(storage, records)
      modifies this, storage, storage.memory, table
      ensures observed == 0 && storageAddress == 0
      ensures storage.Valid() && table.Valid() && SameGenerations(old(table.slots), table.slots)
      ensures r.Err? ==> r.error == Invariant && storage.len == old(storage.len)
      ensures var trusted := old(storageAddress) == storage.address && old(storage.len) == 0
              && capacity <= storage.capacity
                             && count == old(observed) <= capacity;
              if !trusted then
                r.Err? && storage.memory[..] == old(storage.memory[..]) && table.live == old(table.live)
              else
                var p := Sequential(old(table.live), flagMap, records, |records|);
                && (r.Err? <==> p.refused)
                && table.live == p.live
                && (r.Ok? ==> storage.Items() == Translated(p, records, wakeKey))
    {
      if storageAddress == 0 || storage.len != 0 || storage.capacity < capacity || count != observed
         || count > capacity {
        Invalidate();
        return Err(Invariant);
      }
      if storage.address != storageAddress {
        Invalidate();
        return Err(Invariant);
      }
      Invalidate();
      var translated, resources, woke :=
        TranslateRecords(storage, capacity, nativeOffset, count, table, flagMap, records);
      if translated.Err? { return translated; }
      ghost var p := Sequential(old(table.live), flagMap, records, count);
      TranslationFits(old(table.live), flagMap, records, count);
      var output := resources;
      if woke && wakeKey.Some? {
        ghost var bytes := storage.memory[..];
        PutEvent(storage, resources, Wake(wakeKey.value));
        WakeKeepsEvents(layout, bytes, storage.memory[..], p.events, Wake(wakeKey.value));
        output := resources + 1;
      }
      storage.len := output;
      ghost var items := Translated(p, records, wakeKey);
      Scale(output, storage.capacity, layout.eventSize);
      EventsReadBack(layout, storage.memory[..], items, output);
      assert items[..output] == items;
      r := Ok(Unit);
    }
  }
}
