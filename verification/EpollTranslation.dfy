/** What translating an epoll batch must produce, stated on values: which records become events, what
    their one-shot entries become, and exactly when translation refuses the batch. */
module EpollTranslations {
  import opened Vocabulary
  import opened Slots
  import opened MutationMachine
  import opened Events

  /** One kernel record: ready flags and the token given at registration. */
  datatype RawRecord = RawRecord(flags: U32, token: U64)

  /** The truth table from kernel flags to readiness, left uninterpreted. */
  type FlagMap = U32 -> Readiness

  /** Only a live registration in a proven state is observable. Token zero is the wake source. */
  predicate Observable(live: LiveMap, token: U64) {
    token != 0 && token in live && live[token].state.Registered?
  }

  predicate Fires(live: LiveMap, token: U64) {
    Observable(live, token) && live[token].mode == OneShot
  }

  /** A batch in progress: the events so far, the entries so far, and whether a record was refused. */
  datatype Progress = Progress(events: seq<Event>, live: LiveMap, refused: bool)

  /** One record after another, against the entries as they are by then. */
  function Advanced(p: Progress, flagMap: FlagMap, record: RawRecord): Progress {
    if p.refused || !Observable(p.live, record.token) then p
    else
      var entry := p.live[record.token];
      var event := Resource(entry.key, flagMap(record.flags));
      if entry.mode == Level then p.(events := p.events + [event])
      else if entry.state != ARMED then p.(refused := true)
      else p.(events := p.events + [event], live := p.live[record.token := entry.(state := DISARMED)])
  }

  function Sequential(live: LiveMap, flagMap: FlagMap, records: seq<RawRecord>, n: nat): Progress
    requires n <= |records|
  {
    if n == 0 then Progress([], live, false)
    else Advanced(Sequential(live, flagMap, records, n - 1), flagMap, records[n - 1])
  }

  // ---------- The independent description ----------

  /** The observable records in order, each with its registration's key, against the entries as they
      were before the batch. */
  function FilterMap(live: LiveMap, flagMap: FlagMap, records: seq<RawRecord>, n: nat): seq<Event>
    requires n <= |records|
  {
    if n == 0 then []
    else if Observable(live, records[n - 1].token)
    then FilterMap(live, flagMap, records, n - 1)
      + [Resource(live[records[n - 1].token].key, flagMap(records[n - 1].flags))]
    else FilterMap(live, flagMap, records, n - 1)
  }

  ghost predicate Seen(records: seq<RawRecord>, n: nat, id: RegistrationId)
    requires n <= |records|
  {
    exists i :: 0 <= i < n && records[i].token == id
  }

  /** The entries after the batch: every one-shot that was seen is disarmed. */
  ghost function DisarmedBy(live: LiveMap, records: seq<RawRecord>, n: nat): LiveMap
    requires n <= |records|
  {
    map id | id in live :: if Fires(live, id) && Seen(records, n, id) then live[id].(state := DISARMED) else live[id]
  }

  /** No one-shot is reported while disarmed, and none twice. */
  ghost predicate FiresOnce(live: LiveMap, records: seq<RawRecord>, n: nat)
    requires n <= |records|
  {
    && (forall i | 0 <= i < n :: Fires(live, records[i].token) ==> live[records[i].token].state == ARMED)
    && (forall i, j | 0 <= i < j < n :: Fires(live, records[j].token) ==> records[i].token != records[j].token)
  }

  /** Translation in sequence refuses a batch exactly when some one-shot was reported while disarmed or
      reported twice. Otherwise it is the filter-map over the entries before the batch, and the entries
      after it are those with every reported one-shot disarmed. */
  lemma {:induction false} SequentialIsFilterMap(live: LiveMap, flagMap: FlagMap, records: seq<RawRecord>, n: nat)
    requires n <= |records|
    ensures var p := Sequential(live, flagMap, records, n);
            && (p.refused <==> !FiresOnce(live, records, n))
            && (!p.refused ==>
                p.events == FilterMap(live, flagMap, records, n) && p.live == DisarmedBy(live, records, n))
  {
    if n == 0 {
      assert DisarmedBy(live, records, 0) == live;
    } else {
      SequentialIsFilterMap(live, flagMap, records, n - 1);
      var before := Sequential(live, flagMap, records, n - 1);
      var token := records[n - 1].token;
      if !before.refused {
        assert Observable(before.live, token) <==> Observable(live, token);
        DisarmedSteps(live, records, n);
        assert Fires(live, token) ==>
          (before.live[token].state == ARMED <==> live[token].state == ARMED && !Seen(records, n - 1, token));
        if Fires(live, token) && Seen(records, n - 1, token) {
          var i :| 0 <= i < n - 1 && records[i].token == token;
          assert !FiresOnce(live, records, n);
        }
      }
    }
  }

  lemma {:induction false} DisarmedSteps(live: LiveMap, records: seq<RawRecord>, n: nat)
    requires 0 < n <= |records|
    ensures var id := records[n - 1].token;
            DisarmedBy(live, records, n)
            == if Fires(live, id) then DisarmedBy(live, records, n - 1)[id := live[id].(state := DISARMED)]
               else DisarmedBy(live, records, n - 1)
  {
    forall id | id in live
      ensures Seen(records, n, id) <==> Seen(records, n - 1, id) || id == records[n - 1].token
    {
      if id == records[n - 1].token { assert records[n - 1].token == id; }
      if Seen(records, n - 1, id) {
        var i :| 0 <= i < n - 1 && records[i].token == id;
        assert 0 <= i < n && records[i].token == id;
      }
    }
  }

  /** The longest beginning of the batch that translation accepts. */
  ghost function AcceptedPrefix(live: LiveMap, records: seq<RawRecord>, n: nat): (m: nat)
    requires n <= |records|
    ensures m <= n && FiresOnce(live, records, m)
    ensures m < n ==> !FiresOnce(live, records, m + 1)
    ensures m == n <==> FiresOnce(live, records, n)
  {
    if n == 0 then 0
    else
      var m := AcceptedPrefix(live, records, n - 1);
      if m == n - 1 && FiresOnce(live, records, n) then n else m
  }

  /** The refusing record itself moves nothing. */
  lemma {:induction false} RefusingMovesNothing(p: Progress, flagMap: FlagMap, record: RawRecord)
    requires !p.refused
    ensures var q := Advanced(p, flagMap, record); q.refused ==> q == p.(refused := true)
  {
  }

  /** A refused batch leaves its accepted beginning disarmed, and nothing else moved. */
  lemma {:induction false} RefusalKeepsPrefix(live: LiveMap, flagMap: FlagMap, records: seq<RawRecord>, n: nat)
    requires n <= |records| && !FiresOnce(live, records, n)
    ensures Sequential(live, flagMap, records, n).live == DisarmedBy(live, records, AcceptedPrefix(live, records, n))
  {
    var m := AcceptedPrefix(live, records, n);
    SequentialIsFilterMap(live, flagMap, records, m);
    SequentialIsFilterMap(live, flagMap, records, m + 1);
    RefusingMovesNothing(Sequential(live, flagMap, records, m), flagMap, records[m]);
    RefusalStays(live, flagMap, records, m + 1, n);
  }

  /** Disarming what the first `n` records fire changes nothing exactly when they fire nothing. */
  lemma {:induction false} NothingDisarmed(live: LiveMap, records: seq<RawRecord>, n: nat)
    requires n <= |records| && FiresOnce(live, records, n)
    ensures DisarmedBy(live, records, n) == live <==> forall i | 0 <= i < n :: !Fires(live, records[i].token)
  {
    var later := DisarmedBy(live, records, n);
    forall i | 0 <= i < n && Fires(live, records[i].token) ensures later != live {
      var id := records[i].token;
      assert Seen(records, n, id);
      assert live[id].state == ARMED && later[id].state == DISARMED;
    }
    if forall i | 0 <= i < n :: !Fires(live, records[i].token) {
      forall id | id in live ensures later[id] == live[id] {
        if Fires(live, id) { assert !Seen(records, n, id); }
      }
    }
  }

  /** So a refusal need not be harmless: an armed one-shot reported before a disarmed one is disarmed, and
      neither is delivered. */
  lemma {:induction false} RefusalDisarms(live: LiveMap, flagMap: FlagMap, a: RawRecord, b: RawRecord)
    requires Fires(live, a.token) && live[a.token].state == ARMED
    requires Fires(live, b.token) && live[b.token].state == DISARMED
    ensures Sequential(live, flagMap, [a, b], 2).refused
    ensures Sequential(live, flagMap, [a, b], 2).live == live[a.token := live[a.token].(state := DISARMED)] != live
  {
    var start := Sequential(live, flagMap, [a, b], 0);
    var first := Sequential(live, flagMap, [a, b], 1);
    assert first == Advanced(start, flagMap, [a, b][0]);
    assert Sequential(live, flagMap, [a, b], 2) == Advanced(first, flagMap, [a, b][1]);
    assert live[a.token := live[a.token].(state := DISARMED)][a.token] != live[a.token];
  }

  /** Such a batch exists: one-shot 1 is armed, one-shot 2 is not, and the kernel reports both. */
  lemma {:induction false} RefusalHappens(flagMap: FlagMap)
    ensures var live := map[1 := Entry(3, 0, READABLE, OneShot, ARMED), 2 := Entry(4, 0, READABLE, OneShot, DISARMED)];
            var records := [RawRecord(1, 1), RawRecord(1, 2)];
            && !FiresOnce(live, records, 2)
            && Sequential(live, flagMap, records, 2).live == live[1 := live[1].(state := DISARMED)] != live
  {
    var live := map[1 := Entry(3, 0, READABLE, OneShot, ARMED), 2 := Entry(4, 0, READABLE, OneShot, DISARMED)];
    RefusalDisarms(live, flagMap, RawRecord(1, 1), RawRecord(1, 2));
    SequentialIsFilterMap(live, flagMap, [RawRecord(1, 1), RawRecord(1, 2)], 2);
  }

  /** The wake source was reported. */
  ghost predicate Woke(records: seq<RawRecord>, n: nat)
    requires n <= |records|
  {
    exists i :: 0 <= i < n && records[i].token == 0
  }

  /** The events of a whole batch: the resources, then the wake if a key was configured for it. */
  ghost function Translated(p: Progress, records: seq<RawRecord>, wakeKey: Option<Key>): seq<Event> {
    p.events + if Woke(records, |records|) && wakeKey.Some? then [Wake(wakeKey.value)] else []
  }

  /** There is at most one event for each record, the wake included. */
  lemma {:induction false} TranslationFits(live: LiveMap, flagMap: FlagMap, records: seq<RawRecord>, n: nat)
    requires n <= |records|
    ensures |Sequential(live, flagMap, records, n).events| + (if Woke(records, n) then 1 else 0) <= n
  {
    if n > 0 {
      TranslationFits(live, flagMap, records, n - 1);
      if Woke(records, n) && records[n - 1].token != 0 {
        var i :| 0 <= i < n && records[i].token == 0;
        assert Woke(records, n - 1);
      }
    }
  }

  lemma {:induction false} WokeSteps(records: seq<RawRecord>, n: nat)
    requires 0 < n <= |records|
    ensures Woke(records, n) <==> Woke(records, n - 1) || records[n - 1].token == 0
  {
    if Woke(records, n - 1) {
      var i :| 0 <= i < n - 1 && records[i].token == 0;
      assert 0 <= i < n && records[i].token == 0;
    }
  }

  /** A refusal ends the batch: the records after it change nothing. */
  lemma {:induction false} RefusalStays(live: LiveMap, flagMap: FlagMap, records: seq<RawRecord>, m: nat, n: nat)
    requires m <= n <= |records| && Sequential(live, flagMap, records, m).refused
    ensures Sequential(live, flagMap, records, n) == Sequential(live, flagMap, records, m)
  {
    if m < n { RefusalStays(live, flagMap, records, m, n - 1); }
  }

  // ---------- Translation, told on the records, the entries and the events alone ----------

  /** How many of the first `n` records carry the token of a live registration in a proven state. */
  function Named(live: LiveMap, records: seq<RawRecord>, n: nat): nat
    requires n <= |records|
  {
    if n == 0 then 0
    else
      var token := records[n - 1].token;
      Named(live, records, n - 1) + if token in live && live[token].state.Registered? then 1 else 0
  }

  /** Every record of a live registration in a proven state, level or one-shot, has its event, at the place that
      counts the earlier such records; then comes the wake, if one was reported and has a key; and nothing else. */
  ghost predicate HandsOver(live: LiveMap, flagMap: FlagMap, records: seq<RawRecord>, wakeKey: Option<Key>,
                            items: seq<Event>)
  {
    var m := Named(live, records, |records|);
    var wakes := (exists i | 0 <= i < |records| :: records[i].token == 0) && wakeKey.Some?;
    && |items| == m + (if wakes then 1 else 0)
    && (forall i | 0 <= i < |records| && records[i].token in live && live[records[i].token].state.Registered? ::
          Named(live, records, i) < m
          && items[Named(live, records, i)] == Resource(live[records[i].token].key, flagMap(records[i].flags)))
    && (wakes ==> items[m] == Wake(wakeKey.value))
  }

  /** The first `n` records report no one-shot while it is disarmed, and none twice. */
  ghost predicate Accepts(live: LiveMap, records: seq<RawRecord>, n: nat)
    requires n <= |records|
  {
    forall j | 0 <= j < n && records[j].token in live && live[records[j].token].state.Registered?
               && live[records[j].token].mode == OneShot ::
      live[records[j].token].state == ARMED && forall i | 0 <= i < j :: records[i].token != records[j].token
  }

  /** Exactly the one-shots that the first `n` records report are disarmed. */
  ghost predicate DisarmsReported(live: LiveMap, later: LiveMap, records: seq<RawRecord>, n: nat)
    requires n <= |records|
  {
    && later.Keys == live.Keys
    && forall id | id in live ::
         if live[id].state.Registered? && live[id].mode == OneShot && exists i | 0 <= i < n :: records[i].token == id
         then later[id] == live[id].(state := Registered(Disarmed))
         else later[id] == live[id]
  }

  /** One batch: accepted exactly if it reports no one-shot wrongly. Then every event is handed over and every
      reported one-shot disarmed; otherwise the one-shots before the offending record are disarmed. */
  ghost predicate BatchAccount(live: LiveMap, later: LiveMap, flagMap: FlagMap, records: seq<RawRecord>,
                               wakeKey: Option<Key>, accepted: bool, items: seq<Event>)
  {
    && (accepted <==> Accepts(live, records, |records|))
    && if accepted then
         HandsOver(live, flagMap, records, wakeKey, items) && DisarmsReported(live, later, records, |records|)
       else
         exists m | 0 <= m < |records| ::
           Accepts(live, records, m) && !Accepts(live, records, m + 1) && DisarmsReported(live, later, records, m)
  }

  lemma {:induction false} FilterMapCounts(live: LiveMap, flagMap: FlagMap, records: seq<RawRecord>, n: nat)
    requires n <= |records| && 0 !in live
    ensures |FilterMap(live, flagMap, records, n)| == Named(live, records, n)
  {
    if n > 0 { FilterMapCounts(live, flagMap, records, n - 1); }
  }

  /** Record `i` has its event at the place that counts the records before it. */
  lemma {:induction false} FilterMapAt(live: LiveMap, flagMap: FlagMap, records: seq<RawRecord>, n: nat, i: nat)
    requires i < n <= |records| && 0 !in live
    requires records[i].token in live && live[records[i].token].state.Registered?
    ensures Named(live, records, i) < |FilterMap(live, flagMap, records, n)| == Named(live, records, n)
    ensures FilterMap(live, flagMap, records, n)[Named(live, records, i)]
            == Resource(live[records[i].token].key, flagMap(records[i].flags))
  {
    FilterMapCounts(live, flagMap, records, n - 1);
    FilterMapCounts(live, flagMap, records, n);
    if i < n - 1 { FilterMapAt(live, flagMap, records, n - 1, i); }
  }

  lemma {:induction false} FiringOnceIsAccepted(live: LiveMap, records: seq<RawRecord>, n: nat)
    requires n <= |records| && 0 !in live
    ensures FiresOnce(live, records, n) <==> Accepts(live, records, n)
  {
    if FiresOnce(live, records, n) {
      forall j | 0 <= j < n && records[j].token in live && live[records[j].token].state.Registered?
                 && live[records[j].token].mode == OneShot
        ensures live[records[j].token].state == ARMED && forall i | 0 <= i < j :: records[i].token != records[j].token
      {
        assert Fires(live, records[j].token);
      }
    }
    if Accepts(live, records, n) {
      forall j | 0 <= j < n && Fires(live, records[j].token)
        ensures live[records[j].token].state == ARMED && forall i | 0 <= i < j :: records[i].token != records[j].token
      {
      }
    }
  }

  lemma {:induction false} DisarmedIsReported(live: LiveMap, records: seq<RawRecord>, n: nat)
    requires n <= |records| && 0 !in live
    ensures DisarmsReported(live, DisarmedBy(live, records, n), records, n)
  {
    forall id | id in live
      ensures Seen(records, n, id) <==> exists i | 0 <= i < n :: records[i].token == id
    {
      if i :| 0 <= i < n && records[i].token == id {
        assert 0 <= i < n && records[i].token == id;
      }
    }
  }

  /** The account of a batch, from what translation computes. */
  lemma {:induction false} TranslationAccount(live: LiveMap, later: LiveMap, flagMap: FlagMap, records: seq<RawRecord>,
                                              wakeKey: Option<Key>, accepted: bool, items: seq<Event>)
    requires 0 !in live && (accepted <==> FiresOnce(live, records, |records|))
    requires accepted ==>
               && items == FilterMap(live, flagMap, records, |records|)
                           + (if Woke(records, |records|) && wakeKey.Some? then [Event.Wake(wakeKey.value)] else [])
               && later == DisarmedBy(live, records, |records|)
    requires !accepted ==> later == DisarmedBy(live, records, AcceptedPrefix(live, records, |records|))
    ensures BatchAccount(live, later, flagMap, records, wakeKey, accepted, items)
  {
    FiringOnceIsAccepted(live, records, |records|);
    if accepted {
      FilterMapCounts(live, flagMap, records, |records|);
      forall i | 0 <= i < |records| && records[i].token in live && live[records[i].token].state.Registered?
        ensures Named(live, records, i) < Named(live, records, |records|)
        ensures items[Named(live, records, i)] == Resource(live[records[i].token].key, flagMap(records[i].flags))
      {
        FilterMapAt(live, flagMap, records, |records|, i);
      }
      DisarmedIsReported(live, records, |records|);
      assert Woke(records, |records|) <==> exists i | 0 <= i < |records| :: records[i].token == 0;
    } else {
      var m := AcceptedPrefix(live, records, |records|);
      FiringOnceIsAccepted(live, records, m);
      FiringOnceIsAccepted(live, records, m + 1);
      DisarmedIsReported(live, records, m);
    }
  }
}
