/** Translation of one native batch: which records name which live registration, and which one-shot
    plans a delivery needs. */
module Observation {
  import opened Vocabulary
  import opened MutationMachine
  import opened Kernels
  import opened KeventBatches
  import opened Events
  import opened Pending
  import opened Recovery
  import opened Containment
  import opened Agreement

  /** The raw identity fits a descriptor number. */
  predicate Representable(event: Kevent) { 0 <= event.ident <= I32_MAX }

  predicate IsControl(event: Kevent) { event.filter == User && event.udata == 0 }

  function ReadinessOf(event: Kevent): Readiness {
    (match event.filter case Read => {Readable} case Write => {Writable} case _ => {ErrorHint})
    + (if !event.eof then {}
       else match event.filter case Read => {ReadClosed} case Write => {WriteClosed} case _ => {ErrorHint})
    + (if event.marked || (event.eof && event.fflags != 0) then {ErrorHint} else {})
  }

  /** The record as an observation of a live proven registration that still owns its descriptor. */
  function SeenOf(live: LiveMap, event: Kevent): Option<Seen> {
    var id := event.udata;
    if IsControl(event) then None
    else if id in live && live[id].state.Registered? && live[id].descriptor == event.ident then
      Some(Seen(id, live[id].key, ReadinessOf(event)))
    else None
  }

  function SeenUpTo(live: LiveMap, raw: seq<Kevent>, n: nat): seq<Seen>
    requires n <= |raw|
  {
    if n == 0 then []
    else
      var earlier := SeenUpTo(live, raw, n - 1);
      match SeenOf(live, raw[n - 1]) case None => earlier case Some(seen) => earlier + [seen]
  }

  predicate Woke(raw: seq<Kevent>, n: nat)
    requires n <= |raw|
  {
    exists i | 0 <= i < n :: IsControl(raw[i])
  }

  lemma {:induction false} SeenIsLive(live: LiveMap, raw: seq<Kevent>, n: nat, i: nat)
    requires n <= |raw| && i < |SeenUpTo(live, raw, n)|
    ensures var id := SeenUpTo(live, raw, n)[i].id; id in live && live[id].state.Registered?
    ensures exists e | 0 <= e < n :: SeenOf(live, raw[e]) == Some(SeenUpTo(live, raw, n)[i])
  {
    var earlier := SeenUpTo(live, raw, n - 1);
    if i < |earlier| {
      SeenIsLive(live, raw, n - 1, i);
      var e :| 0 <= e < n - 1 && SeenOf(live, raw[e]) == Some(earlier[i]);
    } else {
      assert SeenOf(live, raw[n - 1]) == Some(SeenUpTo(live, raw, n)[i]);
    }
  }

  /** Every retained entry was observed. */
  lemma {:induction false} EntryWasSeen(entries: seq<PendingResource>, batch: seq<Seen>, capacity: nat, k: nat)
    requires Summarizes(entries, batch, capacity) && k < |entries|
    ensures exists i | 0 <= i < |batch| :: batch[i].id == entries[k].registration
  {
    FirstSeenIsSeen(batch, entries[k].registration);
  }

  lemma {:induction false} EntriesDistinct(entries: seq<PendingResource>, batch: seq<Seen>, capacity: nat)
    requires Summarizes(entries, batch, capacity)
    ensures DistinctPending(entries)
  {
    FirstSeenDistinct(batch);
  }

  lemma {:induction false} EntriesLive(live: LiveMap, raw: seq<Kevent>, n: nat, entries: seq<PendingResource>,
                                       capacity: nat)
    requires n <= |raw| && Summarizes(entries, SeenUpTo(live, raw, n), capacity)
    ensures forall k | 0 <= k < |entries| ::
              entries[k].registration in live && live[entries[k].registration].state.Registered?
  {
    forall k | 0 <= k < |entries|
      ensures entries[k].registration in live && live[entries[k].registration].state.Registered?
    {
      EntryWasSeen(entries, SeenUpTo(live, raw, n), capacity, k);
      var i :| 0 <= i < |SeenUpTo(live, raw, n)| && SeenUpTo(live, raw, n)[i].id == entries[k].registration;
      SeenIsLive(live, raw, n, i);
    }
  }

  /** Distinct entries of live registrations in a proven state. */
  ghost predicate Collected(live: LiveMap, entries: seq<PendingResource>) {
    && DistinctPending(entries)
    && forall k | 0 <= k < |entries| ::
         entries[k].registration in live && live[entries[k].registration].state.Registered?
  }

  // ---------- Plans ----------

  /** The disarm plans for the first `n` entries. */
  function PlansFor(live: LiveMap, entries: seq<PendingResource>, n: nat): seq<Plan>
    requires n <= |entries|
  {
    if n == 0 then []
    else
      var earlier := PlansFor(live, entries, n - 1);
      var id := entries[n - 1].registration;
      if id in live && live[id].mode == OneShot then
        earlier + [Plan(id, live[id].descriptor, live[id].interest, Unknown)]
      else earlier
  }

  lemma {:induction false} PlansForOneShots(live: LiveMap, entries: seq<PendingResource>, n: nat)
    requires n <= |entries|
    ensures |PlansFor(live, entries, n)| == |OneShotIds(live, entries, n)| <= n
    ensures forall p | 0 <= p < |PlansFor(live, entries, n)| ::
              var id := OneShotIds(live, entries, n)[p];
              id in live && PlansFor(live, entries, n)[p] == Plan(id, live[id].descriptor, live[id].interest, Unknown)
  {
    if n > 0 { PlansForOneShots(live, entries, n - 1); }
  }

  lemma {:induction false} PlansForFit(live: LiveMap, entries: seq<PendingResource>, n: nat)
    requires n <= |entries| && DistinctPending(entries)
    ensures PlansFit(live, PlansFor(live, entries, n))
  {
    PlansForOneShots(live, entries, n);
    OneShotIdsDelivered(live, entries, n);
  }

  // ---------- Honest kernels ----------

  /** Every record of a descriptor filter is of a filter that is installed, enabled and tagged so. */
  predicate Honest(filters: Filters, event: Kevent) {
    && Representable(event)
    && (IsControl(event) || (event.filter in {Read, Write}
                             && Lookup(filters, Knote(event.ident, event.filter))
                                == Some(Installed(event.udata, true))))
  }

  /** In agreement, an honest record resolves to an armed registration or to none. */
  lemma {:induction false} HonestMeansArmed(live: LiveMap, filters: Filters, event: Kevent)
    requires Agrees(live, filters) && DistinctDescriptors(live) && Honest(filters, event)
    requires SeenOf(live, event).Some?
    ensures live[SeenOf(live, event).value.id].state == ARMED
  {
    var id := event.udata;
    assert EntryAgrees(filters, id, live[id]);
  }

  /** So an honest batch is always deliverable. */
  lemma {:induction false} HonestBatchDeliverable(live: LiveMap, filters: Filters, raw: seq<Kevent>,
                                                  entries: seq<PendingResource>, capacity: nat, n: nat)
    requires Agrees(live, filters) && DistinctDescriptors(live) && forall e | 0 <= e < |raw| :: Honest(filters, raw[e])
    requires Summarizes(entries, SeenUpTo(live, raw, |raw|), capacity) && n <= |entries|
    ensures Deliverable(live, entries, n)
  {
    var batch := SeenUpTo(live, raw, |raw|);
    forall k | 0 <= k < n ensures DeliverableId(live, entries[k].registration) {
      EntryWasSeen(entries, batch, capacity, k);
      var i :| 0 <= i < |batch| && batch[i].id == entries[k].registration;
      SeenIsLive(live, raw, |raw|, i);
      var e :| 0 <= e < |raw| && SeenOf(live, raw[e]) == Some(batch[i]);
      HonestMeansArmed(live, filters, raw[e]);
    }
  }
}
