/** What one delivering kqueue wait did, told on the native records, the receipts and the delivered events
    alone. */
module WaitAccounts {
  import opened Vocabulary
  import opened MutationMachine
  import opened Kernels
  import opened KeventBatches
  import opened DisarmBatches
  import opened Events
  import opened Pending
  import opened Recovery
  import opened Containment
  import opened Agreement
  import opened Observation

  // ---------- Coalescing ----------

  /** The record is no wake and names this live registration in a proven state, by token and by descriptor. */
  predicate Observes(live: LiveMap, event: Kevent, id: RegistrationId) {
    && !(event.filter == User && event.udata == 0)
    && event.udata == id && id in live && live[id].state.Registered? && live[id].descriptor == event.ident
  }

  /** One of the first `n` records is about `id`. */
  ghost predicate ObservedBy(live: LiveMap, native: seq<Kevent>, n: nat, id: RegistrationId)
    requires n <= |native|
  {
    exists i | 0 <= i < n :: Observes(live, native[i], id)
  }

  ghost predicate HintedBy(live: LiveMap, native: seq<Kevent>, n: nat, id: RegistrationId, hint: Hint)
    requires n <= |native|
  {
    exists i | 0 <= i < n :: Observes(live, native[i], id) && hint in ReadinessOf(native[i])
  }

  predicate Retained(entries: seq<PendingResource>, id: RegistrationId) {
    exists k | 0 <= k < |entries| :: entries[k].registration == id
  }

  /** There is one entry for each observed registration, with its key and the union of the hints of all its
      records, in the order of the first records. A registration is left out only when the room is used up by
      registrations observed before it. */
  ghost predicate Coalesces(live: LiveMap, native: seq<Kevent>, capacity: nat, entries: seq<PendingResource>) {
    && |entries| <= capacity
    && (forall k, l | 0 <= k < l < |entries| :: entries[k].registration != entries[l].registration)
    && (forall k | 0 <= k < |entries| :: Accounts(live, native, entries[k]))
    && (forall k, l, j | 0 <= k < l < |entries| && 0 <= j < |native|
                         && Observes(live, native[j], entries[l].registration) ::
          ObservedBy(live, native, j, entries[k].registration))
    && (forall j, id: RegistrationId | 0 <= j < |native| && Observes(live, native[j], id) && !Retained(entries, id) ::
          |entries| == capacity
          && forall k | 0 <= k < |entries| :: ObservedBy(live, native, j, entries[k].registration))
  }

  /** The entry is of a live registration that was observed, and gathers exactly its hints. */
  ghost predicate Accounts(live: LiveMap, native: seq<Kevent>, entry: PendingResource) {
    && ObservedBy(live, native, |native|, entry.registration)
    && entry.registration in live && live[entry.registration].key == entry.key
    && forall hint: Hint :: hint in entry.readiness <==> HintedBy(live, native, |native|, entry.registration, hint)
  }

  lemma {:induction false} SeenStep(live: LiveMap, native: seq<Kevent>, n: nat)
    requires 0 < n <= |native|
    ensures SeenUpTo(live, native, n)
            == SeenUpTo(live, native, n - 1)
               + if SeenOf(live, native[n - 1]).Some? then [SeenOf(live, native[n - 1]).value] else []
    ensures var seen := SeenOf(live, native[n - 1]);
            && (seen.Some? <==> Observes(live, native[n - 1], native[n - 1].udata))
            && (seen.Some? ==> var id := native[n - 1].udata;
                               seen.value == Seen(id, live[id].key, ReadinessOf(native[n - 1])))
  {
  }

  /** The observed registrations, in the order of their first records. */
  function OrderOf(live: LiveMap, native: seq<Kevent>, n: nat): seq<RegistrationId>
    requires n <= |native|
  {
    if n == 0 then []
    else
      var earlier, id := OrderOf(live, native, n - 1), native[n - 1].udata;
      if Observes(live, native[n - 1], id) && id !in earlier then earlier + [id] else earlier
  }

  lemma {:induction false} OrderIsFirstSeen(live: LiveMap, native: seq<Kevent>, n: nat)
    requires n <= |native|
    ensures FirstSeen(SeenUpTo(live, native, n)) == OrderOf(live, native, n)
  {
    if n > 0 {
      OrderIsFirstSeen(live, native, n - 1);
      SeenStep(live, native, n);
      if SeenOf(live, native[n - 1]).Some? {
        BatchExtend(SeenUpTo(live, native, n - 1), SeenOf(live, native[n - 1]).value);
      }
    }
  }

  lemma {:induction false} OrderHolds(live: LiveMap, native: seq<Kevent>, n: nat, id: RegistrationId)
    requires n <= |native|
    ensures id in OrderOf(live, native, n) <==> ObservedBy(live, native, n, id)
  {
    if n > 0 {
      OrderHolds(live, native, n - 1, id);
      if ObservedBy(live, native, n - 1, id) {
        var i :| 0 <= i < n - 1 && Observes(live, native[i], id);
        assert ObservedBy(live, native, n, id);
      }
    }
  }

  lemma {:induction false} OrderDistinct(live: LiveMap, native: seq<Kevent>, n: nat)
    requires n <= |native|
    ensures forall a, b | 0 <= a < b < |OrderOf(live, native, n)| ::
              OrderOf(live, native, n)[a] != OrderOf(live, native, n)[b]
  {
    if n > 0 { OrderDistinct(live, native, n - 1); }
  }

  /** More records only add to the end of the order. */
  lemma {:induction false} OrderGrows(live: LiveMap, native: seq<Kevent>, j: nat, n: nat)
    requires j <= n <= |native|
    ensures OrderOf(live, native, j) <= OrderOf(live, native, n)
    decreases n - j
  {
    if j < n { OrderGrows(live, native, j, n - 1); }
  }

  /** What comes earlier in the order was observed before every record of what comes later. */
  lemma {:induction false} ObservedInOrder(live: LiveMap, native: seq<Kevent>, k: nat, l: nat, j: nat)
    requires j < |native| && k < l < |OrderOf(live, native, |native|)|
    requires Observes(live, native[j], OrderOf(live, native, |native|)[l])
    ensures ObservedBy(live, native, j, OrderOf(live, native, |native|)[k])
  {
    var early, late := OrderOf(live, native, |native|)[k], OrderOf(live, native, |native|)[l];
    OrderDistinct(live, native, |native|);
    OrderGrows(live, native, j, |native|);
    OrderGrows(live, native, j + 1, |native|);
    assert ObservedBy(live, native, j + 1, late);
    OrderHolds(live, native, j + 1, late);
    PrefixReaches(OrderOf(live, native, j), OrderOf(live, native, j + 1), OrderOf(live, native, |native|), k, l);
    OrderHolds(live, native, j, early);
  }

  /** A prefix that holds a later element, and one shorter by at most one, holds every earlier one. */
  lemma {:induction false} PrefixReaches(shorter: seq<RegistrationId>, longer: seq<RegistrationId>,
                                         all: seq<RegistrationId>, k: nat, l: nat)
    requires shorter <= all && longer <= all && |longer| <= |shorter| + 1 && k < l < |all| && all[l] in longer
    requires forall a, b | 0 <= a < b < |all| :: all[a] != all[b]
    ensures all[k] in shorter
  {
    var m :| 0 <= m < |longer| && longer[m] == all[l];
    assert all[m] == longer[m];
    assert m == l;
    assert shorter[k] == all[k];
  }

  lemma {:induction false} SeenHints(live: LiveMap, native: seq<Kevent>, n: nat, id: RegistrationId, hint: Hint)
    requires n <= |native|
    ensures hint in HintsOf(SeenUpTo(live, native, n), id) <==> HintedBy(live, native, n, id, hint)
  {
    if n > 0 {
      SeenHints(live, native, n - 1, id, hint);
      SeenStep(live, native, n);
      if SeenOf(live, native[n - 1]).Some? {
        HintsExtend(SeenUpTo(live, native, n - 1), SeenOf(live, native[n - 1]).value, id);
      }
      if HintedBy(live, native, n - 1, id, hint) {
        var i :| 0 <= i < n - 1 && Observes(live, native[i], id) && hint in ReadinessOf(native[i]);
        assert HintedBy(live, native, n, id, hint);
      }
    }
  }

  lemma {:induction false} SeenKeys(live: LiveMap, native: seq<Kevent>, n: nat, id: RegistrationId)
    requires n <= |native| && KeyOf(SeenUpTo(live, native, n), id).Some?
    ensures id in live && KeyOf(SeenUpTo(live, native, n), id) == Some(live[id].key)
  {
    if n > 0 {
      SeenStep(live, native, n);
      if SeenOf(live, native[n - 1]).Some? {
        BatchExtend(SeenUpTo(live, native, n - 1), SeenOf(live, native[n - 1]).value);
      }
      if KeyOf(SeenUpTo(live, native, n - 1), id).Some? { SeenKeys(live, native, n - 1, id); }
    }
  }

  /** The summary of a batch is its coalescing. */
  lemma {:induction false} SummaryCoalesces(live: LiveMap, native: seq<Kevent>, capacity: nat,
                                            entries: seq<PendingResource>)
    requires Summarizes(entries, SeenUpTo(live, native, |native|), capacity)
    ensures Coalesces(live, native, capacity, entries)
  {
    var batch := SeenUpTo(live, native, |native|);
    var seen := OrderOf(live, native, |native|);
    OrderIsFirstSeen(live, native, |native|);
    OrderDistinct(live, native, |native|);
    forall k | 0 <= k < |entries| ensures Accounts(live, native, entries[k]) {
      EntryAccounts(live, native, capacity, entries, k);
    }
    forall k, l, j | 0 <= k < l < |entries| && 0 <= j < |native| && Observes(live, native[j], entries[l].registration)
      ensures ObservedBy(live, native, j, entries[k].registration)
    {
      ObservedInOrder(live, native, k, l, j);
    }
    forall j, id: RegistrationId | 0 <= j < |native| && Observes(live, native[j], id) && !Retained(entries, id)
      ensures |entries| == capacity && forall k | 0 <= k < |entries| ::
                ObservedBy(live, native, j, entries[k].registration)
    {
      assert ObservedBy(live, native, |native|, id);
      OrderHolds(live, native, |native|, id);
      var l :| 0 <= l < |seen| && seen[l] == id;
      assert l >= |entries|;
      forall k | 0 <= k < |entries| ensures ObservedBy(live, native, j, entries[k].registration) {
        ObservedInOrder(live, native, k, l, j);
      }
    }
  }

  lemma {:induction false} EntryAccounts(live: LiveMap, native: seq<Kevent>, capacity: nat,
                                         entries: seq<PendingResource>, k: nat)
    requires Summarizes(entries, SeenUpTo(live, native, |native|), capacity) && k < |entries|
    ensures Accounts(live, native, entries[k])
  {
    var id := entries[k].registration;
    OrderIsFirstSeen(live, native, |native|);
    assert id == OrderOf(live, native, |native|)[k];
    OrderHolds(live, native, |native|, id);
    SeenKeys(live, native, |native|, id);
    forall hint: Hint ensures hint in entries[k].readiness <==> HintedBy(live, native, |native|, id, hint) {
      SeenHints(live, native, |native|, id, hint);
    }
  }

  // ---------- What is handed over ----------

  /** The events are one for each of the first entries and then the wake, if one was reported and has a key. An
      entry is left out only when the destination is full beside a reported wake, which takes a place whether
      or not it has a key. */
  ghost predicate HandsOver(native: seq<Kevent>, capacity: nat, wakeKey: Option<Key>, entries: seq<PendingResource>,
                            items: seq<Event>, n: nat)
  {
    var woke := exists i | 0 <= i < |native| :: native[i].filter == User && native[i].udata == 0;
    var place := if woke then 1 else 0;
    && n <= |entries| && n + place <= capacity && (n == |entries| || n + place == capacity)
    && |items| == n + (if woke && wakeKey.Some? then 1 else 0)
    && (forall k | 0 <= k < n :: items[k] == Resource(entries[k].key, entries[k].readiness))
    && (woke && wakeKey.Some? ==> items[n] == Wake(wakeKey.value))
  }

  /** Exactly the one-shots among the first `n` entries have an outcome, and each of them was armed. */
  ghost predicate ReportsOneShots(live: LiveMap, entries: seq<PendingResource>, n: nat, outcomes: seq<RecoveryOutcome>)
    requires n <= |entries|
  {
    && (forall k | 0 <= k < n :: entries[k].registration in live)
    && (forall k | 0 <= k < n && live[entries[k].registration].mode == OneShot ::
          live[entries[k].registration].state == ARMED && Reported(outcomes, entries[k].registration))
    && (forall a | 0 <= a < |outcomes| ::
          exists k | 0 <= k < n ::
            entries[k].registration == outcomes[a].registration && live[entries[k].registration].mode == OneShot)
  }

  /** Outcomes come in the order of their entries, one for each. */
  ghost predicate InEntryOrder(entries: seq<PendingResource>, n: nat, outcomes: seq<RecoveryOutcome>)
    requires n <= |entries|
  {
    forall a, b, k, l | 0 <= a < b < |outcomes| && 0 <= k < n && 0 <= l < n
                        && entries[k].registration == outcomes[a].registration
                        && entries[l].registration == outcomes[b].registration :: k < l
  }

  /** Each reported registration moves to the state that its commit leaves, and nothing else in the table moves. */
  ghost predicate MovesReported(live: LiveMap, later: LiveMap, outcomes: seq<RecoveryOutcome>) {
    && later.Keys == live.Keys
    && (forall a | 0 <= a < |outcomes| && outcomes[a].registration in live ::
          later[outcomes[a].registration] == live[outcomes[a].registration].(state := StateOf(outcomes[a].commit)))
    && (forall id | id in live && !Reported(outcomes, id) :: later[id] == live[id])
  }

  predicate Reported(outcomes: seq<RecoveryOutcome>, id: RegistrationId) {
    exists a | 0 <= a < |outcomes| :: outcomes[a].registration == id
  }

  /** A disarm that was made leaves the one-shot disarmed, one that was not leaves it armed. */
  function StateOf(commit: CommitStatus): RegistrationState {
    match commit case Applied => Registered(Disarmed) case NotApplied => Registered(Armed) case Unknown => Uncertain
  }

  lemma {:induction false} OneShotOrder(live: LiveMap, entries: seq<PendingResource>, n: nat, a: nat, b: nat, k: nat,
                                        l: nat)
    requires n <= |entries| && DistinctPending(entries) && a < b < |OneShotIds(live, entries, n)| && k < n && l < n
    requires entries[k].registration == OneShotIds(live, entries, n)[a]
    requires entries[l].registration == OneShotIds(live, entries, n)[b]
    ensures k < l
  {
    var earlier := OneShotIds(live, entries, n - 1);
    OneShotIdsDelivered(live, entries, n - 1);
    assert earlier[a] in earlier;
    assert k < n - 1;
    if b < |earlier| {
      assert earlier[b] in earlier;
      OneShotOrder(live, entries, n - 1, a, b, k, l);
    }
  }

  lemma {:induction false} OutcomesReport(live: LiveMap, entries: seq<PendingResource>, n: nat,
                                          outcomes: seq<RecoveryOutcome>)
    requires n <= |entries| && Deliverable(live, entries, n) && OutcomesFor(outcomes, OneShotIds(live, entries, n))
    ensures ReportsOneShots(live, entries, n, outcomes)
  {
    var ids := OneShotIds(live, entries, n);
    OneShotIdsDelivered(live, entries, n);
    forall k | 0 <= k < n
      ensures entries[k].registration in live
      ensures live[entries[k].registration].mode == OneShot ==>
                live[entries[k].registration].state == ARMED && Reported(outcomes, entries[k].registration)
    {
      assert DeliverableId(live, entries[k].registration);
      if live[entries[k].registration].mode == OneShot {
        var a :| 0 <= a < |ids| && ids[a] == entries[k].registration;
        assert outcomes[a].registration == entries[k].registration;
      }
    }
    forall a | 0 <= a < |outcomes|
      ensures exists k | 0 <= k < n ::
                entries[k].registration == outcomes[a].registration && live[entries[k].registration].mode == OneShot
    {
      assert ids[a] in ids;
    }
  }

  lemma {:induction false} OutcomesInOrder(live: LiveMap, entries: seq<PendingResource>, n: nat,
                                           outcomes: seq<RecoveryOutcome>)
    requires n <= |entries| && DistinctPending(entries) && OutcomesFor(outcomes, OneShotIds(live, entries, n))
    ensures InEntryOrder(entries, n, outcomes)
  {
    forall a, b, k, l | 0 <= a < b < |outcomes| && 0 <= k < n && 0 <= l < n
                        && entries[k].registration == outcomes[a].registration
                        && entries[l].registration == outcomes[b].registration
      ensures k < l
    {
      OneShotOrder(live, entries, n, a, b, k, l);
    }
  }

  lemma {:induction false} OutcomesMove(live: LiveMap, outcomes: seq<RecoveryOutcome>)
    requires DistinctOutcomes(outcomes)
    ensures MovesReported(live, ApplyOutcomes(live, outcomes, |outcomes|), outcomes)
  {
    OutcomesApplied(live, outcomes, |outcomes|);
    forall id | id in live && !Reported(outcomes, id)
      ensures ApplyOutcomes(live, outcomes, |outcomes|)[id] == live[id]
    {
      assert forall a | 0 <= a < |outcomes| :: outcomes[a].registration != id;
    }
  }

  /** A delivering wait, told on what went in and what came out. */
  ghost predicate WaitAccount(live: LiveMap, later: LiveMap, native: seq<Kevent>, capacity: nat, wakeKey: Option<Key>,
                              entries: seq<PendingResource>, outcomes: seq<RecoveryOutcome>, items: seq<Event>)
  {
    && (forall i | 0 <= i < |native| :: 0 <= native[i].ident <= I32_MAX)
    && Coalesces(live, native, capacity, entries)
    && exists n ::
         && HandsOver(native, capacity, wakeKey, entries, items, n)
         && ReportsOneShots(live, entries, n, outcomes) && InEntryOrder(entries, n, outcomes)
         && MovesReported(live, later, outcomes)
  }

  // ---------- What was asked of the kernel, and what its receipts prove ----------

  /** The changes are exactly the disables of the reported one-shots' own filters. */
  ghost predicate AsksDisarms(live: LiveMap, outcomes: seq<RecoveryOutcome>, changes: seq<Change>) {
    forall change: Change :: change in changes <==> Asked(live, outcomes, change)
  }

  ghost predicate Asked(live: LiveMap, outcomes: seq<RecoveryOutcome>, change: Change) {
    exists a | 0 <= a < |outcomes| :: AsksFor(live, outcomes[a].registration, change)
  }

  predicate AsksFor(live: LiveMap, id: RegistrationId, change: Change) {
    && id in live && change == Change(live[id].descriptor, change.filter, Disable, 0)
    && ((change.filter == Read && live[id].interest.readable) || (change.filter == Write && live[id].interest.writable))
  }

  /** The commit is what the receipts of the registration's own changes prove: applied if each is cleared, not
      applied if each is denied, and otherwise unknown. */
  ghost predicate ProvedFor(live: LiveMap, submission: Submission, outcome: RecoveryOutcome) {
    outcome.registration in live
    && var d := live[outcome.registration].descriptor;
       match outcome.commit
       case Applied =>
         forall i | 0 <= i < |submission.changes| && submission.changes[i].ident == d :: Cleared(submission, i)
       case NotApplied =>
         && (exists i | 0 <= i < |submission.changes| && submission.changes[i].ident == d :: !Cleared(submission, i))
         && forall i | 0 <= i < |submission.changes| && submission.changes[i].ident == d :: Denied(submission, i)
       case Unknown =>
         && (exists i | 0 <= i < |submission.changes| && submission.changes[i].ident == d :: !Cleared(submission, i))
         && exists i | 0 <= i < |submission.changes| && submission.changes[i].ident == d :: !Denied(submission, i)
  }

  /** Nothing is submitted without a one-shot to deliver. Otherwise one submission asked for every disarm, each
      outcome has the commit its receipts prove, and the error is the first that they show. */
  ghost predicate DisarmsTold(live: LiveMap, before: seq<Submission>, after: seq<Submission>,
                              outcomes: seq<RecoveryOutcome>, source: Option<IoError>)
  {
    if outcomes == [] then after == before && source == None
    else
      && |after| == |before| + 1 && after[..|before|] == before
      && var submission := after[|before|];
         && AsksDisarms(live, outcomes, submission.changes)
         && (forall a | 0 <= a < |outcomes| :: ProvedFor(live, submission, outcomes[a]))
         && FailsFirst(submission, match source case None => Ok(Unit) case Some(error) => Err(error))
  }

  /** One of the first `n` entries is a one-shot that this change disarms. */
  predicate DisarmsEntry(live: LiveMap, entries: seq<PendingResource>, n: nat, change: Change)
    requires n <= |entries|
  {
    exists k | 0 <= k < n ::
      && AsksFor(live, entries[k].registration, change) && live[entries[k].registration].mode == OneShot
  }

  /** Exactly the disarms of the one-shots among the first `n` entries were submitted, armed or not, in one
      submission if there is any. */
  ghost predicate SubmitsDisarms(live: LiveMap, entries: seq<PendingResource>, n: nat, before: seq<Submission>,
                                 after: seq<Submission>)
    requires n <= |entries|
  {
    || (after == before && forall change: Change :: !DisarmsEntry(live, entries, n, change))
    || (|after| == |before| + 1 && after[..|before|] == before
        && forall change: Change :: change in after[|before|].changes <==> DisarmsEntry(live, entries, n, change))
  }

  /** The entry that plan `p` disarms. */
  lemma {:induction false} EntryOfPlan(live: LiveMap, entries: seq<PendingResource>, n: nat, p: nat) returns (k: nat)
    requires n <= |entries| && p < |PlansFor(live, entries, n)|
    ensures k < n && entries[k].registration in live && live[entries[k].registration].mode == OneShot
    ensures var e := live[entries[k].registration];
            PlansFor(live, entries, n)[p] == Plan(entries[k].registration, e.descriptor, e.interest, Unknown)
  {
    if p < |PlansFor(live, entries, n - 1)| { k := EntryOfPlan(live, entries, n - 1, p); } else { k := n - 1; }
  }

  /** The plan that disarms entry `k`. */
  lemma {:induction false} PlanOfEntry(live: LiveMap, entries: seq<PendingResource>, n: nat, k: nat) returns (p: nat)
    requires k < n <= |entries| && entries[k].registration in live && live[entries[k].registration].mode == OneShot
    ensures p < |PlansFor(live, entries, n)|
    ensures var e := live[entries[k].registration];
            PlansFor(live, entries, n)[p] == Plan(entries[k].registration, e.descriptor, e.interest, Unknown)
  {
    if k < n - 1 { p := PlanOfEntry(live, entries, n - 1, k); } else { p := |PlansFor(live, entries, n - 1)|; }
  }

  lemma {:induction false} SubmittedDisarms(live: LiveMap, entries: seq<PendingResource>, n: nat, change: Change)
    requires n <= |entries| && change in Flatten(PlansFor(live, entries, n))
    ensures DisarmsEntry(live, entries, n, change)
  {
    var plans := PlansFor(live, entries, n);
    var i :| 0 <= i < |Flatten(plans)| && Flatten(plans)[i] == change;
    var p := ChangeOwner(plans, i);
    var k := EntryOfPlan(live, entries, n, p);
    assert AsksFor(live, entries[k].registration, change);
  }

  lemma {:induction false} DisarmIsSubmitted(live: LiveMap, entries: seq<PendingResource>, n: nat, change: Change)
    requires n <= |entries| && DisarmsEntry(live, entries, n, change)
    ensures change in Flatten(PlansFor(live, entries, n))
  {
    var k :| 0 <= k < n && AsksFor(live, entries[k].registration, change)
             && live[entries[k].registration].mode == OneShot;
    var p := PlanOfEntry(live, entries, n, k);
    ChangeIndexHolds(PlansFor(live, entries, n), p, change.filter);
  }

  lemma {:induction false} PlansSubmitDisarms(live: LiveMap, entries: seq<PendingResource>, n: nat,
                                              before: seq<Submission>, after: seq<Submission>, submission: Submission)
    requires n <= |entries| && submission.changes == Flatten(PlansFor(live, entries, n))
    requires after == if PlansFor(live, entries, n) == [] then before else before + [submission]
    ensures SubmitsDisarms(live, entries, n, before, after)
  {
    forall change: Change ensures change in submission.changes <==> DisarmsEntry(live, entries, n, change) {
      if change in submission.changes { SubmittedDisarms(live, entries, n, change); }
      if DisarmsEntry(live, entries, n, change) { DisarmIsSubmitted(live, entries, n, change); }
    }
  }

  /** The changes on a plan's descriptor are its own segment. */
  lemma {:induction false} SegmentOf(live: LiveMap, plans: seq<Plan>, p: nat, i: nat)
    requires PlansFit(live, plans) && DistinctDescriptors(live) && p < |plans| && i < |Flatten(plans)|
    ensures Flatten(plans)[i].ident == plans[p].descriptor <==> Start(plans, p) <= i < Start(plans, p + 1)
  {
    var q := ChangeOwner(plans, i);
    if q < p {
      assert plans[q].registration != plans[p].registration;
      StartMonotone(plans, q + 1, p);
    } else if p < q {
      assert plans[p].registration != plans[q].registration;
      StartMonotone(plans, p + 1, q);
    }
  }

  lemma {:induction false} PlanIsProved(live: LiveMap, plans: seq<Plan>, submission: Submission, p: nat,
                                        commit: CommitStatus)
    requires PlansFit(live, plans) && DistinctDescriptors(live) && p < |plans| && submission.changes == Flatten(plans)
    requires PlanProved(plans, submission, p, commit)
    ensures ProvedFor(live, submission, NewOutcome(plans[p].registration, commit))
  {
    forall i | 0 <= i < |submission.changes|
      ensures submission.changes[i].ident == plans[p].descriptor <==> Start(plans, p) <= i < Start(plans, p + 1)
    {
      SegmentOf(live, plans, p, i);
    }
  }

  lemma {:induction false} PlansAskDisarms(live: LiveMap, plans: seq<Plan>, outcomes: seq<RecoveryOutcome>)
    requires PlansFit(live, plans) && |outcomes| == |plans|
    requires forall p | 0 <= p < |plans| :: outcomes[p].registration == plans[p].registration
    ensures AsksDisarms(live, outcomes, Flatten(plans))
  {
    var changes := Flatten(plans);
    forall change: Change ensures change in changes <==> Asked(live, outcomes, change) {
      if change in changes {
        var i :| 0 <= i < |changes| && changes[i] == change;
        var p := ChangeOwner(plans, i);
        assert AsksFor(live, outcomes[p].registration, change);
      }
      if Asked(live, outcomes, change) {
        var p :| 0 <= p < |outcomes| && AsksFor(live, outcomes[p].registration, change);
        ChangeIndexHolds(plans, p, change.filter);
      }
    }
  }

  /** What submitting the plans told. */
  lemma {:induction false} PlansTold(live: LiveMap, plans: seq<Plan>, outcomes: seq<RecoveryOutcome>,
                                     submission: Submission, before: seq<Submission>, after: seq<Submission>,
                                     r: Result<Unit, IoError>)
    requires PlansFit(live, plans) && DistinctDescriptors(live) && |outcomes| == |plans|
    requires submission.changes == Flatten(plans) && FailsFirst(submission, r)
    requires after == if plans == [] then before else before + [submission]
    requires plans == [] ==> r == Ok(Unit)
    requires forall p | 0 <= p < |plans| ::
               outcomes[p] == NewOutcome(plans[p].registration, outcomes[p].commit)
               && PlanProved(plans, submission, p, outcomes[p].commit)
    ensures DisarmsTold(live, before, after, outcomes, if r.Ok? then None else Some(r.error))
  {
    if plans != [] {
      PlansAskDisarms(live, plans, outcomes);
      forall p | 0 <= p < |outcomes| ensures ProvedFor(live, submission, outcomes[p]) {
        PlanIsProved(live, plans, submission, p, outcomes[p].commit);
      }
    }
  }
}
