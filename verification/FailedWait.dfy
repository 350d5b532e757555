/** What a wait that fails after submitting its disarms has done to the agreement of table and kernel. The
    table stays where it was, so the question is whether the kernel can have moved away from it. */
module FailedWaits {
  import opened Vocabulary
  import opened Slots
  import opened MutationMachine
  import opened Kernels
  import opened KeventBatches
  import opened Events
  import opened Pending
  import opened Recovery
  import opened Containment
  import opened Agreement
  import opened Observation

  /** Some reply to the disarms of `plans` leaves these filters. */
  ghost predicate MayLeave(before: Filters, plans: seq<Plan>, after: Filters) {
    exists reply, receipts, applied :: Replies(before, Flatten(plans), reply, receipts, applied, after)
  }

  /** None of the first `n` entries is an armed one-shot. */
  predicate NoArmedOneShot(live: LiveMap, entries: seq<PendingResource>, n: nat)
    requires n <= |entries|
  {
    forall k | 0 <= k < n && entries[k].registration in live && live[entries[k].registration].mode == OneShot ::
      live[entries[k].registration].state != ARMED
  }

  /** Without an armed one-shot to deliver, no reply moves the kernel away from the table. */
  lemma {:induction false} NothingArmedKeeps(live: LiveMap, entries: seq<PendingResource>, n: nat, before: Filters,
                                             after: Filters)
    requires Agrees(live, before) && DistinctDescriptors(live) && Collected(live, entries)
    requires n <= |entries| && NoArmedOneShot(live, entries, n)
    requires MayLeave(before, PlansFor(live, entries, n), after)
    ensures Agrees(live, after)
  {
    var plans := PlansFor(live, entries, n);
    PlansForFit(live, entries, n);
    PlansForOneShots(live, entries, n);
    OneShotIdsDelivered(live, entries, n);
    var reply, receipts, applied :| Replies(before, Flatten(plans), reply, receipts, applied, after);
    forall p | 0 <= p < |plans|
      ensures live[plans[p].registration].state.Registered? && live[plans[p].registration].state != ARMED
    {
      assert OneShotIds(live, entries, n)[p] in OneShotIds(live, entries, n);
    }
    UncommittedBatch(live, plans, before, Submission(Flatten(plans), reply, receipts), applied, after);
  }

  function AllTrue(n: nat): (applied: seq<bool>)
    ensures |applied| == n && AllApplied(applied)
  {
    seq(n, _ => true)
  }

  /** A kernel that makes every disable breaks the claim that a planned registration is armed. */
  lemma {:induction false} DisablingBreaks(live: LiveMap, plans: seq<Plan>, before: Filters, p: nat)
    requires Agrees(live, before) && DistinctDescriptors(live) && PlansFit(live, plans) && p < |plans|
    requires forall q | 0 <= q < |plans| :: live[plans[q].registration].state.Registered?
    requires live[plans[p].registration].state == ARMED && !plans[p].interest.IsEmpty()
    ensures !Agrees(live, ApplyAll(before, Flatten(plans), AllTrue(|Flatten(plans)|)))
  {
    var changes, applied := Flatten(plans), AllTrue(|Flatten(plans)|);
    UncommittedBatch(live, plans, before, Submission(changes, AppliedWithoutReceipts, []), applied,
                     ApplyAll(before, changes, applied));
    var f := if plans[p].interest.readable then Read else Write;
    assert Wants(plans[p].interest, f) && applied[ChangeIndex(plans, p, f)];
  }

  /** With one, the kernel that makes every disable has moved away: the table still claims that the
      one-shot is armed. */
  lemma {:induction false} SomethingArmedBreaks(live: LiveMap, entries: seq<PendingResource>, n: nat, before: Filters)
    returns (after: Filters)
    requires Agrees(live, before) && DistinctDescriptors(live) && Interested(live) && Collected(live, entries)
    requires n <= |entries| && !NoArmedOneShot(live, entries, n)
    ensures MayLeave(before, PlansFor(live, entries, n), after) && !Agrees(live, after)
  {
    var plans, ids := PlansFor(live, entries, n), OneShotIds(live, entries, n);
    PlansForFit(live, entries, n);
    PlansForOneShots(live, entries, n);
    OneShotIdsDelivered(live, entries, n);
    var changes, applied := Flatten(plans), AllTrue(|Flatten(plans)|);
    after := ApplyAll(before, changes, applied);
    assert Replies(before, changes, AppliedWithoutReceipts, [], applied, after);
    forall q | 0 <= q < |plans| ensures live[plans[q].registration].state.Registered? {
      assert ids[q] in ids;
    }
    var k :| 0 <= k < n && entries[k].registration in live && live[entries[k].registration].mode == OneShot
             && live[entries[k].registration].state == ARMED;
    var p :| 0 <= p < |plans| && ids[p] == entries[k].registration;
    DisablingBreaks(live, plans, before, p);
  }

  /** Every reply keeps the agreement exactly when no armed one-shot was to be delivered. */
  lemma {:induction false} AgreementSurvives(live: LiveMap, entries: seq<PendingResource>, n: nat, before: Filters)
    requires Agrees(live, before) && DistinctDescriptors(live) && Interested(live) && Collected(live, entries)
             && n <= |entries|
    ensures (forall after | MayLeave(before, PlansFor(live, entries, n), after) :: Agrees(live, after))
            <==> NoArmedOneShot(live, entries, n)
  {
    if NoArmedOneShot(live, entries, n) {
      forall after | MayLeave(before, PlansFor(live, entries, n), after) ensures Agrees(live, after) {
        NothingArmedKeeps(live, entries, n, before, after);
      }
    } else {
      var after := SomethingArmedBreaks(live, entries, n, before);
    }
  }

  // ---------- It happens ----------

  const LIVE: LiveMap := map[1 := Entry(3, 0, READABLE, OneShot, ARMED), 2 := Entry(4, 0, READABLE, OneShot, DISARMED)]
  const FILTERS: Filters := map[Knote(3, Read) := Installed(1, true), Knote(4, Read) := Installed(2, false)]
  const RECORDS := [Kevent(3, Read, false, 0, 1, false, 0), Kevent(4, Read, false, 0, 2, false, 0)]
  const ENTRIES := [PendingResource(1, 0, {Readable}), PendingResource(2, 0, {Readable})]

  lemma {:induction false} ExampleAgrees()
    ensures Agrees(LIVE, FILTERS) && DistinctDescriptors(LIVE) && Interested(LIVE)
  {
    assert LIVE[1].descriptor == 3 && LIVE[2].descriptor == 4;
  }

  lemma {:induction false} ExampleIsCollected()
    ensures Summarizes(ENTRIES, SeenUpTo(LIVE, RECORDS, |RECORDS|), 2)
  {
    var one, two := Seen(1, 0, {Readable}), Seen(2, 0, {Readable});
    assert SeenUpTo(LIVE, RECORDS, 1) == [one];
    assert SeenUpTo(LIVE, RECORDS, 2) == [one, two];
    PushKeepsSummary([], [], 2, one);
    assert [] + [one] == [one] && [] + [ENTRIES[0]] == [ENTRIES[0]];
    PushKeepsSummary([ENTRIES[0]], [one], 2, two);
    assert [one] + [two] == [one, two] && [ENTRIES[0]] + [ENTRIES[1]] == ENTRIES;
  }

  /** The kernel reports an armed one-shot beside a disarmed one. The wait cannot be delivered, its disarms
      are all made, and the table still claims that the first is armed. */
  lemma {:induction false} FailedWaitHappens() returns (after: Filters)
    ensures Agrees(LIVE, FILTERS) && DistinctDescriptors(LIVE)
    ensures Summarizes(ENTRIES, SeenUpTo(LIVE, RECORDS, |RECORDS|), 2) && !Deliverable(LIVE, ENTRIES, 2)
    ensures MayLeave(FILTERS, PlansFor(LIVE, ENTRIES, 2), after) && !Agrees(LIVE, after)
  {
    ExampleAgrees();
    ExampleIsCollected();
    assert !DeliverableId(LIVE, ENTRIES[1].registration);
    assert LIVE[ENTRIES[0].registration].state == ARMED;
    after := SomethingArmedBreaks(LIVE, ENTRIES, 2, FILTERS);
  }
}
