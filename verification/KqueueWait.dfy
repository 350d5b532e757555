/** One kqueue observation: collecting and coalescing the batch, planning the disarms of what will be
    delivered, submitting them, and committing the result as a whole. */
module KqueueWait {
  import opened Vocabulary
  import opened Slots
  import opened RegistrationTables
  import opened MutationMachine
  import opened Kernels
  import opened KeventBatches
  import opened DisarmBatches
  import opened Events
  import opened Pending
  import opened Recovery
  import opened Containment
  import opened Agreement
  import opened Observation
  import opened FailedWaits
  import opened WaitAccounts
  import opened Runs
  import opened KqueueMutations

  /** Coalesces the whole native batch. Only a record whose identity is no descriptor number is an
      error; the fixed index always has room. */
  method CollectPending(table: RegistrationTable, raw: KeventBatch, pending: KqueuePending, observed: nat)
    returns (r: Result<bool, Error>)
    requires table.Valid() && raw.Valid() && pending.Valid() && observed == raw.observed
    requires pending.batch == [] && pending.bySlot.Length == table.limit
    modifies pending, pending.bySlot
    ensures pending.Valid()
    ensures r.Ok? <==> forall i | 0 <= i < observed :: Representable(raw.waitOutput[i])
    ensures r.Ok? ==>
              pending.batch == SeenUpTo(table.live, raw.waitOutput, observed)
              && r.value == Woke(raw.waitOutput, observed)
    ensures r.Err? ==> r.error == Invariant
  {
    ghost var native := raw.waitOutput;
    var woke := false;
    for index := 0 to observed
      invariant table.Valid() && raw.Valid() && pending.Valid()
      invariant pending.batch == SeenUpTo(table.live, native, index) && woke == Woke(native, index)
      invariant forall i | 0 <= i < index :: Representable(native[i])
    {
      var event := raw.Event(index, observed);
      if event.None? { return Err(Invariant); }
      if !Representable(event.value) { return Err(Invariant); }
      if IsControl(event.value) {
        woke := true;
      } else {
        var added := CollectOne(table, pending, event.value, native, index);
        match added {
          case Err(_) => return Err(Invariant);
          case Ok(_) =>
        }
      }
    }
    r := Ok(woke);
  }

  method CollectOne(table: RegistrationTable, pending: KqueuePending, event: Kevent, ghost native: seq<Kevent>,
                    ghost index: nat)
    returns (r: Result<Unit, Error>)
    requires table.Valid() && pending.Valid() && !IsControl(event)
    requires index < |native| && native[index] == event && pending.batch == SeenUpTo(table.live, native, index)
    requires pending.bySlot.Length == table.limit
    modifies pending, pending.bySlot
    ensures pending.Valid() && r.Ok? && pending.batch == SeenUpTo(table.live, native, index + 1)
  {
    ghost var live, earlier := table.live, pending.batch;
    SeenNext(live, native, index);
    var resolved := table.Resolve(event.udata);
    match resolved {
      case None => r := Ok(Unit);
      case Some(resource) =>
        if resource.descriptor != event.ident { return Ok(Unit); }
        AdmitsLive(table, pending, resource.id, native, index);
        assert SeenOf(live, event) == Some(Seen(resource.id, resource.key, ReadinessOf(event)));
        r := pending.Add(resource.id, resource.key, ReadinessOf(event));
        assert pending.batch == earlier + [Seen(resource.id, resource.key, ReadinessOf(event))];
    }
  }

  lemma {:induction false} SeenNext(live: LiveMap, native: seq<Kevent>, index: nat)
    requires index < |native|
    ensures SeenUpTo(live, native, index + 1)
            == match SeenOf(live, native[index])
               case None => SeenUpTo(live, native, index)
               case Some(seen) => SeenUpTo(live, native, index) + [seen]
  {
  }

  /** The index never confuses two live registrations: a slot holds one generation at a time. */
  lemma {:induction false} AdmitsLive(table: RegistrationTable, pending: KqueuePending, id: RegistrationId,
                                      native: seq<Kevent>, index: nat)
    requires table.Valid() && pending.Valid() && id in table.live && pending.bySlot.Length == table.limit
    requires index <= |native| && pending.batch == SeenUpTo(table.live, native, index)
    ensures pending.Admits(id)
  {
    EntriesLive(table.live, native, index, pending.entries, pending.capacity);
    table.OneGenerationPerSlot(id, id);
    forall k | 0 <= k < |pending.entries| && SlotOf(pending.entries[k].registration) == SlotOf(id)
      ensures pending.entries[k].registration == id
    {
      table.OneGenerationPerSlot(id, pending.entries[k].registration);
      table.OneGenerationPerSlot(pending.entries[k].registration, id);
    }
  }

  /** Plans a disarm for every delivered one-shot. Distinct entries never outnumber the plans' room. */
  method PrepareDisarms(table: RegistrationTable, disarms: DisarmBatch, entries: seq<PendingResource>, delivered: nat)
    returns (r: Result<Unit, Error>)
    requires table.Valid() && disarms.Valid() && delivered <= |entries| && delivered <= disarms.planCapacity
    requires Interested(table.live)
    requires forall k | 0 <= k < |entries| ::
               entries[k].registration in table.live && table.live[entries[k].registration].state.Registered?
    modifies disarms
    ensures disarms.Valid() && r == Ok(Unit) && disarms.plans == PlansFor(table.live, entries, delivered)
  {
    disarms.Clear();
    for index := 0 to delivered
      invariant table.Valid() && disarms.Valid() && disarms.plans == PlansFor(table.live, entries, index)
    {
      var prepared := PrepareOne(table, disarms, entries, index);
      match prepared { case Err(e) => return Err(e); case Ok(_) => }
    }
    r := Ok(Unit);
  }

  method PrepareOne(table: RegistrationTable, disarms: DisarmBatch, entries: seq<PendingResource>, index: nat)
    returns (r: Result<Unit, Error>)
    requires table.Valid() && disarms.Valid() && index < |entries| && index < disarms.planCapacity
    requires disarms.plans == PlansFor(table.live, entries, index)
    requires var id := entries[index].registration;
             id in table.live && table.live[id].state.Registered? && !table.live[id].interest.IsEmpty()
    modifies disarms
    ensures disarms.Valid() && r == Ok(Unit) && disarms.plans == PlansFor(table.live, entries, index + 1)
  {
    PlansForOneShots(table.live, entries, index);
    var id := entries[index].registration;
    var found := table.BindingOf(id, false);
    match found {
      case Err(e) => return Err(e);
      case Ok(binding) =>
        if binding.mode == OneShot {
          var pushed := disarms.Push(id, binding.descriptor, binding.interest);
          if pushed.None? { return Err(Invariant); }
        }
    }
    r := Ok(Unit);
  }

  /** The outcomes in plan order. */
  function ReportedOutcomes(plans: seq<Plan>): (outcomes: seq<RecoveryOutcome>)
    ensures |outcomes| == |plans| && Consistent(outcomes)
    ensures forall p | 0 <= p < |plans| :: outcomes[p] == NewOutcome(plans[p].registration, plans[p].commit)
  {
    seq(|plans|, p requires 0 <= p < |plans| => NewOutcome(plans[p].registration, plans[p].commit))
  }

  /** How many coalesced entries one wait delivers: a reported wake takes one place. */
  function DeliveredCount(entries: nat, eventCapacity: nat, woke: bool): (n: nat)
    requires eventCapacity >= 1
    ensures n <= entries && n + (if woke then 1 else 0) <= eventCapacity
    ensures n == entries || n + (if woke then 1 else 0) == eventCapacity
  {
    var room := eventCapacity - if woke then 1 else 0;
    if entries <= room then entries else room
  }

  /** The reported outcomes are acceptable exactly when the delivered entries are. */
  lemma {:induction false} ReportAcceptable(live: LiveMap, entries: seq<PendingResource>, delivered: nat,
                                            plans: seq<Plan>, failed: bool)
    requires delivered <= |entries|
    requires SamePlans(PlansFor(live, entries, delivered), plans)
    requires failed <==> exists p | 0 <= p < |plans| :: !plans[p].commit.Applied?
    ensures Acceptable(live, entries, delivered, ReportedOutcomes(plans), failed) <==>
              Deliverable(live, entries, delivered)
  {
    PlansForOneShots(live, entries, delivered);
    var outcomes := ReportedOutcomes(plans);
    if failed {
      var p :| 0 <= p < |plans| && !plans[p].commit.Applied?;
      assert outcomes[p].commit != Applied;
    } else {
      forall i | 0 <= i < |outcomes| ensures outcomes[i].commit == Applied {
        assert plans[i].commit.Applied?;
      }
    }
  }

  /** Moving the delivered one-shots by their reports keeps agreement. */
  lemma {:induction false} ReportKeepsAgreement(live: LiveMap, entries: seq<PendingResource>, delivered: nat,
                                                plans: seq<Plan>, before: Filters, submission: Submission,
                                                applied: seq<bool>, after: Filters)
    requires Agrees(live, before) && DistinctDescriptors(live) && DistinctPending(entries)
    requires delivered <= |entries| && Deliverable(live, entries, delivered)
    requires var planned := PlansFor(live, entries, delivered);
             && SamePlans(planned, plans) && submission.changes == Flatten(planned)
             && forall p | 0 <= p < |plans| :: plans[p].commit == SegmentCommit(planned, Outcomes(submission), p)
    requires Replies(before, submission.changes, submission.reply, submission.receipts, applied, after)
    ensures var outcomes := ReportedOutcomes(plans); Agrees(ApplyOutcomes(live, outcomes, |outcomes|), after)
  {
    var planned := PlansFor(live, entries, delivered);
    PlansForFit(live, entries, delivered);
    PlansForOneShots(live, entries, delivered);
    OutcomesDisarmable(live, entries, delivered, ReportedOutcomes(plans));
    forall p | 0 <= p < |planned| ensures Disarmable(live, planned[p].registration) {
      assert ReportedOutcomes(plans)[p].registration == planned[p].registration;
    }
    DisarmKeepsAgreement(live, planned, before, submission, applied, after, ReportedOutcomes(plans));
  }

  /** The report of the settled plans is what submitting them told. */
  lemma {:induction false} ReportTold(live: LiveMap, planned: seq<Plan>, plans: seq<Plan>, submission: Submission,
                                      before: seq<Submission>, after: seq<Submission>, r: Result<Unit, IoError>)
    requires PlansFit(live, planned) && DistinctDescriptors(live) && SamePlans(planned, plans)
    requires submission.changes == Flatten(planned) && FailsFirst(submission, r)
    requires after == if planned == [] then before else before + [submission]
    requires r.Ok? <==> forall p | 0 <= p < |plans| :: plans[p].commit.Applied?
    requires forall p | 0 <= p < |plans| :: PlanProved(planned, submission, p, plans[p].commit)
    ensures DisarmsTold(live, before, after, ReportedOutcomes(plans), if r.Ok? then None else Some(r.error))
  {
    var outcomes := ReportedOutcomes(plans);
    forall p | 0 <= p < |planned|
      ensures outcomes[p] == NewOutcome(planned[p].registration, outcomes[p].commit)
      ensures PlanProved(planned, submission, p, outcomes[p].commit)
    {
      assert plans[p] == planned[p].(commit := plans[p].commit);
    }
    PlansTold(live, planned, outcomes, submission, before, after, r);
  }

  function Min(a: nat, b: nat): nat { if a <= b then a else b }

  /** Plans and submits the disarms of the first `delivered` entries. */
  method PlanAndSubmit(table: RegistrationTable, kernel: Kernel, raw: KeventBatch, disarms: DisarmBatch,
                       entries: seq<PendingResource>, delivered: nat)
    returns (source: Option<IoError>)
    requires table.Valid() && raw.Valid() && disarms.Valid() && raw.changeCapacity == disarms.changeCapacity
    requires DistinctDescriptors(table.live) && Interested(table.live) && DistinctPending(entries)
    requires delivered <= |entries| && delivered <= disarms.planCapacity
    requires forall k | 0 <= k < |entries| ::
               entries[k].registration in table.live && table.live[entries[k].registration].state.Registered?
    modifies kernel, raw, raw.storage, disarms
    ensures raw.Valid() && disarms.Valid()
    ensures MayLeave(old(kernel.filters), PlansFor(table.live, entries, delivered), kernel.filters)
    ensures Acceptable(table.live, entries, delivered, ReportedOutcomes(disarms.plans), source.Some?)
            <==> Deliverable(table.live, entries, delivered)
    ensures Agrees(table.live, old(kernel.filters)) && Deliverable(table.live, entries, delivered) ==>
              var outcomes := ReportedOutcomes(disarms.plans);
              Agrees(ApplyOutcomes(table.live, outcomes, |outcomes|), kernel.filters)
    ensures DisarmsTold(table.live, old(kernel.history), kernel.history, ReportedOutcomes(disarms.plans), source)
    ensures SubmitsDisarms(table.live, entries, delivered, old(kernel.history), kernel.history)
  {
    ghost var live, before, asked := table.live, kernel.filters, kernel.history;
    var prepared := PrepareDisarms(table, disarms, entries, delivered);
    PlansForFit(live, entries, delivered);
    PlanTargetsDistinct(live, disarms.plans);
    ghost var submission, applied;
    var submitted;
    submitted, submission, applied := disarms.Submit(kernel, raw);
    ReportAcceptable(live, entries, delivered, disarms.plans, submitted.Err?);
    PlansSubmitDisarms(live, entries, delivered, asked, kernel.history, submission);
    ReportTold(live, PlansFor(live, entries, delivered), disarms.plans, submission, asked, kernel.history, submitted);
    if Deliverable(live, entries, delivered) && Agrees(live, before) {
      ReportKeepsAgreement(live, entries, delivered, disarms.plans, before, submission, applied, kernel.filters);
    }
    match submitted {
      case Ok(_) => source := None;
      case Err(error) => source := Some(error);
    }
  }

  /** Whatever the submitted disarms left, and whether or not the batch was delivered, the kernel stays
      contained. */
  lemma {:induction false} LeavingKeepsContained(live: LiveMap, entries: seq<PendingResource>, delivered: nat,
                                                 before: Filters, after: Filters, outcomes: seq<RecoveryOutcome>,
                                                 accepted: bool)
    requires Contained(live, before) && delivered <= |entries| && DistinctPending(entries)
    requires MayLeave(before, PlansFor(live, entries, delivered), after)
    requires accepted ==>
               Deliverable(live, entries, delivered) && OutcomesFor(outcomes, OneShotIds(live, entries, delivered))
    ensures Contained(if accepted then ApplyOutcomes(live, outcomes, |outcomes|) else live, after)
  {
    var plans := PlansFor(live, entries, delivered);
    var reply, receipts, applied :| Replies(before, Flatten(plans), reply, receipts, applied, after);
    DisarmsThin(plans, before, applied);
    if accepted {
      OutcomesDisarmable(live, entries, delivered, outcomes);
      OutcomesKeepContained(live, before, after, outcomes);
    } else {
      ThinningKeepsContained(live, live, before, after);
    }
  }

  /** Disarms, reports and delivers the collected entries. It fails exactly when some delivered one-shot
      is not armed; then nothing is delivered and no state moves. */
  method Deliver(table: RegistrationTable, kernel: Kernel, raw: KeventBatch, disarms: DisarmBatch, events: EventBuffer,
                 entries: seq<PendingResource>, eventCapacity: nat, woke: bool, wakeKey: Option<Key>)
    returns (r: Result<WaitReport, Error>, ghost outcomes: seq<RecoveryOutcome>)
    requires table.Valid() && raw.Valid() && disarms.Valid() && events.Valid()
    requires DistinctDescriptors(table.live) && Interested(table.live) && Collected(table.live, entries)
    requires Contained(table.live, kernel.filters)
    requires raw.changeCapacity == disarms.changeCapacity && |entries| <= table.limit
    requires 1 <= eventCapacity <= events.capacity && disarms.planCapacity == Min(eventCapacity, table.limit)
    requires events.items == []
    modifies table, kernel, raw, raw.storage, disarms, events
    ensures table.Valid() && raw.Valid() && disarms.Valid() && events.Valid()
    ensures SameGenerations(old(table.slots), table.slots)
    ensures r.Ok? <==> Deliverable(old(table.live), entries, DeliveredCount(|entries|, eventCapacity, woke))
    ensures r.Err? ==>
              r.error == Invariant && table.slots == old(table.slots) && table.live == old(table.live)
              && events.items == []
    ensures MayLeave(old(kernel.filters),
                     PlansFor(old(table.live), entries, DeliveredCount(|entries|, eventCapacity, woke)), kernel.filters)
    ensures SubmitsDisarms(old(table.live), entries, DeliveredCount(|entries|, eventCapacity, woke),
                           old(kernel.history), kernel.history)
    ensures r.Ok? ==>
              var delivered := DeliveredCount(|entries|, eventCapacity, woke);
              && events.items == ResourceEvents(entries[..delivered]) + WakeEvents(woke, wakeKey)
              && OutcomesFor(outcomes, OneShotIds(old(table.live), entries, delivered))
              && table.live == ApplyOutcomes(old(table.live), outcomes, |outcomes|)
              && Reports(r.value, outcomes)
              && DisarmsTold(old(table.live), old(kernel.history), kernel.history, outcomes, SourceOf(r.value))
    ensures Contained(table.live, kernel.filters)
    ensures r.Ok? && Agrees(old(table.live), old(kernel.filters)) ==> Agrees(table.live, kernel.filters)
  {
    ghost var live, before := table.live, kernel.filters;
    var delivered := DeliveredCount(|entries|, eventCapacity, woke);
    var source := PlanAndSubmit(table, kernel, raw, disarms, entries, delivered);
    var reported := ReportedOutcomes(disarms.plans);
    outcomes := reported;
    r := Finish(table, events, entries, delivered, woke, wakeKey, reported, source);
    assert [] + ResourceEvents(entries[..delivered]) == ResourceEvents(entries[..delivered]);
    LeavingKeepsContained(live, entries, delivered, before, kernel.filters, reported, r.Ok?);
  }

  /** The error that a report carries. */
  function SourceOf(report: WaitReport): Option<IoError> {
    match report.recovery case None => None case Some(failure) => Some(failure.source)
  }

  /** A report is present exactly when some outcome is not applied, and then lists every outcome. */
  ghost predicate Reports(report: WaitReport, outcomes: seq<RecoveryOutcome>) {
    && (report.recovery.Some? <==> SomeUnapplied(outcomes))
    && (report.recovery.Some? ==> report.recovery.value.outcomes == outcomes)
  }

  // ---------- What one wait does, on values ----------

  predicate AllRepresentable(native: seq<Kevent>) {
    forall i | 0 <= i < |native| :: Representable(native[i])
  }

  /** The batch can be delivered: its records are well formed and every one-shot it would deliver is
      armed. */
  predicate WaitDelivers(live: LiveMap, native: seq<Kevent>, capacity: nat, entries: seq<PendingResource>)
    requires 1 <= capacity
  {
    AllRepresentable(native) && Deliverable(live, entries, DeliveredCount(|entries|, capacity, Woke(native, |native|)))
  }

  /** What a wait whose batch cannot be delivered may have done to the kernel: nothing if a record is
      malformed, and otherwise whatever the submitted disarms leave. */
  ghost predicate FailedWait(live: LiveMap, native: seq<Kevent>, capacity: nat, entries: seq<PendingResource>,
                             before: Filters, after: Filters)
    requires 1 <= capacity
  {
    if !AllRepresentable(native) then after == before
    else MayLeave(before, PlansFor(live, entries, DeliveredCount(|entries|, capacity, Woke(native, |native|))), after)
  }

  /** The guard on the batch: malformed, or without an armed one-shot among the entries to deliver. */
  predicate Harmless(live: LiveMap, native: seq<Kevent>, capacity: nat, entries: seq<PendingResource>)
    requires 1 <= capacity
  {
    AllRepresentable(native) ==>
      NoArmedOneShot(live, entries, DeliveredCount(|entries|, capacity, Woke(native, |native|)))
  }

  /** A failed wait keeps the agreement under every kernel exactly on the batches that meet the guard. */
  lemma {:induction false} FailedWaitKeepsAgreement(live: LiveMap, native: seq<Kevent>, capacity: nat,
                                                    entries: seq<PendingResource>, before: Filters)
    requires 1 <= capacity && Agrees(live, before) && DistinctDescriptors(live) && Interested(live)
    requires AllRepresentable(native) ==> Collected(live, entries)
    ensures (forall after | FailedWait(live, native, capacity, entries, before, after) :: Agrees(live, after))
            <==> Harmless(live, native, capacity, entries)
  {
    if AllRepresentable(native) {
      var n := DeliveredCount(|entries|, capacity, Woke(native, |native|));
      AgreementSurvives(live, entries, n, before);
      if !NoArmedOneShot(live, entries, n) {
        var after := SomethingArmedBreaks(live, entries, n, before);
        assert FailedWait(live, native, capacity, entries, before, after);
      }
    }
  }

  /** What a delivering wait hands over and how it moves the table: the first entries that fit beside
      the wake, the wake last, and exactly the delivered one-shots moved to their reported states. */
  ghost predicate WaitTells(live: LiveMap, native: seq<Kevent>, capacity: nat, wakeKey: Option<Key>,
                            entries: seq<PendingResource>, outcomes: seq<RecoveryOutcome>,
                            later: LiveMap, items: seq<Event>, report: WaitReport,
                            asked: seq<Submission>, answered: seq<Submission>)
    requires 1 <= capacity
  {
    var woke := Woke(native, |native|);
    var delivered := DeliveredCount(|entries|, capacity, woke);
    && items == ResourceEvents(entries[..delivered]) + WakeEvents(woke, wakeKey)
    && OutcomesFor(outcomes, OneShotIds(live, entries, delivered))
    && later == ApplyOutcomes(live, outcomes, |outcomes|)
    && Reports(report, outcomes)
    && DisarmsTold(live, asked, answered, outcomes, SourceOf(report))
  }

  lemma {:induction false} CollectedFromBatch(live: LiveMap, native: seq<Kevent>, entries: seq<PendingResource>,
                                              capacity: nat)
    requires Summarizes(entries, SeenUpTo(live, native, |native|), capacity)
    ensures Collected(live, entries)
  {
    EntriesLive(live, native, |native|, entries, capacity);
    EntriesDistinct(entries, SeenUpTo(live, native, |native|), capacity);
  }

  /** What a batch that is not delivered leaves, and that agreement survives it if it meets the guard. A malformed
      batch submits nothing; any other has submitted its disarms before it was found undeliverable. */
  ghost predicate Undelivered(live: LiveMap, native: seq<Kevent>, capacity: nat, entries: seq<PendingResource>,
                              before: Filters, after: Filters, asked: seq<Submission>, answered: seq<Submission>)
    requires 1 <= capacity
  {
    && FailedWait(live, native, capacity, entries, before, after)
    && (if !AllRepresentable(native) then answered == asked
        else SubmitsDisarms(live, entries, DeliveredCount(|entries|, capacity, Woke(native, |native|)), asked,
                            answered))
    && (Harmless(live, native, capacity, entries) && Agrees(live, before) ==> Agrees(live, after))
  }

  lemma {:induction false} FailingIsUndelivered(live: LiveMap, native: seq<Kevent>, capacity: nat,
                                                entries: seq<PendingResource>, before: Filters, after: Filters,
                                                asked: seq<Submission>, answered: seq<Submission>)
    requires 1 <= capacity && DistinctDescriptors(live) && Interested(live)
    requires AllRepresentable(native) ==> Summarizes(entries, SeenUpTo(live, native, |native|), capacity)
    requires FailedWait(live, native, capacity, entries, before, after)
    requires if !AllRepresentable(native) then answered == asked
             else SubmitsDisarms(live, entries, DeliveredCount(|entries|, capacity, Woke(native, |native|)), asked,
                                 answered)
    ensures Undelivered(live, native, capacity, entries, before, after, asked, answered)
  {
    if Harmless(live, native, capacity, entries) && Agrees(live, before) {
      if AllRepresentable(native) { CollectedFromBatch(live, native, entries, capacity); }
      FailedWaitKeepsAgreement(live, native, capacity, entries, before);
    }
  }

  /** Collects, disarms and delivers what one native wait returned. */
  method Translate(table: RegistrationTable, kernel: Kernel, raw: KeventBatch, disarms: DisarmBatch,
                   pending: KqueuePending, events: EventBuffer, eventCapacity: nat, wakeKey: Option<Key>)
    returns (r: Result<WaitReport, Error>, ghost entries: seq<PendingResource>, ghost outcomes: seq<RecoveryOutcome>)
    requires table.Valid() && raw.Valid() && disarms.Valid() && pending.Valid() && events.Valid()
    requires DistinctDescriptors(table.live) && Interested(table.live) && Contained(table.live, kernel.filters)
    requires raw.changeCapacity == disarms.changeCapacity && pending.bySlot.Length == table.limit
    requires 1 <= eventCapacity == pending.capacity && eventCapacity <= events.capacity
    requires disarms.planCapacity == Min(eventCapacity, table.limit)
    requires events.items == [] && pending.batch == []
    modifies table, kernel, raw, raw.storage, disarms, pending, pending.bySlot, events
    ensures table.Valid() && raw.Valid() && disarms.Valid() && pending.Valid() && events.Valid()
    ensures SameGenerations(old(table.slots), table.slots)
    ensures AllRepresentable(old(raw.waitOutput)) ==>
              Summarizes(entries, SeenUpTo(old(table.live), old(raw.waitOutput), |old(raw.waitOutput)|), eventCapacity)
    ensures r.Ok? <==> WaitDelivers(old(table.live), old(raw.waitOutput), eventCapacity, entries)
    ensures r.Err? ==>
              r.error == Invariant && table.slots == old(table.slots) && table.live == old(table.live)
              && events.items == []
    ensures r.Err? ==>
              Undelivered(old(table.live), old(raw.waitOutput), eventCapacity, entries, old(kernel.filters),
                          kernel.filters, old(kernel.history), kernel.history)
    ensures r.Ok? ==>
              && AllRepresentable(old(raw.waitOutput))
              && WaitTells(old(table.live), old(raw.waitOutput), eventCapacity, wakeKey, entries, outcomes,
                           table.live, events.items, r.value, old(kernel.history), kernel.history)
    ensures Contained(table.live, kernel.filters)
    ensures r.Ok? && Agrees(old(table.live), old(kernel.filters)) ==> Agrees(table.live, kernel.filters)
  {
    ghost var native, live, filters, asked := raw.waitOutput, table.live, kernel.filters, kernel.history;
    entries, outcomes := [], [];
    var woke := CollectPending(table, raw, pending, raw.observed);
    match woke {
      case Err(_) =>
        FailingIsUndelivered(live, native, eventCapacity, entries, filters, kernel.filters, asked, kernel.history);
        return Err(Invariant), entries, outcomes;
      case Ok(reported) =>
        entries := pending.entries;
        CollectedFromBatch(table.live, native, entries, pending.capacity);
        r, outcomes := Deliver(table, kernel, raw, disarms, events, pending.entries, eventCapacity, reported, wakeKey);
        if r.Err? {
          FailingIsUndelivered(live, native, eventCapacity, entries, filters, kernel.filters, asked, kernel.history);
        }
    }
  }

  /** In agreement with an honest kernel every wait delivers. */
  lemma {:induction false} HonestWaitDelivers(live: LiveMap, filters: Filters, native: seq<Kevent>,
                                              entries: seq<PendingResource>, capacity: nat)
    requires 1 <= capacity && Agrees(live, filters) && DistinctDescriptors(live)
    requires forall e | 0 <= e < |native| :: Honest(filters, native[e])
    requires Summarizes(entries, SeenUpTo(live, native, |native|), capacity)
    ensures WaitDelivers(live, native, capacity, entries)
  {
    HonestBatchDeliverable(live, filters, native, entries, capacity,
                           DeliveredCount(|entries|, capacity, Woke(native, |native|)));
  }

  /** One wait as a whole: when it succeeds, what it hands over, how it moves the table and the delivery
      log, and that a failure leaves no event and moves nothing. */
  ghost predicate WaitOutcome(before: Moment, after: Moment, log: seq<LogEntry>, longer: seq<LogEntry>,
                              native: Result<seq<Kevent>, IoError>, capacity: nat, room: nat, wakeKey: Option<Key>,
                              entries: seq<PendingResource>, outcomes: seq<RecoveryOutcome>,
                              items: seq<Event>, r: Result<WaitReport, Error>,
                              asked: seq<Submission>, answered: seq<Submission>)
    requires 1 <= capacity
  {
    && Evolves(before, after)
    && (capacity <= room && native.Ok? && AllRepresentable(native.value) ==>
          Summarizes(entries, SeenUpTo(before.live, native.value, |native.value|), capacity))
    && (r.Ok? <==> capacity <= room && native.Ok? && WaitDelivers(before.live, native.value, capacity, entries))
    && (r.Ok? ==>
        && WaitTells(before.live, native.value, capacity, wakeKey, entries, outcomes, after.live, items, r.value,
                     asked, answered)
        && WaitAccount(before.live, after.live, native.value, capacity, wakeKey, entries, outcomes, items))
    && longer == (if r.Ok? then log + OutcomesLog(outcomes, |outcomes|) else log)
    && (r.Err? ==> items == [] && after == before)
  }

  /** Delivering keeps one-shot deliveries apart, and everything else the poller keeps. */
  lemma {:induction false} DeliveryKeepsSound(log: seq<LogEntry>, live: LiveMap, slots: seq<Slot>, after: seq<Slot>,
                                              entries: seq<PendingResource>, delivered: nat,
                                              outcomes: seq<RecoveryOutcome>)
    requires Sound(log, live, slots) && SameGenerations(slots, after)
    requires forall id | id in live :: Issued(slots, id)
    requires Collected(live, entries) && delivered <= |entries| && Deliverable(live, entries, delivered)
    requires OutcomesFor(outcomes, OneShotIds(live, entries, delivered))
    ensures var later := ApplyOutcomes(live, outcomes, |outcomes|);
            && Sound(log + OutcomesLog(outcomes, |outcomes|), later, after)
            && Evolves(Moment(live, slots), Moment(later, after))
  {
    var later := ApplyOutcomes(live, outcomes, |outcomes|);
    OutcomesDisarmable(live, entries, delivered, outcomes);
    OutcomesApplied(live, outcomes, |outcomes|);
    DeliveriesFit(log, live, slots, outcomes, |outcomes|);
    SameGenerationsSameIssued(slots, after);
    forall id | id in later
      ensures later[id].descriptor == live[id].descriptor && later[id].interest == live[id].interest
    {
      if i :| 0 <= i < |outcomes| && outcomes[i].registration == id {
      }
    }
  }

  /** The account of a delivering wait, from what the pipeline computes. */
  lemma {:induction false} TellsAccount(live: LiveMap, native: seq<Kevent>, capacity: nat, wakeKey: Option<Key>,
                                        entries: seq<PendingResource>, outcomes: seq<RecoveryOutcome>, later: LiveMap,
                                        items: seq<Event>, report: WaitReport,
                                        asked: seq<Submission>, answered: seq<Submission>)
    requires 1 <= capacity && Collected(live, entries)
    requires Summarizes(entries, SeenUpTo(live, native, |native|), capacity)
    requires WaitDelivers(live, native, capacity, entries)
    requires WaitTells(live, native, capacity, wakeKey, entries, outcomes, later, items, report, asked, answered)
    ensures WaitAccount(live, later, native, capacity, wakeKey, entries, outcomes, items)
  {
    var n := DeliveredCount(|entries|, capacity, Woke(native, |native|));
    SummaryCoalesces(live, native, capacity, entries);
    OutcomesReport(live, entries, n, outcomes);
    OutcomesInOrder(live, entries, n, outcomes);
    OutcomesDisarmable(live, entries, n, outcomes);
    OutcomesMove(live, outcomes);
    ItemsHandOver(native, capacity, wakeKey, entries, items, n);
  }

  lemma {:induction false} ItemsHandOver(native: seq<Kevent>, capacity: nat, wakeKey: Option<Key>,
                                         entries: seq<PendingResource>, items: seq<Event>, n: nat)
    requires 1 <= capacity && n == DeliveredCount(|entries|, capacity, Woke(native, |native|))
    requires items == ResourceEvents(entries[..n]) + WakeEvents(Woke(native, |native|), wakeKey)
    ensures HandsOver(native, capacity, wakeKey, entries, items, n)
  {
    assert Woke(native, |native|) <==>
             exists i | 0 <= i < |native| :: native[i].filter == User && native[i].udata == 0 by {
      if Woke(native, |native|) {
        var i :| 0 <= i < |native| && IsControl(native[i]);
      }
      if i :| 0 <= i < |native| && native[i].filter == User && native[i].udata == 0 {
        assert IsControl(native[i]);
      }
    }
  }

  /** A delivering wait as a whole. */
  lemma {:induction false} DeliveryTells(log: seq<LogEntry>, live: LiveMap, slots: seq<Slot>, after: seq<Slot>,
                                         native: seq<Kevent>, capacity: nat, room: nat, wakeKey: Option<Key>,
                                         entries: seq<PendingResource>, outcomes: seq<RecoveryOutcome>,
                                         later: LiveMap, items: seq<Event>, report: WaitReport,
                                         asked: seq<Submission>, answered: seq<Submission>)
    requires 1 <= capacity <= room && Sound(log, live, slots) && SameGenerations(slots, after)
    requires forall id | id in live :: Issued(slots, id)
    requires Summarizes(entries, SeenUpTo(live, native, |native|), capacity)
    requires WaitDelivers(live, native, capacity, entries)
    requires WaitTells(live, native, capacity, wakeKey, entries, outcomes, later, items, report, asked, answered)
    ensures var longer := log + OutcomesLog(outcomes, |outcomes|);
            && Sound(longer, later, after)
            && WaitOutcome(Moment(live, slots), Moment(later, after), log, longer, Ok(native), capacity, room, wakeKey,
                           entries, outcomes, items, Ok(report), asked, answered)
  {
    CollectedFromBatch(live, native, entries, capacity);
    TellsAccount(live, native, capacity, wakeKey, entries, outcomes, later, items, report, asked, answered);
    DeliveryKeepsSound(log, live, slots, after, entries, DeliveredCount(|entries|, capacity, Woke(native, |native|)),
                       outcomes);
  }

  /** A wait that errs: which error it is, ranked short storage, native call, undeliverable batch, and what it
      may have left in the kernel. */
  ghost predicate FailureTells(live: LiveMap, native: Result<seq<Kevent>, IoError>, capacity: nat, room: nat,
                               entries: seq<PendingResource>, before: Filters, after: Filters,
                               asked: seq<Submission>, answered: seq<Submission>, r: Result<WaitReport, Error>)
    requires 1 <= capacity
  {
    r.Err? ==>
      && r.error == (if room < capacity then EventsTooSmall(capacity, room)
                     else if native.Err? then Io(OpWait, native.error)
                     else Invariant)
      && (r.error != Invariant ==> after == before && answered == asked)
      && (r.error == Invariant ==>
            native.Ok? && Undelivered(live, native.value, capacity, entries, before, after, asked, answered))
  }

  method WaitWith(table: RegistrationTable, kernel: Kernel, raw: KeventBatch, disarms: DisarmBatch,
                  pending: KqueuePending, events: EventBuffer, eventCapacity: nat, wakeKey: Option<Key>,
                  ghost log: seq<LogEntry>, native: Result<seq<Kevent>, IoError>)
    returns (r: Result<WaitReport, Error>, ghost entries: seq<PendingResource>, ghost outcomes: seq<RecoveryOutcome>,
             ghost longer: seq<LogEntry>)
    requires table.Valid() && raw.Valid() && disarms.Valid() && pending.Valid() && events.Valid()
    requires Sound(log, table.live, table.slots) && Contained(table.live, kernel.filters)
    requires raw.changeCapacity == disarms.changeCapacity && pending.bySlot.Length == table.limit
    requires 1 <= eventCapacity == pending.capacity && disarms.planCapacity == Min(eventCapacity, table.limit)
    modifies table, kernel, raw, raw.storage, disarms, pending, pending.bySlot, events
    ensures table.Valid() && raw.Valid() && disarms.Valid() && pending.Valid() && events.Valid()
    ensures Sound(longer, table.live, table.slots) && Contained(table.live, kernel.filters)
    ensures WaitOutcome(Moment(old(table.live), old(table.slots)), Moment(table.live, table.slots), log, longer,
                        Answered(native, raw.eventCapacity), eventCapacity, events.capacity, wakeKey, entries, outcomes,
                        events.items, r, old(kernel.history), kernel.history)
    ensures SameGenerations(old(table.slots), table.slots)
    ensures r.Ok? && Agrees(old(table.live), old(kernel.filters)) ==> Agrees(table.live, kernel.filters)
    ensures FailureTells(old(table.live), Answered(native, raw.eventCapacity), eventCapacity, events.capacity, entries,
                         old(kernel.filters), kernel.filters, old(kernel.history), kernel.history, r)
  {
    events.Clear();
    pending.Clear();
    r, entries, outcomes, longer :=
      ObserveWith(table, kernel, raw, disarms, pending, events, eventCapacity, wakeKey, log, native);
    pending.Clear();
    if r.Err? { events.Clear(); }
  }

  method ObserveWith(table: RegistrationTable, kernel: Kernel, raw: KeventBatch, disarms: DisarmBatch,
                     pending: KqueuePending, events: EventBuffer, eventCapacity: nat, wakeKey: Option<Key>,
                     ghost log: seq<LogEntry>, native: Result<seq<Kevent>, IoError>)
    returns (r: Result<WaitReport, Error>, ghost entries: seq<PendingResource>, ghost outcomes: seq<RecoveryOutcome>,
             ghost longer: seq<LogEntry>)
    requires table.Valid() && raw.Valid() && disarms.Valid() && pending.Valid() && events.Valid()
    requires Sound(log, table.live, table.slots) && Contained(table.live, kernel.filters)
    requires events.items == [] && pending.batch == []
    requires raw.changeCapacity == disarms.changeCapacity && pending.bySlot.Length == table.limit
    requires 1 <= eventCapacity == pending.capacity && disarms.planCapacity == Min(eventCapacity, table.limit)
    modifies table, kernel, raw, raw.storage, disarms, pending, pending.bySlot, events
    ensures table.Valid() && raw.Valid() && disarms.Valid() && pending.Valid() && events.Valid()
    ensures Sound(longer, table.live, table.slots) && Contained(table.live, kernel.filters)
    ensures WaitOutcome(Moment(old(table.live), old(table.slots)), Moment(table.live, table.slots), log, longer,
                        Answered(native, raw.eventCapacity), eventCapacity, events.capacity, wakeKey, entries, outcomes,
                        events.items, r, old(kernel.history), kernel.history)
    ensures SameGenerations(old(table.slots), table.slots)
    ensures r.Ok? && Agrees(old(table.live), old(kernel.filters)) ==> Agrees(table.live, kernel.filters)
    ensures FailureTells(old(table.live), Answered(native, raw.eventCapacity), eventCapacity, events.capacity, entries,
                         old(kernel.filters), kernel.filters, old(kernel.history), kernel.history, r)
  {
    ghost var live, slots, asked := table.live, table.slots, kernel.history;
    table.AllLiveIssued();
    entries, outcomes, longer := [], [], log;
    if events.capacity < eventCapacity {
      return Err(EventsTooSmall(eventCapacity, events.capacity)), entries, outcomes, longer;
    }
    var observed := raw.Wait(native);
    match observed {
      case Err(source) => return Err(Io(OpWait, source)), entries, outcomes, longer;
      case Ok(_) =>
        r, entries, outcomes := Translate(table, kernel, raw, disarms, pending, events, eventCapacity, wakeKey);
        if r.Ok? {
          DeliveryTells(log, live, slots, table.slots, native.value, eventCapacity, events.capacity, wakeKey, entries,
                        outcomes, table.live, events.items, r.value, asked, kernel.history);
          longer := log + OutcomesLog(outcomes, |outcomes|);
        }
    }
  }
}
