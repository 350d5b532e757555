/** Validate-then-commit reduction of one kqueue observation: nothing is delivered and no state moves
    unless the whole batch is acceptable. */
module Recovery {
  import opened Vocabulary
  import opened Slots
  import opened RegistrationTables
  import opened MutationMachine
  import opened Events
  import opened Pending

  datatype RecoveryOutcome = RecoveryOutcome(registration: RegistrationId, commit: CommitStatus,
                                             state: RegistrationState)

  datatype RecoveryFailure = RecoveryFailure(outcomes: seq<RecoveryOutcome>, source: IoError)

  datatype WaitReport = WaitReport(recovery: Option<RecoveryFailure>)

  function NewOutcome(registration: RegistrationId, commit: CommitStatus): RecoveryOutcome {
    RecoveryOutcome(registration, commit, StateAfterDisarm(commit))
  }

  /** Outcomes are made by `NewOutcome` alone. */
  predicate Consistent(outcomes: seq<RecoveryOutcome>) {
    forall i | 0 <= i < |outcomes| :: outcomes[i].state == StateAfterDisarm(outcomes[i].commit)
  }

  /** The one-shot registrations among the first `n` entries, in observation order. */
  function OneShotIds(live: LiveMap, pending: seq<PendingResource>, n: nat): seq<RegistrationId>
    requires n <= |pending|
  {
    if n == 0 then []
    else
      var earlier := OneShotIds(live, pending, n - 1);
      var id := pending[n - 1].registration;
      if id in live && live[id].mode == OneShot then earlier + [id] else earlier
  }

  predicate OutcomesFor(outcomes: seq<RecoveryOutcome>, ids: seq<RegistrationId>) {
    |outcomes| == |ids| && forall i | 0 <= i < |ids| :: outcomes[i].registration == ids[i]
  }

  /** A live entry with a proven state, armed if it is one-shot. */
  predicate DeliverableId(live: LiveMap, id: RegistrationId) {
    id in live && live[id].state.Registered? && (live[id].mode == OneShot ==> live[id].state == ARMED)
  }

  predicate Deliverable(live: LiveMap, pending: seq<PendingResource>, n: nat)
    requires n <= |pending|
  {
    forall k | 0 <= k < n :: DeliverableId(live, pending[k].registration)
  }

  predicate SomeUnapplied(outcomes: seq<RecoveryOutcome>) {
    exists i | 0 <= i < |outcomes| :: outcomes[i].commit != Applied
  }

  /** What makes a batch acceptable as a whole. */
  predicate Acceptable(live: LiveMap, pending: seq<PendingResource>, delivered: nat, outcomes: seq<RecoveryOutcome>,
                       failed: bool)
  {
    && delivered <= |pending|
    && Deliverable(live, pending, delivered)
    && OutcomesFor(outcomes, OneShotIds(live, pending, delivered))
    && (failed <==> SomeUnapplied(outcomes))
  }

  function ResourceEvents(delivered: seq<PendingResource>): seq<Event> {
    seq(|delivered|, k requires 0 <= k < |delivered| => Resource(delivered[k].key, delivered[k].readiness))
  }

  function WakeEvents(woke: bool, wakeKey: Option<Key>): seq<Event> {
    if woke && wakeKey.Some? then [Wake(wakeKey.value)] else []
  }

  /** The live map after each of the first `n` outcomes moved its registration to its own state. */
  function ApplyOutcomes(live: LiveMap, outcomes: seq<RecoveryOutcome>, n: nat): LiveMap
    requires n <= |outcomes|
  {
    if n == 0 then live
    else
      var earlier := ApplyOutcomes(live, outcomes, n - 1);
      var id := outcomes[n - 1].registration;
      if id in earlier then earlier[id := earlier[id].(state := StateAfterDisarm(outcomes[n - 1].commit))] else earlier
  }

  ghost predicate DistinctOutcomes(outcomes: seq<RecoveryOutcome>) {
    forall i, j | 0 <= i < j < |outcomes| :: outcomes[i].registration != outcomes[j].registration
  }

  ghost predicate DistinctPending(pending: seq<PendingResource>) {
    forall i, j | 0 <= i < j < |pending| :: pending[i].registration != pending[j].registration
  }

  /** Exactly the registrations with an outcome move, each to its outcome's state. */
  lemma {:induction false} OutcomesApplied(live: LiveMap, outcomes: seq<RecoveryOutcome>, n: nat)
    requires n <= |outcomes| && DistinctOutcomes(outcomes)
    ensures ApplyOutcomes(live, outcomes, n).Keys == live.Keys
    ensures forall id | id in live && (forall i | 0 <= i < n :: outcomes[i].registration != id) ::
              ApplyOutcomes(live, outcomes, n)[id] == live[id]
    ensures forall i | 0 <= i < n && outcomes[i].registration in live ::
              ApplyOutcomes(live, outcomes, n)[outcomes[i].registration]
              == live[outcomes[i].registration].(state := StateAfterDisarm(outcomes[i].commit))
  {
    if n > 0 { OutcomesApplied(live, outcomes, n - 1); }
  }

  lemma {:induction false} OneShotIdsDelivered(live: LiveMap, pending: seq<PendingResource>, n: nat)
    requires n <= |pending|
    ensures |OneShotIds(live, pending, n)| <= n
    ensures forall id | id in OneShotIds(live, pending, n) ::
              id in live && live[id].mode == OneShot && exists k | 0 <= k < n :: pending[k].registration == id
    ensures forall k | 0 <= k < n && pending[k].registration in live && live[pending[k].registration].mode == OneShot ::
              pending[k].registration in OneShotIds(live, pending, n)
    ensures DistinctPending(pending) ==>
              forall i, j | 0 <= i < j < |OneShotIds(live, pending, n)| ::
                OneShotIds(live, pending, n)[i] != OneShotIds(live, pending, n)[j]
  {
    if n > 0 {
      OneShotIdsDelivered(live, pending, n - 1);
      var earlier, id := OneShotIds(live, pending, n - 1), pending[n - 1].registration;
      if DistinctPending(pending) { assert id !in earlier; }
    }
  }

  /** The ids of a shorter prefix come first. */
  lemma {:induction false} OneShotIdsPrefix(live: LiveMap, pending: seq<PendingResource>, k: nat, n: nat)
    requires k <= n <= |pending|
    ensures OneShotIds(live, pending, k) <= OneShotIds(live, pending, n)
    decreases n - k
  {
    if k < n { OneShotIdsPrefix(live, pending, k + 1, n); }
  }

  // ---------- Validation ----------

  /** Reads the table only; succeeds exactly on acceptable batches. */
  method Validate(table: RegistrationTable, pending: seq<PendingResource>, delivered: nat,
                  outcomes: seq<RecoveryOutcome>, hasSource: bool)
    returns (r: Result<Unit, Error>)
    requires table.Valid()
    ensures r.Ok? <==> Acceptable(table.live, pending, delivered, outcomes, hasSource)
    ensures r.Err? ==> r.error == Invariant
  {
    if delivered > |pending| { return Err(Invariant); }
    var matched := MatchOutcomes(table, pending, delivered, outcomes);
    if matched.Err? { return Err(Invariant); }
    var required := SomeUnapplied(outcomes);
    if hasSource != required { return Err(Invariant); }
    r := Ok(Unit);
  }

  /** Walks the delivered entries beside the outcomes. */
  method MatchOutcomes(table: RegistrationTable, pending: seq<PendingResource>, delivered: nat,
                       outcomes: seq<RecoveryOutcome>)
    returns (r: Result<Unit, Error>)
    requires table.Valid() && delivered <= |pending|
    ensures r.Ok? <==>
              Deliverable(table.live, pending, delivered)
              && OutcomesFor(outcomes, OneShotIds(table.live, pending, delivered))
    ensures r.Err? ==> r.error == Invariant
  {
    var next := 0;
    for k := 0 to delivered
      invariant Begins(outcomes, next, OneShotIds(table.live, pending, k))
      invariant Deliverable(table.live, pending, k)
    {
      var matched := MatchOne(table, pending[k].registration, outcomes, next);
      match matched {
        case Err(e) =>
          RefusedStep(table.live, pending, k, delivered, outcomes, next);
          return Err(e);
        case Ok(after) =>
          AcceptedStep(table.live, pending, k, outcomes, next);
          next := after;
      }
    }
    if next < |outcomes| { return Err(Invariant); }
    r := Ok(Unit);
  }

  lemma {:induction false} AcceptedStep(live: LiveMap, pending: seq<PendingResource>, k: nat,
                                        outcomes: seq<RecoveryOutcome>, next: nat)
    requires k < |pending| && Begins(outcomes, next, OneShotIds(live, pending, k)) && Deliverable(live, pending, k)
    requires var id := pending[k].registration;
             DeliverableId(live, id)
             && (live[id].mode == OneShot ==> next < |outcomes| && outcomes[next].registration == id)
    ensures Deliverable(live, pending, k + 1)
    ensures Begins(outcomes, if live[pending[k].registration].mode == OneShot then next + 1 else next,
                   OneShotIds(live, pending, k + 1))
  {
  }

  /** The first `next` outcomes are for exactly `ids`. */
  ghost predicate Begins(outcomes: seq<RecoveryOutcome>, next: nat, ids: seq<RegistrationId>) {
    next == |ids| <= |outcomes| && forall i | 0 <= i < next :: outcomes[i].registration == ids[i]
  }

  /** A refused entry dooms the whole batch. */
  lemma {:induction false} RefusedStep(live: LiveMap, pending: seq<PendingResource>, k: nat, delivered: nat,
                                       outcomes: seq<RecoveryOutcome>, next: nat)
    requires k < delivered <= |pending| && Begins(outcomes, next, OneShotIds(live, pending, k))
    requires var id := pending[k].registration;
             DeliverableId(live, id) ==>
               live[id].mode == OneShot && (next == |outcomes| || outcomes[next].registration != id)
    ensures !(Deliverable(live, pending, delivered) && OutcomesFor(outcomes, OneShotIds(live, pending, delivered)))
  {
    OneShotIdsPrefix(live, pending, k + 1, delivered);
    var ids := OneShotIds(live, pending, delivered);
    if DeliverableId(live, pending[k].registration) {
      assert ids[next] == pending[k].registration;
    }
  }

  /** One delivered entry: a one-shot consumes the next outcome, which must be its own. */
  method MatchOne(table: RegistrationTable, id: RegistrationId, outcomes: seq<RecoveryOutcome>, next: nat)
    returns (r: Result<nat, Error>)
    requires table.Valid() && next <= |outcomes|
    ensures var live := table.live;
            r == if !DeliverableId(live, id) then Err(Invariant)
                 else if live[id].mode == Level then Ok(next)
                 else if next < |outcomes| && outcomes[next].registration == id then Ok(next + 1)
                 else Err(Invariant)
  {
    var found := table.BindingOf(id, false);
    if found.Err? { return Err(Invariant); }
    if found.value.mode != OneShot { return Ok(next); }
    if found.value.state != ARMED { return Err(Invariant); }
    if next == |outcomes| { return Err(Invariant); }
    if outcomes[next].registration != id { return Err(Invariant); }
    r := Ok(next + 1);
  }

  // ---------- Commit ----------

  /** All or nothing: an unacceptable batch changes neither the events nor the table. */
  method Finish(table: RegistrationTable, events: EventBuffer, pending: seq<PendingResource>, delivered: nat,
                woke: bool, wakeKey: Option<Key>, outcomes: seq<RecoveryOutcome>, source: Option<IoError>)
    returns (r: Result<WaitReport, Error>)
    requires table.Valid() && events.Valid()
    requires DistinctPending(pending) && Consistent(outcomes)
    requires delivered <= |pending| ==> |events.items| + delivered + |WakeEvents(woke, wakeKey)| <= events.capacity
    modifies table, events
    ensures table.Valid() && events.Valid() && SameGenerations(old(table.slots), table.slots)
    ensures r.Ok? <==> Acceptable(old(table.live), pending, delivered, outcomes, source.Some?)
    ensures r.Err? ==> r.error == Invariant && table.slots == old(table.slots) && table.live == old(table.live)
                       && events.items == old(events.items)
    ensures r.Ok? ==>
              && events.items == old(events.items) + ResourceEvents(pending[..delivered]) + WakeEvents(woke, wakeKey)
              && table.live == ApplyOutcomes(old(table.live), outcomes, |outcomes|)
              && r.value.recovery == (if source.Some? then Some(RecoveryFailure(outcomes, source.value)) else None)
  {
    var validated := Validate(table, pending, delivered, outcomes, source.Some?);
    if validated.Err? { return Err(Invariant); }
    var pushed := PushEvents(events, pending[..delivered], woke, wakeKey);
    if pushed.Err? { return Err(Invariant); }
    OutcomesDisarmable(table.live, pending, delivered, outcomes);
    var snapshot := CommitOutcomes(table, outcomes);
    match snapshot {
      case Err(e) => r := Err(e);
      case Ok(list) =>
        match source {
          case None => r := Ok(WaitReport(None));
          case Some(cause) => r := Ok(WaitReport(Some(RecoveryFailure(list, cause))));
        }
    }
  }

  method PushEvents(events: EventBuffer, delivered: seq<PendingResource>, woke: bool, wakeKey: Option<Key>)
    returns (r: Result<Unit, Error>)
    requires events.Valid() && |events.items| + |delivered| + |WakeEvents(woke, wakeKey)| <= events.capacity
    modifies events
    ensures events.Valid() && r == Ok(Unit)
    ensures events.items == old(events.items) + ResourceEvents(delivered) + WakeEvents(woke, wakeKey)
  {
    for k := 0 to |delivered|
      invariant events.Valid() && events.items == old(events.items) + ResourceEvents(delivered)[..k]
    {
      var pushed := events.TryPush(Resource(delivered[k].key, delivered[k].readiness));
      if pushed.Err? { return Err(Invariant); }
    }
    if woke && wakeKey.Some? {
      var pushed := events.TryPush(Wake(wakeKey.value));
      if pushed.Err? { return Err(Invariant); }
    }
    r := Ok(Unit);
  }

  lemma {:induction false} OutcomesDisarmable(live: LiveMap, pending: seq<PendingResource>, delivered: nat,
                                              outcomes: seq<RecoveryOutcome>)
    requires delivered <= |pending| && DistinctPending(pending) && Deliverable(live, pending, delivered)
    requires OutcomesFor(outcomes, OneShotIds(live, pending, delivered))
    ensures DistinctOutcomes(outcomes)
    ensures forall i | 0 <= i < |outcomes| :: Disarmable(live, outcomes[i].registration)
  {
    OneShotIdsDelivered(live, pending, delivered);
    forall i | 0 <= i < |outcomes| ensures Disarmable(live, outcomes[i].registration) {
      assert OneShotIds(live, pending, delivered)[i] in OneShotIds(live, pending, delivered);
    }
  }

  method CommitOutcomes(table: RegistrationTable, outcomes: seq<RecoveryOutcome>)
    returns (r: Result<seq<RecoveryOutcome>, Error>)
    requires table.Valid() && Consistent(outcomes) && DistinctOutcomes(outcomes)
    requires forall i | 0 <= i < |outcomes| :: Disarmable(table.live, outcomes[i].registration)
    modifies table
    ensures table.Valid() && SameGenerations(old(table.slots), table.slots)
    ensures r == Ok(outcomes) && table.live == ApplyOutcomes(old(table.live), outcomes, |outcomes|)
  {
    ghost var live := table.live;
    var snapshot := [];
    for i := 0 to |outcomes|
      invariant table.Valid() && SameGenerations(old(table.slots), table.slots)
      invariant |snapshot| == i && forall j | 0 <= j < i :: snapshot[j] == outcomes[j]
      invariant table.live == ApplyOutcomes(live, outcomes, i)
    {
      var outcome := outcomes[i];
      StillArmed(live, outcomes, i);
      var applied := table.ApplyDisarm(outcome.registration, outcome.commit);
      match applied {
        case Err(e) => return Err(e);
        case Ok(state) => if state != outcome.state { return Err(Invariant); }
      }
      snapshot := snapshot + [outcome];
    }
    assert snapshot == outcomes;
    r := Ok(snapshot);
  }

  /** Settling the earlier outcomes leaves the next registration armed. */
  lemma {:induction false} StillArmed(live: LiveMap, outcomes: seq<RecoveryOutcome>, i: nat)
    requires i < |outcomes| && DistinctOutcomes(outcomes)
    requires Disarmable(live, outcomes[i].registration)
    ensures Disarmable(ApplyOutcomes(live, outcomes, i), outcomes[i].registration)
  {
    OutcomesApplied(live, outcomes, i);
  }
}
