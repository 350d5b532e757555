/** Safety over whole runs: what holds between any two moments, from what each step keeps. */
module Runs {
  import opened Vocabulary
  import opened Slots
  import opened RegistrationTables
  import opened PollOwners
  import opened MutationMachine
  import opened Recovery

  // ---------- Generations ----------

  /** What a run remembers of the table at one moment. */
  datatype Moment = Moment(live: LiveMap, slots: seq<Slot>)

  /** One step: issued ids stay issued, and only a fresh id may become live. */
  ghost predicate Evolves(a: Moment, b: Moment) {
    && (forall id: RegistrationId :: Issued(a.slots, id) ==> Issued(b.slots, id))
    && (forall id: RegistrationId :: id in b.live && id !in a.live ==> !Issued(a.slots, id))
  }

  ghost predicate IsRun(run: seq<Moment>) {
    forall i | 0 <= i < |run| - 1 :: Evolves(run[i], run[i + 1])
  }

  lemma {:induction false} EvolvesInOrder(a: Moment, b: Moment, c: Moment)
    requires Evolves(a, b) && Evolves(b, c)
    ensures Evolves(a, c)
  {
  }

  lemma {:induction false} RunEvolves(run: seq<Moment>, i: nat, j: nat)
    requires IsRun(run) && i <= j < |run|
    ensures Evolves(run[i], run[j])
    decreases j - i
  {
    if i < j {
      RunEvolves(run, i, j - 1);
      assert Evolves(run[j - 1], run[j - 1 + 1]);
      EvolvesInOrder(run[i], run[j - 1], run[j]);
    }
  }

  /** A retired handle is stale forever. */
  lemma {:induction false} StaleForever(run: seq<Moment>, i: nat, j: nat, id: RegistrationId)
    requires IsRun(run) && i <= j < |run|
    requires Issued(run[i].slots, id) && id !in run[i].live
    ensures id !in run[j].live
  {
    RunEvolves(run, i, j);
  }

  /** No id is issued twice: what one registration issues, no later one issues again. */
  lemma {:induction false} IssuedOnce(run: seq<Moment>, i: nat, j: nat, first: RegistrationId, second: RegistrationId)
    requires IsRun(run) && i < j < |run| - 1
    requires IssuesFirst(run[i].slots, run[i + 1].slots, first)
    requires IssuesFirst(run[j].slots, run[j + 1].slots, second)
    ensures first != second
  {
    RunEvolves(run, i + 1, j);
    assert Issued(run[i + 1].slots, first);
  }

  /** What one step issued: nothing, or one id never issued before. */
  ghost predicate Issuing(a: Moment, b: Moment, issued: Option<RegistrationId>) {
    match issued
    case None => forall id: RegistrationId :: Issued(b.slots, id) <==> Issued(a.slots, id)
    case Some(id) => IssuesFirst(a.slots, b.slots, id)
  }

  /** The ids issued by the steps of a run, one place for each step. */
  ghost predicate IsLedger(run: seq<Moment>, ledger: seq<Option<RegistrationId>>) {
    |run| == |ledger| + 1 && forall i | 0 <= i < |ledger| :: Issuing(run[i], run[i + 1], ledger[i])
  }

  ghost predicate NeverRepeats(ledger: seq<Option<RegistrationId>>) {
    forall i, j | 0 <= i < j < |ledger| && ledger[i].Some? :: ledger[i] != ledger[j]
  }

  ghost predicate StaysRetired(run: seq<Moment>) {
    forall i, j, id: RegistrationId | 0 <= i <= j < |run| && Issued(run[i].slots, id) && id in run[j].live ::
      id in run[i].live
  }

  /** Over any run, no id is issued twice and no retired id becomes live again. */
  lemma {:induction false} RunsAreOrderly(run: seq<Moment>, ledger: seq<Option<RegistrationId>>)
    requires IsRun(run) && IsLedger(run, ledger)
    ensures NeverRepeats(ledger) && StaysRetired(run)
  {
    forall i, j | 0 <= i < j < |ledger| && ledger[i].Some? ensures ledger[i] != ledger[j] {
      assert Issuing(run[i], run[i + 1], ledger[i]) && Issuing(run[j], run[j + 1], ledger[j]);
      if ledger[j].Some? { IssuedOnce(run, i, j, ledger[i].value, ledger[j].value); }
    }
    forall i, j, id: RegistrationId | 0 <= i <= j < |run| && Issued(run[i].slots, id) && id in run[j].live
      ensures id in run[i].live
    {
      if id !in run[i].live { StaleForever(run, i, j, id); }
    }
  }

  /** The result of a registration that reached its native call tells which fresh id it used, never the
      wake token, what the
      live map became, and whether the caller holds a handle. */
  ghost predicate RegisterTells(before: Moment, after: Moment, entry: Entry, r: Result<Registration, RegisterError>,
                                id: RegistrationId)
    requires r.Ok? || r.error.cause.Mutation?
  {
    var commit := if r.Ok? then Applied else r.error.cause.commit;
    && IssuesFirst(before.slots, after.slots, id) && id !in before.live && id != 0
    && after.live == MutationMachine.Registered(before.live, id, entry, commit)
    && (if r.Ok? then r.value.id == id
        else if commit.NotApplied? then r.error.registration.None?
        else r.error.registration.Some? && r.error.registration.value.id == id)
  }

  // ---------- What stays unarmed ----------

  /** Every live id was issued. */
  ghost predicate AllIssued(run: seq<Moment>) {
    forall i, id: RegistrationId | 0 <= i < |run| && id in run[i].live :: Issued(run[i].slots, id)
  }

  lemma {:induction false} AllIssuedOnwards(run: seq<Moment>, next: Moment)
    requires AllIssued(run) && forall id | id in next.live :: Issued(next.slots, id)
    ensures AllIssued(run + [next])
  {
  }

  predicate Unarmed(live: LiveMap, id: RegistrationId) {
    id in live ==> live[id].state != ARMED
  }

  /** The steps from `i` to `j` that leave an unarmed generation unarmed leave it so altogether. */
  lemma {:induction false} UnarmedPersists(run: seq<Moment>, i: nat, j: nat, id: RegistrationId)
    requires IsRun(run) && i <= j < |run| && Issued(run[i].slots, id) && Unarmed(run[i].live, id)
    requires forall k | i <= k < j ::
               Issued(run[k].slots, id) && Unarmed(run[k].live, id) ==> Unarmed(run[k + 1].live, id)
    ensures Unarmed(run[j].live, id)
    decreases j - i
  {
    if i < j {
      UnarmedPersists(run, i, j - 1, id);
      RunEvolves(run, i, j - 1);
      assert Unarmed(run[j - 1 + 1].live, id);
    }
  }

  // ---------- One-shot deliveries ----------

  datatype LogEntry = Delivered(id: RegistrationId) | Rearmed(id: RegistrationId) | Spared(id: RegistrationId)

  /** Between two deliveries of one one-shot generation comes a committed modification, or a report
      that the first delivery's disarm was not applied. */
  ghost predicate Separated(log: seq<LogEntry>) {
    forall i, j {:trigger Between(log, i, j, log[i].id)} |
      0 <= i < j < |log| && log[i].Delivered? && log[j] == log[i] :: Between(log, i, j, log[i].id)
  }

  ghost predicate Between(log: seq<LogEntry>, i: nat, j: nat, id: RegistrationId)
    requires i < j <= |log|
  {
    exists k | i < k < j :: log[k] == Rearmed(id) || log[k] == Spared(id)
  }

  /** The last thing the first `n` entries say of `id` is a delivery. */
  predicate Spent(log: seq<LogEntry>, n: nat, id: RegistrationId)
    requires n <= |log|
  {
    n > 0 && if log[n - 1].id == id then log[n - 1].Delivered? else Spent(log, n - 1, id)
  }

  lemma {:induction false} UnspentIsSeparated(log: seq<LogEntry>, n: nat, id: RegistrationId, i: nat)
    requires i < n <= |log| && log[i] == Delivered(id) && !Spent(log, n, id)
    ensures Between(log, i, n, id)
  {
    if log[n - 1].id == id {
      assert log[n - 1] == Rearmed(id) || log[n - 1] == Spared(id);
    } else {
      UnspentIsSeparated(log, n - 1, id, i);
      var k :| i < k < n - 1 && (log[k] == Rearmed(id) || log[k] == Spared(id));
    }
  }

  /** What the log must say of the table for the next wait to keep deliveries apart. */
  ghost predicate LogFits(log: seq<LogEntry>, live: LiveMap, slots: seq<Slot>) {
    && Separated(log)
    && (forall i | 0 <= i < |log| :: Issued(slots, log[i].id))
    && (forall id | id in live && live[id].state == ARMED :: !Spent(log, |log|, id))
  }

  lemma {:induction false} SpentPrefix(log: seq<LogEntry>, longer: seq<LogEntry>, n: nat, id: RegistrationId)
    requires n <= |log| <= |longer| && longer[..|log|] == log
    ensures Spent(longer, n, id) == Spent(log, n, id)
  {
    if n > 0 {
      assert longer[n - 1] == longer[..|log|][n - 1];
      SpentPrefix(log, longer, n - 1, id);
    }
  }

  lemma {:induction false} SpentStep(log: seq<LogEntry>, entry: LogEntry, id: RegistrationId)
    ensures Spent(log + [entry], |log| + 1, id) == if entry.id == id then entry.Delivered? else Spent(log, |log|, id)
  {
    SpentPrefix(log, log + [entry], |log|, id);
  }

  lemma {:induction false} SeparatedStep(log: seq<LogEntry>, entry: LogEntry)
    requires Separated(log) && (entry.Delivered? ==> !Spent(log, |log|, entry.id))
    ensures Separated(log + [entry])
  {
    var longer := log + [entry];
    forall i, j | 0 <= i < j < |longer| && longer[i].Delivered? && longer[j] == longer[i]
      ensures Between(longer, i, j, longer[i].id)
    {
      if j == |log| {
        UnspentIsSeparated(log, |log|, entry.id, i);
        var k :| i < k < |log| && (log[k] == Rearmed(entry.id) || log[k] == Spared(entry.id));
        assert longer[k] == log[k];
      } else {
        assert Between(log, i, j, log[i].id);
        var k :| i < k < j && (log[k] == Rearmed(log[i].id) || log[k] == Spared(log[i].id));
        assert longer[k] == log[k];
      }
    }
  }

  /** The log of one reported one-shot delivery. */
  function OutcomeLog(outcome: RecoveryOutcome): seq<LogEntry> {
    [Delivered(outcome.registration)] + if outcome.commit.NotApplied? then [Spared(outcome.registration)] else []
  }

  function OutcomesLog(outcomes: seq<RecoveryOutcome>, n: nat): seq<LogEntry>
    requires n <= |outcomes|
  {
    if n == 0 then [] else OutcomesLog(outcomes, n - 1) + OutcomeLog(outcomes[n - 1])
  }

  lemma {:induction false} OneDeliveryFits(log: seq<LogEntry>, live: LiveMap, slots: seq<Slot>,
                                           outcome: RecoveryOutcome)
    requires LogFits(log, live, slots) && Disarmable(live, outcome.registration) && Issued(slots, outcome.registration)
    ensures LogFits(log + OutcomeLog(outcome),
                    live[outcome.registration :=
                      live[outcome.registration].(state := StateAfterDisarm(outcome.commit))], slots)
  {
    var id := outcome.registration;
    var delivered := log + [Delivered(id)];
    SeparatedStep(log, Delivered(id));
    forall other: RegistrationId
      ensures Spent(delivered, |delivered|, other) == (other == id || Spent(log, |log|, other))
    {
      SpentStep(log, Delivered(id), other);
    }
    if outcome.commit.NotApplied? {
      SeparatedStep(delivered, Spared(id));
      assert log + OutcomeLog(outcome) == delivered + [Spared(id)];
      forall other: RegistrationId
        ensures Spent(delivered + [Spared(id)], |delivered| + 1, other)
                == (other != id && Spent(delivered, |delivered|, other))
      {
        SpentStep(delivered, Spared(id), other);
      }
    } else {
      assert log + OutcomeLog(outcome) == delivered;
    }
  }

  /** A whole reported batch keeps deliveries apart, whatever the kernel did. */
  lemma {:induction false} DeliveriesFit(log: seq<LogEntry>, live: LiveMap, slots: seq<Slot>,
                                         outcomes: seq<RecoveryOutcome>, n: nat)
    requires LogFits(log, live, slots) && n <= |outcomes| && DistinctOutcomes(outcomes)
    requires forall i | 0 <= i < |outcomes| ::
               Disarmable(live, outcomes[i].registration) && Issued(slots, outcomes[i].registration)
    ensures LogFits(log + OutcomesLog(outcomes, n), ApplyOutcomes(live, outcomes, n), slots)
  {
    if n == 0 {
      assert log + [] == log;
    } else {
      DeliveriesFit(log, live, slots, outcomes, n - 1);
      StillArmed(live, outcomes, n - 1);
      OneDeliveryFits(log + OutcomesLog(outcomes, n - 1), ApplyOutcomes(live, outcomes, n - 1), slots, outcomes[n - 1]);
      LogStep(log, outcomes, n);
    }
  }

  lemma {:induction false} LogStep(log: seq<LogEntry>, outcomes: seq<RecoveryOutcome>, n: nat)
    requires 0 < n <= |outcomes|
    ensures log + OutcomesLog(outcomes, n) == log + OutcomesLog(outcomes, n - 1) + OutcomeLog(outcomes[n - 1])
  {
  }

  /** A committed modification rearms. */
  lemma {:induction false} RearmFits(log: seq<LogEntry>, live: LiveMap, slots: seq<Slot>, id: RegistrationId,
                                     entry: Entry)
    requires LogFits(log, live, slots) && Issued(slots, id)
    ensures LogFits(log + [Rearmed(id)], live[id := entry], slots)
  {
    SeparatedStep(log, Rearmed(id));
    forall other: RegistrationId
      ensures Spent(log + [Rearmed(id)], |log| + 1, other) == (other != id && Spent(log, |log|, other))
    {
      SpentStep(log, Rearmed(id), other);
    }
  }

  /** A registration under a fresh id has no past. */
  lemma {:induction false} RegisterFits(log: seq<LogEntry>, live: LiveMap, before: seq<Slot>, after: seq<Slot>,
                                        later: LiveMap, id: RegistrationId)
    requires LogFits(log, live, before) && IssuesFirst(before, after, id)
    requires later - {id} == live - {id}
    ensures LogFits(log, later, after)
  {
    NoPast(log, |log|, id, before);
    forall other | other in later && later[other].state == ARMED ensures !Spent(log, |log|, other) {
      if other != id { assert other in later - {id} && (later - {id})[other] == (live - {id})[other]; }
    }
  }

  /** Nothing becomes armed: uncertainty and retirement need no log. */
  lemma {:induction false} DisarmingFits(log: seq<LogEntry>, live: LiveMap, before: seq<Slot>, later: LiveMap,
                                         after: seq<Slot>)
    requires LogFits(log, live, before) && SameGenerations(before, after)
    requires forall id | id in later && later[id].state == ARMED :: id in live && live[id].state == ARMED
    ensures LogFits(log, later, after)
  {
    SameGenerationsSameIssued(before, after);
  }

  lemma {:induction false} NoPast(log: seq<LogEntry>, n: nat, id: RegistrationId, slots: seq<Slot>)
    requires n <= |log| && (forall i | 0 <= i < |log| :: Issued(slots, log[i].id)) && !Issued(slots, id)
    ensures !Spent(log, n, id)
  {
    if n > 0 { NoPast(log, n - 1, id, slots); }
  }

  // ---------- What one call tells of the table and of the log ----------

  /** How far the native change of a mutation got: in full if there is no error, and nowhere if the error
      came before any native call. */
  function Reached(error: Option<Error>): Option<CommitStatus> {
    match error
    case None => Some(Applied)
    case Some(Mutation(_, commit, _)) => Some(commit)
    case Some(_) => None
  }

  /** What the driver reported to a call that reached it. */
  function Told(error: Option<Error>): NativeResult
    requires Reached(error).Some?
  {
    if error.None? then Ok(Unit) else Err(MutationFailure(error.value.commit, error.value.source))
  }

  /** A handle that is not live is refused for good, before any native call. */
  predicate RefusesRetired(live: LiveMap, used: Option<RegistrationId>, error: Option<Error>) {
    used.Some? && used.value !in live ==>
      error.Some? && error.value in {Stale(used.value), WrongPoller(used.value), InvalidInterest}
  }

  predicate RegisterMoves(live: LiveMap, later: LiveMap, entry: Entry, error: Option<Error>,
                          issued: Option<RegistrationId>)
  {
    && (issued.Some? <==> Reached(error).Some?)
    && match issued
       case None => later == live
       case Some(id) =>
         id !in live && id != 0 && later == MutationMachine.Registered(live, id, entry, Reached(error).value)
  }

  predicate ModifyMoves(live: LiveMap, later: LiveMap, id: RegistrationId, interest: Interest, mode: Mode,
                        error: Option<Error>)
  {
    match Reached(error)
    case None => later == live
    case Some(commit) =>
      id in live && live[id].state.Registered? && !interest.IsEmpty()
      && later == Modified(live, id, interest, mode, commit)
  }

  predicate DeleteMoves(live: LiveMap, later: LiveMap, id: RegistrationId, error: Option<Error>) {
    match Reached(error)
    case None => later == live
    case Some(commit) => id in live && later == Deleted(live, id, commit)
  }

  function RegisterCause(r: Result<Registration, RegisterError>): Option<Error> {
    if r.Ok? then None else Some(r.error.cause)
  }

  /** A registration takes the fresh id `id` exactly when it reaches its native call. */
  function IssuedBy(r: Result<Registration, RegisterError>, id: RegistrationId): Option<RegistrationId> {
    if Reached(RegisterCause(r)).Some? then Some(id) else None
  }

  lemma {:induction false} RegisterTellsMove(before: Moment, after: Moment, entry: Entry,
                                             r: Result<Registration, RegisterError>, id: RegistrationId)
    requires if r.Ok? || r.error.cause.Mutation? then RegisterTells(before, after, entry, r, id) else after == before
    ensures RegisterMoves(before.live, after.live, entry, RegisterCause(r), IssuedBy(r, id))
    ensures Issuing(before, after, IssuedBy(r, id))
  {
  }

  function ModifyCause(r: Result<Unit, Error>): Option<Error> { if r.Ok? then None else Some(r.error) }

  lemma {:induction false} ModifyTellsMove(owner: Option<PollId>, live: LiveMap, later: LiveMap,
                                           registration: Registration, interest: Interest, mode: Mode,
                                           r: Result<Unit, Error>)
    requires ModifyTells(owner, live, later, registration, interest, mode, r)
    ensures ModifyMoves(live, later, registration.id, interest, mode, ModifyCause(r))
    ensures RefusesRetired(live, Some(registration.id), ModifyCause(r))
  {
  }

  function DeleteCause(r: Result<Unit, DeleteError>): Option<Error> { if r.Ok? then None else Some(r.error.cause) }

  lemma {:induction false} DeleteTellsMove(owner: Option<PollId>, live: LiveMap, later: LiveMap,
                                           registration: Registration, r: Result<Unit, DeleteError>)
    requires DeleteTells(owner, live, later, registration, r)
    ensures DeleteMoves(live, later, registration.id, DeleteCause(r))
    ensures RefusesRetired(live, Some(registration.id), DeleteCause(r))
  {
  }

  /** A committed modification is logged, and no other mutation is. */
  function ModifyLog(id: RegistrationId, error: Option<Error>): seq<LogEntry> {
    if Reached(error) == Some(Applied) then [Rearmed(id)] else []
  }

  /** A modification that reached its native call, with what it logs. */
  lemma {:induction false} ModifyFits(log: seq<LogEntry>, live: LiveMap, before: seq<Slot>, after: seq<Slot>,
                                      id: RegistrationId, interest: Interest, mode: Mode, error: Option<Error>)
    requires LogFits(log, live, before) && SameGenerations(before, after) && id in live && Issued(before, id)
    requires Reached(error).Some?
    ensures LogFits(log + ModifyLog(id, error), Modified(live, id, interest, mode, Reached(error).value), after)
  {
    SameGenerationsSameIssued(before, after);
    if Reached(error).value.Applied? {
      RearmFits(log, live, before, id, live[id].(interest := interest, mode := mode, state := ARMED));
    } else {
      DisarmingFits(log, live, before, Modified(live, id, interest, mode, Reached(error).value), after);
      assert log + [] == log;
    }
  }
}
