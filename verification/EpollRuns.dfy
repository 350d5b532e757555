/** Whole runs of the Linux poller: any sequence of calls, with any report from every native change and any
    records from every wait. An honest kernel makes every change in full or not at all and reports only what
    its interest list allows; what holds over any kernel is proved without that. */
module EpollRuns {
  import opened Vocabulary
  import opened Slots
  import opened MutationMachine
  import opened Runs
  import opened EpollTranslations
  import opened EpollBatches
  import opened EpollPolls
  import opened EpollLists

  datatype EpollCall =
    | Registers(descriptor: Descriptor, key: Key, interest: Interest, mode: Mode, native: NativeResult)
    | Modifies(registration: Registration, interest: Interest, mode: Mode, native: NativeResult)
    | Deletes(registration: Registration, native: NativeResult)
    | Waits(answer: Result<seq<RawRecord>, IoError>)
  {
    /** The handle that the caller used. */
    function Used(): Option<RegistrationId> {
      if Modifies? || Deletes? then Some(registration.id) else None
    }
  }

  /** A wait is answered with no more records than it asked for. */
  predicate Answerable(call: EpollCall, maxEvents: nat) {
    call.Waits? && call.answer.Ok? ==> |call.answer.value| <= maxEvents
  }

  // ---------- What one call tells ----------

  /** A call that reached its native change returned what that change reported. */
  predicate Faithful(error: Option<Error>, native: NativeResult) {
    Reached(error).Some? ==> Reached(error) == Some(CommitOf(native))
  }

  /** How a call with this error moved the table. A refused batch has disarmed its accepted beginning. */
  ghost predicate Moves(live: LiveMap, later: LiveMap, call: EpollCall, error: Option<Error>,
                        issued: Option<RegistrationId>)
  {
    match call
    case Registers(descriptor, key, interest, mode, native) =>
      RegisterMoves(live, later, Entry(descriptor, key, interest, mode, ARMED), error, issued)
      && Faithful(error, native)
    case Modifies(registration, interest, mode, native) =>
      ModifyMoves(live, later, registration.id, interest, mode, error) && Faithful(error, native)
    case Deletes(registration, native) => DeleteMoves(live, later, registration.id, error) && Faithful(error, native)
    case Waits(answer) =>
      match error
      case None =>
        answer.Ok? && FiresOnce(live, answer.value, |answer.value|)
        && later == DisarmedBy(live, answer.value, |answer.value|)
      case Some(Invariant) =>
        answer.Ok? && !FiresOnce(live, answer.value, |answer.value|) && later == Afterwards(live, answer.value)
      case Some(e) => later == live && (e.EventsTooSmall? || answer.Err?)
  }

  /** What the call added to the delivery log: a delivery for every one-shot that an accepted batch fired. */
  function Logged(live: LiveMap, call: EpollCall, error: Option<Error>): seq<LogEntry> {
    match call
    case Modifies(registration, _, _, _) => ModifyLog(registration.id, error)
    case Waits(Ok(records)) => if error.None? then FiredLog(live, records, |records|) else []
    case _ => []
  }

  function LogOf(run: seq<Moment>, calls: seq<EpollCall>, errors: seq<Option<Error>>, n: nat): seq<LogEntry>
    requires n <= |run| && n <= |calls| && n <= |errors|
  {
    if n == 0 then [] else LogOf(run, calls, errors, n - 1) + Logged(run[n - 1].live, calls[n - 1], errors[n - 1])
  }

  lemma {:induction false} LogOfPrefix(run: seq<Moment>, calls: seq<EpollCall>, errors: seq<Option<Error>>, n: nat,
                                       next: Moment, error: Option<Error>)
    requires n <= |run| && n <= |calls| && n <= |errors|
    ensures LogOf(run + [next], calls, errors + [error], n) == LogOf(run, calls, errors, n)
  {
    if n > 0 { LogOfPrefix(run, calls, errors, n - 1, next, error); }
  }

  lemma {:induction false} LogGrows(log: seq<LogEntry>, run: seq<Moment>, calls: seq<EpollCall>,
                                    errors: seq<Option<Error>>, next: Moment, error: Option<Error>)
    requires |run| == |errors| + 1 && |errors| < |calls|
    ensures log + LogOf(run + [next], calls, errors + [error], |errors| + 1)
            == log + LogOf(run, calls, errors, |errors|) + Logged(run[|errors|].live, calls[|errors|], error)
  {
    LogOfPrefix(run, calls, errors, |errors|, next, error);
  }

  /** The call leads from one moment to the next. */
  ghost predicate Follows(before: Moment, after: Moment, call: EpollCall, error: Option<Error>,
                          issued: Option<RegistrationId>)
  {
    && Evolves(before, after) && Issuing(before, after, issued)
    && RefusesRetired(before.live, call.Used(), error)
    && Moves(before.live, after.live, call, error, issued)
  }

  /** A call that keeps every generation issues nothing. */
  lemma {:induction false} KeepingFollows(before: Moment, after: Moment, call: EpollCall, error: Option<Error>)
    requires Evolves(before, after) && SameGenerations(before.slots, after.slots)
    requires RefusesRetired(before.live, call.Used(), error) && Moves(before.live, after.live, call, error, None)
    ensures Follows(before, after, call, error, None)
  {
    SameGenerationsSameIssued(before.slots, after.slots);
  }

  // ---------- One call ----------

  method PlayRegister(poll: EpollPoll, descriptor: Descriptor, key: Key, interest: Interest, mode: Mode,
                      native: NativeResult)
    returns (error: Option<Error>, ghost issued: Option<RegistrationId>)
    requires poll.Valid()
    modifies poll.owner, poll.ids, poll.table
    ensures poll.Valid()
    ensures Follows(old(poll.Now()), poll.Now(), Registers(descriptor, key, interest, mode, native), error, issued)
  {
    ghost var before, id := poll.Now(), 0;
    var registered;
    registered, id := poll.Register(descriptor, key, interest, mode, native);
    error, issued := RegisterCause(registered), IssuedBy(registered, id);
    RegisterTellsMove(before, poll.Now(), Entry(descriptor, key, interest, mode, ARMED), registered, id);
  }

  method PlayModify(poll: EpollPoll, registration: Registration, interest: Interest, mode: Mode, native: NativeResult)
    returns (error: Option<Error>)
    requires poll.Valid()
    modifies poll.table, poll`log
    ensures poll.Valid()
    ensures Follows(old(poll.Now()), poll.Now(), Modifies(registration, interest, mode, native), error, None)
    ensures poll.log == old(poll.log) + ModifyLog(registration.id, error)
  {
    ghost var before := poll.Now();
    var modified := poll.Modify(registration, interest, mode, native);
    error := ModifyCause(modified);
    ModifyTellsMove(poll.owner.Current(), before.live, poll.table.live, registration, interest, mode, modified);
    KeepingFollows(before, poll.Now(), Modifies(registration, interest, mode, native), error);
  }

  method PlayDelete(poll: EpollPoll, registration: Registration, native: NativeResult) returns (error: Option<Error>)
    requires poll.Valid()
    modifies poll.table
    ensures poll.Valid()
    ensures Follows(old(poll.Now()), poll.Now(), Deletes(registration, native), error, None)
  {
    ghost var before := poll.Now();
    var deleted := poll.Delete(registration, native);
    error := DeleteCause(deleted);
    DeleteTellsMove(poll.owner.Current(), before.live, poll.table.live, registration, deleted);
    KeepingFollows(before, poll.Now(), Deletes(registration, native), error);
  }

  method PlayWait(poll: EpollPoll, storage: EventStorage, flagMap: FlagMap, answer: Result<seq<RawRecord>, IoError>)
    returns (error: Option<Error>)
    requires poll.Valid() && storage.Valid() && storage.layout == poll.batch.layout
    requires Answerable(Waits(answer), poll.batch.maxEvents)
    modifies poll.table, poll.batch, storage, storage.memory, poll`log
    ensures poll.Valid() && storage.Valid()
    ensures Follows(old(poll.Now()), poll.Now(), Waits(answer), error, None)
    ensures poll.log == old(poll.log) + Logged(old(poll.table.live), Waits(answer), error)
  {
    ghost var before := poll.Now();
    var waited := poll.Wait(storage, flagMap, answer);
    error := ModifyCause(waited);
    KeepingFollows(before, poll.Now(), Waits(answer), error);
  }

  method PlayOne(poll: EpollPoll, storage: EventStorage, flagMap: FlagMap, call: EpollCall)
    returns (error: Option<Error>, ghost issued: Option<RegistrationId>)
    requires poll.Valid() && storage.Valid() && storage.layout == poll.batch.layout
             && Answerable(call, poll.batch.maxEvents)
    modifies poll, poll.owner, poll.ids, poll.table, poll.batch, storage, storage.memory
    ensures poll.Valid() && storage.Valid()
    ensures Follows(old(poll.Now()), poll.Now(), call, error, issued)
    ensures poll.log == old(poll.log) + Logged(old(poll.table.live), call, error)
  {
    issued := None;
    match call {
      case Registers(descriptor, key, interest, mode, native) =>
        error, issued := PlayRegister(poll, descriptor, key, interest, mode, native);
      case Modifies(registration, interest, mode, native) =>
        error := PlayModify(poll, registration, interest, mode, native);
      case Deletes(registration, native) =>
        error := PlayDelete(poll, registration, native);
      case Waits(answer) =>
        error := PlayWait(poll, storage, flagMap, answer);
    }
  }

  // ---------- Whole runs ----------

  /** What the record of a run says: moments in order, and how every call led from one to the next. */
  ghost predicate Recorded(run: seq<Moment>, ledger: seq<Option<RegistrationId>>, calls: seq<EpollCall>,
                           errors: seq<Option<Error>>)
  {
    && |run| == |errors| + 1 && |ledger| == |errors| <= |calls|
    && forall i | 0 <= i < |errors| :: Follows(run[i], run[i + 1], calls[i], errors[i], ledger[i])
  }

  lemma {:induction false} RecordOne(run: seq<Moment>, ledger: seq<Option<RegistrationId>>, calls: seq<EpollCall>,
                                     errors: seq<Option<Error>>, next: Moment, error: Option<Error>,
                                     issued: Option<RegistrationId>)
    requires Recorded(run, ledger, calls, errors) && |errors| < |calls|
    requires Follows(run[|errors|], next, calls[|errors|], error, issued)
    ensures Recorded(run + [next], ledger + [issued], calls, errors + [error])
  {
    var longer, issues, returned := run + [next], ledger + [issued], errors + [error];
    forall i | 0 <= i < |returned| ensures Follows(longer[i], longer[i + 1], calls[i], returned[i], issues[i]) {
      if i < |errors| { assert Follows(run[i], run[i + 1], calls[i], errors[i], ledger[i]); }
    }
  }

  lemma {:induction false} RecordsAreOrderly(run: seq<Moment>, ledger: seq<Option<RegistrationId>>,
                                             calls: seq<EpollCall>, errors: seq<Option<Error>>)
    requires Recorded(run, ledger, calls, errors)
    ensures NeverRepeats(ledger) && StaysRetired(run)
  {
    RecordsAreRuns(run, ledger, calls, errors);
    RunsAreOrderly(run, ledger);
  }

  lemma {:induction false} RecordsAreRuns(run: seq<Moment>, ledger: seq<Option<RegistrationId>>, calls: seq<EpollCall>,
                                          errors: seq<Option<Error>>)
    requires Recorded(run, ledger, calls, errors)
    ensures IsRun(run) && IsLedger(run, ledger)
  {
    forall i | 0 <= i < |errors| ensures Evolves(run[i], run[i + 1]) && Issuing(run[i], run[i + 1], ledger[i]) {
      assert Follows(run[i], run[i + 1], calls[i], errors[i], ledger[i]);
    }
  }

  // ---------- One-shots handed over ----------

  /** The call is a wait that handed over the one-shot `id`. */
  predicate HandsOverOneShot(live: LiveMap, call: EpollCall, error: Option<Error>, id: RegistrationId) {
    && call.Waits? && error.None? && call.answer.Ok?
    && id != 0 && id in live && live[id].state.Registered? && live[id].mode == OneShot
    && exists i | 0 <= i < |call.answer.value| :: call.answer.value[i].token == id
  }

  /** The call is a modification of `id` that was committed. */
  predicate RearmsOneShot(call: EpollCall, error: Option<Error>, id: RegistrationId) {
    && call.Modifies? && call.registration.id == id
    && (error.None? || (error.value.Mutation? && error.value.commit == Applied))
  }

  /** No call arms a generation but a committed modification of it. */
  lemma {:induction false} StaysUnarmed(before: Moment, after: Moment, call: EpollCall, error: Option<Error>,
                                        issued: Option<RegistrationId>, id: RegistrationId)
    requires Follows(before, after, call, error, issued)
    requires Issued(before.slots, id) && Unarmed(before.live, id) && !RearmsOneShot(call, error, id)
    ensures Unarmed(after.live, id)
  {
  }

  /** A one-shot that is handed over was armed, and is not armed afterwards. */
  lemma {:induction false} HandingOverUnarms(before: Moment, after: Moment, call: EpollCall, error: Option<Error>,
                                             issued: Option<RegistrationId>, id: RegistrationId)
    requires Follows(before, after, call, error, issued) && HandsOverOneShot(before.live, call, error, id)
    ensures before.live[id].state == ARMED && Unarmed(after.live, id)
  {
    var records := call.answer.value;
    var i :| 0 <= i < |records| && records[i].token == id;
    assert Fires(before.live, records[i].token) && Seen(records, |records|, id);
  }

  /** Between two waits of a run that hand over one one-shot generation comes a committed modification of it. */
  ghost predicate OneShotsApart(run: seq<Moment>, calls: seq<EpollCall>, errors: seq<Option<Error>>)
    requires |errors| <= |calls| && |errors| <= |run|
  {
    forall i, j, id: RegistrationId | 0 <= i < j < |errors| && HandsOverOneShot(run[i].live, calls[i], errors[i], id)
                                      && HandsOverOneShot(run[j].live, calls[j], errors[j], id) ::
      exists k | i < k < j :: RearmsOneShot(calls[k], errors[k], id)
  }

  lemma {:induction false} RunsKeepOneShotsApart(run: seq<Moment>, ledger: seq<Option<RegistrationId>>,
                                                 calls: seq<EpollCall>, errors: seq<Option<Error>>)
    requires Recorded(run, ledger, calls, errors) && AllIssued(run)
    ensures OneShotsApart(run, calls, errors)
  {
    forall i, j, id: RegistrationId | 0 <= i < j < |errors| && HandsOverOneShot(run[i].live, calls[i], errors[i], id)
                                      && HandsOverOneShot(run[j].live, calls[j], errors[j], id)
      ensures exists k | i < k < j :: RearmsOneShot(calls[k], errors[k], id)
    {
      if forall k | i < k < j :: !RearmsOneShot(calls[k], errors[k], id) {
        NotHandedOverAgain(run, ledger, calls, errors, i, j, id);
      }
    }
  }

  lemma {:induction false} NotHandedOverAgain(run: seq<Moment>, ledger: seq<Option<RegistrationId>>,
                                              calls: seq<EpollCall>, errors: seq<Option<Error>>, i: nat, j: nat,
                                              id: RegistrationId)
    requires Recorded(run, ledger, calls, errors) && AllIssued(run) && i < j < |errors|
    requires HandsOverOneShot(run[i].live, calls[i], errors[i], id)
    requires forall k | i < k < j :: !RearmsOneShot(calls[k], errors[k], id)
    ensures !HandsOverOneShot(run[j].live, calls[j], errors[j], id)
  {
    RecordsAreRuns(run, ledger, calls, errors);
    assert Follows(run[i], run[i + 1], calls[i], errors[i], ledger[i]);
    HandingOverUnarms(run[i], run[i + 1], calls[i], errors[i], ledger[i], id);
    RunEvolves(run, i, i + 1);
    forall k | i + 1 <= k < j && Issued(run[k].slots, id) && Unarmed(run[k].live, id)
      ensures Unarmed(run[k + 1].live, id)
    {
      assert Follows(run[k], run[k + 1], calls[k], errors[k], ledger[k]);
      StaysUnarmed(run[k], run[k + 1], calls[k], errors[k], ledger[k], id);
    }
    UnarmedPersists(run, i + 1, j, id);
    if HandsOverOneShot(run[j].live, calls[j], errors[j], id) {
      assert Follows(run[j], run[j + 1], calls[j], errors[j], ledger[j]);
      HandingOverUnarms(run[j], run[j + 1], calls[j], errors[j], ledger[j], id);
    }
  }

  /** Every run: the record says how each call moved the table and what it added to the log; between two
      deliveries of one one-shot generation there is a committed modification, no id is issued twice, no
      retired id becomes live again, and a handle that is not live is refused. */
  method PlayRun(poll: EpollPoll, storage: EventStorage, flagMap: FlagMap, calls: seq<EpollCall>)
    returns (ghost run: seq<Moment>, ghost ledger: seq<Option<RegistrationId>>, errors: seq<Option<Error>>)
    requires poll.Valid() && storage.Valid() && storage.layout == poll.batch.layout
    requires forall i | 0 <= i < |calls| :: Answerable(calls[i], poll.batch.maxEvents)
    modifies poll, poll.owner, poll.ids, poll.table, poll.batch, storage, storage.memory
    ensures poll.Valid() && storage.Valid()
    ensures |errors| == |calls| && Recorded(run, ledger, calls, errors)
    ensures run[0] == old(poll.Now()) && run[|calls|] == poll.Now()
    ensures NeverRepeats(ledger) && StaysRetired(run) && OneShotsApart(run, calls, errors)
    ensures poll.log == old(poll.log) + LogOf(run, calls, errors, |calls|)
    ensures Separated(poll.log) && NoneSpared(poll.log)
  {
    run, ledger, errors := [poll.Now()], [], [];
    poll.table.AllLiveIssued();
    for i := 0 to |calls|
      invariant poll.Valid() && storage.Valid()
      invariant |errors| == i && Recorded(run, ledger, calls, errors)
      invariant run[0] == old(poll.Now()) && run[i] == poll.Now() && AllIssued(run)
      invariant poll.log == old(poll.log) + LogOf(run, calls, errors, i)
    {
      ghost var issued;
      var error;
      error, issued := PlayOne(poll, storage, flagMap, calls[i]);
      RecordOne(run, ledger, calls, errors, poll.Now(), error, issued);
      LogGrows(old(poll.log), run, calls, errors, poll.Now(), error);
      poll.table.AllLiveIssued();
      AllIssuedOnwards(run, poll.Now());
      run, ledger := run + [poll.Now()], ledger + [issued];
      errors := errors + [error];
    }
    RecordsAreOrderly(run, ledger, calls, errors);
    RunsKeepOneShotsApart(run, ledger, calls, errors);
  }

  // ---------- Runs over an honest kernel ----------

  /** The driver reports every failed change as not applied. */
  predicate NothingOnFailure(native: NativeResult) {
    native.Err? ==> native.error.commit == NotApplied
  }

  /** What an honest kernel answers, given its interest list. It refuses to add a listed descriptor. */
  predicate Serves(list: InterestList, call: EpollCall) {
    match call
    case Registers(descriptor, _, _, _, native) => NothingOnFailure(native) && (native.Ok? ==> descriptor !in list)
    case Modifies(_, _, _, native) => NothingOnFailure(native)
    case Deletes(_, native) => NothingOnFailure(native)
    case Waits(Ok(records)) => Honest(list, records, |records|)
    case Waits(Err(_)) => true
  }

  /** The interest list after a call: changed by what was applied, and by what a wait reported. */
  function ListAfter(live: LiveMap, list: InterestList, call: EpollCall, error: Option<Error>,
                     issued: Option<RegistrationId>)
    : InterestList
  {
    match call
    case Registers(descriptor, _, interest, mode, _) =>
      if Reached(error) == Some(Applied) && issued.Some?
      then list[descriptor := Listed(issued.value, interest, mode, true)]
      else list
    case Modifies(registration, interest, mode, _) =>
      var id := registration.id;
      if Reached(error) == Some(Applied) && id in live
      then list[live[id].descriptor := Listed(id, interest, mode, true)]
      else list
    case Deletes(registration, _) =>
      var id := registration.id;
      if Reached(error) == Some(Applied) && id in live then list - {live[id].descriptor} else list
    case Waits(Ok(records)) =>
      if error.Some? && error.value.EventsTooSmall? then list else ReportedUpTo(list, records, |records|)
    case Waits(Err(_)) => list
  }

  lemma {:induction false} HonestStep(live: LiveMap, later: LiveMap, list: InterestList, call: EpollCall,
                                      error: Option<Error>, issued: Option<RegistrationId>)
    requires ListAgrees(live, list) && Serves(list, call) && Moves(live, later, call, error, issued)
    ensures ListAgrees(later, ListAfter(live, list, call, error, issued))
    ensures call.Waits? ==> error != Some(Invariant)
  {
    match call {
      case Registers(descriptor, key, interest, mode, _) =>
        if Reached(error) == Some(Applied) {
          AddKeepsAgreement(live, list, issued.value, Entry(descriptor, key, interest, mode, ARMED));
        }
      case Modifies(registration, interest, mode, _) =>
        if Reached(error) == Some(Applied) { ChangeKeepsAgreement(live, list, registration.id, interest, mode); }
      case Deletes(registration, _) =>
        if Reached(error) == Some(Applied) { RemovalKeepsAgreement(live, list, registration.id); }
      case Waits(answer) =>
        if answer.Ok? { HonestBatchFiresOnce(live, list, answer.value, |answer.value|); }
    }
  }

  /** The interest lists that an honest kernel goes through beside a run. */
  ghost predicate ServedBy(lists: seq<InterestList>, run: seq<Moment>, ledger: seq<Option<RegistrationId>>,
                           calls: seq<EpollCall>, errors: seq<Option<Error>>)
  {
    && |lists| == |run| == |errors| + 1 && |ledger| == |errors| <= |calls|
    && ListAgrees(run[0].live, lists[0])
    && forall i | 0 <= i < |errors| ::
         Serves(lists[i], calls[i]) && lists[i + 1] == ListAfter(run[i].live, lists[i], calls[i], errors[i], ledger[i])
  }

  lemma {:induction false} ListsAgree(lists: seq<InterestList>, run: seq<Moment>, ledger: seq<Option<RegistrationId>>,
                                      calls: seq<EpollCall>, errors: seq<Option<Error>>, n: nat)
    requires Recorded(run, ledger, calls, errors) && ServedBy(lists, run, ledger, calls, errors) && n <= |errors|
    ensures ListAgrees(run[n].live, lists[n])
  {
    if n > 0 {
      ListsAgree(lists, run, ledger, calls, errors, n - 1);
      assert Follows(run[n - 1], run[n - 1 + 1], calls[n - 1], errors[n - 1], ledger[n - 1]);
      HonestStep(run[n - 1].live, run[n].live, lists[n - 1], calls[n - 1], errors[n - 1], ledger[n - 1]);
    }
  }

  /** Over an honest kernel table and interest list agree after every call of every run, and no wait fails
      internally. */
  lemma {:induction false} HonestRunDelivers(lists: seq<InterestList>, run: seq<Moment>,
                                             ledger: seq<Option<RegistrationId>>, calls: seq<EpollCall>,
                                             errors: seq<Option<Error>>)
    requires Recorded(run, ledger, calls, errors) && ServedBy(lists, run, ledger, calls, errors)
    ensures forall n | 0 <= n < |run| :: ListAgrees(run[n].live, lists[n])
    ensures forall i | 0 <= i < |errors| && calls[i].Waits? :: errors[i] != Some(Invariant)
  {
    forall n | 0 <= n < |run| ensures ListAgrees(run[n].live, lists[n]) {
      ListsAgree(lists, run, ledger, calls, errors, n);
    }
    forall i | 0 <= i < |errors| && calls[i].Waits? ensures errors[i] != Some(Invariant) {
      ListsAgree(lists, run, ledger, calls, errors, i);
      assert Follows(run[i], run[i + 1], calls[i], errors[i], ledger[i]);
      HonestStep(run[i].live, run[i + 1].live, lists[i], calls[i], errors[i], ledger[i]);
    }
  }
}
