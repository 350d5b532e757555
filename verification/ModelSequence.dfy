/** Replaying a program of actions on a scripted poller beside the reference model, checking every
    result and comparing the full state after every action. */
module ModelSequences {
  import opened Vocabulary
  import opened Token
  import opened Slots
  import opened RegistrationTables
  import opened MutationMachine
  import opened ScriptedDrivers
  import opened ScriptedPolls
  import opened ModelActions
  import opened ReferenceModels

  /** Which comparison diverged. */
  datatype Check =
    | SetupCheck | PreconditionCheck | ResultCheck | HandleCheck | GenerationCheck | CommitCheck | CallsCheck
    | StateCheck | BackendCheck

  type Verdict = Result<Unit, Check>

  // ---------- Expectations ----------

  function ExpectMutationError(error: Error, outcome: Outcome, operation: Operation, kind: ErrorKind): (r: Verdict)
    ensures r.Ok? <==> !outcome.Succeeds? && Err(error) == AsError(operation, NativeOf(outcome, kind))
  {
    match CommitOfOutcome(outcome)
    case None => Err(ResultCheck)
    case Some(commit) =>
      match error
      case Mutation(op, actual, source) =>
        if op == operation && actual == commit && source == Kind(kind) then Ok(Unit) else Err(CommitCheck)
      case _ => Err(CommitCheck)
  }

  /** What an operation returns when its one native call reports `native`. */
  function AsError(operation: Operation, native: NativeResult): Result<Unit, Error> {
    match native
    case Ok(_) => Ok(Unit)
    case Err(failure) => Err(MutationError(operation, failure))
  }

  function ExpectMutationResult(result: Result<Unit, Error>, outcome: Outcome, operation: Operation,
                                kind: ErrorKind): (r: Verdict)
    ensures r.Ok? <==> match result
                       case Ok(_) => outcome.Succeeds?
                       case Err(e) => Err(e) == AsError(operation, NativeOf(outcome, kind))
  {
    match result
    case Ok(_) => if outcome.Succeeds? then Ok(Unit) else Err(ResultCheck)
    case Err(error) =>
      if outcome.Succeeds? then Err(ResultCheck) else ExpectMutationError(error, outcome, operation, kind)
  }

  function ExpectDelete(result: Result<Unit, DeleteError>, outcome: Outcome, expected: Registration): (r: Verdict)
    ensures r.Ok? <==> match result
                       case Ok(_) => outcome.Succeeds?
                       case Err(e) =>
                         e.registration == expected && Err(e.cause) == AsError(OpDelete, NativeOf(outcome, BrokenPipe))
  {
    match result
    case Ok(_) => if outcome.Succeeds? then Ok(Unit) else Err(ResultCheck)
    case Err(e) =>
      if outcome.Succeeds? then Err(ResultCheck)
      else if e.registration != expected then Err(HandleCheck)
      else ExpectMutationError(e.cause, outcome, OpDelete, BrokenPipe)
  }

  /** The handle a registration must have returned: none after a proven refusal, otherwise one for the
      id that the driver saw. */
  function ExpectRegister(result: Result<Registration, RegisterError>, outcome: Outcome, expected: RegistrationId)
    : (r: Result<Option<Registration>, Check>)
    ensures r.Ok? <==> match result
                       case Ok(h) => outcome.Succeeds? && h.id == expected
                       case Err(e) => && Err(e.cause) == AsError(OpRegister, NativeOf(outcome, PermissionDenied))
                                      && (outcome.FailsNotApplied? <==> e.registration.None?)
                                      && (e.registration.Some? ==> e.registration.value.id == expected)
    ensures r.Ok? ==> r.value == match result case Ok(h) => Some(h) case Err(e) => e.registration
  {
    match result
    case Ok(registration) =>
      if !outcome.Succeeds? then Err(ResultCheck)
      else if registration.id == expected then Ok(Some(registration)) else Err(HandleCheck)
    case Err(error) =>
      if outcome.Succeeds? then Err(ResultCheck)
      else match ExpectMutationError(error.cause, outcome, OpRegister, PermissionDenied)
           case Err(check) => Err(check)
           case Ok(_) =>
             match error.registration
             case None => if outcome.FailsNotApplied? then Ok(None) else Err(HandleCheck)
             case Some(registration) =>
               if outcome.FailsNotApplied? || registration.id != expected then Err(HandleCheck)
               else Ok(Some(registration))
  }

  function LastRegisterId(calls: seq<MutationCall>, key: Key, interest: Interest,
                          mode: Mode): Result<RegistrationId, Check>
  {
    if calls == [] then Err(CallsCheck)
    else match calls[|calls| - 1]
         case RegisterCall(id, k, i, m) => if (k, i, m) == (key, interest, mode) then Ok(id) else Err(CallsCheck)
         case _ => Err(CallsCheck)
  }

  /** The number of a descriptor the fixture opened. */
  method OpenSource() returns (source: Descriptor) {
    source := *;
  }

  // ---------- One action ----------

  /** A registration can still be issued: the slot has a generation left, and the poller has an owner id
      or can take one. */
  predicate Supplied(model: ReferenceModel, poll: ScriptedPoll)
    reads model, poll, poll.owner, poll.ids
  {
    |model.issued| < MAX_GENERATION && (poll.owner.raw != 0 || poll.ids.next < U64_MAX)
  }

  /** The action succeeded exactly when it was runnable and, for a registration, supplied; then the two
      sides agree again, one step of the script further where the action plans one, and the model moved
      as the abstract state does. */
  twostate predicate Performed(model: ReferenceModel, poll: ScriptedPoll, action: Action, rest: seq<Step>, ok: bool)
    reads model, poll, poll.ids, poll.owner, poll.table, poll.driver, poll.driver.model
  {
    && (ok <==> Runs(AbstractOf(old(model.State())), action) && (action.DoRegister? ==> old(Supplied(model, poll))))
    && (ok ==> Agree(model, poll, rest) && AbstractOf(model.State()) == Advance(AbstractOf(old(model.State())), action))
  }

  /** What the machine returns for a scripted registration passes the expectations. */
  lemma {:induction false} MachineRegisters(outcome: Outcome, handle: Registration,
                                            result: Result<Registration, RegisterError>)
    requires result == match NativeOf(outcome, PermissionDenied)
                       case Ok(_) => Ok(handle)
                       case Err(failure) =>
                         Err(RegisterError(MutationError(OpRegister, failure),
                                           if failure.commit.NotApplied? then None else Some(handle)))
    ensures ExpectRegister(result, outcome, handle.id) == Ok(if outcome.FailsNotApplied? then None else Some(handle))
  {
  }

  /** Where a registration leaves the model: the driver's last call names the id, which must be new, and
      the result must be the planned one. */
  function RegisterChecked(state: RefState, calls: seq<MutationCall>, result: Result<Registration, RegisterError>,
                           outcome: Outcome, key: Key, interest: Interest, mode: Mode): Result<RefState, Check>
  {
    match LastRegisterId(calls, key, interest, mode)
    case Err(check) => Err(check)
    case Ok(id) =>
      if state.active.Some? then Err(PreconditionCheck)
      else if id in state.issued then Err(GenerationCheck)
      else match ExpectRegister(result, outcome, id)
           case Err(check) => Err(check)
           case Ok(handle) =>
             Ok(RefState(match handle
                         case None => None
                         case Some(h) => Retain(h, interest, mode, if outcome.FailsUnknown? then Uncertain else ARMED),
                         state.retired, state.issued + [id], state.calls + [RegisterCall(id, key, interest, mode)]))
  }

  /** The model's side of a registration. */
  method CheckRegister(model: ReferenceModel, calls: seq<MutationCall>, result: Result<Registration, RegisterError>,
                       outcome: Outcome, key: Key, interest: Interest, mode: Mode)
    returns (r: Verdict)
    requires model.active.None?
    modifies model
    ensures var checked := RegisterChecked(old(model.State()), calls, result, outcome, key, interest, mode);
            (r.Ok? <==> checked.Ok?) && (r.Ok? ==> model.State() == checked.value)
  {
    var last := LastRegisterId(calls, key, interest, mode);
    if last.Err? { return Err(CallsCheck); }
    var recorded := model.RecordRegister(last.value, key, interest, mode);
    if recorded.Err? { return Err(GenerationCheck); }
    var registration := ExpectRegister(result, outcome, last.value);
    if registration.Err? { return Err(registration.error); }
    var completed := model.CompleteRegister(outcome, registration.value, interest, mode);
    if completed.Err? { return Err(PreconditionCheck); }
    r := Ok(Unit);
  }

  /** The poller's view after a registration that the script planned with this outcome. */
  ghost predicate ViewRegistered(before: PollView, after: PollView, outcome: Outcome, id: RegistrationId, entry: Entry,
                                 key: Key)
  {
    && after.raw != 0 && (before.raw != 0 ==> after.raw == before.raw)
    && before.steps != [] && after.steps == before.steps[1..] && after.fault == before.fault
    && after.calls == before.calls + [RegisterCall(id, key, entry.interest, entry.mode)]
    && IssuesFirst(before.slots, after.slots, id) && OneSlotAdvances(1, before.slots, after.slots)
    && Decode(id).Ok? && entry.state == (if outcome.FailsUnknown? then Uncertain else ARMED)
    && after.live == (if outcome.FailsNotApplied? then map[] else map[id := entry])
  }

  /** A registration passes every check exactly when the machine did not refuse it: after a refusal the last
      call on record, if it looks alike at all, is for an id that was issued before. */
  lemma {:induction false} RegisterTies(state: RefState, before: PollView, after: PollView,
                                        result: Result<Registration, RegisterError>, outcome: Outcome,
                                        id: RegistrationId, entry: Entry, key: Key, interest: Interest, mode: Mode,
                                        refused: bool)
    requires Tied(state, before) && state.active.None? && (interest.IsEmpty() ==> refused)
    requires refused ==> after.calls == before.calls
    requires !refused ==>
               && ViewRegistered(before, after, outcome, id, entry, key)
               && (entry.interest, entry.mode) == (interest, mode)
               && ExpectRegister(result, outcome, id)
                  == Ok(if outcome.FailsNotApplied? then None else Some(Handle(after.raw, id)))
    ensures var checked := RegisterChecked(state, after.calls, result, outcome, key, interest, mode);
            && (checked.Ok? <==> !refused)
            && (checked.Ok? ==> Tied(checked.value, after) && |checked.value.issued| == |state.issued| + 1
                                && PhaseOf(checked.value.active) == PhaseAfter(outcome, Held(mode, Armed), Vacant)
                                && checked.value.retired == state.retired)
  {
    if !refused {
      IssueCounts(state.issued, before.slots, after.slots, id);
      IssueRetires(state.retired, before.raw, after.raw, before.live, after.live, before.slots, after.slots, id);
    }
  }

  /** The poller's side of a registration in a vacant one-slot table, refused or as the script plans. */
  method PlayRegister(poll: ScriptedPoll, outcome: Outcome, key: Key, interest: Interest, mode: Mode)
    returns (result: Result<Registration, RegisterError>, ghost entry: Entry, ghost id: RegistrationId)
    requires poll.Valid() && poll.table.limit == 1 && poll.table.live == map[]
    requires poll.driver.steps != [] && [poll.driver.steps[0]] == MutationStep(DoRegister(outcome, key, interest, mode))
    modifies poll.owner, poll.ids, poll.table, poll.driver, poll.driver.model
    ensures poll.Valid() && KeepsOwners(poll.owner, poll.ids)
    ensures old(RegisterRefused(poll.owner, poll.ids, poll.table, interest)) ==> View(poll) == old(View(poll))
    ensures !old(RegisterRefused(poll.owner, poll.ids, poll.table, interest)) ==>
              && ViewRegistered(old(View(poll)), View(poll), outcome, id, entry, key)
              && (entry.interest, entry.mode) == (interest, mode)
              && ExpectRegister(result, outcome, id)
                 == Ok(if outcome.FailsNotApplied? then None else Some(Handle(poll.owner.raw, id)))
  {
    var source := OpenSource();
    ghost var native := NativeOf(outcome, PermissionDenied);
    assert Planned(poll.driver.steps, OpRegister) == native;
    result, id := poll.Register(source, key, interest, mode);
    entry := Entry(source, key, interest, mode, if outcome.FailsUnknown? then Uncertain else ARMED);
    if !old(RegisterRefused(poll.owner, poll.ids, poll.table, interest)) {
      MachineRegisters(outcome, Handle(poll.owner.raw, id), result);
    }
  }

  method PerformRegister(poll: ScriptedPoll, model: ReferenceModel, outcome: Outcome, key: Key, interest: Interest,
                         mode: Mode, ghost rest: seq<Step>)
    returns (r: Verdict)
    requires Agree(model, poll, MutationStep(DoRegister(outcome, key, interest, mode)) + rest)
    modifies model, poll.owner, poll.ids, poll.table, poll.driver, poll.driver.model
    ensures Performed(model, poll, DoRegister(outcome, key, interest, mode), rest, r.Ok?)
    ensures KeepsOwners(poll.owner, poll.ids) && (r.Ok? ==> |model.issued| == |old(model.issued)| + 1)
  {
    if model.active.Some? { return Err(PreconditionCheck); }
    VacantRoom(model, poll, poll.driver.steps);
    ghost var state, before := model.State(), View(poll);
    ghost var refused := RegisterRefused(poll.owner, poll.ids, poll.table, interest);
    var result, entry, id := PlayRegister(poll, outcome, key, interest, mode);
    RegisterTies(state, before, View(poll), result, outcome, id, entry, key, interest, mode, refused);
    ghost var after := View(poll);
    r := CheckRegister(model, poll.driver.calls, result, outcome, key, interest, mode);
    assert poll.Valid() && View(poll) == after;
    assert r.Ok? ==> AbstractOf(model.State()) == Advance(AbstractOf(state), DoRegister(outcome, key, interest, mode));
  }

  /** The poller made one call and issued nothing. */
  ghost predicate ViewPlayed(before: PollView, after: PollView, call: MutationCall) {
    && after.raw == before.raw && after.fault == before.fault && after.calls == before.calls + [call]
    && SameGenerations(before.slots, after.slots)
  }

  /** The call left the registration's entry as `entry`. */
  ghost predicate ViewStored(before: PollView, after: PollView, id: RegistrationId, entry: Entry, call: MutationCall) {
    ViewPlayed(before, after, call) && id in before.live && after.live == before.live[id := entry]
  }

  /** Storing the same new interest, mode and state on both sides keeps the agreement. */
  lemma {:induction false} StoreTies(state: RefState, before: PollView, after: PollView, entry: Entry,
                                     call: MutationCall)
    requires Tied(state, before) && state.active.Some? && !call.RegisterCall?
    requires ViewStored(before, after, state.active.value.registration.id, entry, call)
    ensures Tied(state.(active := Retain(state.active.value.registration, entry.interest, entry.mode, entry.state),
                        calls := state.calls + [call]), after)
  {
    SameGenerationsSameIssued(before.slots, after.slots);
  }

  /** Retiring the held handle leaves the slot vacant on both sides. */
  lemma {:induction false} RetireTies(state: RefState, before: PollView, after: PollView, call: MutationCall)
    requires Tied(state, before) && state.active.Some? && !call.RegisterCall?
    requires ViewPlayed(before, after, call) && after.live == before.live - {state.active.value.registration.id}
    requires Issued(before.slots, state.active.value.registration.id)
    ensures Tied(state.(active := None, retired := state.retired + [state.active.value.registration],
                        calls := state.calls + [call]), after)
  {
    SameGenerationsSameIssued(before.slots, after.slots);
    assert after.live == map[];
  }

  method PerformDisarm(poll: ScriptedPoll, model: ReferenceModel, ghost rest: seq<Step>) returns (r: Verdict)
    requires Agree(model, poll, rest)
    modifies model, poll.table, poll.driver, poll.driver.model
    ensures Performed(model, poll, DoDisarm, rest, r.Ok?) && model.issued == old(model.issued)
  {
    if model.active.None? { return Err(PreconditionCheck); }
    var entry := model.active.value;
    ghost var state, before := model.State(), View(poll);
    var disarmed := model.Disarm();
    if disarmed.Err? { return Err(PreconditionCheck); }
    var result := poll.EstablishDisarmed(entry.registration);
    if result.Err? { return Err(ResultCheck); }
    StoreTies(state, before, View(poll), poll.table.live[entry.registration.id],
              EstablishDisarmedCall(entry.registration.id));
    r := Ok(Unit);
  }

  /** The registration's entry after a modification that the driver reported on like this. */
  function EntryModified(entry: Entry, interest: Interest, mode: Mode, commit: CommitStatus): Entry {
    match commit
    case Applied => entry.(interest := interest, mode := mode, state := ARMED)
    case NotApplied => entry
    case Unknown => entry.(state := Uncertain)
  }

  /** The poller's side of a modification: the planned result comes back exactly when the interest is
      not empty. */
  method PlayModify(poll: ScriptedPoll, registration: Registration, outcome: Outcome, interest: Interest, mode: Mode)
    returns (r: Verdict)
    requires poll.Valid() && registration.owner == poll.owner.raw != 0
    requires registration.id in poll.table.live && poll.table.live[registration.id].state.Registered?
    requires poll.driver.steps != [] && [poll.driver.steps[0]] == MutationStep(DoModify(outcome, interest, mode))
    modifies poll.table, poll.driver, poll.driver.model
    ensures poll.Valid() && (r.Ok? <==> !interest.IsEmpty())
    ensures r.Ok? ==>
              var id := registration.id;
              var entry := old(poll.table.live)[id];
              && ViewStored(old(View(poll)), View(poll), id,
                            EntryModified(entry, interest, mode, CommitOf(NativeOf(outcome, TimedOut))),
                            ModifyCall(id, entry.interest, entry.mode, entry.state.arm, interest, mode))
              && poll.driver.steps == old(poll.driver.steps)[1..]
  {
    ghost var native := NativeOf(outcome, TimedOut);
    assert Planned(poll.driver.steps, OpModify) == native;
    ghost var live := poll.table.live;
    var result := poll.Modify(registration, interest, mode);
    r := ExpectMutationResult(result, outcome, OpModify, TimedOut);
    if !interest.IsEmpty() && outcome.FailsNotApplied? {
      assert live[registration.id := live[registration.id]] == live;
    }
  }

  /** What a modification with this outcome makes of the model. */
  function StateModified(state: RefState, outcome: Outcome, interest: Interest, mode: Mode): RefState
    requires state.active.Some? && state.active.value.state.Registered?
  {
    var entry := state.active.value;
    var calls := state.calls
        + [ModifyCall(entry.registration.id, entry.interest, entry.mode, entry.state.arm, interest, mode)];
    match outcome
    case FailsNotApplied => state.(calls := calls)
    case FailsUnknown => state.(active := Some(entry.(state := Uncertain)), calls := calls)
    case _ => state.(active := Retain(entry.registration, interest, mode, ARMED), calls := calls)
  }

  lemma {:induction false} ModifyTies(state: RefState, before: PollView, after: PollView, outcome: Outcome,
                                      interest: Interest, mode: Mode)
    requires Tied(state, before) && state.active.Some? && state.active.value.state.Registered?
    requires var id := state.active.value.registration.id;
             var entry := before.live[id];
             ViewStored(before, after, id, EntryModified(entry, interest, mode, CommitOf(NativeOf(outcome, TimedOut))),
                        ModifyCall(id, entry.interest, entry.mode, entry.state.arm, interest, mode))
    ensures Tied(StateModified(state, outcome, interest, mode), after)
    ensures !interest.IsEmpty() ==>
              AbstractOf(StateModified(state, outcome, interest, mode))
                == Advance(AbstractOf(state), DoModify(outcome, interest, mode))
  {
    var entry := state.active.value;
    var id := entry.registration.id;
    StoreTies(state, before, after, after.live[id],
              ModifyCall(id, entry.interest, entry.mode, entry.state.arm, interest, mode));
  }

  method PerformModify(poll: ScriptedPoll, model: ReferenceModel, outcome: Outcome, interest: Interest, mode: Mode,
                       ghost rest: seq<Step>)
    returns (r: Verdict)
    requires Agree(model, poll, MutationStep(DoModify(outcome, interest, mode)) + rest)
    modifies model, poll.table, poll.driver, poll.driver.model
    ensures Performed(model, poll, DoModify(outcome, interest, mode), rest, r.Ok?) && model.issued == old(model.issued)
  {
    ghost var state, before := model.State(), View(poll);
    var recorded := model.RecordModify(interest, mode);
    if recorded.Err? { return Err(PreconditionCheck); }
    var entry := recorded.value;
    assert poll.driver.steps[1..] == rest;
    var played := PlayModify(poll, entry.registration, outcome, interest, mode);
    if played.Err? { return played; }
    ghost var after := View(poll);
    assert poll.driver.steps == rest && poll.table.limit == 1;
    ModifyTies(state, before, after, outcome, interest, mode);
    var completed := model.CompleteModify(outcome, interest, mode);
    if completed.Err? { return Err(PreconditionCheck); }
    assert poll.Valid() && View(poll) == after && model.State() == StateModified(state, outcome, interest, mode);
    r := Ok(Unit);
  }

  /** The poller's side of a deletion in a one-slot table. */
  method PlayDelete(poll: ScriptedPoll, registration: Registration, outcome: Outcome) returns (r: Verdict)
    requires poll.Valid() && registration.owner == poll.owner.raw != 0 && registration.id in poll.table.live
    requires poll.driver.steps != [] && [poll.driver.steps[0]] == MutationStep(DoDelete(outcome))
    modifies poll.table, poll.driver, poll.driver.model
    ensures poll.Valid() && r.Ok?
    ensures var id := registration.id;
            var entry := old(poll.table.live)[id];
            var call := DeleteCall(id, entry.interest, entry.state);
            && ViewPlayed(old(View(poll)), View(poll), call)
            && poll.table.live == (match outcome
                                   case FailsNotApplied => old(poll.table.live)[id := entry]
                                   case FailsUnknown => old(poll.table.live)[id := entry.(state := Uncertain)]
                                   case _ => old(poll.table.live) - {id})
            && poll.driver.steps == old(poll.driver.steps)[1..]
  {
    ghost var native := NativeOf(outcome, BrokenPipe);
    assert Planned(poll.driver.steps, OpDelete) == native;
    ghost var live := poll.table.live;
    var result := poll.Delete(registration);
    r := ExpectDelete(result, outcome, registration);
    if outcome.FailsNotApplied? {
      assert live[registration.id := live[registration.id]] == live;
    }
  }

  /** What a deletion with this outcome makes of the model. */
  function StateDeleted(state: RefState, outcome: Outcome): RefState
    requires state.active.Some?
  {
    var entry := state.active.value;
    var calls := state.calls + [DeleteCall(entry.registration.id, entry.interest, entry.state)];
    match outcome
    case FailsNotApplied => state.(calls := calls)
    case FailsUnknown => state.(active := Some(entry.(state := Uncertain)), calls := calls)
    case _ => state.(active := None, retired := state.retired + [entry.registration], calls := calls)
  }

  lemma {:induction false} DeleteTies(state: RefState, before: PollView, after: PollView, outcome: Outcome)
    requires Tied(state, before) && state.active.Some? && Issued(before.slots, state.active.value.registration.id)
    requires var id := state.active.value.registration.id;
             var entry := before.live[id];
             && ViewPlayed(before, after, DeleteCall(id, entry.interest, entry.state))
             && after.live == match outcome
                              case FailsNotApplied => before.live[id := entry]
                              case FailsUnknown => before.live[id := entry.(state := Uncertain)]
                              case _ => before.live - {id}
    ensures Tied(StateDeleted(state, outcome), after)
    ensures AbstractOf(StateDeleted(state, outcome)) == Advance(AbstractOf(state), DoDelete(outcome))
  {
    var entry := state.active.value;
    var id := entry.registration.id;
    var call := DeleteCall(id, entry.interest, entry.state);
    if outcome.FailsNotApplied? || outcome.FailsUnknown? {
      StoreTies(state, before, after, after.live[id], call);
    } else {
      RetireTies(state, before, after, call);
    }
  }

  method PerformDelete(poll: ScriptedPoll, model: ReferenceModel, outcome: Outcome, ghost rest: seq<Step>)
    returns (r: Verdict)
    requires Agree(model, poll, MutationStep(DoDelete(outcome)) + rest)
    modifies model, poll.table, poll.driver, poll.driver.model
    ensures Performed(model, poll, DoDelete(outcome), rest, r.Ok?) && model.issued == old(model.issued)
  {
    ghost var state, before := model.State(), View(poll);
    var recorded := model.RecordDelete();
    if recorded.Err? { return Err(PreconditionCheck); }
    var entry := recorded.value;
    assert poll.driver.steps[1..] == rest;
    poll.table.LiveIsIssued(entry.registration.id);
    var played := PlayDelete(poll, entry.registration, outcome);
    if played.Err? { return played; }
    ghost var after := View(poll);
    DeleteTies(state, before, after, outcome);
    var completed := model.CompleteDelete(outcome);
    if completed.Err? { return Err(PreconditionCheck); }
    assert poll.Valid() && View(poll) == after && model.State() == StateDeleted(state, outcome);
    r := Ok(Unit);
  }

  // ---------- Actions that reach no backend ----------

  method PerformRegisterInvalid(poll: ScriptedPoll, model: ReferenceModel, key: Key, mode: Mode, ghost rest: seq<Step>)
    returns (r: Verdict)
    requires Agree(model, poll, rest)
    modifies poll.owner, poll.ids, poll.table, poll.driver, poll.driver.model
    ensures Performed(model, poll, DoRegisterInvalid(key, mode), rest, r.Ok?) && KeepsOwners(poll.owner, poll.ids)
    ensures poll.owner.raw == old(poll.owner.raw)
  {
    if model.active.Some? { return Err(PreconditionCheck); }
    var source := OpenSource();
    var calls := |poll.driver.calls|;
    var result, _ := poll.Register(source, key, EMPTY_INTEREST, mode);
    match result {
      case Ok(_) => return Err(ResultCheck);
      case Err(error) =>
        if error.registration.Some? { return Err(HandleCheck); }
        if error.cause != InvalidInterest { return Err(ResultCheck); }
    }
    r := if calls == |poll.driver.calls| then Ok(Unit) else Err(CallsCheck);
  }

  method PerformModifyInvalid(poll: ScriptedPoll, model: ReferenceModel, mode: Mode, ghost rest: seq<Step>)
    returns (r: Verdict)
    requires Agree(model, poll, rest)
    modifies poll.table, poll.driver, poll.driver.model
    ensures Performed(model, poll, DoModifyInvalid(mode), rest, r.Ok?)
  {
    if model.active.None? { return Err(PreconditionCheck); }
    var calls := |poll.driver.calls|;
    var result := poll.Modify(model.active.value.registration, EMPTY_INTEREST, mode);
    if result != Err(InvalidInterest) { return Err(ResultCheck); }
    r := if calls == |poll.driver.calls| then Ok(Unit) else Err(CallsCheck);
  }

  /** Every operation on a handle that this poller does not hold is refused with one error, and nothing
      changes: stale for its own retired handles, wrong-poller for another poller's. */
  method ProbeRefused(poll: ScriptedPoll, registration: Registration, interest: Interest, mode: Mode, error: Error)
    returns (r: Verdict)
    requires poll.Valid() && !interest.IsEmpty()
    requires error == if poll.owner.Current() == Some(registration.owner) then Stale(registration.id)
                      else WrongPoller(registration.id)
    modifies poll.table, poll.driver, poll.driver.model
    ensures poll.Valid()
    ensures r.Ok? <==> error.WrongPoller? || registration.id !in old(poll.table.live)
    ensures r.Ok? ==> View(poll) == old(View(poll))
  {
    var calls := |poll.driver.calls|;
    var state := poll.StateOf(registration);
    if state != Err(error) { return Err(ResultCheck); }
    var modified := poll.Modify(registration, interest, mode);
    if modified != Err(error) { return Err(ResultCheck); }
    var deleted := poll.Delete(registration);
    match deleted {
      case Ok(_) => return Err(ResultCheck);
      case Err(e) =>
        if e.registration != registration { return Err(HandleCheck); }
        if e.cause != error { return Err(ResultCheck); }
    }
    r := if calls == |poll.driver.calls| then Ok(Unit) else Err(CallsCheck);
  }

  method PerformProbeStale(poll: ScriptedPoll, model: ReferenceModel, ghost rest: seq<Step>) returns (r: Verdict)
    requires Agree(model, poll, rest)
    modifies poll.table, poll.driver, poll.driver.model
    ensures Performed(model, poll, ProbeStale, rest, r.Ok?)
  {
    var stale := model.Stale();
    if stale.None? { return Err(PreconditionCheck); }
    r := ProbeRefused(poll, stale.value, READABLE, OneShot, Error.Stale(stale.value.id));
  }

  // ---------- The stranger ----------

  const STRANGER_KEY: Key := 0x5a10_ffff_ffff_ffff

  /** The other poller still holds its one registration and nobody made it call its driver again. */
  ghost predicate Undisturbed(stranger: ScriptedPoll, registration: Registration)
    reads stranger, stranger.ids, stranger.owner, stranger.table, stranger.driver, stranger.driver.model
  {
    && stranger.Valid() && stranger.driver.fault == None && stranger.driver.steps == [] && |stranger.driver.calls| == 1
    && registration.owner == stranger.owner.raw != 0 && registration.id in stranger.table.live
    && var entry := stranger.table.live[registration.id];
       (entry.interest, entry.mode, entry.state) == (READABLE, Level, ARMED)
  }

  method PerformProbeWrongPoller(stranger: ScriptedPoll, model: ReferenceModel, ghost registration: Registration,
                                 ghost raw: U64)
    returns (r: Verdict)
    requires Undisturbed(stranger, registration) && raw != stranger.owner.raw
    requires model.active.Some? ==> model.active.value.registration.owner == raw
    modifies stranger.table, stranger.driver, stranger.driver.model
    ensures r.Ok? <==> model.active.Some?
    ensures Undisturbed(stranger, registration)
  {
    if model.active.None? { return Err(PreconditionCheck); }
    var handle := model.active.value.registration;
    r := ProbeRefused(stranger, handle, WRITABLE, Level, WrongPoller(handle.id));
  }

  method VerifyStranger(stranger: ScriptedPoll, registration: Registration) returns (r: Verdict)
    requires stranger.Valid()
    ensures Undisturbed(stranger, registration) ==> r.Ok?
    ensures r.Ok? ==> && registration.owner == stranger.owner.raw != 0 && registration.id in stranger.table.live
                      && |stranger.driver.calls| == 1
                      && BackendOf(stranger.table.live[registration.id]) == Installed(READABLE, Level, Armed)
  {
    var state := stranger.StateOf(registration);
    match state {
      case Err(_) => return Err(ResultCheck);
      case Ok(actual) => if actual != ARMED { return Err(StateCheck); }
    }
    var backend := stranger.BackendStateOf(registration.id);
    if backend != Installed(READABLE, Level, Armed) { return Err(BackendCheck); }
    r := if |stranger.driver.calls| == 1 then Ok(Unit) else Err(CallsCheck);
  }

  // ---------- Full-state comparison ----------

  ghost function StateShown(view: PollView, registration: Registration): Result<RegistrationState, Error> {
    if view.raw == 0 || view.raw != registration.owner then Err(WrongPoller(registration.id))
    else if registration.id in view.live then Ok(view.live[registration.id].state)
    else Err(Stale(registration.id))
  }

  ghost function BackendShown(view: PollView, id: RegistrationId): BackendState {
    if id in view.live then BackendOf(view.live[id]) else Absent
  }

  /** Everything the model expects of the poller can be observed on it. */
  ghost predicate Verified(model: RefState, view: PollView) {
    && view.calls == model.calls
    && (model.active.Some? ==> StateShown(view, model.active.value.registration) == Ok(model.active.value.state))
    && (forall i | 0 <= i < |model.issued| ::
        BackendShown(view, model.issued[i]) == ExpectedBackend(model.active, model.issued[i]))
    && (forall i | 0 <= i < |model.retired| :: StateShown(view, model.retired[i]) == Err(Stale(model.retired[i].id)))
  }

  lemma {:induction false} TiedIsVerified(model: RefState, view: PollView)
    requires Tied(model, view)
    ensures Verified(model, view)
  {
  }

  method Verify(poll: ScriptedPoll, model: ReferenceModel) returns (r: Verdict)
    requires poll.Valid()
    ensures r.Ok? <==> Verified(model.State(), View(poll))
  {
    if poll.driver.calls != model.calls { return Err(CallsCheck); }
    if model.active.Some? {
      var state := poll.StateOf(model.active.value.registration);
      if state != Ok(model.active.value.state) { return Err(StateCheck); }
    }
    r := VerifyBackend(poll, model);
    if r.Err? { return r; }
    r := VerifyRetired(poll, model);
  }

  method VerifyBackend(poll: ScriptedPoll, model: ReferenceModel) returns (r: Verdict)
    requires poll.Valid()
    ensures r.Ok? <==> forall i | 0 <= i < |model.issued| ::
              BackendShown(View(poll), model.issued[i]) == ExpectedBackend(model.active, model.issued[i])
  {
    for i := 0 to |model.issued|
      invariant forall j | 0 <= j < i ::
                  BackendShown(View(poll), model.issued[j]) == ExpectedBackend(model.active, model.issued[j])
    {
      var actual := poll.BackendStateOf(model.issued[i]);
      if actual != ExpectedBackend(model.active, model.issued[i]) { return Err(BackendCheck); }
    }
    r := Ok(Unit);
  }

  method VerifyRetired(poll: ScriptedPoll, model: ReferenceModel) returns (r: Verdict)
    requires poll.Valid()
    ensures r.Ok? <==> forall i | 0 <= i < |model.retired| ::
              StateShown(View(poll), model.retired[i]) == Err(Stale(model.retired[i].id))
  {
    for i := 0 to |model.retired|
      invariant forall j | 0 <= j < i :: StateShown(View(poll), model.retired[j]) == Err(Stale(model.retired[j].id))
    {
      var state := poll.StateOf(model.retired[i]);
      if state != Err(Stale(model.retired[i].id)) { return Err(StateCheck); }
    }
    r := Ok(Unit);
  }
}
