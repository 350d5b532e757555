/** Running whole programs: set-up of the two pollers, one action and one comparison at a time, and the
    check that both scripts were consumed exactly. */
module SequenceRunners {
  import opened Vocabulary
  import opened Token
  import opened PollOwners
  import opened MutationMachine
  import opened ScriptedDrivers
  import opened ScriptedPolls
  import opened ModelActions
  import opened ReferenceModels
  import opened ModelSequences

  ghost function OwnedBy(poll: ScriptedPoll): set<object> { {poll.owner, poll.table, poll.driver, poll.driver.model} }

  /** The registrations among the first `n` actions, each of which takes a generation if it goes through. */
  function Registers(actions: seq<Action>, n: nat): (count: nat)
    requires n <= |actions|
    ensures count <= n
  {
    if n == 0 then 0 else Registers(actions, n - 1) + if actions[n - 1].DoRegister? then 1 else 0
  }

  /** A registration needs a generation of the slot and an owner id for the poller. */
  predicate Affordable(action: Action, issued: nat, spare: bool) {
    action.DoRegister? ==> spare && issued < MAX_GENERATION
  }

  predicate GoesAt(actions: seq<Action>, n: nat, spare: bool)
    requires n < |actions|
  {
    RunsAt(actions, n) && Affordable(actions[n], Registers(actions, n), spare)
  }

  ghost predicate GoesTo(actions: seq<Action>, n: nat, spare: bool)
    requires n <= |actions|
  {
    forall j | 0 <= j < n :: GoesAt(actions, j, spare)
  }

  lemma {:induction false} GoesOnce(actions: seq<Action>, n: nat, spare: bool)
    requires n < |actions| && GoesTo(actions, n, spare) && GoesAt(actions, n, spare)
    ensures GoesTo(actions, n + 1, spare)
  {
  }

  /** The model is where the first `n` actions, all of which go through, lead. */
  ghost predicate StandsAt(actions: seq<Action>, n: nat, spare: bool, state: RefState)
    requires n <= |actions|
  {
    GoesTo(actions, n, spare) && AbstractOf(state) == AbstractAt(actions, n) && |state.issued| == Registers(actions, n)
  }

  lemma {:induction false} StepsOn(actions: seq<Action>, n: nat, spare: bool, before: RefState, after: RefState)
    requires n < |actions| && StandsAt(actions, n, spare, before)
    requires Runs(AbstractOf(before), actions[n]) && Affordable(actions[n], |before.issued|, spare)
    requires AbstractOf(after) == Advance(AbstractOf(before), actions[n])
    requires |after.issued| == |before.issued| + if actions[n].DoRegister? then 1 else 0
    ensures StandsAt(actions, n + 1, spare, after)
  {
    GoesOnce(actions, n, spare);
  }

  lemma {:induction false} Halts(actions: seq<Action>, n: nat, spare: bool, state: RefState)
    requires n < |actions| && StandsAt(actions, n, spare, state)
    requires !(Runs(AbstractOf(state), actions[n]) && Affordable(actions[n], |state.issued|, spare))
    ensures HaltsAt(actions, n, spare)
  {
  }

  /** Action `n` is the first that does not go through. */
  ghost predicate HaltsAt(actions: seq<Action>, n: nat, spare: bool)
    requires n < |actions|
  {
    GoesTo(actions, n, spare) && !GoesAt(actions, n, spare)
  }

  lemma {:induction false} ProbeMoves(state: RefState)
    ensures Runs(AbstractOf(state), ProbeWrongPoller) <==> state.active.Some?
    ensures Advance(AbstractOf(state), ProbeWrongPoller) == AbstractOf(state)
  {
  }

  class SequenceContext {
    const poll: ScriptedPoll
    const stranger: ScriptedPoll
    const strangerRegistration: Registration
    const model: ReferenceModel
    /** The poller can have an owner id of its own. */
    ghost const spare: bool

    constructor (poll: ScriptedPoll, stranger: ScriptedPoll, registration: Registration, model: ReferenceModel)
      ensures this.poll == poll && this.stranger == stranger && strangerRegistration == registration
              && this.model == model
      ensures spare == (poll.owner.raw != 0 || poll.ids.next < U64_MAX)
    {
      this.poll, this.stranger, strangerRegistration, this.model := poll, stranger, registration, model;
      spare := poll.owner.raw != 0 || poll.ids.next < U64_MAX;
    }

    /** The two pollers share nothing but the process-wide counter. */
    ghost predicate Apart() {
      && poll.ids == stranger.ids && poll.owner != stranger.owner && poll.table != stranger.table
      && poll.driver != stranger.driver && poll.driver.model != stranger.driver.model
    }

    /** Machine, scripted backend and reference model agree, and the stranger is undisturbed. */
    ghost predicate Good(rest: seq<Step>)
      reads poll, poll.ids, poll.owner, poll.table, poll.driver, poll.driver.model, model
      reads stranger, stranger.ids, stranger.owner, stranger.table, stranger.driver, stranger.driver.model
    {
      && Apart() && Agree(model, poll, rest) && Undisturbed(stranger, strangerRegistration)
      && (spare <==> poll.owner.raw != 0 || poll.ids.next < U64_MAX)
    }

    /** Everything but the counter is made with the context. */
    ghost function Owned(): set<object> {
      OwnedBy(poll) + OwnedBy(stranger) + {model}
    }

    /** The poller's operations leave the stranger undisturbed. */
    twostate lemma {:induction false} StrangerKept()
      requires Apart() && old(Undisturbed(stranger, strangerRegistration)) && poll.ids.Valid()
      requires KeepsOwners(poll.owner, poll.ids)
      requires unchanged(stranger.owner) && unchanged(stranger.table) && unchanged(stranger.driver)
               && unchanged(stranger.driver.model)
      ensures Undisturbed(stranger, strangerRegistration)
    {
    }

    /** The action succeeded exactly when it could run and was affordable; then the model moved as the
        abstract state does, and a registration issued one more id. */
    twostate predicate Moved(action: Action, ok: bool)
      reads model
    {
      && (ok <==> Runs(AbstractOf(old(model.State())), action) && Affordable(action, |old(model.issued)|, spare))
      && (ok ==> && AbstractOf(model.State()) == Advance(AbstractOf(old(model.State())), action)
                 && |model.issued| == |old(model.issued)| + if action.DoRegister? then 1 else 0)
    }

    method ExecuteRegister(outcome: Outcome, key: Key, interest: Interest, mode: Mode, ghost rest: seq<Step>)
      returns (r: Verdict)
      requires Good(MutationStep(DoRegister(outcome, key, interest, mode)) + rest)
      modifies model, poll.owner, poll.ids, poll.table, poll.driver, poll.driver.model
      ensures Moved(DoRegister(outcome, key, interest, mode), r.Ok?)
      ensures r.Ok? ==> Good(rest)
    {
      r := PerformRegister(poll, model, outcome, key, interest, mode, rest);
      if r.Ok? { StrangerKept(); }
    }

    method ExecuteRegisterInvalid(key: Key, mode: Mode, ghost rest: seq<Step>) returns (r: Verdict)
      requires Good(rest)
      modifies poll.owner, poll.ids, poll.table, poll.driver, poll.driver.model
      ensures Moved(DoRegisterInvalid(key, mode), r.Ok?)
      ensures r.Ok? ==> Good(rest)
    {
      r := PerformRegisterInvalid(poll, model, key, mode, rest);
      if r.Ok? { StrangerKept(); }
    }

    method ExecuteHeld(action: Action, ghost rest: seq<Step>) returns (r: Verdict)
      requires Good(MutationStep(action) + rest)
      requires !action.DoRegister? && !action.DoRegisterInvalid? && !action.ProbeWrongPoller?
      modifies model, poll.table, poll.driver, poll.driver.model
      ensures Moved(action, r.Ok?)
      ensures r.Ok? ==> Good(rest)
    {
      r := PerformHeld(poll, model, action, rest);
      assert Undisturbed(stranger, strangerRegistration);
    }

    method ExecuteProbeWrongPoller(ghost rest: seq<Step>) returns (r: Verdict)
      requires Good(rest)
      modifies stranger.table, stranger.driver, stranger.driver.model
      ensures Moved(ProbeWrongPoller, r.Ok?)
      ensures r.Ok? ==> Good(rest)
    {
      Strangers(rest);
      ProbeMoves(model.State());
      r := PerformProbeWrongPoller(stranger, model, strangerRegistration, poll.owner.raw);
      StillGood(rest);
    }

    lemma {:induction false} Strangers(rest: seq<Step>)
      requires Good(rest)
      ensures Apart() && Undisturbed(stranger, strangerRegistration) && poll.owner.raw != stranger.owner.raw
      ensures model.active.Some? ==> model.active.value.registration.owner == poll.owner.raw
    {
    }

    /** What leaves the poller and the model alone keeps their agreement. */
    twostate lemma {:induction false} StillGood(rest: seq<Step>)
      requires old(Good(rest)) && Undisturbed(stranger, strangerRegistration)
      requires unchanged(model) && unchanged(poll.owner) && unchanged(poll.ids) && unchanged(poll.table)
      requires unchanged(poll.driver) && unchanged(poll.driver.model)
      ensures Good(rest)
    {
    }

    /** One action succeeds exactly when the sequence can run it in its abstract state and it is
        affordable, and then everything agrees again. */
    method Execute(action: Action, ghost rest: seq<Step>) returns (r: Verdict)
      requires Good(MutationStep(action) + rest)
      modifies model, poll.owner, poll.ids, poll.table, poll.driver, poll.driver.model
      modifies stranger.table, stranger.driver, stranger.driver.model
      ensures Moved(action, r.Ok?)
      ensures r.Ok? ==> Good(rest)
    {
      assert [] + rest == rest;
      match action {
        case DoRegister(outcome, key, interest, mode) => r := ExecuteRegister(outcome, key, interest, mode, rest);
        case DoRegisterInvalid(key, mode) => r := ExecuteRegisterInvalid(key, mode, rest);
        case ProbeWrongPoller => r := ExecuteProbeWrongPoller(rest);
        case _ => r := ExecuteHeld(action, rest);
      }
    }

    /** The full comparison after an action passes. */
    method VerifyAll(ghost rest: seq<Step>) returns (r: Verdict)
      requires Good(rest)
      ensures r.Ok?
    {
      TiedIsVerified(model.State(), View(poll));
      r := Verify(poll, model);
      if r.Err? { return r; }
      r := VerifyStranger(stranger, strangerRegistration);
    }

    /** Action `i` of the program is the next to run. */
    ghost predicate Reached(actions: seq<Action>, i: nat)
      requires i <= |actions|
      reads poll, poll.ids, poll.owner, poll.table, poll.driver, poll.driver.model, model
      reads stranger, stranger.ids, stranger.owner, stranger.table, stranger.driver, stranger.driver.model
    {
      Good(ScriptFrom(actions, i)) && StandsAt(actions, i, spare, model.State())
    }

    /** Action `i` of a program, executed and compared. */
    method RunAction(actions: seq<Action>, i: nat) returns (r: Verdict)
      requires i < |actions| && Reached(actions, i)
      modifies model, poll.owner, poll.ids, poll.table, poll.driver, poll.driver.model
      modifies stranger.table, stranger.driver, stranger.driver.model
      ensures r.Ok? ==> Reached(actions, i + 1)
      ensures r.Err? ==> HaltsAt(actions, i, spare)
    {
      ghost var rest, state := ScriptFrom(actions, i + 1), model.State();
      r := Execute(actions[i], rest);
      if r.Err? {
        Halts(actions, i, spare, state);
        return r;
      }
      StepsOn(actions, i, spare, state, model.State());
      r := VerifyAll(rest);
    }
  }

  /** The actions on handles, which leave the owner ids alone. */
  method PerformHeld(poll: ScriptedPoll, model: ReferenceModel, action: Action, ghost rest: seq<Step>)
    returns (r: Verdict)
    requires Agree(model, poll, MutationStep(action) + rest)
    requires !action.DoRegister? && !action.DoRegisterInvalid? && !action.ProbeWrongPoller?
    modifies model, poll.table, poll.driver, poll.driver.model
    ensures Performed(model, poll, action, rest, r.Ok?) && model.issued == old(model.issued)
  {
    assert [] + rest == rest;
    match action {
      case DoDisarm => r := PerformDisarm(poll, model, rest);
      case DoModify(outcome, interest, mode) => r := PerformModify(poll, model, outcome, interest, mode, rest);
      case DoModifyInvalid(mode) => r := PerformModifyInvalid(poll, model, mode, rest);
      case DoDelete(outcome) => r := PerformDelete(poll, model, outcome, rest);
      case ProbeStale => r := PerformProbeStale(poll, model, rest);
    }
  }

  datatype RunPhase = SetupPhase | ActionPhase(index: nat) | FinalizePhase

  datatype Failure = Failure(phase: RunPhase, check: Check)

  method SetupPoll(ids: PollIds, steps: seq<Step>) returns (r: Result<ScriptedPoll, Error>)
    requires ids.Valid()
    ensures r.Ok? && fresh(r.value) && fresh(OwnedBy(r.value)) && r.value.ids == ids
    ensures r.value.Valid() && r.value.table.limit == 1 && View(r.value) == PollView(0, map[], [], [], steps, None)
  {
    r := ScriptedPoll.WithCapacity(ids, 1, steps);
  }

  /** Another poller, whose one registration takes the whole of its script. */
  method SetupStranger(ids: PollIds) returns (stranger: ScriptedPoll, r: Result<Registration, Check>)
    requires ids.Valid()
    modifies ids
    ensures fresh(stranger) && fresh(OwnedBy(stranger)) && stranger.ids == ids && ids.Valid()
    ensures r.Ok? <==> old(ids.next) < U64_MAX
    ensures r.Ok? ==> Undisturbed(stranger, r.value) && ids.next == old(ids.next) + 1
    ensures r.Err? ==> r.error == SetupCheck
    ensures forall other | other in old(ids.holders) ::
              other in ids.holders && ids.holders[other] == old(ids.holders)[other]
  {
    var created := ScriptedPoll.WithCapacity(ids, 1, [Step(OpRegister, Ok(Unit))]);
    stranger := created.value;
    var source := OpenSource();
    var registered, _ := stranger.Register(source, STRANGER_KEY, READABLE, Level);
    match registered {
      case Err(_) => r := Err(SetupCheck);
      case Ok(registration) => r := Ok(registration);
    }
  }

  /** An untouched poller beside an undisturbed stranger. */
  method Assemble(poll: ScriptedPoll, stranger: ScriptedPoll, registration: Registration, ghost actions: seq<Action>)
    returns (context: SequenceContext)
    requires poll.Valid() && poll.table.limit == 1
             && View(poll) == PollView(0, map[], [], [], ScriptFrom(actions, 0), None)
    requires Undisturbed(stranger, registration) && poll.ids == stranger.ids
    requires poll.owner != stranger.owner && poll.table != stranger.table
    requires poll.driver != stranger.driver && poll.driver.model != stranger.driver.model
    ensures fresh(context) && fresh(context.model) && context.poll == poll && context.stranger == stranger
    ensures context.Reached(actions, 0) && context.spare == (poll.ids.next < U64_MAX)
  {
    var model := new ReferenceModel();
    context := new SequenceContext(poll, stranger, registration, model);
  }

  method Setup(ids: PollIds, actions: seq<Action>) returns (r: Result<SequenceContext, Check>)
    requires ids.Valid()
    modifies ids
    ensures r.Ok? <==> old(ids.next) < U64_MAX
    ensures r.Ok? ==>
              && fresh(r.value) && fresh(r.value.model) && fresh(OwnedBy(r.value.poll))
              && fresh(OwnedBy(r.value.stranger))
                      && r.value.poll.ids == ids && r.value.Reached(actions, 0)
                      && r.value.spare == (old(ids.next) + 1 < U64_MAX)
    ensures r.Err? ==> r.error == SetupCheck
  {
    var created := SetupPoll(ids, ScriptFrom(actions, 0));
    match created {
      case Err(_) => r := Err(SetupCheck);
      case Ok(poll) =>
        var stranger, registration := SetupStranger(ids);
        match registration {
          case Err(check) => r := Err(check);
          case Ok(handle) =>
            assert poll.Valid();
            var context := Assemble(poll, stranger, handle, actions);
            r := Ok(context);
        }
    }
  }

  /** The program's actions in order, up to the first that fails. */
  method RunActions(context: SequenceContext, actions: seq<Action>) returns (r: Result<Unit, Failure>)
    requires context.Reached(actions, 0)
    modifies context.Owned(), context.poll.ids
    ensures r.Ok? ==> context.Reached(actions, |actions|)
    ensures r.Err? ==> r.error.phase.ActionPhase? && r.error.phase.index < |actions| 
                       && HaltsAt(actions, r.error.phase.index, context.spare)
  {
    for i := 0 to |actions|
      invariant context.Reached(actions, i)
    {
      var done := context.RunAction(actions, i);
      if done.Err? { return Err(Failure(ActionPhase(i), done.error)); }
    }
    r := Ok(Unit);
  }

  /** Both scripts are over and nothing structural went wrong. */
  method Finalize(context: SequenceContext, actions: seq<Action>) returns (r: Result<Unit, Failure>)
    requires context.Reached(actions, |actions|)
    ensures r.Ok? && GoesTo(actions, |actions|, context.spare)
  {
    var finished := context.poll.Finish();
    match finished { case Err(_) => return Err(Failure(FinalizePhase, CallsCheck)); case Ok(_) => }
    finished := context.stranger.Finish();
    match finished { case Err(_) => return Err(Failure(FinalizePhase, CallsCheck)); case Ok(_) => }
    r := Ok(Unit);
  }

  /** The actions and then the final checks, from a context that was just set up. */
  method RunSteps(context: SequenceContext, actions: seq<Action>) returns (r: Result<Unit, Failure>)
    requires context.Reached(actions, 0)
    modifies context.Owned(), context.poll.ids
    ensures r.Ok? <==> GoesTo(actions, |actions|, context.spare)
    ensures r.Err? ==> r.error.phase.ActionPhase? && r.error.phase.index < |actions|
                       && HaltsAt(actions, r.error.phase.index, context.spare)
  {
    r := RunActions(context, actions);
    if r.Ok? { r := Finalize(context, actions); }
  }

  /** A program runs to its end, with every comparison passing and both scripts consumed exactly, when
      and only when each of its actions goes through where it comes: it is runnable, and a registration
      finds a generation of the slot and an owner id. Otherwise the run fails at the first that does
      not. Without any owner id left the set-up fails. */
  method RunProgram(ids: PollIds, actions: seq<Action>) returns (r: Result<Unit, Failure>)
    requires ids.Valid()
    modifies ids
    ensures var spare := old(ids.next) + 1 < U64_MAX;
            if old(ids.next) == U64_MAX then r == Err(Failure(SetupPhase, SetupCheck))
            else
              && (r.Ok? <==> GoesTo(actions, |actions|, spare))
              && (r.Err? ==> && r.error.phase.ActionPhase? && r.error.phase.index < |actions|
                             && GoesTo(actions, r.error.phase.index, spare)
                             && !GoesAt(actions, r.error.phase.index, spare))
  {
    var setup := Setup(ids, actions);
    match setup {
      case Err(check) => r := Err(Failure(SetupPhase, check));
      case Ok(context) =>
        r := RunSteps(context, actions);
    }
  }

  /** A runnable program of no more actions than generations goes through while owner ids remain. */
  lemma {:induction false} RunnableGoes(actions: seq<Action>)
    requires Runnable(actions) && |actions| <= MAX_GENERATION
    ensures GoesTo(actions, |actions|, true)
  {
    forall j | 0 <= j < |actions| ensures GoesAt(actions, j, true) {
      assert RunsAt(actions, j);
    }
  }

  /** Every 64-bit seed's program runs without divergence in a process with two owner ids left. */
  method RunModelSequence(ids: PollIds, seed: bv64) returns (r: Result<Unit, Failure>)
    requires ids.Valid()
    modifies ids
    ensures old(ids.next) + 1 < U64_MAX ==> r.Ok?
  {
    var actions := Generate(seed);
    RunnableGoes(actions);
    r := RunProgram(ids, actions);
  }
}
