/** The action vocabulary of generated mutation sequences, the abstract state they move, and the
    deterministic generator. */
module ModelActions {
  import opened Vocabulary
  import opened ScriptedDrivers

  const ACTION_LIMIT: nat := 64

  datatype Outcome = Succeeds | FailsNotApplied | FailsApplied | FailsUnknown

  datatype Action =
    | DoRegister(outcome: Outcome, key: Key, interest: Interest, mode: Mode)
    | DoRegisterInvalid(key: Key, mode: Mode)
    | DoDisarm
    | DoModify(outcome: Outcome, interest: Interest, mode: Mode)
    | DoModifyInvalid(mode: Mode)
    | DoDelete(outcome: Outcome)
    | ProbeStale
    | ProbeWrongPoller

  function CommitOfOutcome(outcome: Outcome): Option<CommitStatus> {
    match outcome
    case Succeeds => None
    case FailsNotApplied => Some(NotApplied)
    case FailsApplied => Some(Applied)
    case FailsUnknown => Some(Unknown)
  }

  /** The scripted result an outcome plans, failing with an error of the given kind. */
  function NativeOf(outcome: Outcome, kind: ErrorKind): NativeResult {
    match CommitOfOutcome(outcome)
    case None => Ok(Unit)
    case Some(commit) => Err(MutationFailure(commit, Kind(kind)))
  }

  function KindOf(operation: Operation): ErrorKind {
    match operation
    case OpRegister => PermissionDenied
    case OpModify => TimedOut
    case OpDelete => BrokenPipe
    case _ => OtherKind
  }

  /** The script step an action consumes, if it reaches the backend at all. */
  function MutationStep(action: Action): seq<Step> {
    match action
    case DoRegister(outcome, _, _, _) => [Step(OpRegister, NativeOf(outcome, KindOf(OpRegister)))]
    case DoModify(outcome, _, _) => [Step(OpModify, NativeOf(outcome, KindOf(OpModify)))]
    case DoDelete(outcome) => [Step(OpDelete, NativeOf(outcome, KindOf(OpDelete)))]
    case _ => []
  }

  /** The whole script of the actions from `i` on. */
  function ScriptFrom(actions: seq<Action>, i: nat): seq<Step>
    requires i <= |actions|
    decreases |actions| - i
  {
    if i == |actions| then [] else MutationStep(actions[i]) + ScriptFrom(actions, i + 1)
  }

  // ---------- The abstract state of a sequence ----------

  datatype Phase = Vacant | Held(mode: Mode, arm: ArmState) | Doubtful

  datatype Abstract = Abstract(phase: Phase, hasStale: bool)

  const INITIAL := Abstract(Vacant, false)

  /** The actions that a sequence in this state can run without failing a precondition. */
  predicate Runs(a: Abstract, action: Action) {
    match action
    case DoRegister(_, _, interest, _) => a.phase.Vacant? && !interest.IsEmpty()
    case DoRegisterInvalid(_, _) => a.phase.Vacant?
    case DoDisarm => a.phase == Held(OneShot, Armed)
    case DoModify(_, interest, _) => a.phase.Held? && !interest.IsEmpty()
    case DoModifyInvalid(_) => !a.phase.Vacant?
    case DoDelete(_) => !a.phase.Vacant?
    case ProbeStale => a.hasStale
    case ProbeWrongPoller => !a.phase.Vacant?
  }

  function PhaseAfter(outcome: Outcome, applied: Phase, before: Phase): Phase {
    match outcome
    case Succeeds => applied
    case FailsApplied => applied
    case FailsNotApplied => before
    case FailsUnknown => Doubtful
  }

  function Advance(a: Abstract, action: Action): Abstract {
    match action
    case DoRegister(outcome, _, _, mode) => a.(phase := PhaseAfter(outcome, Held(mode, Armed), Vacant))
    case DoModify(outcome, _, mode) => a.(phase := PhaseAfter(outcome, Held(mode, Armed), a.phase))
    case DoDelete(outcome) =>
      Abstract(PhaseAfter(outcome, Vacant, a.phase), a.hasStale || outcome.Succeeds? || outcome.FailsApplied?)
    case DoDisarm => (match a.phase case Held(mode, _) => a.(phase := Held(mode, Disarmed)) case _ => a)
    case _ => a
  }

  function AbstractAt(actions: seq<Action>, n: nat): Abstract
    requires n <= |actions|
  {
    if n == 0 then INITIAL else Advance(AbstractAt(actions, n - 1), actions[n - 1])
  }

  predicate RunsAt(actions: seq<Action>, i: nat)
    requires i < |actions|
  {
    Runs(AbstractAt(actions, i), actions[i])
  }

  /** Every action of the program is runnable where it comes. */
  predicate Runnable(actions: seq<Action>) {
    forall i | 0 <= i < |actions| :: RunsAt(actions, i)
  }

  lemma {:induction false} AbstractPrefix(shorter: seq<Action>, longer: seq<Action>, n: nat)
    requires n <= |shorter| <= |longer| && longer[..|shorter|] == shorter
    ensures AbstractAt(longer, n) == AbstractAt(shorter, n)
  {
    if n > 0 {
      AbstractPrefix(shorter, longer, n - 1);
      assert longer[..|shorter|][n - 1] == longer[n - 1];
    }
  }

  /** A program that is runnable so far, followed by an action that runs in the state it reaches. */
  lemma {:induction false} RunnableExtends(actions: seq<Action>, action: Action)
    requires Runnable(actions) && Runs(AbstractAt(actions, |actions|), action)
    ensures Runnable(actions + [action])
    ensures AbstractAt(actions + [action], |actions| + 1) == Advance(AbstractAt(actions, |actions|), action)
  {
    var longer := actions + [action];
    forall i | 0 <= i <= |actions| ensures RunsAt(longer, i) && AbstractAt(longer, i) == AbstractAt(actions, i) {
      AbstractPrefix(actions, longer, i);
      if i < |actions| { assert RunsAt(actions, i); }
    }
  }

  // ---------- Generation ----------

  function Remainder(word: U64, options: U64): (r: U64)
    requires options > 0
    ensures r < options
  {
    word % options
  }

  const SEED_GAMMA: bv64 := 0x9e37_79b9_7f4a_7c15

  function Scramble(value: bv64): bv64 {
    var first := (value ^ (value >> 30)) * 0xbf58_476d_1ce4_e5b9;
    var second := (first ^ (first >> 27)) * 0x94d0_49bb_1331_11eb;
    second ^ (second >> 31)
  }

  function NumberOf(value: bv64): U64 { value as int }

  class SplitMix64 {
    var word: bv64
    /** The word that was drawn last. */
    ghost var last: U64

    constructor (seed: bv64)
      ensures word == seed
    {
      word, last := seed, 0;
    }

    /** The next scrambled word. */
    method Next() returns (value: bv64)
      modifies this
      ensures word == old(word) + SEED_GAMMA && value == Scramble(word) && last == NumberOf(value)
    {
      word := word + SEED_GAMMA;
      value := Scramble(word);
      last := NumberOf(value);
    }
  }

  // ---------- What the choices mean ----------

  function OutcomeAt(choice: nat): Outcome {
    if choice == 0 then Succeeds else if choice == 1 then FailsNotApplied
    else if choice == 2 then FailsApplied else FailsUnknown
  }

  function InterestAt(choice: nat): Interest {
    if choice == 0 then READABLE else if choice == 1 then WRITABLE else BOTH
  }

  function ModeAt(choice: nat): Mode { if choice == 0 then Level else OneShot }

  /** The choices name a registration: outcome, key, interest and mode. */
  predicate NamesRegister(picks: seq<U64>, action: Action) {
    |picks| == 4 && picks[0] < 4 && picks[2] < 3 && picks[3] < 2
    && action == DoRegister(OutcomeAt(picks[0]), picks[1], InterestAt(picks[2]), ModeAt(picks[3]))
  }

  predicate NamesModify(picks: seq<U64>, action: Action) {
    |picks| == 3 && picks[0] < 4 && picks[1] < 3 && picks[2] < 2
    && action == DoModify(OutcomeAt(picks[0]), InterestAt(picks[1]), ModeAt(picks[2]))
  }

  predicate NamesDelete(picks: seq<U64>, action: Action) {
    |picks| == 1 && picks[0] < 4 && action == DoDelete(OutcomeAt(picks[0]))
  }

  /** The choice among ten for a held registration, and the choices that follow it. */
  predicate NamesHeld(hasStale: bool, picks: seq<U64>, action: Action) {
    |picks| > 0 && picks[0] < 10
    && if picks[0] <= 2 then NamesModify(picks[1..], action)
       else if picks[0] <= 4 || (picks[0] >= 7 && !hasStale) then NamesDelete(picks[1..], action)
       else if picks[0] == 5 then action == ProbeWrongPoller
       else if picks[0] == 6 then |picks| == 2 && picks[1] < 2 && action == DoModifyInvalid(ModeAt(picks[1]))
       else action == ProbeStale
  }

  /** What the choices drawn in a state make the generator do. */
  predicate Names(a: Abstract, picks: seq<U64>, action: Action) {
    |picks| > 0
    && match a.phase
       case Vacant =>
         && picks[0] < 6
         && if picks[0] == 0 then
              |picks| == 3 && picks[2] < 2 && action == DoRegisterInvalid(picks[1], ModeAt(picks[2]))
            else NamesRegister(picks[1..], action)
       case Held(mode, arm) =>
         if mode == OneShot && arm == Armed then
           picks[0] < 8 && if picks[0] == 0 then action == DoDisarm else NamesHeld(a.hasStale, picks[1..], action)
         else NamesHeld(a.hasStale, picks, action)
       case Doubtful =>
         && picks[0] < 8
         && if picks[0] <= 4 || (picks[0] >= 6 && !a.hasStale) then NamesDelete(picks[1..], action)
            else if picks[0] == 5 then action == ProbeWrongPoller
            else action == ProbeStale
  }

  /** The actions that are generated in a state: all that run there, except that a vacant state probes nothing and
      a doubtful one tries no invalid modification. */
  predicate Generated(a: Abstract, action: Action) {
    && Runs(a, action)
    && (a.phase.Vacant? ==> !action.ProbeStale?)
    && (a.phase.Doubtful? ==> !action.DoModifyInvalid?)
  }

  lemma {:induction false} EveryOutcome(outcome: Outcome) returns (choice: U64)
    ensures choice < 4 && OutcomeAt(choice) == outcome
  {
    choice := match outcome case Succeeds => 0 case FailsNotApplied => 1 case FailsApplied => 2 case FailsUnknown => 3;
  }

  lemma {:induction false} EveryInterest(interest: Interest) returns (choice: U64)
    requires !interest.IsEmpty()
    ensures choice < 3 && InterestAt(choice) == interest
  {
    choice := if interest == READABLE then 0 else if interest == WRITABLE then 1 else 2;
  }

  lemma {:induction false} HeldActionIsNamed(a: Abstract, action: Action) returns (picks: seq<U64>)
    requires a.phase.Held? && Generated(a, action) && action != DoDisarm
    ensures NamesHeld(a.hasStale, picks, action)
  {
    match action
    case DoModify(outcome, interest, mode) =>
      var o := EveryOutcome(outcome);
      var i := EveryInterest(interest);
      picks := [0, o, i, if mode == Level then 0 else 1];
      assert picks[1..] == [o, i, if mode == Level then 0 else 1];
    case DoDelete(outcome) =>
      var o := EveryOutcome(outcome);
      picks := [3, o];
      assert picks[1..] == [o];
    case ProbeWrongPoller => picks := [5];
    case DoModifyInvalid(mode) => picks := [6, if mode == Level then 0 else 1];
    case ProbeStale => picks := [7];
  }

  /** Every action that can be generated in a state is named by some choices. */
  lemma {:induction false} EveryActionIsNamed(a: Abstract, action: Action) returns (picks: seq<U64>)
    requires Generated(a, action)
    ensures Names(a, picks, action)
  {
    match a.phase
    case Vacant =>
      match action {
        case DoRegisterInvalid(key, mode) => picks := [0, key, if mode == Level then 0 else 1];
        case DoRegister(outcome, key, interest, mode) =>
          var o := EveryOutcome(outcome);
          var i := EveryInterest(interest);
          picks := [1, o, key, i, if mode == Level then 0 else 1];
          assert picks[1..] == [o, key, i, if mode == Level then 0 else 1];
      }
    case Held(mode, arm) =>
      if action == DoDisarm {
        picks := [0];
      } else {
        picks := HeldActionIsNamed(a, action);
        if mode == OneShot && arm == Armed {
          var held := picks;
          picks := [1] + held;
          assert picks[1..] == held;
        }
      }
    case Doubtful =>
      match action {
        case DoDelete(outcome) =>
          var o := EveryOutcome(outcome);
          picks := [0, o];
          assert picks[1..] == [o];
        case ProbeWrongPoller => picks := [5];
        case ProbeStale => picks := [6];
      }
  }

  /** And choices name nothing else. */
  lemma {:induction false} NamedIsGenerated(a: Abstract, picks: seq<U64>, action: Action)
    requires Names(a, picks, action)
    ensures Generated(a, action)
  {
  }

  /** A choice and those that follow it. */
  lemma {:induction false} After(choice: U64, more: seq<U64>) returns (picks: seq<U64>)
    ensures picks == [choice] + more && picks[1..] == more
  {
    picks := [choice] + more;
  }

  class Generator {
    const random: SplitMix64
    var phase: Phase
    var hasStale: bool
    /** Every choice and every key drawn so far. */
    ghost var drawn: seq<U64>

    constructor (seed: bv64)
      ensures fresh(random) && Now() == INITIAL
    {
      random := new SplitMix64(seed);
      phase, hasStale, drawn := Vacant, false, [];
    }

    function Now(): Abstract
      reads this
    {
      Abstract(phase, hasStale)
    }

    /** Whatever the random words are, the action is the one that the drawn choices name in the state it is
        generated for, it runs there, and the generator moves with it. */
    method NextAction() returns (action: Action, ghost picks: seq<U64>)
      modifies this, random
      ensures drawn == old(drawn) + picks && Names(old(Now()), picks, action)
      ensures Runs(old(Now()), action) && Now() == Advance(old(Now()), action)
    {
      ghost var before := Now();
      action, picks := Draw();
      NamedIsGenerated(before, picks, action);
      Observe(action);
    }

    method Draw() returns (action: Action, ghost picks: seq<U64>)
      modifies random, `drawn
      ensures drawn == old(drawn) + picks && Names(Now(), picks, action)
    {
      ghost var more;
      match phase {
        case Vacant =>
          var choice := Choose(6);
          if choice == 0 {
            var key := NextKey();
            var mode := Choose(2);
            action, picks := DoRegisterInvalid(key, ModeAt(mode)), [choice, key, mode];
          } else {
            action, more := NextRegister();
            picks := After(choice, more);
          }
        case Held(mode, arm) =>
          if mode == OneShot && arm == Armed {
            var choice := Choose(8);
            if choice == 0 {
              action, picks := DoDisarm, [choice];
            } else {
              action, more := NextHeld();
              picks := After(choice, more);
            }
          } else {
            action, picks := NextHeld();
          }
        case Doubtful =>
          var choice := Choose(8);
          if choice <= 4 {
            action, more := NextDelete();
            picks := After(choice, more);
          } else if choice == 5 {
            action, picks := ProbeWrongPoller, [choice];
          } else if hasStale {
            action, picks := ProbeStale, [choice];
          } else {
            action, more := NextDelete();
            picks := After(choice, more);
          }
      }
    }

    method NextHeld() returns (action: Action, ghost picks: seq<U64>)
      modifies random, `drawn
      ensures drawn == old(drawn) + picks && NamesHeld(hasStale, picks, action)
    {
      ghost var more;
      var choice := Choose(10);
      if choice <= 2 {
        action, more := NextModify();
        picks := After(choice, more);
      } else if choice <= 4 {
        action, more := NextDelete();
        picks := After(choice, more);
      } else if choice == 5 {
        action, picks := ProbeWrongPoller, [choice];
      } else if choice == 6 {
        var mode := Choose(2);
        action, picks := DoModifyInvalid(ModeAt(mode)), [choice, mode];
      } else if hasStale {
        action, picks := ProbeStale, [choice];
      } else {
        action, more := NextDelete();
        picks := After(choice, more);
      }
    }

    method NextRegister() returns (action: Action, ghost picks: seq<U64>)
      modifies random, `drawn
      ensures drawn == old(drawn) + picks && NamesRegister(picks, action)
    {
      var outcome := Choose(4);
      var key := NextKey();
      var interest := Choose(3);
      var mode := Choose(2);
      action := DoRegister(OutcomeAt(outcome), key, InterestAt(interest), ModeAt(mode));
      picks := [outcome, key, interest, mode];
    }

    method NextModify() returns (action: Action, ghost picks: seq<U64>)
      modifies random, `drawn
      ensures drawn == old(drawn) + picks && NamesModify(picks, action)
    {
      var outcome := Choose(4);
      var interest := Choose(3);
      var mode := Choose(2);
      action, picks := DoModify(OutcomeAt(outcome), InterestAt(interest), ModeAt(mode)), [outcome, interest, mode];
    }

    method NextDelete() returns (action: Action, ghost picks: seq<U64>)
      modifies random, `drawn
      ensures drawn == old(drawn) + picks && NamesDelete(picks, action)
    {
      var outcome := Choose(4);
      action, picks := DoDelete(OutcomeAt(outcome)), [outcome];
    }

    method Observe(action: Action)
      modifies `phase, `hasStale
      ensures Now() == Advance(old(Now()), action)
    {
      match action {
        case DoRegister(outcome, _, _, mode) =>
          match outcome {
            case Succeeds => phase := Held(mode, Armed);
            case FailsApplied => phase := Held(mode, Armed);
            case FailsNotApplied => phase := Vacant;
            case FailsUnknown => phase := Doubtful;
          }
        case DoDisarm =>
          if phase.Held? { phase := Held(phase.mode, Disarmed); }
        case DoModify(outcome, _, mode) =>
          match outcome {
            case Succeeds => phase := Held(mode, Armed);
            case FailsApplied => phase := Held(mode, Armed);
            case FailsNotApplied =>
            case FailsUnknown => phase := Doubtful;
          }
        case DoDelete(outcome) =>
          match outcome {
            case Succeeds => phase, hasStale := Vacant, true;
            case FailsApplied => phase, hasStale := Vacant, true;
            case FailsNotApplied =>
            case FailsUnknown => phase := Doubtful;
          }
        case _ =>
      }
    }

    method NextKey() returns (key: Key)
      modifies random, `drawn
      ensures drawn == old(drawn) + [key] && key == random.last
    {
      var word := random.Next();
      key := NumberOf(word);
      drawn := drawn + [key];
    }

    /** One choice among `options`. */
    method Choose(options: U64) returns (choice: U64)
      requires options > 0
      modifies random, `drawn
      ensures choice < options && drawn == old(drawn) + [choice] && choice == random.last % options
    {
      var word := random.Next();
      choice := Remainder(NumberOf(word), options);
      drawn := drawn + [choice];
    }
  }

  /** Every seed generates a full program, each action of which is runnable where it comes. */
  method Generate(seed: bv64) returns (actions: seq<Action>)
    ensures |actions| == ACTION_LIMIT && Runnable(actions)
  {
    var generator := new Generator(seed);
    actions := [];
    for i := 0 to ACTION_LIMIT
      invariant |actions| == i && Runnable(actions)
      invariant fresh(generator) && fresh(generator.random) && generator.Now() == AbstractAt(actions, i)
    {
      ghost var picks;
      var action;
      action, picks := generator.NextAction();
      RunnableExtends(actions, action);
      actions := actions + [action];
    }
  }
}
