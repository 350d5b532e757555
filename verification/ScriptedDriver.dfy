/** A mutation driver played from a script, over a stateful model of the backend. */
module ScriptedDrivers {
  import opened Vocabulary
  import opened Slots
  import opened MutationMachine

  /** One planned result. Success and every commit status of a failure are possible. */
  datatype Step = Step(operation: Operation, native: NativeResult)

  datatype MutationCall =
    | RegisterCall(registration: RegistrationId, key: Key, interest: Interest, mode: Mode)
    | ModifyCall(registration: RegistrationId, previousInterest: Interest, previousMode: Mode, previousArm: ArmState,
                 desiredInterest: Interest, desiredMode: Mode)
    | DeleteCall(registration: RegistrationId, lastInterest: Interest, state: RegistrationState)
    | EstablishDisarmedCall(registration: RegistrationId)

  datatype BackendState = Absent | Installed(interest: Interest, mode: Mode, arm: ArmState) | UnknownState

  datatype ScriptError =
    | Exhausted(operation: Operation)
    | Mismatch(expected: Operation, actual: Operation)
    | Remaining(count: nat)
    | DescriptorChanged(registration: RegistrationId)
    | UnknownRegistration(registration: RegistrationId)
    | CannotDisarm(registration: RegistrationId)

  datatype BackendEntry = BackendEntry(registration: RegistrationId, descriptor: Descriptor, state: BackendState)

  /** What the backend knows of one registration. */
  datatype Known = Known(descriptor: Descriptor, state: BackendState)

  type KnownMap = map<RegistrationId, Known>

  /** The first entry for `id` at or after `from`, or the length. */
  function IndexFrom(entries: seq<BackendEntry>, id: RegistrationId, from: nat): (i: nat)
    requires from <= |entries|
    ensures from <= i <= |entries|
    ensures i < |entries| ==> entries[i].registration == id
    ensures forall j | from <= j < i :: entries[j].registration != id
    decreases |entries| - from
  {
    if from == |entries| || entries[from].registration == id then from else IndexFrom(entries, id, from + 1)
  }

  /** The entries, first match first, are the known map. */
  ghost predicate EntriesAre(entries: seq<BackendEntry>, known: KnownMap) {
    forall id: RegistrationId {:trigger Audit(id)} :: Audit(id) ==>
      var i := IndexFrom(entries, id, 0);
      && (id in known <==> i < |entries|)
      && (id in known ==> known[id] == Known(entries[i].descriptor, entries[i].state))
  }

  lemma {:induction false} IndexUnique(entries: seq<BackendEntry>, id: RegistrationId, i: nat)
    requires i <= |entries| && (i < |entries| ==> entries[i].registration == id)
    requires forall j | 0 <= j < i :: entries[j].registration != id
    ensures IndexFrom(entries, id, 0) == i
  {
  }

  lemma {:induction false} EntriesPush(entries: seq<BackendEntry>, known: KnownMap, entry: BackendEntry)
    requires EntriesAre(entries, known)
    ensures EntriesAre(entries + [entry],
                       if entry.registration in known then known
                       else known[entry.registration := Known(entry.descriptor, entry.state)])
  {
    var longer := entries + [entry];
    assert Audit(entry.registration);
    forall id: RegistrationId
      ensures var i := IndexFrom(entries, id, 0);
              IndexFrom(longer, id, 0) == if i < |entries| || id == entry.registration then i else |longer|
    {
      var i := IndexFrom(entries, id, 0);
      IndexUnique(longer, id, if i < |entries| || id == entry.registration then i else |longer|);
    }
    forall id: RegistrationId
      ensures Audit(id)
    {
    }
  }

  lemma {:induction false} EntriesUpdate(entries: seq<BackendEntry>, known: KnownMap, i: nat, state: BackendState)
    requires EntriesAre(entries, known) && i < |entries| && IndexFrom(entries, entries[i].registration, 0) == i
    ensures entries[i].registration in known
    ensures EntriesAre(entries[i := entries[i].(state := state)],
                       known[entries[i].registration := known[entries[i].registration].(state := state)])
  {
    var later := entries[i := entries[i].(state := state)];
    assert Audit(entries[i].registration);
    forall id: RegistrationId ensures IndexFrom(later, id, 0) == IndexFrom(entries, id, 0) {
      IndexUnique(later, id, IndexFrom(entries, id, 0));
    }
  }

  predicate Recognizes(known: KnownMap, registration: RegistrationId, descriptor: Descriptor) {
    registration in known && known[registration].descriptor == descriptor
  }

  function MarkedUnknown(known: KnownMap, registration: RegistrationId, descriptor: Descriptor): KnownMap {
    known[registration :=
      Known(if registration in known then known[registration].descriptor else descriptor, UnknownState)]
  }

  /** The backend state of the descriptor-private model. */
  class BackendModel {
    var entries: seq<BackendEntry>
    ghost var known: KnownMap

    ghost predicate Valid()
      reads this
    {
      EntriesAre(entries, known)
    }

    constructor ()
      ensures Valid() && known == map[]
    {
      entries, known := [], map[];
    }

    method State(registration: RegistrationId) returns (state: BackendState)
      requires Valid()
      ensures state == if registration in known then known[registration].state else Absent
    {
      assert Audit(registration);
      var i := IndexFrom(entries, registration, 0);
      state := if i < |entries| then entries[i].state else Absent;
    }

    method Validate(registration: RegistrationId, descriptor: Descriptor) returns (r: Result<Unit, ScriptError>)
      requires Valid()
      ensures r == if registration !in known then Err(UnknownRegistration(registration))
                   else if known[registration].descriptor != descriptor then Err(DescriptorChanged(registration))
                   else Ok(Unit)
    {
      assert Audit(registration);
      var i := IndexFrom(entries, registration, 0);
      if i == |entries| { return Err(UnknownRegistration(registration)); }
      r := if entries[i].descriptor == descriptor then Ok(Unit) else Err(DescriptorChanged(registration));
    }

    method BeginRegister(registration: RegistrationId, descriptor: Descriptor)
      requires Valid()
      modifies this
      ensures Valid()
      ensures known == if registration in old(known) then old(known)
                       else old(known)[registration := Known(descriptor, Absent)]
    {
      var entry := BackendEntry(registration, descriptor, Absent);
      EntriesPush(entries, known, entry);
      if registration !in known { known := known[registration := Known(descriptor, Absent)]; }
      entries := entries + [entry];
    }

    method SetState(registration: RegistrationId, state: BackendState)
      requires Valid()
      modifies this
      ensures Valid()
      ensures known == if registration in old(known)
                       then old(known)[registration := old(known)[registration].(state := state)]
                       else old(known)
    {
      assert Audit(registration);
      var i := IndexFrom(entries, registration, 0);
      if i < |entries| {
        EntriesUpdate(entries, known, i, state);
        entries := entries[i := entries[i].(state := state)];
        known := known[registration := known[registration].(state := state)];
      }
    }

    method MarkUnknown(registration: RegistrationId, descriptor: Descriptor)
      requires Valid()
      modifies this
      ensures Valid()
      ensures known == MarkedUnknown(old(known), registration, descriptor)
    {
      assert Audit(registration);
      var i := IndexFrom(entries, registration, 0);
      if i < |entries| {
        EntriesUpdate(entries, known, i, UnknownState);
        entries := entries[i := entries[i].(state := UnknownState)];
        known := known[registration := known[registration].(state := UnknownState)];
      } else {
        var entry := BackendEntry(registration, descriptor, UnknownState);
        EntriesPush(entries, known, entry);
        entries := entries + [entry];
        known := known[registration := Known(descriptor, UnknownState)];
      }
    }

    method EstablishDisarmed(registration: RegistrationId, descriptor: Descriptor)
      returns (r: Result<Unit, ScriptError>)
      requires Valid()
      modifies this
      ensures Valid()
      ensures r.Ok? <==> registration in old(known) && old(known)[registration].descriptor == descriptor
                         && old(known)[registration].state.Installed? && old(known)[registration].state.mode == OneShot
      ensures known == if r.Ok? then
                         old(known)[registration :=
                           old(known)[registration].(state := old(known)[registration].state.(arm := Disarmed))]
                       else old(known)
    {
      var validated := Validate(registration, descriptor);
      match validated { case Err(e) => return Err(e); case Ok(_) => }
      var state := State(registration);
      if !state.Installed? || state.mode != OneShot { return Err(CannotDisarm(registration)); }
      SetState(registration, Installed(state.interest, OneShot, Disarmed));
      r := Ok(Unit);
    }
  }

  // ---------- What each call leaves in the backend ----------

  /** The state a completed call leaves, by what the driver claims. */
  function Completed(before: BackendState, desired: BackendState, native: NativeResult): BackendState {
    match CommitOf(native)
    case Applied => desired
    case NotApplied => before
    case Unknown => UnknownState
  }

  const STRUCTURAL: NativeResult := Err(MutationFailure(Unknown, Kind(InvalidData)))

  /** The next step's result, or a structural failure when the script does not plan this operation. */
  function Planned(steps: seq<Step>, operation: Operation): NativeResult {
    if steps != [] && steps[0].operation == operation then steps[0].native else STRUCTURAL
  }

  predicate Plans(steps: seq<Step>, operation: Operation) { steps != [] && steps[0].operation == operation }

  class ScriptedDriver {
    var steps: seq<Step>
    var calls: seq<MutationCall>
    const model: BackendModel
    var fault: Option<ScriptError>

    ghost predicate Valid()
      reads this, model
    {
      model.Valid()
    }

    constructor (steps: seq<Step>)
      ensures Valid() && fresh(model) && this.steps == steps && calls == [] && fault == None && model.known == map[]
    {
      this.steps, calls, fault := steps, [], None;
      model := new BackendModel();
    }

    /** The script is over and nothing structural went wrong. */
    method Finish() returns (r: Result<Unit, ScriptError>)
      ensures r.Ok? <==> fault.None? && steps == []
    {
      if fault.Some? { return Err(fault.value); }
      if steps != [] { return Err(Remaining(|steps|)); }
      r := Ok(Unit);
    }

    method StructuralFailure(error: ScriptError) returns (failure: MutationFailure)
      modifies `fault
      ensures Err(failure) == STRUCTURAL
      ensures fault == if old(fault).Some? then old(fault) else Some(error)
    {
      if fault.None? { fault := Some(error); }
      failure := MutationFailure(Unknown, Kind(InvalidData));
    }

    /** Takes one step even when it plans another operation. */
    method Next(actual: Operation) returns (r: Result<NativeResult, MutationFailure>)
      modifies `steps, `fault
      ensures steps == if old(steps) == [] then [] else old(steps)[1..]
      ensures Plans(old(steps), actual) ==> r == Ok(old(steps)[0].native) && fault == old(fault)
      ensures !Plans(old(steps), actual) ==>
                && r.Err? && Err(r.error) == STRUCTURAL
                && fault == (if old(fault).Some? then old(fault)
                             else Some(if old(steps) == [] then Exhausted(actual)
                                       else Mismatch(old(steps)[0].operation, actual)))
    {
      if steps == [] {
        var failure := StructuralFailure(Exhausted(actual));
        return Err(failure);
      }
      var step := steps[0];
      steps := steps[1..];
      if step.operation != actual {
        var failure := StructuralFailure(Mismatch(step.operation, actual));
        return Err(failure);
      }
      r := Ok(step.native);
    }

    method Register(request: RegisterRequest) returns (r: NativeResult)
      requires Valid()
      modifies this, model
      ensures Valid()
      ensures calls == old(calls) + [RegisterCall(request.registration, request.key, request.interest, request.mode)]
      ensures r == Planned(old(steps), OpRegister)
      ensures Plans(old(steps), OpRegister) ==> steps == old(steps)[1..] && fault == old(fault)
      ensures model.known == old(model.known)[request.registration :=
                Known(if request.registration in old(model.known) then old(model.known)[request.registration].descriptor
                      else request.descriptor,
                      Completed(Absent, Installed(request.interest, request.mode, Armed), r))]
    {
      calls := calls + [RegisterCall(request.registration, request.key, request.interest, request.mode)];
      model.BeginRegister(request.registration, request.descriptor);
      var next := Next(OpRegister);
      match next {
        case Err(failure) =>
          model.MarkUnknown(request.registration, request.descriptor);
          r := Err(failure);
        case Ok(native) =>
          model.SetState(request.registration,
                         match CommitOf(native)
                         case Applied => Installed(request.interest, request.mode, Armed)
                         case Unknown => UnknownState
                         case NotApplied => Absent);
          r := native;
      }
    }

    /** A call for a registration the model knows under this descriptor plays the script; any other is a
        structural failure and plays nothing. */
    method Modify(request: ModifyRequest) returns (r: NativeResult)
      requires Valid()
      modifies this, model
      ensures Valid()
      ensures calls == old(calls) + [ModifyCall(request.registration, request.previousInterest, request.previousMode,
                                                request.previousArm, request.desiredInterest, request.desiredMode)]
      ensures var recognized := Recognizes(old(model.known), request.registration, request.descriptor);
              && r == (if recognized then Planned(old(steps), OpModify) else STRUCTURAL)
              && (recognized && Plans(old(steps), OpModify) ==> steps == old(steps)[1..] && fault == old(fault))
              && (!recognized ==> steps == old(steps) && fault.Some?)
      ensures Recognizes(old(model.known), request.registration, request.descriptor) ==>
                model.known == old(model.known)[request.registration :=
                  Known(request.descriptor,
                        Completed(old(model.known)[request.registration].state,
                                  Installed(request.desiredInterest, request.desiredMode, Armed), r))]
      ensures !Recognizes(old(model.known), request.registration, request.descriptor) ==>
                model.known == MarkedUnknown(old(model.known), request.registration, request.descriptor)
    {
      calls := calls + [ModifyCall(request.registration, request.previousInterest, request.previousMode,
                                   request.previousArm, request.desiredInterest, request.desiredMode)];
      var validated := model.Validate(request.registration, request.descriptor);
      match validated {
        case Err(error) =>
          model.MarkUnknown(request.registration, request.descriptor);
          var failure := StructuralFailure(error);
          return Err(failure);
        case Ok(_) =>
      }
      var next := Next(OpModify);
      match next {
        case Err(failure) =>
          model.MarkUnknown(request.registration, request.descriptor);
          r := Err(failure);
        case Ok(native) =>
          match CommitOf(native) {
            case Applied =>
              model.SetState(request.registration, Installed(request.desiredInterest, request.desiredMode, Armed));
            case Unknown => model.SetState(request.registration, UnknownState);
            case NotApplied =>
          }
          r := native;
      }
    }

    method Delete(request: DeleteRequest) returns (r: NativeResult)
      requires Valid()
      modifies this, model
      ensures Valid()
      ensures calls == old(calls) + [DeleteCall(request.registration, request.interest, request.state)]
      ensures var recognized := Recognizes(old(model.known), request.registration, request.descriptor);
              && r == (if recognized then Planned(old(steps), OpDelete) else STRUCTURAL)
              && (recognized && Plans(old(steps), OpDelete) ==> steps == old(steps)[1..] && fault == old(fault))
              && (!recognized ==> steps == old(steps) && fault.Some?)
      ensures Recognizes(old(model.known), request.registration, request.descriptor) ==>
                model.known == old(model.known)[request.registration :=
                  Known(request.descriptor,
                        Completed(old(model.known)[request.registration].state, Absent, r))]
      ensures !Recognizes(old(model.known), request.registration, request.descriptor) ==>
                model.known == MarkedUnknown(old(model.known), request.registration, request.descriptor)
    {
      calls := calls + [DeleteCall(request.registration, request.interest, request.state)];
      var validated := model.Validate(request.registration, request.descriptor);
      match validated {
        case Err(error) =>
          model.MarkUnknown(request.registration, request.descriptor);
          var failure := StructuralFailure(error);
          return Err(failure);
        case Ok(_) =>
      }
      var next := Next(OpDelete);
      match next {
        case Err(failure) =>
          model.MarkUnknown(request.registration, request.descriptor);
          r := Err(failure);
        case Ok(native) =>
          match CommitOf(native) {
            case Applied => model.SetState(request.registration, Absent);
            case Unknown => model.SetState(request.registration, UnknownState);
            case NotApplied =>
          }
          r := native;
      }
    }

    method EstablishDisarmed(registration: RegistrationId, descriptor: Descriptor)
      returns (r: Result<Unit, ScriptError>)
      requires Valid()
      modifies this, model
      ensures Valid() && steps == old(steps)
      ensures r.Ok? <==> registration in old(model.known) && old(model.known)[registration].descriptor == descriptor
                         && old(model.known)[registration].state.Installed?
                         && old(model.known)[registration].state.mode == OneShot
      ensures r.Ok? ==>
                && fault == old(fault) && calls == old(calls) + [EstablishDisarmedCall(registration)]
                && var state := old(model.known)[registration].state;
                   model.known == old(model.known)[registration := Known(descriptor, state.(arm := Disarmed))]
      ensures r.Err? ==> calls == old(calls) && model.known == old(model.known) && fault.Some?
    {
      var established := model.EstablishDisarmed(registration, descriptor);
      match established {
        case Err(error) =>
          if fault.None? { fault := Some(error); }
          r := Err(error);
        case Ok(_) =>
          calls := calls + [EstablishDisarmedCall(registration)];
          r := Ok(Unit);
      }
    }
  }
}
