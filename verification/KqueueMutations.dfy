/** The mutation machine over the kqueue policy: each operation keeps the poller's table sound and, in
    agreement with the kernel, keeps that agreement. */
module KqueueMutations {
  import opened Vocabulary
  import opened Slots
  import opened RegistrationTables
  import opened PollOwners
  import opened MutationMachine
  import opened Kernels
  import opened KqueuePolicy
  import opened Containment
  import opened Agreement
  import opened Runs

  /** What the poller keeps of the table between calls. */
  ghost predicate Sound(log: seq<LogEntry>, live: LiveMap, slots: seq<Slot>) {
    DistinctDescriptors(live) && Interested(live) && LogFits(log, live, slots)
  }

  // ---------- Each mutation, on values ----------

  lemma {:induction false} IssuedInBetween(a: seq<Slot>, b: seq<Slot>, c: seq<Slot>, id: RegistrationId)
    requires IssuesFirst(a, b, id) && SameGenerations(b, c)
    ensures IssuesFirst(a, c, id)
  {
    SameGenerationsSameIssued(b, c);
  }

  lemma {:induction false} RegisterKeepsSound(log: seq<LogEntry>, live: LiveMap, slots: seq<Slot>, later: LiveMap,
                                              after: seq<Slot>, id: RegistrationId, entry: Entry, commit: CommitStatus)
    requires Sound(log, live, slots) && !Owned(live, entry.descriptor) && !entry.interest.IsEmpty()
    requires IssuesFirst(slots, after, id) && id !in live
    requires later == MutationMachine.Registered(live, id, entry, commit)
    ensures Sound(log, later, after) && Evolves(Moment(live, slots), Moment(later, after))
  {
    assert later - {id} == live - {id};
    RegisterFits(log, live, slots, after, later, id);
    forall a, b | a in later && b in later && a != b ensures later[a].descriptor != later[b].descriptor {
      if a == id { assert b in live && later[b] == live[b]; }
      if b == id { assert a in live && later[a] == live[a]; }
    }
  }

  /** Whatever a registration did, the kernel stays contained; in agreement, it stays in agreement. */
  lemma {:induction false} RegisterAgrees(live: LiveMap, later: LiveMap, before: Filters, after: Filters,
                                          id: RegistrationId, entry: Entry, commit: CommitStatus)
    requires Contained(live, before) && !Owned(live, entry.descriptor) && id !in live && entry.state == ARMED
    requires SameElsewhere(before, after, entry.descriptor) && Carries(before, after, id)
    requires later == MutationMachine.Registered(live, id, entry, commit)
    requires commit.Applied? && NothingInstalled(before, entry.descriptor) ==>
               Exactly(after, entry.descriptor, id, entry.interest, true)
    requires commit.NotApplied? ==> NothingInstalled(after, entry.descriptor)
    ensures Contained(later, after) && (Agrees(live, before) ==> Agrees(later, after))
  {
    FreshDescriptorIsClean(live, before, entry.descriptor);
    assert later - {id} == live - {id};
    MutationKeepsContained(live, later, before, after, id, entry.descriptor);
    if Agrees(live, before) { MutationKeepsAgreement(live, later, before, after, id, entry.descriptor); }
  }

  /** A reservation and its settlement, seen as one step. */
  lemma {:induction false} RegisterSettles(log: seq<LogEntry>, live: LiveMap, slots: seq<Slot>, middle: seq<Slot>,
                                           later: LiveMap, after: seq<Slot>, before: Filters, filters: Filters,
                                           id: RegistrationId, entry: Entry, commit: CommitStatus)
    requires Sound(log, live, slots) && Contained(live, before) && !Owned(live, entry.descriptor)
    requires id !in live && entry.state == ARMED && !entry.interest.IsEmpty()
    requires IssuesFirst(slots, middle, id) && SameGenerations(middle, after)
    requires later == Settled(live[id := entry], id, commit)
    requires SameElsewhere(before, filters, entry.descriptor) && Carries(before, filters, id)
    requires commit.Applied? && NothingInstalled(before, entry.descriptor) ==>
               Exactly(filters, entry.descriptor, id, entry.interest, true)
    requires commit.NotApplied? ==> NothingInstalled(filters, entry.descriptor)
    ensures later == MutationMachine.Registered(live, id, entry, commit) && IssuesFirst(slots, after, id)
    ensures Sound(log, later, after) && Evolves(Moment(live, slots), Moment(later, after))
    ensures Contained(later, filters) && (Agrees(live, before) ==> Agrees(later, filters))
  {
    SettledIsRegistered(live, id, entry, commit);
    IssuedInBetween(slots, middle, after, id);
    RegisterKeepsSound(log, live, slots, later, after, id, entry, commit);
    RegisterAgrees(live, later, before, filters, id, entry, commit);
  }

  lemma {:induction false} SettlingKeepsSound(log: seq<LogEntry>, live: LiveMap, slots: seq<Slot>, later: LiveMap,
                                              after: seq<Slot>, id: RegistrationId)
    requires Sound(log, live, slots) && SameGenerations(slots, after) && id in live
    requires later == live || later == live - {id} || later == live[id := live[id].(state := Uncertain)]
    ensures Sound(log, later, after) && Evolves(Moment(live, slots), Moment(later, after))
  {
    SameGenerationsSameIssued(slots, after);
    DisarmingFits(log, live, slots, later, after);
  }

  lemma {:induction false} ModifySettles(log: seq<LogEntry>, live: LiveMap, slots: seq<Slot>, after: seq<Slot>,
                                         id: RegistrationId, interest: Interest, mode: Mode, error: Option<Error>)
    requires Sound(log, live, slots) && SameGenerations(slots, after) && id in live && Issued(slots, id)
    requires !interest.IsEmpty() && Reached(error).Some?
    ensures var later := Modified(live, id, interest, mode, Reached(error).value);
            && Sound(log + ModifyLog(id, error), later, after)
            && Evolves(Moment(live, slots), Moment(later, after))
  {
    SameGenerationsSameIssued(slots, after);
    ModifyFits(log, live, slots, after, id, interest, mode, error);
  }

  lemma {:induction false} ModifyAgrees(live: LiveMap, before: Filters, after: Filters, id: RegistrationId,
                                        interest: Interest, mode: Mode, commit: CommitStatus)
    requires Contained(live, before) && DistinctDescriptors(live) && id in live && live[id].state.Registered?
    requires SameElsewhere(before, after, live[id].descriptor) && Carries(before, after, id)
    requires commit.Applied? ==> Exactly(after, live[id].descriptor, id, interest, true)
    requires commit.NotApplied? ==>
               Exactly(after, live[id].descriptor, id, live[id].interest, live[id].state.arm == Armed)
    ensures var later := Modified(live, id, interest, mode, commit);
            Contained(later, after) && (Agrees(live, before) ==> Agrees(later, after))
  {
    var later := Modified(live, id, interest, mode, commit);
    assert later - {id} == live - {id};
    MutationKeepsContained(live, later, before, after, id, live[id].descriptor);
    if Agrees(live, before) { MutationKeepsAgreement(live, later, before, after, id, live[id].descriptor); }
  }

  /** A deletion that is granted leaves nothing of its registration, agreement or not. */
  lemma {:induction false} DeleteAgrees(live: LiveMap, before: Filters, after: Filters, id: RegistrationId,
                                        commit: CommitStatus)
    requires Contained(live, before) && DistinctDescriptors(live) && id in live && !commit.NotApplied?
    requires SameElsewhere(before, after, live[id].descriptor) && Thinned(before, after)
    requires var e := live[id];
             var scope := DeletedInterest(e.interest, e.state);
             commit.Applied? ==>
               && (scope.readable || Knote(e.descriptor, Read) !in before ==> Knote(e.descriptor, Read) !in after)
               && (scope.writable || Knote(e.descriptor, Write) !in before ==> Knote(e.descriptor, Write) !in after)
    ensures commit.Applied? ==> NothingInstalled(after, live[id].descriptor)
    ensures var later := Deleted(live, id, commit);
            Contained(later, after) && (Agrees(live, before) ==> Agrees(later, after))
  {
    var later := Deleted(live, id, commit);
    assert later - {id} == live - {id};
    if commit.Applied? { ScopedDeleteIsComplete(live, before, after, id); }
    MutationKeepsContained(live, later, before, after, id, live[id].descriptor);
    if Agrees(live, before) { MutationKeepsAgreement(live, later, before, after, id, live[id].descriptor); }
  }

  // ---------- Each mutation, over the shared state it touches ----------

  /** A rejection before any native call. */
  twostate predicate NothingCalled(table: RegistrationTable, kernel: Kernel)
    reads table, kernel
  {
    && table.slots == old(table.slots) && table.live == old(table.live)
    && kernel.history == old(kernel.history) && kernel.filters == old(kernel.filters)
  }

  method RegisterWith(owner: PollOwner, ids: PollIds, table: RegistrationTable, kernel: Kernel,
                      ghost log: seq<LogEntry>, descriptor: Descriptor, key: Key, interest: Interest, mode: Mode)
    returns (r: Result<Registration, RegisterError>, ghost id: RegistrationId)
    requires owner.Valid(ids) && table.Valid() && Sound(log, table.live, table.slots)
    requires Contained(table.live, kernel.filters) && !Owned(table.live, descriptor)
    modifies owner, ids, table, kernel
    ensures owner.Valid(ids) && table.Valid() && Sound(log, table.live, table.slots)
            && Contained(table.live, kernel.filters)
    ensures Evolves(Moment(old(table.live), old(table.slots)), Moment(table.live, table.slots))
    ensures Agrees(old(table.live), old(kernel.filters)) ==> Agrees(table.live, kernel.filters)
    ensures r.Ok? || r.error.cause.Mutation? ==>
              RegisterTells(Moment(old(table.live), old(table.slots)), Moment(table.live, table.slots),
                            Entry(descriptor, key, interest, mode, ARMED), r, id)
    ensures r.Ok? || r.error.cause.Mutation? ==>
              RegisterServed(old(kernel.history), kernel.history, descriptor, id, interest, Told(RegisterCause(r)))
    ensures (r.Err? && !r.error.cause.Mutation?) <==> old(RegisterRefused(owner, ids, table, interest))
    ensures r.Err? && !r.error.cause.Mutation? ==>
              NothingCalled(table, kernel) && r.error == RegisterError(old(RefusalCause(table, interest)), None)
  {
    ghost var live, slots, filters := table.live, table.slots, kernel.filters;
    var step := BeginRegister(owner, ids, table, descriptor, key, interest, mode);
    match step {
      case RegisterRejected(cause) =>
        r := Err(RegisterError(cause, None));
        id := 0;
        assert table.live == live && table.slots == slots && kernel.filters == filters;
      case CallRegister(handle, lease, request) =>
        id := handle.id;
        ghost var middle := table.slots;
        ghost var entry, commit := Entry(descriptor, key, interest, mode, ARMED), Unknown;
        r, commit := CallAndSettleRegister(table, kernel, lease, handle, request);
        RegisterSettles(log, live, slots, middle, table.live, table.slots, filters, kernel.filters, id, entry, commit);
    }
  }

  method CallAndSettleRegister(table: RegistrationTable, kernel: Kernel, lease: nat, handle: Registration,
                               request: RegisterRequest)
    returns (r: Result<Registration, RegisterError>, ghost commit: CommitStatus)
    requires table.Valid() && Leased(table, lease, handle.id) && request.registration == handle.id
             && !request.interest.IsEmpty()
    modifies table, kernel
    ensures table.Valid() && SameGenerations(old(table.slots), table.slots)
    ensures handle.id in old(table.live) && table.live == Settled(old(table.live), handle.id, commit)
    ensures SameElsewhere(old(kernel.filters), kernel.filters, request.descriptor)
    ensures Carries(old(kernel.filters), kernel.filters, handle.id)
    ensures commit.Applied? && NothingInstalled(old(kernel.filters), request.descriptor) ==>
              Exactly(kernel.filters, request.descriptor, handle.id, request.interest, true)
    ensures commit.NotApplied? ==> NothingInstalled(kernel.filters, request.descriptor)
    ensures Reached(RegisterCause(r)) == Some(commit)
    ensures RegisterServed(old(kernel.history), kernel.history, request.descriptor, handle.id, request.interest,
                           Told(RegisterCause(r)))
    ensures if r.Ok? then commit == Applied && r.value == handle
            else && r.error.cause.Mutation? && r.error.cause.commit == commit
                 && r.error.registration == if commit.NotApplied? then None else Some(handle)
  {
    var native := RegisterDescriptor(kernel, request.descriptor, request.registration, request.interest);
    commit := CommitOf(native);
    r := SettleRegister(table, lease, handle, native);
  }

  method ModifyWith(owner: PollOwner, table: RegistrationTable, kernel: Kernel, ghost log: seq<LogEntry>,
                    registration: Registration, interest: Interest, mode: Mode)
    returns (r: Result<Unit, Error>, ghost longer: seq<LogEntry>)
    requires table.Valid() && Sound(log, table.live, table.slots) && Contained(table.live, kernel.filters)
    modifies table, kernel
    ensures table.Valid() && Sound(longer, table.live, table.slots) && Contained(table.live, kernel.filters)
    ensures Evolves(Moment(old(table.live), old(table.slots)), Moment(table.live, table.slots))
    ensures SameGenerations(old(table.slots), table.slots)
    ensures Agrees(old(table.live), old(kernel.filters)) ==> Agrees(table.live, kernel.filters)
    ensures longer == log + ModifyLog(registration.id, ModifyCause(r))
    ensures ModifyTells(owner.Current(), old(table.live), table.live, registration, interest, mode, r)
    ensures r.Ok? || r.error.Mutation? ==>
              var before := old(table.live)[registration.id];
              ModifyServed(old(kernel.history), kernel.history, before.descriptor, registration.id, before.interest,
                           before.state.arm, interest, Told(ModifyCause(r)))
    ensures r.Err? && !r.error.Mutation? ==> NothingCalled(table, kernel)
  {
    ghost var live, slots, filters := table.live, table.slots, kernel.filters;
    var step := BeginModify(owner, table, registration, interest, mode);
    match step {
      case ModifyRejected(cause) =>
        r := Err(cause);
        longer := log + [];
        assert longer == log;
      case CallModify(request) =>
        table.LiveIsIssued(registration.id);
        ghost var commit;
        r, commit := CallAndSettleModify(table, kernel, request);
        longer := log + ModifyLog(registration.id, ModifyCause(r));
        ModifySettles(log, live, slots, table.slots, registration.id, interest, mode, ModifyCause(r));
        ModifyAgrees(live, filters, kernel.filters, registration.id, interest, mode, commit);
    }
  }

  method CallAndSettleModify(table: RegistrationTable, kernel: Kernel, request: ModifyRequest)
    returns (r: Result<Unit, Error>, ghost commit: CommitStatus)
    requires table.Valid() && request.registration in table.live
    modifies table, kernel
    ensures table.Valid() && SameGenerations(old(table.slots), table.slots)
    ensures table.live
            == Modified(old(table.live), request.registration, request.desiredInterest, request.desiredMode, commit)
    ensures SameElsewhere(old(kernel.filters), kernel.filters, request.descriptor)
    ensures Carries(old(kernel.filters), kernel.filters, request.registration)
    ensures commit.Applied? ==>
              Exactly(kernel.filters, request.descriptor, request.registration, request.desiredInterest, true)
    ensures commit.NotApplied? ==>
              Exactly(kernel.filters, request.descriptor, request.registration, request.previousInterest,
                      request.previousArm == Armed)
    ensures Reached(ModifyCause(r)) == Some(commit)
    ensures ModifyServed(old(kernel.history), kernel.history, request.descriptor, request.registration,
                         request.previousInterest, request.previousArm, request.desiredInterest, Told(ModifyCause(r)))
    ensures if r.Ok? then commit == Applied else r.error.Mutation? && r.error.commit == commit
  {
    var native := ModifyDescriptor(kernel, request.descriptor, request.registration, request.previousInterest,
                                   request.previousArm, request.desiredInterest);
    commit := CommitOf(native);
    r := SettleModify(table, request, native);
  }

  method DeleteWith(owner: PollOwner, table: RegistrationTable, kernel: Kernel, ghost log: seq<LogEntry>,
                    registration: Registration)
    returns (r: Result<Unit, DeleteError>)
    requires table.Valid() && Sound(log, table.live, table.slots) && Contained(table.live, kernel.filters)
    modifies table, kernel
    ensures table.Valid() && Sound(log, table.live, table.slots) && Contained(table.live, kernel.filters)
    ensures Evolves(Moment(old(table.live), old(table.slots)), Moment(table.live, table.slots))
    ensures SameGenerations(old(table.slots), table.slots)
    ensures Agrees(old(table.live), old(kernel.filters)) ==> Agrees(table.live, kernel.filters)
    ensures DeleteTells(owner.Current(), old(table.live), table.live, registration, r)
    ensures r.Ok? ==> NothingInstalled(kernel.filters, old(table.live)[registration.id].descriptor)
    ensures r.Err? && r.error.cause.Mutation? ==> r.error.cause.commit == Unknown
    ensures r.Ok? || r.error.cause.Mutation? ==>
              var before := old(table.live)[registration.id];
              DeleteServed(old(kernel.history), kernel.history, before.descriptor, before.interest, before.state,
                           Told(DeleteCause(r)))
    ensures r.Err? && !r.error.cause.Mutation? ==> NothingCalled(table, kernel)
  {
    ghost var live, slots, filters := table.live, table.slots, kernel.filters;
    var step := BeginDelete(owner, table, registration);
    match step {
      case DeleteRejected(cause) => r := Err(DeleteError(cause, registration));
      case CallDelete(lease, request) =>
        ghost var commit;
        r, commit := CallAndSettleDelete(table, kernel, lease, registration, request);
        SettlingKeepsSound(log, live, slots, table.live, table.slots, registration.id);
        DeleteAgrees(live, filters, kernel.filters, registration.id, commit);
    }
  }

  method CallAndSettleDelete(table: RegistrationTable, kernel: Kernel, lease: nat, registration: Registration,
                             request: DeleteRequest)
    returns (r: Result<Unit, DeleteError>, ghost commit: CommitStatus)
    requires table.Valid() && Leased(table, lease, registration.id)
    modifies table, kernel
    ensures table.Valid() && SameGenerations(old(table.slots), table.slots)
    ensures registration.id in old(table.live) && table.live == Deleted(old(table.live), registration.id, commit)
    ensures SameElsewhere(old(kernel.filters), kernel.filters, request.descriptor)
    ensures Thinned(old(kernel.filters), kernel.filters)
    ensures commit.Applied? ==>
              var scope := DeletedInterest(request.interest, request.state);
              && (scope.readable || Knote(request.descriptor, Read) !in old(kernel.filters) ==>
                  Knote(request.descriptor, Read) !in kernel.filters)
              && (scope.writable || Knote(request.descriptor, Write) !in old(kernel.filters) ==>
                  Knote(request.descriptor, Write) !in kernel.filters)
    ensures Reached(DeleteCause(r)) == Some(commit)
    ensures DeleteServed(old(kernel.history), kernel.history, request.descriptor, request.interest, request.state,
                         Told(DeleteCause(r)))
    ensures if r.Ok? then commit == Applied
            else && r.error.registration == registration && r.error.cause.Mutation?
                 && r.error.cause.commit == commit == Unknown
  {
    var native := DeleteDescriptor(kernel, request.descriptor, request.interest, request.state);
    commit := CommitOf(native);
    r := SettleDelete(table, lease, registration, native);
  }
}
