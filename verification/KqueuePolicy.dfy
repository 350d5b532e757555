/** Atomicity policy for multi-filter kqueue mutations: what is submitted, how a failure is rolled
    back, and what the reported commit status promises. */
module KqueuePolicy {
  import opened Vocabulary
  import opened Kernels
  import opened KqueueCodec

  // ---------- Change lists ----------

  /** One descriptor has at most two filters, so a change list holds at most two changes. */
  function PushInterests(descriptor: Descriptor, token: U64, interest: Interest, action: Action): (changes: seq<Change>)
    ensures |changes| == interest.Width() && DistinctTargets(changes)
  {
    (if interest.readable then [Change(descriptor, Read, action, token)] else [])
    + (if interest.writable then [Change(descriptor, Write, action, token)] else [])
  }

  function Replacement(descriptor: Descriptor, token: U64, interest: Interest, add: Action): (changes: seq<Change>)
    ensures |changes| == 2 && DistinctTargets(changes)
  {
    [Change(descriptor, Read, if interest.readable then add else Delete, token),
     Change(descriptor, Write, if interest.writable then add else Delete, token)]
  }

  /** Made in full, a replacement leaves exactly the interest's filters, whatever was there. */
  lemma {:induction false} ReplacementInstalls(filters: Filters, descriptor: Descriptor, token: U64, interest: Interest,
                                               add: Action)
    requires add in {AddEnabled, AddDisabled}
    ensures Exactly(ApplyAll(filters, Replacement(descriptor, token, interest, add), [true, true]),
                    descriptor, token, interest, add == AddEnabled)
  {
    var changes := Replacement(descriptor, token, interest, add);
    Touched(filters, changes, [true, true], 0);
    Touched(filters, changes, [true, true], 1);
    assert changes[0].Target() == Knote(descriptor, Read) && changes[1].Target() == Knote(descriptor, Write);
  }

  function CleanupChanges(descriptor: Descriptor, interest: Interest): seq<Change> {
    PushInterests(descriptor, 0, interest, Delete)
  }

  // ---------- What one descriptor has installed ----------

  function Wanted(wanted: bool, token: U64, enabled: bool): Option<Installed> {
    if wanted then Some(Installed(token, enabled)) else None
  }

  /** The descriptor has exactly the interest's filters, all under `token` and all enabled or all
      disabled. */
  predicate Exactly(filters: Filters, descriptor: Descriptor, token: U64, interest: Interest, enabled: bool) {
    && Lookup(filters, Knote(descriptor, Read)) == Wanted(interest.readable, token, enabled)
    && Lookup(filters, Knote(descriptor, Write)) == Wanted(interest.writable, token, enabled)
  }

  predicate NothingInstalled(filters: Filters, descriptor: Descriptor) {
    Knote(descriptor, Read) !in filters && Knote(descriptor, Write) !in filters
  }

  /** Only the read and write filters of `descriptor` may differ. */
  ghost predicate SameElsewhere(before: Filters, after: Filters, descriptor: Descriptor) {
    forall k: Knote :: !(k.ident == descriptor && k.filter in {Read, Write}) ==> Lookup(after, k) == Lookup(before, k)
  }

  ghost predicate OnDescriptor(changes: seq<Change>, descriptor: Descriptor) {
    forall i | 0 <= i < |changes| :: changes[i].ident == descriptor && changes[i].filter in {Read, Write}
  }

  lemma {:induction false} StaysOnDescriptor(before: Filters, changes: seq<Change>, applied: seq<bool>,
                                             descriptor: Descriptor)
    requires |applied| == |changes| && OnDescriptor(changes, descriptor)
    ensures SameElsewhere(before, ApplyAll(before, changes, applied), descriptor)
  {
    forall k: Knote | !(k.ident == descriptor && k.filter in {Read, Write})
      ensures Lookup(ApplyAll(before, changes, applied), k) == Lookup(before, k)
    {
      assert !Targets(changes, k);
      Untouched(before, changes, applied, k);
    }
  }

  /** Some of the changes were made. */
  ghost predicate PartlyMade(before: Filters, changes: seq<Change>, after: Filters) {
    exists applied :: |applied| == |changes| && after == ApplyAll(before, changes, applied)
  }

  /** Every filter afterwards carries `token`, or was there already under the token it carries. */
  ghost predicate Carries(before: Filters, after: Filters, token: U64) {
    forall k | k in after :: after[k].token == token || (k in before && after[k].token == before[k].token)
  }

  /** Filters may have gone, but none came and none changed its token. */
  ghost predicate Thinned(before: Filters, after: Filters) {
    forall k | k in after :: k in before && after[k].token == before[k].token
  }

  predicate Tagged(changes: seq<Change>, token: U64) {
    forall i | 0 <= i < |changes| :: changes[i].action in {Delete, Disable, Trigger} || changes[i].token == token
  }

  /** Changes under one token bring no other token in. */
  lemma {:induction false} TaggedCarries(before: Filters, changes: seq<Change>, applied: seq<bool>, token: U64)
    requires |applied| == |changes| && Tagged(changes, token)
    ensures Carries(before, ApplyAll(before, changes, applied), token)
  {
    if changes != [] {
      var n := |changes| - 1;
      TaggedCarries(before, changes[..n], applied[..n], token);
    }
  }

  lemma {:induction false} PartlyTagged(before: Filters, changes: seq<Change>, after: Filters, token: U64)
    requires PartlyMade(before, changes, after) && Tagged(changes, token)
    ensures Carries(before, after, token)
  {
    var applied :| |applied| == |changes| && after == ApplyAll(before, changes, applied);
    TaggedCarries(before, changes, applied, token);
  }

  /** Deleting and disabling bring nothing in, whatever part of it was made. */
  lemma {:induction false} RemovalsThin(before: Filters, changes: seq<Change>, after: Filters)
    requires PartlyMade(before, changes, after)
    requires forall i | 0 <= i < |changes| :: changes[i].action in {Delete, Disable}
    ensures Thinned(before, after)
  {
    PartlyTagged(before, changes, after, 0);
    PartlyTagged(before, changes, after, 1);
  }

  // ---------- Submitting exactly ----------

  method Exact(kernel: Kernel, descriptor: Descriptor, changes: seq<Change>, ignoreMissingDelete: bool)
    returns (r: Result<Unit, IoError>)
    requires DistinctTargets(changes) && OnDescriptor(changes, descriptor)
    modifies kernel
    ensures changes == [] ==>
              r == Err(Os(EIO)) && kernel.history == old(kernel.history) && kernel.filters == old(kernel.filters)
    ensures changes != [] ==>
              && Submitted(old(kernel.history), kernel.history, changes)
              && Judged(kernel.history[|old(kernel.history)|], ignoreMissingDelete, r)
    ensures SameElsewhere(old(kernel.filters), kernel.filters, descriptor)
    ensures r.Ok? ==> forall i | 0 <= i < |changes| ::
                        Lookup(kernel.filters, changes[i].Target())
                        == Effect(changes[i], Lookup(old(kernel.filters), changes[i].Target()))
    ensures forall k: Knote | !Targets(changes, k) :: Lookup(kernel.filters, k) == Lookup(old(kernel.filters), k)
    ensures PartlyMade(old(kernel.filters), changes, kernel.filters)
  {
    var receipts, applied := Apply(kernel, changes);
    if changes == [] {
      assert kernel.filters == ApplyAll(old(kernel.filters), changes, applied);
      return Err(Os(EIO));
    }
    StaysOnDescriptor(old(kernel.filters), changes, applied, descriptor);
    forall k: Knote | !Targets(changes, k)
      ensures Lookup(kernel.filters, k) == Lookup(old(kernel.filters), k)
    {
      Untouched(old(kernel.filters), changes, applied, k);
    }
    ghost var submission := kernel.history[|old(kernel.history)|];
    ReceivedIsJudged(submission, ignoreMissingDelete);
    if Granted(submission, ignoreMissingDelete) {
      GrantedMeansDone(old(kernel.filters), submission, ignoreMissingDelete, applied, kernel.filters);
    }
    match receipts {
      case Err(source) => r := Err(source);
      case Ok(list) =>
        match FirstRefusal(list, ignoreMissingDelete) {
          case None => r := Ok(Unit);
          case Some(code) => r := Err(Os(code));
        }
    }
  }

  /** The history grew by one submission, of `changes`. */
  ghost predicate Submitted(before: seq<Submission>, after: seq<Submission>, changes: seq<Change>) {
    |after| == |before| + 1 && after[..|before|] == before && after[|before|].changes == changes
  }

  method Cleanup(kernel: Kernel, descriptor: Descriptor, interest: Interest) returns (r: Result<Unit, IoError>)
    modifies kernel
    ensures interest.IsEmpty() ==> r == Err(Os(EIO)) && kernel.history == old(kernel.history)
    ensures !interest.IsEmpty() ==>
              && Submitted(old(kernel.history), kernel.history, CleanupChanges(descriptor, interest))
              && Judged(kernel.history[|old(kernel.history)|], true, r)
    ensures SameElsewhere(old(kernel.filters), kernel.filters, descriptor)
    ensures Thinned(old(kernel.filters), kernel.filters)
    ensures r.Ok? && interest.readable ==> Knote(descriptor, Read) !in kernel.filters
    ensures r.Ok? && interest.writable ==> Knote(descriptor, Write) !in kernel.filters
    ensures !interest.readable ==>
              Lookup(kernel.filters, Knote(descriptor, Read)) == Lookup(old(kernel.filters), Knote(descriptor, Read))
    ensures !interest.writable ==>
              Lookup(kernel.filters, Knote(descriptor, Write)) == Lookup(old(kernel.filters), Knote(descriptor, Write))
  {
    var changes := CleanupChanges(descriptor, interest);
    r := Exact(kernel, descriptor, changes, true);
    RemovalsThin(old(kernel.filters), changes, kernel.filters);
    if interest.readable { assert changes[0].Target() == Knote(descriptor, Read); }
    if interest.writable { assert changes[|changes| - 1].Target() == Knote(descriptor, Write); }
  }

  // ---------- Registration without receipts ----------

  method ApplyRegistrationNative(kernel: Kernel, descriptor: Descriptor, token: U64, interest: Interest)
    returns (r: Result<Unit, IoError>)
    requires !interest.IsEmpty()
    modifies kernel
    ensures Submitted(old(kernel.history), kernel.history, PushInterests(descriptor, token, interest, AddEnabled))
    ensures var reply := kernel.history[|old(kernel.history)|].reply;
            && (r.Ok? <==> reply == AppliedWithoutReceipts || reply == Receipts(0))
            && (r.Err? ==> r.error == if reply.UnknownApply? then reply.source else Kind(OtherKind))
    ensures SameElsewhere(old(kernel.filters), kernel.filters, descriptor)
    ensures Carries(old(kernel.filters), kernel.filters, token)
    ensures r.Ok? && NothingInstalled(old(kernel.filters), descriptor) ==>
              Exactly(kernel.filters, descriptor, token, interest, true)
  {
    var changes: seq<Change>;
    if interest.readable {
      if interest.writable {
        changes := [Change(descriptor, Read, AddEnabled, token), Change(descriptor, Write, AddEnabled, token)];
      } else {
        changes := [Change(descriptor, Read, AddEnabled, token)];
      }
    } else {
      changes := [Change(descriptor, Write, AddEnabled, token)];
    }
    assert changes == PushInterests(descriptor, token, interest, AddEnabled);
    var native, applied := kernel.SubmitWithoutReceipts(changes);
    StaysOnDescriptor(old(kernel.filters), changes, applied, descriptor);
    TaggedCarries(old(kernel.filters), changes, applied, token);
    Touched(old(kernel.filters), changes, applied, 0);
    Touched(old(kernel.filters), changes, applied, |changes| - 1);
    if !interest.readable {
      assert !Targets(changes, Knote(descriptor, Read));
      Untouched(old(kernel.filters), changes, applied, Knote(descriptor, Read));
    }
    if !interest.writable {
      assert !Targets(changes, Knote(descriptor, Write));
      Untouched(old(kernel.filters), changes, applied, Knote(descriptor, Write));
    }
    match native {
      case AppliedWithoutReceipts => r := Ok(Unit);
      case Receipts(returned) => if returned == 0 { r := Ok(Unit); } else { r := Err(Kind(OtherKind)); }
      case UnknownApply(source) => r := Err(source);
    }
  }

  // ---------- The three mutations ----------

  /** Two submissions followed each other: what was asked for, then the sweep or the rollback. */
  ghost predicate SubmittedTwice(before: seq<Submission>, after: seq<Submission>, first: seq<Change>,
                                 second: seq<Change>)
  {
    && |after| == |before| + 2 && after[..|before|] == before
    && after[|before|].changes == first && after[|before| + 1].changes == second
  }

  /** A registration asked for every filter once. It succeeded exactly if the kernel made the call or returned
      no output; otherwise the sweep decides between nothing having happened and not knowing. */
  ghost predicate RegisterServed(before: seq<Submission>, after: seq<Submission>, descriptor: Descriptor, token: U64,
                                 interest: Interest, r: NativeResult)
  {
    var h, asked := |before|, PushInterests(descriptor, token, interest, AddEnabled);
    match r
    case Ok(_) =>
      Submitted(before, after, asked) && (after[h].reply == AppliedWithoutReceipts || after[h].reply == Receipts(0))
    case Err(failure) =>
      && SubmittedTwice(before, after, asked, CleanupChanges(descriptor, BOTH))
      && after[h].reply != AppliedWithoutReceipts && after[h].reply != Receipts(0)
      && failure.source == (if after[h].reply.UnknownApply? then after[h].reply.source else Kind(OtherKind))
      && failure.commit == if Granted(after[h + 1], true) then NotApplied else Unknown
  }

  /** A modification asked for the whole replacement and succeeded exactly if its receipts grant it; otherwise
      the rollback to the prior filters, in the prior arm state, decides. */
  ghost predicate ModifyServed(before: seq<Submission>, after: seq<Submission>, descriptor: Descriptor, token: U64,
                               previousInterest: Interest, previousArm: ArmState, desiredInterest: Interest,
                               r: NativeResult)
  {
    var h, asked := |before|, Replacement(descriptor, token, desiredInterest, AddEnabled);
    var prior := Replacement(descriptor, token, previousInterest,
                             if previousArm == Armed then AddEnabled else AddDisabled);
    match r
    case Ok(_) => Submitted(before, after, asked) && Granted(after[h], true)
    case Err(failure) =>
      && SubmittedTwice(before, after, asked, prior)
      && !Granted(after[h], true) && Refused(after[h], true, failure.source)
      && failure.commit == if Granted(after[h + 1], true) then NotApplied else Unknown
  }

  /** A deletion asked for the filters of a proven interest, or for both of an uncertain registration, and
      succeeded exactly if its receipts grant it. */
  ghost predicate DeleteServed(before: seq<Submission>, after: seq<Submission>, descriptor: Descriptor,
                               interest: Interest, state: RegistrationState, r: NativeResult)
  {
    var h, scope := |before|, if state.Uncertain? then BOTH else interest;
    if scope.IsEmpty() then after == before && r == Err(MutationFailure(Unknown, Os(EIO)))
    else
      && Submitted(before, after, PushInterests(descriptor, 0, scope, Delete))
      && (r.Ok? <==> Granted(after[h], true))
      && (r.Err? ==> r.error.commit == Unknown && Refused(after[h], true, r.error.source))
  }

  method RegisterDescriptor(kernel: Kernel, descriptor: Descriptor, token: U64, interest: Interest)
    returns (r: NativeResult)
    requires !interest.IsEmpty()
    modifies kernel
    ensures SameElsewhere(old(kernel.filters), kernel.filters, descriptor)
    ensures Carries(old(kernel.filters), kernel.filters, token)
    ensures r.Ok? && NothingInstalled(old(kernel.filters), descriptor) ==>
              Exactly(kernel.filters, descriptor, token, interest, true)
    ensures CommitOf(r).NotApplied? ==> NothingInstalled(kernel.filters, descriptor)
    ensures RegisterServed(old(kernel.history), kernel.history, descriptor, token, interest, r)
  {
    var applied := ApplyRegistrationNative(kernel, descriptor, token, interest);
    match applied {
      case Ok(_) => r := Ok(Unit);
      case Err(source) =>
        var swept := Cleanup(kernel, descriptor, BOTH);
        r := Err(MutationFailure(if swept.Ok? then NotApplied else Unknown, source));
    }
  }

  function RestoreAction(previousArm: ArmState): Action {
    match previousArm case Armed => AddEnabled case Disarmed => AddDisabled
  }

  /** One replacement, judged by its receipts. */
  method Replace(kernel: Kernel, descriptor: Descriptor, token: U64, interest: Interest, add: Action)
    returns (r: Result<Unit, IoError>)
    requires add in {AddEnabled, AddDisabled}
    modifies kernel
    ensures SameElsewhere(old(kernel.filters), kernel.filters, descriptor)
    ensures Carries(old(kernel.filters), kernel.filters, token)
    ensures Submitted(old(kernel.history), kernel.history, Replacement(descriptor, token, interest, add))
    ensures Judged(kernel.history[|old(kernel.history)|], true, r)
    ensures r.Ok? ==> Exactly(kernel.filters, descriptor, token, interest, add == AddEnabled)
  {
    var changes := Replacement(descriptor, token, interest, add);
    r := Exact(kernel, descriptor, changes, true);
    PartlyTagged(old(kernel.filters), changes, kernel.filters, token);
    assert changes[0].Target() == Knote(descriptor, Read) && changes[1].Target() == Knote(descriptor, Write);
  }

  method ModifyDescriptor(kernel: Kernel, descriptor: Descriptor, token: U64, previousInterest: Interest,
                          previousArm: ArmState, desiredInterest: Interest)
    returns (r: NativeResult)
    modifies kernel
    ensures SameElsewhere(old(kernel.filters), kernel.filters, descriptor)
    ensures Carries(old(kernel.filters), kernel.filters, token)
    ensures r.Ok? ==> Exactly(kernel.filters, descriptor, token, desiredInterest, true)
    ensures CommitOf(r).NotApplied? ==>
              Exactly(kernel.filters, descriptor, token, previousInterest, previousArm == Armed)
    ensures ModifyServed(old(kernel.history), kernel.history, descriptor, token, previousInterest, previousArm,
                         desiredInterest, r)
  {
    var replaced := Replace(kernel, descriptor, token, desiredInterest, AddEnabled);
    match replaced {
      case Ok(_) => r := Ok(Unit);
      case Err(source) =>
        var restored := Replace(kernel, descriptor, token, previousInterest, RestoreAction(previousArm));
        r := Err(MutationFailure(if restored.Ok? then NotApplied else Unknown, source));
    }
  }

  /** A proven registration is deleted by the filters its interest names, an uncertain one by both. */
  function DeletedInterest(interest: Interest, state: RegistrationState): Interest {
    match state case Registered(_) => interest case Uncertain => BOTH
  }

  method DeleteDescriptor(kernel: Kernel, descriptor: Descriptor, interest: Interest, state: RegistrationState)
    returns (r: NativeResult)
    modifies kernel
    ensures SameElsewhere(old(kernel.filters), kernel.filters, descriptor)
    ensures Thinned(old(kernel.filters), kernel.filters)
    ensures r.Ok? ==>
              var scope := DeletedInterest(interest, state);
              && (scope.readable || Knote(descriptor, Read) !in old(kernel.filters) ==>
                  Knote(descriptor, Read) !in kernel.filters)
              && (scope.writable || Knote(descriptor, Write) !in old(kernel.filters) ==>
                  Knote(descriptor, Write) !in kernel.filters)
    ensures DeleteServed(old(kernel.history), kernel.history, descriptor, interest, state, r)
  {
    var scope := DeletedInterest(interest, state);
    var swept := Cleanup(kernel, descriptor, scope);
    match swept {
      case Ok(_) => r := Ok(Unit);
      case Err(source) => r := Err(MutationFailure(Unknown, source));
    }
  }
}
