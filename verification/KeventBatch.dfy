/** One arena of native records, shared in turn by wait output and by the disjoint input and output
    of a disarm submission. */
module KeventBatches {
  import opened Vocabulary
  import opened Kernels
  import opened KqueueCodec

  /** A storage cell and what was last written there. */
  datatype Cell = Uninit | Staged(change: Change) | Written(event: Kevent)

  datatype StageError = StageBounds | Misreported

  class KeventBatch {
    const eventCapacity: nat
    const changeCapacity: nat
    const storage: array<Cell>
    var observed: nat
    var receipts: nat
    /** What the kernel wrote in the current phase, as far as it may be read. */
    ghost var waitOutput: seq<Kevent>
    ghost var receiptOutput: seq<Kevent>

    ghost predicate Valid()
      reads this, storage
    {
      && 0 < eventCapacity <= storage.Length && 2 * changeCapacity <= storage.Length
      && eventCapacity <= I32_MAX && changeCapacity <= I32_MAX
      && observed == |waitOutput| <= eventCapacity
      && receipts == |receiptOutput| <= changeCapacity
      && (forall i | 0 <= i < observed :: storage[i] == Written(waitOutput[i]))
      && (forall i | 0 <= i < receipts :: storage[changeCapacity + i] == Written(receiptOutput[i]))
    }

    constructor (eventCapacity: nat, changeCapacity: nat)
      requires 0 < eventCapacity <= I32_MAX && changeCapacity <= I32_MAX
      ensures Valid() && fresh(storage) && observed == 0 && receipts == 0
      ensures this.eventCapacity == eventCapacity && this.changeCapacity == changeCapacity
    {
      this.eventCapacity, this.changeCapacity := eventCapacity, changeCapacity;
      var capacity := if eventCapacity >= 2 * changeCapacity then eventCapacity else 2 * changeCapacity;
      storage := new Cell[capacity](_ => Uninit);
      observed, receipts, waitOutput, receiptOutput := 0, 0, [], [];
    }

    /** Construction is refused for an empty batch and for capacities the native call cannot carry. */
    static method New(eventCapacity: nat, changeCapacity: nat) returns (r: Option<KeventBatch>)
      ensures r.Some? <==> 0 < eventCapacity <= I32_MAX && changeCapacity <= I32_MAX
      ensures r.Some? ==> fresh(r.value) && fresh(r.value.storage) && r.value.Valid()
                          && r.value.eventCapacity == eventCapacity && r.value.changeCapacity == changeCapacity
    {
      if eventCapacity == 0 { return None; }
      if eventCapacity > I32_MAX || changeCapacity > I32_MAX { return None; }
      var batch := new KeventBatch(eventCapacity, changeCapacity);
      r := Some(batch);
    }

    /** The kernel's wait output lands at the front; both earlier phases end first. A failed wait
        leaves nothing readable. */
    method Wait(native: Result<seq<Kevent>, IoError>) returns (r: Result<nat, IoError>)
      requires Valid()
      modifies this, storage
      ensures Valid() && receiptOutput == []
      ensures match Answered(native, eventCapacity)
              case Ok(raw) => r == Ok(|raw|) && waitOutput == raw
              case Err(source) => r == Err(source) && waitOutput == []
    {
      observed, receipts, waitOutput, receiptOutput := 0, 0, [], [];
      match native {
        case Err(source) => r := Err(source);
        case Ok(raw) =>
          if |raw| > eventCapacity { return Err(Kind(OtherKind)); }
          forall i | 0 <= i < |raw| { storage[i] := Written(raw[i]); }
          observed, waitOutput := |raw|, raw;
          r := Ok(|raw|);
      }
    }

    /** A guarded read of the wait output: nothing outside the current kernel-written prefix. */
    function Event(index: nat, claimed: nat): (r: Option<Kevent>)
      requires Valid()
      reads this, storage
      ensures r.Some? <==> claimed == observed && index < observed
      ensures r.Some? ==> r.value == waitOutput[index]
    {
      if claimed != observed || index >= claimed then None else Some(storage[index].event)
    }

    /** Writes exactly `count` changes to the input half, or reports a traversal that misstated its length. */
    method Fill(changes: DisarmChanges, count: nat) returns (r: Result<Unit, StageError>)
      requires changes.Valid() && count == changes.remaining <= storage.Length
      modifies storage, changes
      ensures changes.Valid() && r == Ok(Unit)
      ensures forall i | 0 <= i < count :: storage[i] == Staged(old(changes.Rest())[i])
    {
      ghost var all := changes.Rest();
      var i := 0;
      while i < count
        invariant 0 <= i <= count && changes.Valid() && changes.Rest() == all[i..]
        invariant forall j | 0 <= j < i :: storage[j] == Staged(all[j])
      {
        var item := changes.Next();
        match item {
          case None => return Err(Misreported);
          case Some(change) => storage[i] := Staged(change);
        }
        i := i + 1;
      }
      var extra := changes.Next();
      if extra.Some? { return Err(Misreported); }
      r := Ok(Unit);
    }

    /** Stages every change, ending the wait phase; an empty or oversized list is refused untouched. */
    method Stage(changes: DisarmChanges) returns (r: Result<nat, StageError>)
      requires Valid() && changes.Valid()
      modifies this, storage, changes
      ensures Valid() && changes.Valid()
      ensures var count := |old(changes.Rest())|;
              if count == 0 || count > changeCapacity then
                r == Err(StageBounds) && waitOutput == old(waitOutput) && receiptOutput == old(receiptOutput)
              else
                && r == Ok(count) && waitOutput == [] && receiptOutput == []
                && forall i | 0 <= i < count :: storage[i] == Staged(old(changes.Rest())[i])
    {
      var count := changes.remaining;
      if count == 0 || count > changeCapacity { return Err(StageBounds); }
      observed, receipts, waitOutput, receiptOutput := 0, 0, [], [];
      var filled := Fill(changes, count);
      match filled {
        case Err(e) => r := Err(e);
        case Ok(_) => r := Ok(count);
      }
    }

    /** Submits the staged input with the output half as receipt space, then records how many
        receipts may be read. */
    method SubmitStaged(kernel: Kernel, count: nat) returns (reply: NativeApply, ghost applied: seq<bool>)
      requires Valid() && 0 < count <= changeCapacity && waitOutput == [] && receiptOutput == []
      requires forall i | 0 <= i < count :: storage[i].Staged?
      requires DistinctTargets(StagedChanges(count))
      modifies this, storage, kernel
      ensures Valid() && waitOutput == []
      ensures |kernel.history| == |old(kernel.history)| + 1
              && kernel.history[..|old(kernel.history)|] == old(kernel.history)
      ensures var submission := kernel.history[|old(kernel.history)|];
              && submission.changes == old(StagedChanges(count)) && submission.reply == reply
              && (reply.Receipts? && reply.returned <= count ==>
                  receiptOutput == submission.receipts && |receiptOutput| == reply.returned)
              && Replies(old(kernel.filters), submission.changes, reply, submission.receipts, applied, kernel.filters)
    {
      var changes := StagedChanges(count);
      var events, done;
      reply, events, done := kernel.Submit(changes);
      applied := done;
      if reply.Receipts? {
        forall i | 0 <= i < |events| { storage[changeCapacity + i] := Written(events[i]); }
        if reply.returned <= count { receipts, receiptOutput := reply.returned, events; }
      }
    }

    /** Stages the changes and submits them; a list that cannot be staged is never submitted. */
    method ApplyBatch(kernel: Kernel, changes: DisarmChanges)
      returns (reply: NativeApply, ghost submission: Submission, ghost applied: seq<bool>)
      requires Valid() && changes.Valid() && DistinctTargets(changes.Rest())
      modifies this, storage, changes, kernel
      ensures Valid()
      ensures var list := old(changes.Rest());
              if |list| == 0 || |list| > changeCapacity then
                && reply == UnknownApply(Os(EIO))
                && kernel.filters == old(kernel.filters) && kernel.history == old(kernel.history)
              else
                && submission.changes == list && submission.reply == reply
                && kernel.history == old(kernel.history) + [submission]
                && Replies(old(kernel.filters), list, reply, submission.receipts, applied, kernel.filters)
                && (reply.Receipts? && reply.returned <= |list| ==>
                      receiptOutput == submission.receipts && |receiptOutput| == reply.returned)
    {
      ghost var list := changes.Rest();
      submission, applied := Submission([], AppliedWithoutReceipts, []), [];
      var staged := Stage(changes);
      match staged {
        case Err(_) => reply := UnknownApply(Os(EIO));
        case Ok(count) =>
          assert StagedChanges(count) == list;
          ghost var done;
          reply, done := SubmitStaged(kernel, count);
          submission, applied := kernel.history[|old(kernel.history)|], done;
          assert kernel.history == old(kernel.history) + [submission];
      }
    }

    /** The input half as the kernel reads it. */
    function StagedChanges(count: nat): (changes: seq<Change>)
      requires count <= storage.Length && forall i | 0 <= i < count :: storage[i].Staged?
      reads storage
      ensures |changes| == count && forall i | 0 <= i < count :: changes[i] == storage[i].change
    {
      seq(count, i requires 0 <= i < count && storage[i].Staged? reads storage => storage[i].change)
    }

    /** A guarded read of one receipt. A missing entry satisfies a disable. */
    function ReceiptAt(index: nat, returned: nat, expected: Change): (r: FilterApply)
      requires Valid()
      reads this, storage
      ensures r == OutcomeOf(if returned == receipts && index < returned then Some(receiptOutput[index]) else None,
                             expected)
    {
      assert returned == receipts && index < returned ==>
               storage[changeCapacity + index] == Written(receiptOutput[index]);
      var event := if returned == receipts && index < returned then Some(storage[changeCapacity + index].event)
                   else None;
      match DecodeReceipt(event, expected)
      case FilterNotApplied(code) => if IsMissingDisable(code, expected) then AlreadyAbsent else FilterNotApplied(code)
      case outcome => outcome
    }
  }

  /** A native wait that claims more records than it was asked for counts as failed. */
  function Answered(native: Result<seq<Kevent>, IoError>, capacity: nat): Result<seq<Kevent>, IoError> {
    if native.Ok? && |native.value| > capacity then Err(Kind(OtherKind)) else native
  }

  function OutcomeOf(event: Option<Kevent>, expected: Change): FilterApply {
    match DecodeReceipt(event, expected)
    case FilterNotApplied(code) => if IsMissingDisable(code, expected) then AlreadyAbsent else FilterNotApplied(code)
    case outcome => outcome
  }

  // ---------- Plans and their flattened changes ----------

  /** One registration to disarm. */
  datatype Plan = Plan(registration: RegistrationId, descriptor: Descriptor, interest: Interest, commit: CommitStatus) {
    function ChangeAt(index: nat): Option<Change> {
      match (interest.readable, interest.writable, index)
      case (true, _, 0) => Some(Change(descriptor, Read, Disable, 0))
      case (false, true, 0) => Some(Change(descriptor, Write, Disable, 0))
      case (true, true, 1) => Some(Change(descriptor, Write, Disable, 0))
      case _ => None
    }

    function Changes(): (changes: seq<Change>)
      ensures |changes| == interest.Width()
    {
      (if interest.readable then [Change(descriptor, Read, Disable, 0)] else [])
      + (if interest.writable then [Change(descriptor, Write, Disable, 0)] else [])
    }
  }

  lemma {:induction false} ChangeAtIndex(plan: Plan, index: nat)
    ensures plan.ChangeAt(index) == if index < plan.interest.Width() then Some(plan.Changes()[index]) else None
  {
  }

  /** Every plan's changes, plan by plan. */
  function Flatten(plans: seq<Plan>): seq<Change> {
    if plans == [] then [] else Flatten(plans[..|plans| - 1]) + plans[|plans| - 1].Changes()
  }

  /** Where plan `p`'s changes start in the flattened list. */
  function Start(plans: seq<Plan>, p: nat): nat
    requires p <= |plans|
  {
    if p == 0 then 0 else Start(plans, p - 1) + plans[p - 1].interest.Width()
  }

  lemma {:induction false} StartPrefix(plans: seq<Plan>, n: nat, p: nat)
    requires p <= n <= |plans|
    ensures Start(plans[..n], p) == Start(plans, p)
  {
    if p > 0 { StartPrefix(plans, n, p - 1); }
  }

  lemma {:induction false} FlattenLength(plans: seq<Plan>)
    ensures |Flatten(plans)| == Start(plans, |plans|) <= 2 * |plans|
  {
    if plans != [] {
      var n := |plans| - 1;
      FlattenLength(plans[..n]);
      StartPrefix(plans, n, n);
    }
  }

  /** Change `j` of plan `p` sits at its start plus `j`. */
  lemma {:induction false} FlattenAt(plans: seq<Plan>, p: nat, j: nat)
    requires p < |plans| && j < plans[p].interest.Width()
    ensures Start(plans, p) + j < |Flatten(plans)|
    ensures Flatten(plans)[Start(plans, p) + j] == plans[p].Changes()[j]
  {
    var n := |plans| - 1;
    StartPrefix(plans, n, p);
    FlattenLength(plans[..n]);
    if p < n { FlattenAt(plans[..n], p, j); }
  }

  lemma {:induction false} StartMonotone(plans: seq<Plan>, p: nat, q: nat)
    requires p <= q <= |plans|
    ensures Start(plans, p) <= Start(plans, q)
  {
    if p < q { StartMonotone(plans, p, q - 1); }
  }

  ghost predicate InsidePlans(plans: seq<Plan>, plan: nat, change: nat) {
    plan <= |plans| && change <= if plan < |plans| then plans[plan].interest.Width() else 0
  }

  /** The changes still to come at position `change` of plan `plan`. */
  ghost function RestFrom(plans: seq<Plan>, plan: nat, change: nat): seq<Change>
    requires InsidePlans(plans, plan, change)
  {
    FlattenLength(plans);
    if plan < |plans| then StartMonotone(plans, plan + 1, |plans|); Flatten(plans)[Start(plans, plan) + change..]
    else []
  }

  lemma {:induction false} YieldsNext(plans: seq<Plan>, plan: nat, change: nat)
    requires plan < |plans| && change < plans[plan].interest.Width()
    ensures var rest := RestFrom(plans, plan, change);
            rest != [] && rest[0] == plans[plan].Changes()[change] && rest[1..] == RestFrom(plans, plan, change + 1)
  {
    FlattenAt(plans, plan, change);
  }

  lemma {:induction false} SkipsPlan(plans: seq<Plan>, plan: nat)
    requires plan < |plans|
    ensures RestFrom(plans, plan, plans[plan].interest.Width()) == RestFrom(plans, plan + 1, 0)
  {
    FlattenLength(plans);
  }

  /** Traverses the changes of the retained plans without building the flattened list. */
  class DisarmChanges {
    const plans: seq<Plan>
    var plan: nat
    var change: nat
    var remaining: nat

    ghost predicate Valid()
      reads this
    {
      InsidePlans(plans, plan, change) && remaining == |Rest()|
    }

    ghost function Rest(): seq<Change>
      requires InsidePlans(plans, plan, change)
      reads this
    {
      RestFrom(plans, plan, change)
    }

    constructor (plans: seq<Plan>, changeLen: nat)
      requires changeLen == |Flatten(plans)|
      ensures Valid() && Rest() == Flatten(plans) && this.plans == plans
    {
      this.plans := plans;
      plan, change, remaining := 0, 0, changeLen;
      new;
      FlattenLength(plans);
    }

    /** Yields the next change of the flattened list; the exact length counts down with it. */
    method Next() returns (r: Option<Change>)
      requires Valid()
      modifies this
      ensures Valid()
      ensures old(Rest()) == [] ==> r == None && Rest() == []
      ensures old(Rest()) != [] ==> r == Some(old(Rest())[0]) && Rest() == old(Rest())[1..]
    {
      while plan < |plans|
        invariant Valid() && Rest() == old(Rest())
        decreases |plans| - plan
      {
        ChangeAtIndex(plans[plan], change);
        match plans[plan].ChangeAt(change) {
          case Some(item) =>
            YieldsNext(plans, plan, change);
            change := change + 1;
            remaining := remaining - 1;
            return Some(item);
          case None =>
            SkipsPlan(plans, plan);
            plan := plan + 1;
            change := 0;
        }
      }
      r := None;
    }
  }
}
