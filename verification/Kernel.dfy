/** The kqueue kernel as an adversary: a map of installed filters, and submissions that may fail any
    single change, return too few or malformed receipts, or be interrupted.

    What is assumed of it is exactly `Replies` and `RepliesWithoutReceipts`: a receipt that matches its
    change tells the truth about that change, a missing-entry error means that the entry is absent, and
    an interrupted submission, on the targets that say so, was applied in full. */
module Kernels {
  import opened Vocabulary

  datatype Filter = Read | Write | User | UnknownFilter

  datatype Action = AddEnabled | AddDisabled | AddUser | Delete | Disable | Trigger

  datatype Knote = Knote(ident: Descriptor, filter: Filter)

  datatype Change = Change(ident: Descriptor, filter: Filter, action: Action, token: U64) {
    function Target(): Knote { Knote(ident, filter) }
  }

  datatype Installed = Installed(token: U64, enabled: bool)

  type Filters = map<Knote, Installed>

  /** A native event record, as the kernel writes it. */
  datatype Kevent = Kevent(ident: int, filter: Filter, marked: bool, data: int, udata: U64,
                           eof: bool, fflags: int)

  /** No such entry. */
  const ENOENT: int := 2
  const EIO: int := 5

  datatype NativeApply = Receipts(returned: nat) | AppliedWithoutReceipts | UnknownApply(source: IoError)

  function Lookup(filters: Filters, k: Knote): Option<Installed> {
    if k in filters then Some(filters[k]) else None
  }

  function Stored(filters: Filters, k: Knote, installed: Option<Installed>): Filters {
    match installed
    case None => filters - {k}
    case Some(i) => filters[k := i]
  }

  /** What one applied change leaves at its target. */
  function Effect(change: Change, before: Option<Installed>): Option<Installed> {
    match change.action
    case AddEnabled => Some(Installed(change.token, true))
    case AddDisabled => Some(Installed(change.token, false))
    case Delete => None
    case Disable => (match before case None => None case Some(i) => Some(i.(enabled := false)))
    case AddUser => Some(Installed(change.token, true))
    case Trigger => before
  }

  /** The changes marked in `applied`, in submission order. */
  function ApplyAll(filters: Filters, changes: seq<Change>, applied: seq<bool>): Filters
    requires |applied| == |changes|
  {
    if changes == [] then filters
    else
      var n := |changes| - 1;
      var prior := ApplyAll(filters, changes[..n], applied[..n]);
      if applied[n] then Stored(prior, changes[n].Target(), Effect(changes[n], Lookup(prior, changes[n].Target())))
      else prior
  }

  ghost predicate DistinctTargets(changes: seq<Change>) {
    forall i, j | 0 <= i < j < |changes| :: changes[i].Target() != changes[j].Target()
  }

  predicate Targets(changes: seq<Change>, k: Knote) {
    exists i | 0 <= i < |changes| :: changes[i].Target() == k
  }

  /** A receipt that matches its change and carries a representable nonnegative status. */
  predicate Matches(receipt: Kevent, change: Change) {
    && receipt.ident == change.ident && receipt.filter == change.filter && receipt.marked
    && 0 <= receipt.data <= I32_MAX
  }

  /** A matching receipt is true of its change. */
  predicate TrueReceipt(filters: Filters, receipt: Kevent, change: Change, applied: bool) {
    Matches(receipt, change) ==>
      && (applied <==> receipt.data == 0)
      && (receipt.data == ENOENT && change.action in {Delete, Disable} ==> change.Target() !in filters)
  }

  /** Outcomes of a submission that asked for a receipt per change. */
  predicate Replies(before: Filters, changes: seq<Change>, reply: NativeApply, receipts: seq<Kevent>,
                          applied: seq<bool>, after: Filters)
  {
    && |applied| == |changes|
    && after == ApplyAll(before, changes, applied)
    && match reply
       case AppliedWithoutReceipts => AllApplied(applied)
       case UnknownApply(_) => true
       case Receipts(returned) =>
         && |receipts| == (if returned <= |changes| then returned else |changes|)
         && forall i | 0 <= i < |receipts| :: TrueReceipt(before, receipts[i], changes[i], applied[i])
  }

  /** Outcomes of a change-only submission without output space: zero means that every change was
      made, and an error may leave any of them made. */
  predicate RepliesWithoutReceipts(before: Filters, changes: seq<Change>, reply: NativeApply,
                                         applied: seq<bool>, after: Filters)
  {
    && |applied| == |changes|
    && after == ApplyAll(before, changes, applied)
    && match reply
       case AppliedWithoutReceipts => AllApplied(applied)
       case Receipts(returned) => returned == 0 ==> AllApplied(applied)
       case UnknownApply(_) => true
  }

  predicate AllApplied(applied: seq<bool>) {
    forall i | 0 <= i < |applied| :: applied[i]
  }

  /** One call into the kernel: what was submitted and what came back. */
  datatype Submission = Submission(changes: seq<Change>, reply: NativeApply, receipts: seq<Kevent>)

  class Kernel {
    var filters: Filters
    /** Every submission so far, oldest first. */
    ghost var history: seq<Submission>

    constructor ()
      ensures filters == map[] && history == []
    {
      filters, history := map[], [];
    }

    method Submit(changes: seq<Change>) returns (reply: NativeApply, receipts: seq<Kevent>, applied: seq<bool>)
      requires DistinctTargets(changes)
      modifies this
      ensures Replies(old(filters), changes, reply, receipts, applied, filters)
      ensures history == old(history) + [Submission(changes, reply, receipts)]
    {
      var all := seq(|changes|, _ => true);
      assert Replies(filters, changes, AppliedWithoutReceipts, [], all, ApplyAll(filters, changes, all));
      var after;
      reply, receipts, applied, after :| Replies(filters, changes, reply, receipts, applied, after);
      filters := after;
      history := history + [Submission(changes, reply, receipts)];
    }

    method SubmitWithoutReceipts(changes: seq<Change>) returns (reply: NativeApply, applied: seq<bool>)
      requires DistinctTargets(changes)
      modifies this
      ensures RepliesWithoutReceipts(old(filters), changes, reply, applied, filters)
      ensures history == old(history) + [Submission(changes, reply, [])]
    {
      var all := seq(|changes|, _ => true);
      assert RepliesWithoutReceipts(filters, changes, AppliedWithoutReceipts, all, ApplyAll(filters, changes, all));
      var after;
      reply, applied, after :| RepliesWithoutReceipts(filters, changes, reply, applied, after);
      filters := after;
      history := history + [Submission(changes, reply, [])];
    }
  }

  // ---------- What a submission leaves ----------

  /** A knote no change names is left as it was. */
  lemma {:induction false} Untouched(filters: Filters, changes: seq<Change>, applied: seq<bool>, k: Knote)
    requires |applied| == |changes| && !Targets(changes, k)
    ensures Lookup(ApplyAll(filters, changes, applied), k) == Lookup(filters, k)
  {
    if changes != [] {
      var n := |changes| - 1;
      assert changes[n].Target() != k;
      forall i | 0 <= i < n ensures changes[..n][i].Target() != k { assert changes[i].Target() != k; }
      Untouched(filters, changes[..n], applied[..n], k);
    }
  }

  /** With distinct targets, each change alone decides its own knote. */
  lemma {:induction false} Touched(filters: Filters, changes: seq<Change>, applied: seq<bool>, i: nat)
    requires |applied| == |changes| && DistinctTargets(changes) && i < |changes|
    ensures var k := changes[i].Target();
            Lookup(ApplyAll(filters, changes, applied), k)
            == if applied[i] then Effect(changes[i], Lookup(filters, k)) else Lookup(filters, k)
  {
    var n := |changes| - 1;
    if i == n {
      forall j | 0 <= j < n ensures changes[..n][j].Target() != changes[n].Target() {
        assert changes[j].Target() != changes[n].Target();
      }
      Untouched(filters, changes[..n], applied[..n], changes[n].Target());
    } else {
      Touched(filters, changes[..n], applied[..n], i);
      assert changes[i].Target() != changes[n].Target();
    }
  }
}
