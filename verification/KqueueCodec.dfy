/** Receipt decoding and the exact verdict on one submission. */
module KqueueCodec {
  import opened Vocabulary
  import opened Kernels

  /** Proven result of one filter change. */
  datatype FilterApply = FilterApplied | AlreadyAbsent | FilterNotApplied(code: int) | FilterUnknown(cause: Option<int>)

  datatype Receipt = Receipt(action: Action, error: Option<int>)

  /** A receipt counts only when it names the expected knote, is marked as a receipt, and carries a
      status in range. */
  function DecodeReceipt(event: Option<Kevent>, expected: Change): FilterApply {
    match event
    case None => FilterUnknown(None)
    case Some(e) =>
      if e.ident != expected.ident || e.filter != expected.filter || !e.marked then FilterUnknown(None)
      else if e.data == 0 then FilterApplied
      else if 0 < e.data <= I32_MAX then FilterNotApplied(e.data)
      else FilterUnknown(None)
  }

  predicate IsMissingDisable(code: int, expected: Change) {
    code == ENOENT && expected.action == Disable
  }

  // ---------- Applying a change list exactly ----------

  function ReceiptOf(change: Change, event: Kevent): Option<Receipt> {
    match DecodeReceipt(Some(event), change)
    case FilterApplied => Some(Receipt(change.action, None))
    case FilterNotApplied(code) => Some(Receipt(change.action, Some(code)))
    case _ => None
  }

  /** One receipt per change, in order, or nothing: a single malformed receipt spoils them all. */
  function ReceivedAll(changes: seq<Change>, events: seq<Kevent>): Result<seq<Receipt>, IoError>
    requires |events| == |changes|
  {
    if forall i | 0 <= i < |changes| :: ReceiptOf(changes[i], events[i]).Some? then
      Ok(seq(|changes|, i requires 0 <= i < |changes| && ReceiptOf(changes[i], events[i]).Some? =>
                          ReceiptOf(changes[i], events[i]).value))
    else Err(Os(EIO))
  }

  function Received(submission: Submission): Result<seq<Receipt>, IoError> {
    match submission.reply
    case AppliedWithoutReceipts =>
      Ok(seq(|submission.changes|,
             i requires 0 <= i < |submission.changes| => Receipt(submission.changes[i].action, None)))
    case UnknownApply(source) => Err(source)
    case Receipts(returned) =>
      if returned == |submission.changes| == |submission.receipts|
      then ReceivedAll(submission.changes, submission.receipts)
      else Err(Os(EIO))
  }

  /** One submission of the whole list; an empty list is refused without one. */
  method Apply(kernel: Kernel, changes: seq<Change>)
    returns (r: Result<seq<Receipt>, IoError>, ghost applied: seq<bool>)
    requires DistinctTargets(changes)
    modifies kernel
    ensures changes == [] ==>
              r == Err(Os(EIO)) && applied == [] && kernel.history == old(kernel.history)
              && kernel.filters == old(kernel.filters)
    ensures changes != [] ==>
              && |kernel.history| == |old(kernel.history)| + 1
              && kernel.history[..|old(kernel.history)|] == old(kernel.history)
              && var submission := kernel.history[|old(kernel.history)|];
                 && submission.changes == changes
                 && r == Received(submission)
                 && Replies(old(kernel.filters), changes, submission.reply, submission.receipts, applied,
                            kernel.filters)
  {
    if changes == [] { return Err(Os(EIO)), []; }
    var reply, events, done := kernel.Submit(changes);
    applied := done;
    match reply {
      case AppliedWithoutReceipts =>
        var receipts := [];
        for i := 0 to |changes|
          invariant |receipts| == i && forall j | 0 <= j < i :: receipts[j] == Receipt(changes[j].action, None)
        {
          receipts := receipts + [Receipt(changes[i].action, None)];
        }
        assert Received(Submission(changes, reply, events)).value == receipts;
        r := Ok(receipts);
      case Receipts(returned) =>
        if returned != |changes| { return Err(Os(EIO)), applied; }
        var receipts := [];
        for i := 0 to |changes|
          invariant |receipts| == i
          invariant forall j | 0 <= j < i :: ReceiptOf(changes[j], events[j]) == Some(receipts[j])
        {
          match DecodeReceipt(Some(events[i]), changes[i]) {
            case FilterApplied => receipts := receipts + [Receipt(changes[i].action, None)];
            case FilterNotApplied(code) => receipts := receipts + [Receipt(changes[i].action, Some(code))];
            case FilterUnknown(_) =>
              assert ReceiptOf(changes[i], events[i]).None?;
              return Err(Os(EIO)), applied;
            case AlreadyAbsent => return Err(Os(EIO)), applied;
          }
        }
        assert ReceivedAll(changes, events).value == receipts;
        r := Ok(receipts);
      case UnknownApply(source) => r := Err(source);
    }
  }

  // ---------- What the receipts of a submission prove ----------

  /** A status that stands in nobody's way: success, or on request a deletion that found nothing. */
  predicate Excused(receipt: Receipt, ignoreMissingDelete: bool) {
    receipt.error.None? || (receipt.error == Some(ENOENT) && ignoreMissingDelete && receipt.action == Delete)
  }

  /** The first error that a missing entry does not excuse. */
  function FirstRefusal(receipts: seq<Receipt>, ignoreMissingDelete: bool): (r: Option<int>)
    ensures r.None? <==> forall i | 0 <= i < |receipts| :: Excused(receipts[i], ignoreMissingDelete)
    ensures r.Some? ==>
              exists i | 0 <= i < |receipts| ::
                && receipts[i].error == r && !Excused(receipts[i], ignoreMissingDelete)
                && forall j | 0 <= j < i :: Excused(receipts[j], ignoreMissingDelete)
  {
    if receipts == [] then None
    else if Excused(receipts[0], ignoreMissingDelete) then
      var rest := FirstRefusal(receipts[1..], ignoreMissingDelete);
      assert forall i | 0 <= i < |receipts| :: i == 0 || receipts[i] == receipts[1..][i - 1];
      assert forall i | 0 <= i < |receipts[1..]| :: receipts[1..][i] == receipts[i + 1];
      rest
    else receipts[0].error
  }

  /** Receipt `i` came back well formed, with status zero or with a missing entry where one may be. */
  predicate Clears(submission: Submission, i: nat, ignoreMissingDelete: bool)
    requires i < |submission.changes| && i < |submission.receipts|
  {
    var receipt, change := submission.receipts[i], submission.changes[i];
    && Matches(receipt, change)
    && (receipt.data == 0 || (receipt.data == ENOENT && ignoreMissingDelete && change.action == Delete))
  }

  /** On the reply and the receipts alone: every change is proved made or excused. */
  predicate Granted(submission: Submission, ignoreMissingDelete: bool) {
    match submission.reply
    case AppliedWithoutReceipts => true
    case UnknownApply(_) => false
    case Receipts(returned) =>
      && returned == |submission.changes| == |submission.receipts|
      && forall i | 0 <= i < returned :: Clears(submission, i, ignoreMissingDelete)
  }

  /** Why a submission is refused: by the call's own error, for a set of receipts that is not one well-formed
      receipt for each change, or by the status of the first change that is not cleared. */
  ghost predicate Refused(submission: Submission, ignoreMissingDelete: bool, source: IoError) {
    var changes, receipts := submission.changes, submission.receipts;
    match submission.reply
    case AppliedWithoutReceipts => false
    case UnknownApply(cause) => source == cause
    case Receipts(returned) =>
      if !(returned == |changes| == |receipts|) || exists i | 0 <= i < |changes| :: !Matches(receipts[i], changes[i])
      then source == Os(EIO)
      else exists i | 0 <= i < |changes| ::
             && !Clears(submission, i, ignoreMissingDelete) && source == Os(receipts[i].data)
             && forall j | 0 <= j < i :: Clears(submission, j, ignoreMissingDelete)
  }

  /** The verdict on a submission is what its reply and receipts prove. */
  ghost predicate Judged(submission: Submission, ignoreMissingDelete: bool, r: Result<Unit, IoError>) {
    && (r.Ok? <==> Granted(submission, ignoreMissingDelete))
    && (r.Err? ==> Refused(submission, ignoreMissingDelete, r.error))
  }

  /** A receipt that decodes is one that matches, and keeps its status. */
  lemma {:induction false} DecodedMatches(change: Change, event: Kevent)
    ensures ReceiptOf(change, event).Some? <==> Matches(event, change)
    ensures Matches(event, change) ==>
              ReceiptOf(change, event)
                == Some(Receipt(change.action, if event.data == 0 then None else Some(event.data)))
  {
  }

  function VerdictOn(list: seq<Receipt>, ignoreMissingDelete: bool): Result<Unit, IoError> {
    match FirstRefusal(list, ignoreMissingDelete) case None => Ok(Unit) case Some(code) => Err(Os(code))
  }

  /** One well-formed receipt for each change: the first refusal among them judges the submission. */
  lemma {:induction false} ListIsJudged(submission: Submission, list: seq<Receipt>, ignoreMissingDelete: bool)
    requires submission.reply == Receipts(|submission.changes|) && |submission.receipts| == |submission.changes|
    requires |list| == |submission.changes|
    requires forall i | 0 <= i < |list| :: ReceiptOf(submission.changes[i], submission.receipts[i]) == Some(list[i])
    ensures Judged(submission, ignoreMissingDelete, VerdictOn(list, ignoreMissingDelete))
  {
    forall i | 0 <= i < |list|
      ensures Matches(submission.receipts[i], submission.changes[i])
      ensures Excused(list[i], ignoreMissingDelete) <==> Clears(submission, i, ignoreMissingDelete)
      ensures list[i].error.Some? ==> list[i].error.value == submission.receipts[i].data
    {
      DecodedMatches(submission.changes[i], submission.receipts[i]);
    }
    if FirstRefusal(list, ignoreMissingDelete).Some? {
      var i :| 0 <= i < |list| && list[i].error == FirstRefusal(list, ignoreMissingDelete)
               && !Excused(list[i], ignoreMissingDelete)
               && forall j | 0 <= j < i :: Excused(list[j], ignoreMissingDelete);
      assert !Clears(submission, i, ignoreMissingDelete);
    }
  }

  /** Decoding all receipts and looking for the first refusal judges the submission. */
  lemma {:induction false} ReceivedIsJudged(submission: Submission, ignoreMissingDelete: bool)
    ensures Judged(submission, ignoreMissingDelete,
                   match Received(submission)
                   case Err(source) => Err(source)
                   case Ok(list) => VerdictOn(list, ignoreMissingDelete))
  {
    var changes, receipts := submission.changes, submission.receipts;
    if submission.reply.Receipts? && submission.reply.returned == |changes| == |receipts| {
      match ReceivedAll(changes, receipts)
      case Err(_) =>
        var i :| 0 <= i < |changes| && ReceiptOf(changes[i], receipts[i]).None?;
        DecodedMatches(changes[i], receipts[i]);
        assert !Clears(submission, i, ignoreMissingDelete);
      case Ok(list) => ListIsJudged(submission, list, ignoreMissingDelete);
    }
  }

  /** A granted submission left every target as its change asks, however the kernel chose to reply. */
  lemma {:induction false} GrantedMeansDone(before: Filters, submission: Submission, ignoreMissingDelete: bool,
                                            applied: seq<bool>, after: Filters)
    requires DistinctTargets(submission.changes)
    requires Replies(before, submission.changes, submission.reply, submission.receipts, applied, after)
    requires Granted(submission, ignoreMissingDelete)
    ensures forall i | 0 <= i < |submission.changes| ::
              var change := submission.changes[i];
              Lookup(after, change.Target()) == Effect(change, Lookup(before, change.Target()))
  {
    var changes := submission.changes;
    forall i | 0 <= i < |changes|
      ensures Lookup(after, changes[i].Target()) == Effect(changes[i], Lookup(before, changes[i].Target()))
    {
      Touched(before, changes, applied, i);
      if submission.reply.Receipts? {
        assert Clears(submission, i, ignoreMissingDelete);
        assert TrueReceipt(before, submission.receipts[i], changes[i], applied[i]);
      }
    }
  }
}
