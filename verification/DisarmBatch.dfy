/** Bounded one-shot disarm batching, and the reduction of filter receipts to one commit status per
    registration. */
module DisarmBatches {
  import opened Vocabulary
  import opened Kernels
  import opened KqueueCodec
  import opened KeventBatches

  /** The disarm postcondition holds of the filter: disabled now, or already gone. */
  predicate Satisfied(outcome: FilterApply) { outcome.FilterApplied? || outcome.AlreadyAbsent? }

  /** What the submission proved about each change, in submission order. */
  function Outcomes(submission: Submission): (outcomes: seq<FilterApply>)
    ensures |outcomes| == |submission.changes|
  {
    var n := |submission.changes|;
    match submission.reply
    case AppliedWithoutReceipts => seq(n, _ => FilterApplied)
    case UnknownApply(_) => seq(n, _ => FilterUnknown(None))
    case Receipts(returned) =>
      if returned > n then seq(n, _ => FilterUnknown(None))
      else seq(n, i requires 0 <= i < n =>
                  OutcomeOf(if i < returned && i < |submission.receipts| then Some(submission.receipts[i]) else None,
                            submission.changes[i]))
  }

  predicate AllSatisfied(outcomes: seq<FilterApply>, lo: nat, hi: nat)
    requires lo <= hi <= |outcomes|
  {
    forall i | lo <= i < hi :: Satisfied(outcomes[i])
  }

  predicate NoneApplied(outcomes: seq<FilterApply>, lo: nat, hi: nat)
    requires lo <= hi <= |outcomes|
  {
    forall i | lo <= i < hi :: outcomes[i].FilterNotApplied?
  }

  /** A plan is applied if all its filters are, not applied if none is, and otherwise unknown. */
  function CommitFor(outcomes: seq<FilterApply>, lo: nat, hi: nat): CommitStatus
    requires lo <= hi <= |outcomes|
  {
    if AllSatisfied(outcomes, lo, hi) then Applied
    else if NoneApplied(outcomes, lo, hi) then NotApplied
    else Unknown
  }

  function ErrorOf(outcome: FilterApply): Option<IoError> {
    match outcome
    case FilterApplied => None
    case AlreadyAbsent => None
    case FilterNotApplied(code) => Some(Os(code))
    case FilterUnknown(None) => Some(Kind(InvalidData))
    case FilterUnknown(Some(code)) => Some(Os(code))
  }

  /** The first failure among the first `n` outcomes, in submission order. */
  function FirstError(outcomes: seq<FilterApply>, n: nat): Option<IoError>
    requires n <= |outcomes|
  {
    if n == 0 then None
    else
      var earlier := FirstError(outcomes, n - 1);
      if earlier.Some? then earlier else ErrorOf(outcomes[n - 1])
  }

  lemma {:induction false} FirstErrorIsFirst(outcomes: seq<FilterApply>, n: nat)
    requires n <= |outcomes|
    ensures FirstError(outcomes, n).None? <==> AllSatisfied(outcomes, 0, n)
    ensures FirstError(outcomes, n).Some? ==>
              exists i | 0 <= i < n :: ErrorOf(outcomes[i]) == FirstError(outcomes, n) && AllSatisfied(outcomes, 0, i)
  {
    if n > 0 { FirstErrorIsFirst(outcomes, n - 1); }
  }

  function SubmitVerdict(submission: Submission): Result<Unit, IoError> {
    match submission.reply
    case UnknownApply(source) => Err(source)
    case _ =>
      match FirstError(Outcomes(submission), |submission.changes|) case None => Ok(Unit) case Some(e) => Err(e)
  }

  predicate AllNonempty(plans: seq<Plan>) {
    forall p | 0 <= p < |plans| :: !plans[p].interest.IsEmpty()
  }

  /** The commit of plan `p`, whose outcomes lie between its start and the next plan's. */
  function SegmentCommit(plans: seq<Plan>, outcomes: seq<FilterApply>, p: nat): CommitStatus
    requires p < |plans| && |outcomes| == |Flatten(plans)|
  {
    FlattenLength(plans);
    StartMonotone(plans, p + 1, |plans|);
    CommitFor(outcomes, Start(plans, p), Start(plans, p + 1))
  }

  function SettledPlan(plans: seq<Plan>, outcomes: seq<FilterApply>, p: nat): Plan
    requires p < |plans| && |outcomes| == |Flatten(plans)|
  {
    plans[p].(commit := SegmentCommit(plans, outcomes, p))
  }

  // ---------- What a disarm submission proves, on its reply and receipts alone ----------

  /** Change `i` is proved in force: it was made, or its filter was already gone. */
  predicate Cleared(submission: Submission, i: nat)
    requires i < |submission.changes|
  {
    match submission.reply
    case AppliedWithoutReceipts => true
    case UnknownApply(_) => false
    case Receipts(returned) =>
      && i < returned <= |submission.changes| && i < |submission.receipts|
      && Matches(submission.receipts[i], submission.changes[i]) && submission.receipts[i].data in {0, ENOENT}
  }

  /** Change `i` is proved not made: its receipt carries some other status. */
  predicate Denied(submission: Submission, i: nat)
    requires i < |submission.changes|
  {
    match submission.reply
    case AppliedWithoutReceipts => false
    case UnknownApply(_) => false
    case Receipts(returned) =>
      && i < returned <= |submission.changes| && i < |submission.receipts|
      && Matches(submission.receipts[i], submission.changes[i]) && submission.receipts[i].data !in {0, ENOENT}
  }

  /** The commit of the changes from `lo` to `hi`. */
  predicate Proves(submission: Submission, lo: nat, hi: nat, commit: CommitStatus)
    requires lo <= hi <= |submission.changes|
  {
    match commit
    case Applied => forall i | lo <= i < hi :: Cleared(submission, i)
    case NotApplied =>
      (exists i | lo <= i < hi :: !Cleared(submission, i)) && forall i | lo <= i < hi :: Denied(submission, i)
    case Unknown =>
      (exists i | lo <= i < hi :: !Cleared(submission, i)) && exists i | lo <= i < hi :: !Denied(submission, i)
  }

  /** The call's own error, or that of the first change that is not cleared. */
  ghost predicate FailsFirst(submission: Submission, r: Result<Unit, IoError>) {
    match submission.reply
    case UnknownApply(source) => r == Err(source)
    case _ =>
      if forall i | 0 <= i < |submission.changes| :: Cleared(submission, i) then r == Ok(Unit)
      else exists i | 0 <= i < |submission.changes| ::
             && !Cleared(submission, i) && (forall j | 0 <= j < i :: Cleared(submission, j))
             && r == Err(if Denied(submission, i) then Os(submission.receipts[i].data) else Kind(InvalidData))
  }

  lemma {:induction false} OutcomeIsExact(submission: Submission, i: nat)
    requires i < |submission.changes| && submission.changes[i].action == Disable
    ensures Outcomes(submission)[i]
            == (if Denied(submission, i) then FilterNotApplied(submission.receipts[i].data)
                else if !Cleared(submission, i) then FilterUnknown(None)
                else if submission.reply.Receipts? && submission.receipts[i].data == ENOENT then AlreadyAbsent
                else FilterApplied)
  {
  }

  /** The outcomes say exactly what the receipts prove. */
  lemma {:induction false} CommitIsProved(submission: Submission, lo: nat, hi: nat)
    requires lo <= hi <= |submission.changes|
    requires forall i | 0 <= i < |submission.changes| :: submission.changes[i].action == Disable
    ensures Proves(submission, lo, hi, CommitFor(Outcomes(submission), lo, hi))
  {
    forall i | lo <= i < hi
      ensures Satisfied(Outcomes(submission)[i]) <==> Cleared(submission, i)
      ensures Outcomes(submission)[i].FilterNotApplied? <==> Denied(submission, i)
    {
      OutcomeIsExact(submission, i);
    }
  }

  lemma {:induction false} VerdictFailsFirst(submission: Submission)
    requires forall i | 0 <= i < |submission.changes| :: submission.changes[i].action == Disable
    ensures FailsFirst(submission, SubmitVerdict(submission))
  {
    var outcomes, n := Outcomes(submission), |submission.changes|;
    forall i | 0 <= i < n ensures Satisfied(outcomes[i]) <==> Cleared(submission, i) {
      OutcomeIsExact(submission, i);
    }
    FirstErrorIsFirst(outcomes, n);
    if FirstError(outcomes, n).Some? {
      var i :| 0 <= i < n && ErrorOf(outcomes[i]) == FirstError(outcomes, n) && AllSatisfied(outcomes, 0, i);
      OutcomeIsExact(submission, i);
      forall j | 0 <= j < i ensures Cleared(submission, j) {
        assert Satisfied(outcomes[j]);
      }
    }
  }

  lemma {:induction false} FlattenDisables(plans: seq<Plan>)
    ensures forall i | 0 <= i < |Flatten(plans)| :: Flatten(plans)[i].action == Disable
  {
    if plans != [] { FlattenDisables(plans[..|plans| - 1]); }
  }

  /** The receipts of plan `p`'s own changes prove this commit. */
  ghost predicate PlanProved(plans: seq<Plan>, submission: Submission, p: nat, commit: CommitStatus)
    requires p < |plans|
  {
    && Start(plans, p) <= Start(plans, p + 1) <= |submission.changes|
    && Proves(submission, Start(plans, p), Start(plans, p + 1), commit)
  }

  lemma {:induction false} SegmentProved(plans: seq<Plan>, submission: Submission, p: nat)
    requires p < |plans| && submission.changes == Flatten(plans)
    requires forall i | 0 <= i < |submission.changes| :: submission.changes[i].action == Disable
    ensures PlanProved(plans, submission, p, SegmentCommit(plans, Outcomes(submission), p))
  {
    FlattenLength(plans);
    StartMonotone(plans, p + 1, |plans|);
    CommitIsProved(submission, Start(plans, p), Start(plans, p + 1));
  }

  lemma {:induction false} SegmentsProved(before: seq<Plan>, after: seq<Plan>, submission: Submission)
    requires |after| == |before| && submission.changes == Flatten(before)
    requires forall p | 0 <= p < |after| :: after[p].commit == SegmentCommit(before, Outcomes(submission), p)
    ensures forall p | 0 <= p < |after| :: PlanProved(before, submission, p, after[p].commit)
    ensures FailsFirst(submission, SubmitVerdict(submission))
  {
    FlattenDisables(before);
    VerdictFailsFirst(submission);
    forall p | 0 <= p < |after| ensures PlanProved(before, submission, p, after[p].commit) {
      SegmentProved(before, submission, p);
    }
  }

  class DisarmBatch {
    const planCapacity: nat
    const changeCapacity: nat
    var changeLen: nat
    var plans: seq<Plan>

    ghost predicate Valid()
      reads this
    {
      && changeCapacity == 2 * planCapacity
      && |plans| <= planCapacity
      && changeLen == |Flatten(plans)|
      && AllNonempty(plans)
    }

    constructor (registrations: nat)
      ensures Valid() && planCapacity == registrations && plans == []
    {
      planCapacity, changeCapacity, changeLen, plans := registrations, registrations * 2, 0, [];
    }

    method Clear()
      requires Valid()
      modifies this
      ensures Valid() && plans == []
    {
      plans, changeLen := [], 0;
    }

    /** Room for a plan is always room for its changes, so only the plan count can refuse one. */
    method Push(registration: RegistrationId, descriptor: Descriptor, interest: Interest) returns (r: Option<Unit>)
      requires Valid()
      modifies this
      ensures Valid()
      ensures r.Some? <==> !interest.IsEmpty() && |old(plans)| < planCapacity
      ensures plans == if r.Some? then old(plans) + [Plan(registration, descriptor, interest, Unknown)] else old(plans)
    {
      FlattenLength(plans);
      var required := interest.Width();
      if required == 0 || |plans| >= planCapacity || changeLen + required > changeCapacity { return None; }
      var plan := Plan(registration, descriptor, interest, Unknown);
      assert (plans + [plan])[..|plans|] == plans;
      plans := plans + [plan];
      changeLen := changeLen + required;
      r := Some(Unit);
    }

    method FillOutcomes(commit: CommitStatus)
      modifies this`plans
      ensures |plans| == |old(plans)|
      ensures forall p | 0 <= p < |plans| :: plans[p] == old(plans)[p].(commit := commit)
    {
      var filled := [];
      for p := 0 to |plans|
        invariant |filled| == p && plans == old(plans)
        invariant forall q | 0 <= q < p :: filled[q] == old(plans)[q].(commit := commit)
      {
        filled := filled + [plans[p].(commit := commit)];
      }
      plans := filled;
    }

    /** Submits every plan in one changelist. Each plan gets exactly the commit its receipts prove, and
        the call fails exactly when some plan is not applied, with the first failure submitted. */
    method Submit(kernel: Kernel, raw: KeventBatch)
      returns (r: Result<Unit, IoError>, ghost submission: Submission, ghost applied: seq<bool>)
      requires Valid() && raw.Valid() && raw.changeCapacity == changeCapacity
      requires DistinctTargets(Flatten(plans))
      modifies this, kernel, raw, raw.storage
      ensures Valid() && raw.Valid() && SamePlans(old(plans), plans)
      ensures submission.changes == Flatten(old(plans))
      ensures Replies(old(kernel.filters), submission.changes, submission.reply, submission.receipts, applied,
                      kernel.filters)
      ensures kernel.history == if old(plans) == [] then old(kernel.history) else old(kernel.history) + [submission]
      ensures forall p | 0 <= p < |plans| :: plans[p].commit == SegmentCommit(old(plans), Outcomes(submission), p)
      ensures forall p | 0 <= p < |plans| :: PlanProved(old(plans), submission, p, plans[p].commit)
      ensures FailsFirst(submission, r)
      ensures r.Ok? <==> forall p | 0 <= p < |plans| :: plans[p].commit.Applied?
    {
      if plans == [] {
        return Ok(Unit), Submission([], AppliedWithoutReceipts, []), [];
      }
      ghost var before := plans;
      r, submission, applied := SubmitPlans(kernel, raw);
      SegmentsProved(before, plans, submission);
    }

    method SubmitPlans(kernel: Kernel, raw: KeventBatch)
      returns (r: Result<Unit, IoError>, ghost submission: Submission, ghost applied: seq<bool>)
      requires Valid() && raw.Valid() && raw.changeCapacity == changeCapacity && plans != []
      requires DistinctTargets(Flatten(plans))
      modifies this, kernel, raw, raw.storage
      ensures Valid() && raw.Valid() && SamePlans(old(plans), plans)
      ensures submission.changes == Flatten(old(plans))
      ensures Replies(old(kernel.filters), submission.changes, submission.reply, submission.receipts, applied,
                      kernel.filters)
      ensures kernel.history == old(kernel.history) + [submission]
      ensures forall p | 0 <= p < |plans| :: plans[p].commit == SegmentCommit(old(plans), Outcomes(submission), p)
      ensures r == SubmitVerdict(submission)
      ensures r.Ok? <==> forall p | 0 <= p < |plans| :: plans[p].commit.Applied?
    {
      SomethingToSubmit();
      var reply;
      reply, submission, applied := SendPlans(kernel, raw);
      r := Reduce(raw, reply, submission);
    }

    lemma SomethingToSubmit()
      requires Valid() && plans != []
      ensures 0 < changeLen <= changeCapacity
    {
      FlattenLength(plans);
      assert !plans[0].interest.IsEmpty();
      FlattenAt(plans, 0, 0);
    }

    method SendPlans(kernel: Kernel, raw: KeventBatch)
      returns (reply: NativeApply, ghost submission: Submission, ghost applied: seq<bool>)
      requires Valid() && raw.Valid() && raw.changeCapacity == changeCapacity && 0 < changeLen <= changeCapacity
      requires DistinctTargets(Flatten(plans))
      modifies kernel, raw, raw.storage
      ensures raw.Valid()
      ensures submission.changes == Flatten(plans) && submission.reply == reply
      ensures Replies(old(kernel.filters), submission.changes, reply, submission.receipts, applied, kernel.filters)
      ensures kernel.history == old(kernel.history) + [submission]
      ensures reply.Receipts? && reply.returned <= changeLen ==>
                raw.receiptOutput == submission.receipts && |raw.receiptOutput| == reply.returned
    {
      var changes := new DisarmChanges(plans, changeLen);
      reply, submission, applied := raw.ApplyBatch(kernel, changes);
    }

    /** Settles every plan by the reply. */
    method Reduce(raw: KeventBatch, reply: NativeApply, ghost submission: Submission) returns (r: Result<Unit, IoError>)
      requires Valid() && raw.Valid() && plans != []
      requires submission.changes == Flatten(plans) && submission.reply == reply
      requires reply.Receipts? && reply.returned <= changeLen ==>
                 raw.receiptOutput == submission.receipts && |raw.receiptOutput| == reply.returned
      modifies this`plans
      ensures Valid() && SamePlans(old(plans), plans)
      ensures forall p | 0 <= p < |plans| :: plans[p].commit == SegmentCommit(old(plans), Outcomes(submission), p)
      ensures r == SubmitVerdict(submission)
      ensures r.Ok? <==> forall p | 0 <= p < |plans| :: plans[p].commit.Applied?
    {
      ghost var outcomes := Outcomes(submission);
      CommitsCoverOutcomes(plans, outcomes);
      UniformReply(plans, submission);
      match reply {
        case AppliedWithoutReceipts =>
          FillOutcomes(Applied);
          r := Ok(Unit);
        case UnknownApply(source) =>
          FillOutcomes(Unknown);
          assert plans[0].commit == Unknown;
          r := Err(source);
        case Receipts(returned) =>
          r := ReduceReceipts(raw, returned, outcomes);
      }
      SamePlansSameChanges(old(plans), plans);
    }

    /** Reads the receipts plan by plan, in submission order. */
    method ReduceReceipts(raw: KeventBatch, returned: nat, ghost outcomes: seq<FilterApply>)
      returns (r: Result<Unit, IoError>)
      requires Valid() && raw.Valid() && |outcomes| == changeLen && plans != []
      requires returned <= changeLen ==> ReadsAs(raw, returned, Flatten(plans), outcomes)
      requires returned > changeLen ==> forall i | 0 <= i < |outcomes| :: outcomes[i] == FilterUnknown(None)
      modifies this`plans
      ensures SamePlans(old(plans), plans)
      ensures forall p | 0 <= p < |plans| :: plans[p].commit == SegmentCommit(old(plans), outcomes, p)
      ensures r == match FirstError(outcomes, |outcomes|) case None => Ok(Unit) case Some(e) => Err(e)
    {
      FlattenLength(plans);
      if returned > changeLen {
        UnknownSegments(plans, outcomes);
        FillOutcomes(Unknown);
        return Err(Kind(InvalidData));
      }
      var settled, firstError := SettlePlans(raw, returned, plans, outcomes);
      plans := settled;
      match firstError {
        case None => r := Ok(Unit);
        case Some(source) => r := Err(source);
      }
    }
  }

  /** Reading receipt `i` for change `i` gives outcome `i`. */
  ghost predicate ReadsAs(raw: KeventBatch, returned: nat, changes: seq<Change>, outcomes: seq<FilterApply>)
    requires raw.Valid() && |outcomes| == |changes|
    reads raw, raw.storage
  {
    forall i {:trigger ReceiptReads(raw, returned, changes, i, outcomes)} | 0 <= i < |changes| ::
      ReceiptReads(raw, returned, changes, i, outcomes)
  }

  ghost predicate ReceiptReads(raw: KeventBatch, returned: nat, changes: seq<Change>, i: nat,
                               outcomes: seq<FilterApply>)
    requires raw.Valid() && i < |outcomes| == |changes|
    reads raw, raw.storage
  {
    raw.ReceiptAt(i, returned, changes[i]) == outcomes[i]
  }

  /** Reading the receipts of a plan that starts at `first` gives its outcomes. */
  ghost predicate PlanReadsAs(raw: KeventBatch, returned: nat, plan: Plan, first: nat, outcomes: seq<FilterApply>)
    requires raw.Valid() && first + plan.interest.Width() <= |outcomes|
    reads raw, raw.storage
  {
    forall j: nat {:trigger ChangeReads(raw, returned, plan, first, j, outcomes)} | j < plan.interest.Width() ::
      ChangeReads(raw, returned, plan, first, j, outcomes)
  }

  ghost predicate ChangeReads(raw: KeventBatch, returned: nat, plan: Plan, first: nat, j: nat,
                              outcomes: seq<FilterApply>)
    requires raw.Valid() && first + j < |outcomes|
    reads raw, raw.storage
  {
    plan.ChangeAt(j).Some? && raw.ReceiptAt(first + j, returned, plan.ChangeAt(j).value) == outcomes[first + j]
  }

  lemma {:induction false} PlanReads(raw: KeventBatch, returned: nat, plans: seq<Plan>, p: nat,
                                     outcomes: seq<FilterApply>)
    requires raw.Valid() && |outcomes| == |Flatten(plans)| && p < |plans|
    requires ReadsAs(raw, returned, Flatten(plans), outcomes)
    ensures Start(plans, p + 1) <= |outcomes|
    ensures PlanReadsAs(raw, returned, plans[p], Start(plans, p), outcomes)
  {
    FlattenLength(plans);
    StartMonotone(plans, p + 1, |plans|);
    forall j: nat | j < plans[p].interest.Width()
      ensures ChangeReads(raw, returned, plans[p], Start(plans, p), j, outcomes)
    {
      ChangeAtIndex(plans[p], j);
      FlattenAt(plans, p, j);
      assert ReceiptReads(raw, returned, Flatten(plans), Start(plans, p) + j, outcomes);
    }
  }

  method ReadOne(raw: KeventBatch, returned: nat, plan: Plan, first: nat, j: nat, ghost outcomes: seq<FilterApply>)
    returns (outcome: Option<FilterApply>)
    requires raw.Valid() && first + plan.interest.Width() <= |outcomes| && j < plan.interest.Width()
    requires PlanReadsAs(raw, returned, plan, first, outcomes)
    ensures outcome == Some(outcomes[first + j])
  {
    assert ChangeReads(raw, returned, plan, first, j, outcomes);
    match plan.ChangeAt(j) {
      case None => outcome := None;
      case Some(expected) => outcome := Some(raw.ReceiptAt(first + j, returned, expected));
    }
  }

  /** Reduces one plan's receipts, which start at `first`, and keeps the earliest error seen. */
  method ReducePlan(raw: KeventBatch, returned: nat, plan: Plan, first: nat, earlier: Option<IoError>,
                    ghost outcomes: seq<FilterApply>)
    returns (commit: CommitStatus, firstError: Option<IoError>)
    requires raw.Valid() && first + plan.interest.Width() <= |outcomes| && earlier == FirstError(outcomes, first)
    requires PlanReadsAs(raw, returned, plan, first, outcomes)
    ensures commit == CommitFor(outcomes, first, first + plan.interest.Width())
    ensures firstError == FirstError(outcomes, first + plan.interest.Width())
  {
    var satisfied, notApplied, unknown := 0, 0, false;
    firstError := earlier;
    var count := plan.interest.Width();
    for j := 0 to count
      invariant satisfied <= j && (satisfied == j <==> AllSatisfied(outcomes, first, first + j))
      invariant notApplied <= j && (notApplied == j <==> NoneApplied(outcomes, first, first + j))
      invariant unknown ==> !AllSatisfied(outcomes, first, first + j) && !NoneApplied(outcomes, first, first + j)
      invariant firstError == FirstError(outcomes, first + j)
    {
      ExtendSegment(outcomes, first, first + j);
      var outcome := ReadOne(raw, returned, plan, first, j, outcomes);
      match outcome {
        case None => return Unknown, Some(Kind(InvalidData));
        case Some(FilterApplied) => satisfied := satisfied + 1;
        case Some(AlreadyAbsent) => satisfied := satisfied + 1;
        case Some(FilterNotApplied(code)) =>
          notApplied := notApplied + 1;
          if firstError.None? { firstError := Some(Os(code)); }
        case Some(FilterUnknown(cause)) =>
          unknown := true;
          if firstError.None? {
            firstError := Some(match cause case None => Kind(InvalidData) case Some(code) => Os(code));
          }
      }
    }
    commit := if !unknown && satisfied == count then Applied
              else if !unknown && notApplied == count then NotApplied
              else Unknown;
  }

  method SettlePlan(raw: KeventBatch, returned: nat, plans: seq<Plan>, p: nat, first: nat, earlier: Option<IoError>,
                    ghost outcomes: seq<FilterApply>)
    returns (settled: Plan, firstError: Option<IoError>)
    requires p < |plans| && raw.Valid() && |outcomes| == |Flatten(plans)|
             && ReadsAs(raw, returned, Flatten(plans), outcomes)
    requires first == Start(plans, p) <= |outcomes| && earlier == FirstError(outcomes, first)
    ensures settled == SettledPlan(plans, outcomes, p)
    ensures Start(plans, p + 1) <= |outcomes| && firstError == FirstError(outcomes, Start(plans, p + 1))
  {
    PlanReads(raw, returned, plans, p, outcomes);
    var commit;
    commit, firstError := ReducePlan(raw, returned, plans[p], first, earlier, outcomes);
    settled := plans[p].(commit := commit);
  }

  /** Reduces every plan in submission order. */
  method SettlePlans(raw: KeventBatch, returned: nat, plans: seq<Plan>, ghost outcomes: seq<FilterApply>)
    returns (settled: seq<Plan>, firstError: Option<IoError>)
    requires raw.Valid() && |outcomes| == |Flatten(plans)| && ReadsAs(raw, returned, Flatten(plans), outcomes)
    ensures |settled| == |plans|
    ensures forall p | 0 <= p < |plans| :: settled[p] == SettledPlan(plans, outcomes, p)
    ensures firstError == FirstError(outcomes, |outcomes|)
  {
    var changeIndex := 0;
    settled, firstError := [], None;
    for p := 0 to |plans|
      invariant |settled| == p && changeIndex == Start(plans, p) <= |outcomes|
      invariant firstError == FirstError(outcomes, changeIndex)
      invariant forall q | 0 <= q < p :: settled[q] == SettledPlan(plans, outcomes, q)
    {
      var plan;
      plan, firstError := SettlePlan(raw, returned, plans, p, changeIndex, firstError, outcomes);
      settled := settled + [plan];
      changeIndex := changeIndex + plans[p].interest.Width();
    }
    FlattenLength(plans);
  }

  lemma {:induction false} ExtendSegment(outcomes: seq<FilterApply>, lo: nat, hi: nat)
    requires lo <= hi < |outcomes|
    ensures AllSatisfied(outcomes, lo, hi + 1) <==> AllSatisfied(outcomes, lo, hi) && Satisfied(outcomes[hi])
    ensures NoneApplied(outcomes, lo, hi + 1) <==> NoneApplied(outcomes, lo, hi) && outcomes[hi].FilterNotApplied?
  {
  }

  /** The same registrations, with possibly different commits. */
  ghost predicate SamePlans(before: seq<Plan>, after: seq<Plan>) {
    |after| == |before| && forall p | 0 <= p < |after| :: after[p] == before[p].(commit := after[p].commit)
  }

  lemma {:induction false} SamePlansSameChanges(before: seq<Plan>, after: seq<Plan>)
    requires SamePlans(before, after)
    ensures Flatten(after) == Flatten(before)
  {
    if |before| > 0 {
      var n := |before| - 1;
      assert after[n].Changes() == before[n].Changes();
      assert SamePlans(before[..n], after[..n]) by {
        forall p | 0 <= p < n ensures after[..n][p] == before[..n][p].(commit := after[..n][p].commit) {
          assert after[p] == before[p].(commit := after[p].commit);
        }
      }
      SamePlansSameChanges(before[..n], after[..n]);
    }
  }

  /** Every submitted change belongs to some plan, so all commits are applied exactly when every
      outcome is satisfied. */
  lemma {:induction false} CommitsCoverOutcomes(plans: seq<Plan>, outcomes: seq<FilterApply>)
    requires |outcomes| == |Flatten(plans)|
    ensures (forall p | 0 <= p < |plans| :: SegmentCommit(plans, outcomes, p).Applied?)
            <==> FirstError(outcomes, |outcomes|).None?
  {
    FlattenLength(plans);
    FirstErrorIsFirst(outcomes, |outcomes|);
    if forall p | 0 <= p < |plans| :: SegmentCommit(plans, outcomes, p).Applied? {
      forall i | 0 <= i < |outcomes| ensures Satisfied(outcomes[i]) {
        var p := PlanOf(plans, i, |plans|);
        assert SegmentCommit(plans, outcomes, p).Applied?;
      }
    } else {
      var p :| 0 <= p < |plans| && !SegmentCommit(plans, outcomes, p).Applied?;
      StartMonotone(plans, p + 1, |plans|);
    }
  }

  lemma {:induction false} PlanOf(plans: seq<Plan>, i: nat, n: nat) returns (p: nat)
    requires n <= |plans| && i < Start(plans, n)
    ensures p < n && Start(plans, p) <= i < Start(plans, p + 1)
  {
    if i >= Start(plans, n - 1) { p := n - 1; } else { p := PlanOf(plans, i, n - 1); }
  }

  /** A reply without receipts settles every plan alike. */
  lemma {:induction false} UniformReply(plans: seq<Plan>, submission: Submission)
    requires submission.changes == Flatten(plans) && AllNonempty(plans) && plans != []
    ensures submission.reply.AppliedWithoutReceipts? ==>
              && FirstError(Outcomes(submission), |submission.changes|) == None
              && forall p | 0 <= p < |plans| :: SegmentCommit(plans, Outcomes(submission), p) == Applied
    ensures submission.reply.UnknownApply? ==>
              forall p | 0 <= p < |plans| :: SegmentCommit(plans, Outcomes(submission), p) == Unknown
  {
    FirstErrorIsFirst(Outcomes(submission), |submission.changes|);
    match submission.reply {
      case AppliedWithoutReceipts => CommitsCoverOutcomes(plans, Outcomes(submission));
      case UnknownApply(_) => UnknownSegments(plans, Outcomes(submission));
      case Receipts(_) =>
    }
  }

  /** Without a usable receipt nothing is proved of any plan. */
  lemma {:induction false} UnknownSegments(plans: seq<Plan>, outcomes: seq<FilterApply>)
    requires |outcomes| == |Flatten(plans)| && AllNonempty(plans)
    requires forall i | 0 <= i < |outcomes| :: outcomes[i] == FilterUnknown(None)
    ensures forall p | 0 <= p < |plans| :: SegmentCommit(plans, outcomes, p) == Unknown
    ensures plans != [] ==> FirstError(outcomes, |outcomes|) == Some(Kind(InvalidData))
  {
    FlattenLength(plans);
    forall p | 0 <= p < |plans| ensures SegmentCommit(plans, outcomes, p) == Unknown {
      StartMonotone(plans, p + 1, |plans|);
      assert !plans[p].interest.IsEmpty();
      assert !Satisfied(outcomes[Start(plans, p)]);
    }
    if plans != [] {
      FirstErrorIsFirst(outcomes, |outcomes|);
      assert !plans[0].interest.IsEmpty();
      StartMonotone(plans, 1, |plans|);
      assert !Satisfied(outcomes[0]);
    }
  }
}
