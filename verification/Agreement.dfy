/** What the table claims about the kernel, arm states included, and why each mutation and each disarm batch
    keeps the claims true. */
module Agreement {
  import opened Vocabulary
  import opened Slots
  import opened RegistrationTables
  import opened MutationMachine
  import opened Kernels
  import opened KqueueCodec
  import opened KqueuePolicy
  import opened KeventBatches
  import opened DisarmBatches
  import opened Recovery
  import opened Containment

  /** Nothing enabled, nothing outside the interest, and nothing under another token. */
  predicate Silent(filters: Filters, descriptor: Descriptor, id: RegistrationId, interest: Interest) {
    forall f <- {Read, Write} :: Knote(descriptor, f) in filters ==>
      Wants(interest, f) && filters[Knote(descriptor, f)] == Installed(id, false)
  }

  /** Armed means exactly the interest's filters, enabled under this token; disarmed means silent;
      uncertain claims nothing. */
  predicate EntryAgrees(filters: Filters, id: RegistrationId, entry: Entry) {
    match entry.state
    case Registered(Armed) => Exactly(filters, entry.descriptor, id, entry.interest, true)
    case Registered(Disarmed) => Silent(filters, entry.descriptor, id, entry.interest)
    case Uncertain => true
  }

  ghost predicate Agrees(live: LiveMap, filters: Filters) {
    (forall id | id in live :: EntryAgrees(filters, id, live[id])) && Contained(live, filters)
  }

  ghost predicate Interested(live: LiveMap) {
    forall id | id in live :: !live[id].interest.IsEmpty()
  }

  // ---------- One registration mutated ----------

  /** A mutation that stays on one registration's own descriptor keeps every other agreement, so only
      that registration has to be looked at. */
  lemma {:induction false} MutationKeepsAgreement(live: LiveMap, later: LiveMap, before: Filters, after: Filters,
                                                  id: RegistrationId, descriptor: Descriptor)
    requires Agrees(live, before) && SameElsewhere(before, after, descriptor) && Contained(later, after)
    requires later - {id} == live - {id}
    requires forall other | other in live && other != id :: live[other].descriptor != descriptor
    requires id in later ==> EntryAgrees(after, id, later[id])
    ensures Agrees(later, after)
  {
    forall other | other in later ensures EntryAgrees(after, other, later[other]) {
      if other != id {
        assert other in live - {id} && (live - {id})[other] == (later - {id})[other];
        assert EntryAgrees(before, other, live[other]);
        SameAgreement(before, after, descriptor, other, live[other]);
      }
    }
  }

  lemma {:induction false} SameAgreement(before: Filters, after: Filters, descriptor: Descriptor, other: RegistrationId,
                                         entry: Entry)
    requires SameElsewhere(before, after, descriptor) && entry.descriptor != descriptor
    requires EntryAgrees(before, other, entry)
    ensures EntryAgrees(after, other, entry)
  {
    assert Lookup(after, Knote(entry.descriptor, Read)) == Lookup(before, Knote(entry.descriptor, Read));
    assert Lookup(after, Knote(entry.descriptor, Write)) == Lookup(before, Knote(entry.descriptor, Write));
  }

  // ---------- A disarm batch ----------

  /** The plans are for distinct armed one-shot registrations and say what the table says of them. */
  ghost predicate PlansFit(live: LiveMap, plans: seq<Plan>) {
    && (forall p | 0 <= p < |plans| ::
          var id := plans[p].registration;
          id in live && live[id].descriptor == plans[p].descriptor && live[id].interest == plans[p].interest)
    && (forall p, q | 0 <= p < q < |plans| :: plans[p].registration != plans[q].registration)
  }

  /** Every submitted change is a disable of some plan's own filter. */
  lemma {:induction false} ChangeOwner(plans: seq<Plan>, i: nat) returns (p: nat)
    requires i < |Flatten(plans)|
    ensures p < |plans| && Start(plans, p) <= i < Start(plans, p + 1)
    ensures var c := Flatten(plans)[i];
            c.ident == plans[p].descriptor && Wants(plans[p].interest, c.filter) && c.action == Disable
    ensures Flatten(plans)[i] == plans[p].Changes()[i - Start(plans, p)]
  {
    FlattenLength(plans);
    p := PlanOf(plans, i, |plans|);
    FlattenAt(plans, p, i - Start(plans, p));
  }

  lemma {:induction false} PlanTargetsDistinct(live: LiveMap, plans: seq<Plan>)
    requires PlansFit(live, plans) && DistinctDescriptors(live)
    ensures DistinctTargets(Flatten(plans))
  {
    var changes := Flatten(plans);
    forall i, j | 0 <= i < j < |changes| ensures changes[i].Target() != changes[j].Target() {
      var p := ChangeOwner(plans, i);
      var q := ChangeOwner(plans, j);
      if p != q {
        if p < q { assert plans[p].registration != plans[q].registration; }
        else { assert plans[q].registration != plans[p].registration; }
      }
    }
  }

  /** Where plan `p` submits the change for filter `f`. */
  function ChangeIndex(plans: seq<Plan>, p: nat, f: Filter): (i: nat)
    requires p < |plans| && Wants(plans[p].interest, f)
    ensures i < |Flatten(plans)|
  {
    FlattenAt(plans, p, if f == Write && plans[p].interest.readable then 1 else 0);
    Start(plans, p) + if f == Write && plans[p].interest.readable then 1 else 0
  }

  lemma {:induction false} ChangeIndexHolds(plans: seq<Plan>, p: nat, f: Filter)
    requires p < |plans| && Wants(plans[p].interest, f)
    ensures var i := ChangeIndex(plans, p, f);
            && Start(plans, p) <= i < Start(plans, p + 1) && i < |Flatten(plans)|
            && Flatten(plans)[i] == Change(plans[p].descriptor, f, Disable, 0)
  {
    FlattenAt(plans, p, if f == Write && plans[p].interest.readable then 1 else 0);
  }

  /** A knote outside every plan is left alone. */
  lemma {:induction false} DisarmLeavesAlone(plans: seq<Plan>, before: Filters, applied: seq<bool>, k: Knote)
    requires |applied| == |Flatten(plans)|
    requires forall p | 0 <= p < |plans| :: plans[p].descriptor != k.ident || !Wants(plans[p].interest, k.filter)
    ensures Lookup(ApplyAll(before, Flatten(plans), applied), k) == Lookup(before, k)
  {
    if Targets(Flatten(plans), k) {
      var i :| 0 <= i < |Flatten(plans)| && Flatten(plans)[i].Target() == k;
      var p := ChangeOwner(plans, i);
    }
    Untouched(before, Flatten(plans), applied, k);
  }

  /** A receipt that proves a disable satisfied, or not made, is true of the kernel. */
  lemma {:induction false} OutcomeIsTrue(before: Filters, submission: Submission, applied: seq<bool>, after: Filters,
                                         i: nat)
    requires Replies(before, submission.changes, submission.reply, submission.receipts, applied, after)
    requires i < |submission.changes| && submission.changes[i].action == Disable
    ensures Satisfied(Outcomes(submission)[i]) ==> applied[i] || submission.changes[i].Target() !in before
    ensures Outcomes(submission)[i].FilterNotApplied? ==> !applied[i]
  {
    if submission.reply.Receipts? && i < |submission.receipts| {
      assert TrueReceipt(before, submission.receipts[i], submission.changes[i], applied[i]);
    }
  }

  /** What one armed plan's filter is after the batch, by the plan's commit. */
  lemma {:induction false} PlanFilterAfter(live: LiveMap, plans: seq<Plan>, before: Filters, submission: Submission,
                                           applied: seq<bool>, after: Filters, p: nat, f: Filter)
    requires PlansFit(live, plans) && DistinctDescriptors(live) && p < |plans| && f in {Read, Write}
    requires submission.changes == Flatten(plans)
    requires Replies(before, submission.changes, submission.reply, submission.receipts, applied, after)
    requires Lookup(before, Knote(plans[p].descriptor, f))
             == Wanted(Wants(plans[p].interest, f), plans[p].registration, true)
    ensures var now := Lookup(after, Knote(plans[p].descriptor, f));
            var commit := SegmentCommit(plans, Outcomes(submission), p);
            && (commit == Applied ==> now == Wanted(Wants(plans[p].interest, f), plans[p].registration, false))
            && (commit == NotApplied ==> now == Wanted(Wants(plans[p].interest, f), plans[p].registration, true))
  {
    var k := Knote(plans[p].descriptor, f);
    if Wants(plans[p].interest, f) {
      var i := ChangeIndex(plans, p, f);
      ChangeIndexHolds(plans, p, f);
      PlanTargetsDistinct(live, plans);
      Touched(before, submission.changes, applied, i);
      OutcomeIsTrue(before, submission, applied, after, i);
    } else {
      forall q | 0 <= q < |plans| ensures plans[q].descriptor != k.ident || !Wants(plans[q].interest, k.filter) {
        if q < p { assert plans[q].registration != plans[p].registration; }
        if p < q { assert plans[p].registration != plans[q].registration; }
      }
      DisarmLeavesAlone(plans, before, applied, k);
    }
  }

  /** The outcomes reported for the submitted plans. */
  ghost predicate OutcomesOf(plans: seq<Plan>, outcomes: seq<FilterApply>, reported: seq<RecoveryOutcome>)
    requires |outcomes| == |Flatten(plans)|
  {
    && |reported| == |plans|
    && forall p | 0 <= p < |plans| ::
         reported[p] == NewOutcome(plans[p].registration, SegmentCommit(plans, outcomes, p))
  }

  /** However the kernel served the batch, moving each registration to the state its outcome reports
      keeps table and kernel in agreement. */
  lemma {:induction false} DisarmKeepsAgreement(live: LiveMap, plans: seq<Plan>, before: Filters,
                                                submission: Submission, applied: seq<bool>, after: Filters,
                                                reported: seq<RecoveryOutcome>)
    requires Agrees(live, before) && DistinctDescriptors(live) && PlansFit(live, plans)
    requires forall p | 0 <= p < |plans| :: Disarmable(live, plans[p].registration)
    requires submission.changes == Flatten(plans)
    requires Replies(before, submission.changes, submission.reply, submission.receipts, applied, after)
    requires OutcomesOf(plans, Outcomes(submission), reported)
    ensures Agrees(ApplyOutcomes(live, reported, |reported|), after)
  {
    var later := ApplyOutcomes(live, reported, |reported|);
    assert DistinctOutcomes(reported);
    OutcomesApplied(live, reported, |reported|);
    forall id | id in later ensures EntryAgrees(after, id, later[id]) {
      assert EntryAgrees(before, id, live[id]);
      if p :| 0 <= p < |plans| && plans[p].registration == id {
        assert reported[p].registration == id;
        PlannedAgrees(live, plans, before, submission, applied, after, p);
      } else {
        assert forall i | 0 <= i < |reported| :: reported[i].registration != id;
        UnplannedUnchanged(live, plans, before, applied, id);
      }
    }
    DisarmsThin(plans, before, applied);
    forall i | 0 <= i < |reported| ensures Disarmable(live, reported[i].registration) {
      assert reported[i].registration == plans[i].registration;
    }
    OutcomesKeepContained(live, before, after, reported);
  }

  lemma {:induction false} PlannedAgrees(live: LiveMap, plans: seq<Plan>, before: Filters, submission: Submission,
                                         applied: seq<bool>, after: Filters, p: nat)
    requires DistinctDescriptors(live) && PlansFit(live, plans) && p < |plans| && submission.changes == Flatten(plans)
    requires Replies(before, submission.changes, submission.reply, submission.receipts, applied, after)
    requires var id := plans[p].registration; live[id].state == ARMED && EntryAgrees(before, id, live[id])
    ensures var id, commit := plans[p].registration, SegmentCommit(plans, Outcomes(submission), p);
            EntryAgrees(after, id, live[id].(state := StateAfterDisarm(commit)))
  {
    PlanFilterAfter(live, plans, before, submission, applied, after, p, Read);
    PlanFilterAfter(live, plans, before, submission, applied, after, p, Write);
  }

  lemma {:induction false} UnplannedUnchanged(live: LiveMap, plans: seq<Plan>, before: Filters, applied: seq<bool>,
                                              id: RegistrationId)
    requires DistinctDescriptors(live) && PlansFit(live, plans) && |applied| == |Flatten(plans)|
    requires id in live && forall p | 0 <= p < |plans| :: plans[p].registration != id
    requires EntryAgrees(before, id, live[id])
    ensures EntryAgrees(ApplyAll(before, Flatten(plans), applied), id, live[id])
  {
    var d := live[id].descriptor;
    forall p | 0 <= p < |plans| ensures plans[p].descriptor != d {
      assert live[plans[p].registration].descriptor == plans[p].descriptor;
    }
    DisarmLeavesAlone(plans, before, applied, Knote(d, Read));
    DisarmLeavesAlone(plans, before, applied, Knote(d, Write));
  }

  // ---------- When a submitted batch is not committed ----------

  /** A wait that errs after submitting leaves the table where it was. That table still agrees with the
      kernel exactly when no disable of an armed registration was made. */
  lemma {:induction false} UncommittedBatch(live: LiveMap, plans: seq<Plan>, before: Filters, submission: Submission,
                                            applied: seq<bool>, after: Filters)
    requires Agrees(live, before) && DistinctDescriptors(live) && PlansFit(live, plans)
    requires forall p | 0 <= p < |plans| :: live[plans[p].registration].state.Registered?
    requires submission.changes == Flatten(plans)
    requires Replies(before, submission.changes, submission.reply, submission.receipts, applied, after)
    ensures Agrees(live, after) <==>
              forall p, f | 0 <= p < |plans| && Wants(plans[p].interest, f)
                            && live[plans[p].registration].state == ARMED ::
                !applied[ChangeIndex(plans, p, f)]
  {
    PlanTargetsDistinct(live, plans);
    if Agrees(live, after) {
      forall p, f | 0 <= p < |plans| && Wants(plans[p].interest, f) && live[plans[p].registration].state == ARMED
        ensures !applied[ChangeIndex(plans, p, f)]
      {
        var id := plans[p].registration;
        ChangeIndexHolds(plans, p, f);
        Touched(before, submission.changes, applied, ChangeIndex(plans, p, f));
        assert EntryAgrees(before, id, live[id]) && EntryAgrees(after, id, live[id]);
      }
    }
    if forall p, f | 0 <= p < |plans| && Wants(plans[p].interest, f) && live[plans[p].registration].state == ARMED ::
         !applied[ChangeIndex(plans, p, f)]
    {
      forall id | id in live ensures EntryAgrees(after, id, live[id]) {
        assert EntryAgrees(before, id, live[id]);
        if p :| 0 <= p < |plans| && plans[p].registration == id {
          UncommittedPlan(live, plans, before, submission, applied, after, p);
        } else {
          UnplannedUnchanged(live, plans, before, applied, id);
        }
      }
      DisarmsThin(plans, before, applied);
      ThinningKeepsContained(live, live, before, after);
    }
  }

  lemma {:induction false} UncommittedPlan(live: LiveMap, plans: seq<Plan>, before: Filters, submission: Submission,
                                           applied: seq<bool>, after: Filters, p: nat)
    requires DistinctDescriptors(live) && PlansFit(live, plans) && p < |plans|
    requires submission.changes == Flatten(plans)
    requires Replies(before, submission.changes, submission.reply, submission.receipts, applied, after)
    requires var id := plans[p].registration;
             && live[id].state.Registered? && EntryAgrees(before, id, live[id])
             && (live[id].state == ARMED ==>
                 forall f | Wants(plans[p].interest, f) :: !applied[ChangeIndex(plans, p, f)])
    ensures EntryAgrees(after, plans[p].registration, live[plans[p].registration])
  {
    PlanTargetsDistinct(live, plans);
    forall f | f in {Read, Write}
      ensures Lookup(after, Knote(plans[p].descriptor, f)) == Lookup(before, Knote(plans[p].descriptor, f))
    {
      var k := Knote(plans[p].descriptor, f);
      if Wants(plans[p].interest, f) {
        ChangeIndexHolds(plans, p, f);
        Touched(before, submission.changes, applied, ChangeIndex(plans, p, f));
      } else {
        forall q | 0 <= q < |plans| ensures plans[q].descriptor != k.ident || !Wants(plans[q].interest, k.filter) {
          if q < p { assert plans[q].registration != plans[p].registration; }
          if p < q { assert plans[p].registration != plans[q].registration; }
        }
        DisarmLeavesAlone(plans, before, applied, k);
      }
    }
    assert Lookup(after, Knote(plans[p].descriptor, Read)) == Lookup(before, Knote(plans[p].descriptor, Read));
    assert Lookup(after, Knote(plans[p].descriptor, Write)) == Lookup(before, Knote(plans[p].descriptor, Write));
  }
}
