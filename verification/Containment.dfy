/** What the kernel may hold after any run, honest or not: every filter is of a live registration, under
    that registration's own token, and within the interest of a proven one. Nothing here depends on whether
    a filter is enabled, so no failed wait can break it. Scoped deletion and the size of the native batch
    rest on this alone. */
module Containment {
  import opened Vocabulary
  import opened RegistrationTables
  import opened MutationMachine
  import opened Kernels
  import opened KqueuePolicy
  import opened KeventBatches
  import opened DisarmBatches
  import opened Recovery

  const WAKE_KNOTE := Knote(0, User)

  predicate Wants(interest: Interest, filter: Filter) {
    (filter == Read && interest.readable) || (filter == Write && interest.writable)
  }

  ghost predicate Owned(live: LiveMap, descriptor: Descriptor) {
    exists id :: id in live && live[id].descriptor == descriptor
  }

  ghost predicate DistinctDescriptors(live: LiveMap) {
    forall a, b | a in live && b in live && a != b :: live[a].descriptor != live[b].descriptor
  }

  /** The filter at `k` under `token` is one that the registration with that token may have. */
  predicate Claimed(live: LiveMap, k: Knote, token: U64) {
    && k.filter in {Read, Write} && token in live && live[token].descriptor == k.ident
    && (live[token].state.Registered? ==> Wants(live[token].interest, k.filter))
  }

  /** The kernel holds nothing but the wake and filters that live registrations claim. */
  ghost predicate Contained(live: LiveMap, filters: Filters) {
    forall k | k in filters :: k == WAKE_KNOTE || Claimed(live, k, filters[k].token)
  }

  // ---------- One registration mutated ----------

  /** A mutation that stays on one registration's own descriptor and brings in no token but its own keeps
      the kernel contained, if what it left there is within the interest, or nothing at all. */
  lemma {:induction false} MutationKeepsContained(live: LiveMap, later: LiveMap, before: Filters, after: Filters,
                                                  id: RegistrationId, descriptor: Descriptor)
    requires Contained(live, before) && SameElsewhere(before, after, descriptor) && Carries(before, after, id)
    requires later - {id} == live - {id}
    requires forall other | other in live && other != id :: live[other].descriptor != descriptor
    requires id in live ==> live[id].descriptor == descriptor
    requires id in later ==> later[id].descriptor == descriptor
    requires id in later && later[id].state.Registered? ==>
               forall f <- {Read, Write} :: Knote(descriptor, f) in after ==> Wants(later[id].interest, f)
    requires id !in later ==> NothingInstalled(after, descriptor)
    ensures Contained(later, after)
  {
    forall k | k in after && k != WAKE_KNOTE ensures Claimed(later, k, after[k].token) {
      if k.ident == descriptor && k.filter in {Read, Write} {
        assert k == Knote(descriptor, k.filter);
        assert k in before ==> Claimed(live, k, before[k].token);
      } else {
        assert Lookup(after, k) == Lookup(before, k);
        var token := before[k].token;
        assert Claimed(live, k, token);
        assert token in later - {id} && (later - {id})[token] == (live - {id})[token];
      }
    }
  }

  /** A descriptor of no live registration has nothing installed. */
  lemma {:induction false} FreshDescriptorIsClean(live: LiveMap, filters: Filters, descriptor: Descriptor)
    requires Contained(live, filters) && !Owned(live, descriptor)
    ensures NothingInstalled(filters, descriptor)
  {
  }

  /** The scoped sweep of a granted delete leaves nothing, whatever the arm state: nothing was installed
      outside the interest. */
  lemma {:induction false} ScopedDeleteIsComplete(live: LiveMap, before: Filters, after: Filters, id: RegistrationId)
    requires Contained(live, before) && DistinctDescriptors(live) && id in live
    requires var e := live[id];
             var scope := DeletedInterest(e.interest, e.state);
             && (scope.readable || Knote(e.descriptor, Read) !in before ==> Knote(e.descriptor, Read) !in after)
             && (scope.writable || Knote(e.descriptor, Write) !in before ==> Knote(e.descriptor, Write) !in after)
    ensures NothingInstalled(after, live[id].descriptor)
  {
    forall f <- {Read, Write} | Knote(live[id].descriptor, f) in before && live[id].state.Registered?
      ensures Wants(live[id].interest, f)
    {
      var k := Knote(live[id].descriptor, f);
      assert Claimed(live, k, before[k].token);
    }
  }

  // ---------- Disarms ----------

  /** Filters that went or were disabled, and registrations that changed state but did not become proven. */
  lemma {:induction false} ThinningKeepsContained(live: LiveMap, later: LiveMap, before: Filters, after: Filters)
    requires Contained(live, before) && Thinned(before, after) && later.Keys == live.Keys
    requires forall id | id in live ::
               later[id].descriptor == live[id].descriptor && later[id].interest == live[id].interest
    requires forall id | id in live && later[id].state.Registered? :: live[id].state.Registered?
    ensures Contained(later, after)
  {
    forall k | k in after && k != WAKE_KNOTE ensures Claimed(later, k, after[k].token) {
      assert Claimed(live, k, before[k].token);
    }
  }

  /** Moving disarmed registrations by their outcomes. */
  lemma {:induction false} OutcomesKeepContained(live: LiveMap, before: Filters, after: Filters,
                                                 outcomes: seq<RecoveryOutcome>)
    requires Contained(live, before) && Thinned(before, after) && DistinctOutcomes(outcomes)
    requires forall i | 0 <= i < |outcomes| :: Disarmable(live, outcomes[i].registration)
    ensures Contained(ApplyOutcomes(live, outcomes, |outcomes|), after)
  {
    var later := ApplyOutcomes(live, outcomes, |outcomes|);
    OutcomesApplied(live, outcomes, |outcomes|);
    forall id | id in live
      ensures later[id].descriptor == live[id].descriptor && later[id].interest == live[id].interest
      ensures later[id].state.Registered? ==> live[id].state.Registered?
    {
      if i :| 0 <= i < |outcomes| && outcomes[i].registration == id {
      }
    }
    ThinningKeepsContained(live, later, before, after);
  }

  /** Every change of a disarm batch is a disable, so no reply brings anything in. */
  lemma {:induction false} DisarmsThin(plans: seq<Plan>, before: Filters, applied: seq<bool>)
    requires |applied| == |Flatten(plans)|
    ensures Thinned(before, ApplyAll(before, Flatten(plans), applied))
  {
    FlattenDisables(plans);
    RemovalsThin(before, Flatten(plans), ApplyAll(before, Flatten(plans), applied));
  }

  // ---------- Capacity ----------

  lemma {:induction false} OwnedKnotesBound(live: LiveMap, knotes: set<Knote>)
    requires forall k | k in knotes :: k.filter in {Read, Write} && Owned(live, k.ident)
    ensures |knotes| <= 2 * |live|
    decreases |live|
  {
    if live == map[] {
      assert knotes == {};
    } else {
      var id :| id in live;
      var d, fewer := live[id].descriptor, live - {id};
      var pair := {Knote(d, Read), Knote(d, Write)};
      forall k | k in knotes - pair ensures Owned(fewer, k.ident) {
        var other :| other in live && live[other].descriptor == k.ident;
        assert other in fewer;
      }
      assert |fewer| == |live| - 1 by { assert fewer.Keys == live.Keys - {id}; }
      OwnedKnotesBound(fewer, knotes - pair);
      assert knotes == (knotes - pair) + (knotes * pair) && |knotes * pair| <= 2 by {
        SubsetCount(knotes * pair, pair);
      }
    }
  }

  /** A native batch of two events per registration and one wake holds every installed filter. */
  lemma {:induction false} FiltersFit(live: LiveMap, filters: Filters)
    requires Contained(live, filters)
    ensures |filters| <= 2 * |live| + 1
  {
    var knotes := filters.Keys - {WAKE_KNOTE};
    forall k | k in knotes ensures k.filter in {Read, Write} && Owned(live, k.ident) {
      assert Claimed(live, k, filters[k].token);
    }
    OwnedKnotesBound(live, knotes);
    SubsetCount(filters.Keys, knotes + {WAKE_KNOTE});
  }
}
