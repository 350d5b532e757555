/** Process-unique poller identity, assigned lazily from one shared counter. */
module PollOwners {
  import opened Vocabulary

  type PollId = U64

  /** The process-wide counter. */
  class PollIds {
    var next: U64
    /** Which owner every assigned id went to. */
    ghost var holders: map<PollId, PollOwner>

    ghost predicate Valid()
      reads this
    {
      next >= 1 && forall raw | raw in holders :: 0 < raw < next
    }

    constructor ()
      ensures Valid() && next == 1 && holders == map[]
    {
      next, holders := 1, map[];
    }
  }

  class PollOwner {
    var raw: U64

    constructor ()
      ensures raw == 0
    {
      raw := 0;
    }

    ghost predicate Valid(ids: PollIds)
      reads this, ids
    {
      ids.Valid() && (raw != 0 ==> raw in ids.holders && ids.holders[raw] == this)
    }

    function Current(): Option<PollId>
      reads this
    {
      if raw == 0 then None else Some(raw)
    }

    /** Keeps an assigned id for good; otherwise takes the counter's next value, which is refused
        only when the counter cannot be advanced. */
    method GetOrAssign(ids: PollIds) returns (r: Result<PollId, Error>)
      requires Valid(ids)
      modifies this, ids
      ensures Valid(ids)
      ensures r.Ok? <==> old(raw) != 0 || old(ids.next) < U64_MAX
      ensures r.Ok? ==> r.value == raw != 0
      ensures r.Err? ==> r.error == Invariant && raw == old(raw)
      ensures old(raw) != 0 ==> raw == old(raw)
      ensures raw == old(raw) ==> ids.next == old(ids.next) && ids.holders == old(ids.holders)
      ensures raw != old(raw) ==> ids.next == old(ids.next) + 1
      ensures forall other | other in old(ids.holders) ::
                other in ids.holders && ids.holders[other] == old(ids.holders)[other]
    {
      if raw != 0 { return Ok(raw); }
      if ids.next == U64_MAX { return Err(Invariant); }
      var taken := ids.next;
      ids.next := ids.next + 1;
      if taken == 0 { return Err(Invariant); }
      raw := taken;
      ids.holders := ids.holders[taken := this];
      r := Ok(taken);
    }
  }

  /** No two pollers share an id. */
  lemma OwnersAreUnique(a: PollOwner, b: PollOwner, ids: PollIds)
    requires a.Valid(ids) && b.Valid(ids)
    requires a.Current().Some? && a.Current() == b.Current()
    ensures a == b
  {
  }
}
