/** The wake and drain loops themselves, over a counter that other wakers and a waiting poller use in
    between any two system calls. What they do is a run of the step system. */
module EventFds {
  import opened Vocabulary
  import opened WakeLoop

  /** How a loop ended. The kernel may interrupt calls without bound, so a loop is followed for a given
      number of calls only. */
  datatype Ended = Finished | Failed | StillTrying

  function Actor(step: Step): Option<WakerId> {
    match step
    case Enter(w) => Some(w)
    case WriteCall(w, _) => Some(w)
    case ReadCall(w, _) => Some(w)
    case HardError(w) => Some(w)
    case WaitLooks(_) => None
  }

  lemma {:induction false} OthersKeep(s: System, step: Step, w: WakerId)
    requires w in s.wakers && Allowed(s, step) && Actor(step) != Some(w)
    ensures w in Next(s, step).wakers && Next(s, step).wakers[w] == s.wakers[w]
  {
  }

  // ---------- The steps of one waker ----------

  /** The steps that `w` took among `steps`, in order. */
  function StepsOf(steps: seq<Step>, w: WakerId): seq<Step> {
    if steps == [] then []
    else
      var n := |steps| - 1;
      StepsOf(steps[..n], w) + if Actor(steps[n]) == Some(w) then [steps[n]] else []
  }

  lemma {:induction false} StepsOfConcat(a: seq<Step>, b: seq<Step>, w: WakerId)
    ensures StepsOf(a + b, w) == StepsOf(a, w) + StepsOf(b, w)
  {
    if b == [] {
      assert a + b == a;
    } else {
      var n := |b| - 1;
      StepsOfConcat(a, b[..n], w);
      assert (a + b)[..|a| + n] == a + b[..n];
    }
  }

  predicate IsWrite(step: Step) { step.WriteCall? || step.HardError? }

  predicate IsRead(step: Step) { step.ReadCall? || step.HardError? }

  /** The call that a waker makes after `step`: an interrupted call again, a read after a write that would block,
      a write after a read that took the counter or found it empty, and none after a completed write or a hard
      error. A hard error may take the place of any call. */
  predicate Continues(step: Step, next: Step) {
    match step
    case Enter(_) => IsWrite(next)
    case WriteCall(_, WriteInterrupted) => IsWrite(next)
    case WriteCall(_, WriteWouldBlock) => IsRead(next)
    case WriteCall(_, Wrote) => false
    case ReadCall(_, ReadInterrupted) => IsRead(next)
    case ReadCall(_, _) => IsWrite(next)
    case HardError(_) => false
    case WaitLooks(_) => false
  }

  /** A read that ends the drain. */
  predicate TookAll(step: Step) { step.ReadCall? && step.read != ReadInterrupted }

  /** A write is due after this step. */
  predicate WritesNext(step: Step) {
    step.Enter? || TookAll(step) || (step.WriteCall? && step.wrote == WriteInterrupted)
  }

  ghost predicate Unbroken(own: seq<Step>) {
    forall k, next | 0 <= k < next < |own| && next == k + 1 :: Continues(own[k], own[next])
  }

  lemma {:induction false} UnbrokenJoins(a: seq<Step>, b: seq<Step>)
    requires Unbroken(a) && Unbroken(b) && (a != [] && b != [] ==> Continues(a[|a| - 1], b[0]))
    ensures Unbroken(a + b)
  {
  }

  /** The steps that `w` took since `start` grow by those it took since `before`. */
  lemma {:induction false} OwnGrows(before: seq<Step>, after: seq<Step>, start: nat, w: WakerId)
    requires start <= |before| && before <= after
    ensures StepsOf(after[start..], w) == StepsOf(before[start..], w) + StepsOf(after[|before|..], w)
  {
    StepsOfConcat(before[start..], after[|before|..], w);
    assert after[start..] == before[start..] + after[|before|..];
  }

  /** From `before` to `after`, `w` took exactly the steps `own`, in an unbroken sequence. */
  ghost predicate Took(before: seq<Step>, after: seq<Step>, w: WakerId, own: seq<Step>) {
    before <= after && StepsOf(after[|before|..], w) == own && Unbroken(own)
  }

  /** What was taken first and what was taken then join. */
  lemma {:induction false} TookOn(a: seq<Step>, b: seq<Step>, c: seq<Step>, w: WakerId, own: seq<Step>, tail: seq<Step>)
    returns (joined: seq<Step>)
    requires Took(a, b, w, own) && Took(b, c, w, tail) && own != []
    requires tail != [] ==> Continues(own[|own| - 1], tail[0])
    ensures Took(a, c, w, joined) && |joined| == |own| + |tail| && joined[0] == own[0]
    ensures joined[|joined| - 1] == if tail == [] then own[|own| - 1] else tail[|tail| - 1]
  {
    joined := own + tail;
    OwnGrows(b, c, |a|, w);
    UnbrokenJoins(own, tail);
  }

  /** One more own step, which ends the run so far. */
  lemma {:induction false} Later(a: seq<Step>, b: seq<Step>, c: seq<Step>, w: WakerId, own: seq<Step>)
    returns (joined: seq<Step>)
    requires c != [] && Took(a, b, w, own) && Took(b, c, w, [c[|c| - 1]])
    requires own != [] ==> Continues(own[|own| - 1], c[|c| - 1])
    ensures Took(a, c, w, joined) && |joined| == |own| + 1 && joined[|own|] == c[|c| - 1]
    ensures own != [] ==> joined[0] == own[0]
  {
    joined := own + [c[|c| - 1]];
    OwnGrows(b, c, |a|, w);
    UnbrokenJoins(own, [c[|c| - 1]]);
  }

  /** One step of anyone, after none of `w`. */
  lemma {:induction false} TookOneMore(a: seq<Step>, b: seq<Step>, step: Step, w: WakerId)
    requires Took(a, b, w, [])
    ensures Took(a, b + [step], w, if Actor(step) == Some(w) then [step] else [])
  {
    OwnGrows(b, b + [step], |a|, w);
    assert (b + [step])[|b|..] == [step];
    assert [step][..0] == [];
  }

  lemma {:induction false} TookOwn(a: seq<Step>, b: seq<Step>, c: seq<Step>, step: Step, w: WakerId)
    requires Took(a, b, w, []) && c == b + [step] && Actor(step) == Some(w)
    ensures Took(a, c, w, [step])
  {
    TookOneMore(a, b, step, w);
  }

  class EventFd {
    var state: System
    /** Every step that anyone took so far. */
    var steps: seq<Step>

    ghost predicate Valid()
      reads this
    {
      IsRun(steps) && state == After(steps, |steps|)
    }

    constructor ()
      ensures Valid() && steps == []
    {
      state, steps := INITIAL, [];
    }

    method Take(step: Step)
      requires Valid() && Allowed(state, step)
      modifies this
      ensures Valid() && steps == old(steps) + [step] && state == Next(old(state), step)
    {
      RunExtends(steps, step);
      steps, state := steps + [step], Next(state, step);
    }

    /** Other wakers and the poller take any number of steps. */
    method Interfere(w: WakerId)
      requires Valid() && w in state.wakers
      modifies this
      ensures Valid() && Took(old(steps), steps, w, [])
      ensures w in state.wakers && state.wakers[w] == old(state.wakers)[w]
    {
      ghost var before := steps;
      assert before[|before|..] == [];
      var count :| 0 <= count;
      for i := 0 to count
        invariant Valid() && Took(before, steps, w, [])
        invariant w in state.wakers && state.wakers[w] == old(state.wakers)[w]
      {
        assert Allowed(state, WaitLooks(state.edge && state.counter > 0));
        var step :| Allowed(state, step) && Actor(step) != Some(w);
        OthersKeep(state, step, w);
        TookOneMore(before, steps, step, w);
        Take(step);
      }
    }

    /** One write of one. Nothing stands for a hard error. */
    method WriteOnce(w: WakerId) returns (outcome: Option<WriteOutcome>)
      requires Valid() && MayWrite(state, w)
      modifies this
      ensures Valid() && steps == old(steps) + [if outcome.Some? then WriteCall(w, outcome.value) else HardError(w)]
      ensures state == Next(old(state), steps[|steps| - 1])
    {
      var fails := *;
      if fails {
        Take(HardError(w));
        outcome := None;
      } else {
        assert WriteCan(state, WriteInterrupted);
        var written :| WriteCan(state, written);
        Take(WriteCall(w, written));
        outcome := Some(written);
      }
    }

    method ReadOnce(w: WakerId) returns (outcome: Option<ReadOutcome>)
      requires Valid() && At(state, w, Draining)
      modifies this
      ensures Valid() && steps == old(steps) + [if outcome.Some? then ReadCall(w, outcome.value) else HardError(w)]
      ensures state == Next(old(state), steps[|steps| - 1])
    {
      var fails := *;
      if fails {
        Take(HardError(w));
        outcome := None;
      } else {
        assert ReadCan(state, ReadInterrupted);
        var read :| ReadCan(state, read);
        Take(ReadCall(w, read));
        outcome := Some(read);
      }
    }

    /** One read, after whatever the others do first. */
    method NextRead(w: WakerId) returns (outcome: Option<ReadOutcome>, ghost step: Step)
      requires Valid() && At(state, w, Draining)
      modifies this
      ensures Valid() && old(steps) <= steps && steps != []
      ensures steps[|steps| - 1] == step == if outcome.Some? then ReadCall(w, outcome.value) else HardError(w)
      ensures Took(old(steps), steps, w, [step])
      ensures match outcome
              case None => true
              case Some(ReadInterrupted) => At(state, w, Draining)
              case Some(_) => At(state, w, Rewriting)
    {
      Interfere(w);
      ghost var middle := steps;
      outcome := ReadOnce(w);
      step := if outcome.Some? then ReadCall(w, outcome.value) else HardError(w);
      TookOwn(old(steps), middle, steps, step, w);
    }

    /** One write, after whatever the others do first. */
    method NextWrite(w: WakerId) returns (outcome: Option<WriteOutcome>, ghost step: Step)
      requires Valid() && MayWrite(state, w)
      modifies this
      ensures Valid() && old(steps) <= steps && steps != []
      ensures steps[|steps| - 1] == step == if outcome.Some? then WriteCall(w, outcome.value) else HardError(w)
      ensures Took(old(steps), steps, w, [step])
      ensures match outcome
              case None => true
              case Some(Wrote) => w !in state.wakers && SucceededUnreported(steps, |steps| - 1, |steps|)
              case Some(WriteInterrupted) => MayWrite(state, w)
              case Some(WriteWouldBlock) => At(state, w, Draining)
    {
      Interfere(w);
      ghost var middle := steps;
      outcome := WriteOnce(w);
      step := if outcome.Some? then WriteCall(w, outcome.value) else HardError(w);
      TookOwn(old(steps), middle, steps, step, w);
    }

    /** Reads until the counter is empty. A drain that ends leaves its waker owing a write. It gives up only after
        the given number of reads, the last of them interrupted. */
    method Drain(w: WakerId, calls: nat) returns (r: Ended, ghost own: seq<Step>)
      requires Valid() && At(state, w, Draining)
      modifies this
      ensures Valid() && Took(old(steps), steps, w, own) && (own != [] ==> IsRead(own[0]))
      ensures match r
              case Finished => own != [] && TookAll(own[|own| - 1]) && At(state, w, Rewriting)
              case Failed => own != [] && own[|own| - 1] == steps[|steps| - 1] == HardError(w)
              case StillTrying =>
                |own| == calls && w in state.wakers && (own != [] ==> own[|own| - 1] == ReadCall(w, ReadInterrupted))
    {
      ghost var before := steps;
      own := [];
      assert before[|before|..] == [];
      for i := 0 to calls
        invariant Valid() && At(state, w, Draining) && Took(before, steps, w, own) && |own| == i
        invariant own != [] ==> IsRead(own[0]) && own[i - 1] == ReadCall(w, ReadInterrupted)
      {
        ghost var middle := steps;
        ghost var step;
        var outcome;
        outcome, step := NextRead(w);
        own := Later(before, middle, steps, w, own);
        match outcome {
          case None => return Failed, own;
          case Some(Read(_)) => return Finished, own;
          case Some(ReadWouldBlock) => return Finished, own;
          case Some(ReadInterrupted) =>
        }
      }
      r := StillTrying;
    }

    /** One write, and the drain if it would block. Nothing is returned while the loop goes on. */
    method Attempt(w: WakerId, calls: nat) returns (ended: Option<Ended>, ghost own: seq<Step>)
      requires Valid() && MayWrite(state, w)
      modifies this
      ensures Valid() && Took(old(steps), steps, w, own) && own != [] && IsWrite(own[0])
      ensures match ended
              case None => MayWrite(state, w) && WritesNext(own[|own| - 1])
              case Some(Finished) =>
                && own[|own| - 1] == steps[|steps| - 1] == WriteCall(w, Wrote)
                && w !in state.wakers && SucceededUnreported(steps, |steps| - 1, |steps|)
              case Some(Failed) => own[|own| - 1] == steps[|steps| - 1] == HardError(w)
              case Some(StillTrying) => |own| > calls && w in state.wakers
    {
      ghost var before := steps;
      ghost var step;
      var outcome;
      outcome, step := NextWrite(w);
      own := [step];
      match outcome {
        case None => ended := Some(Failed);
        case Some(Wrote) => ended := Some(Finished);
        case Some(WriteInterrupted) => ended := None;
        case Some(WriteWouldBlock) =>
          ghost var middle, tail := steps, [];
          var drained;
          drained, tail := Drain(w, calls);
          own := TookOn(before, middle, steps, w, own, tail);
          ended := if drained == Finished then None else Some(drained);
      }
    }

    method Begin(w: WakerId)
      requires Valid() && w !in state.wakers
      modifies this
      ensures Valid() && MayWrite(state, w) && Took(old(steps), steps, w, [Enter(w)])
    {
      assert steps[|steps|..] == [];
      TookOneMore(steps, steps, Enter(w), w);
      Take(Enter(w));
    }

    /** Writes until a write completes, draining a full counter in between. When it finishes, its write is
        the last step of the run, so a wake is owed that no wait has reported. It gives up only after the given
        number of system calls. */
    method Wake(w: WakerId, calls: nat) returns (r: Ended, ghost own: seq<Step>)
      requires Valid() && w !in state.wakers
      modifies this
      ensures Valid() && Took(old(steps), steps, w, own) && own != [] && own[0] == Enter(w)
      ensures match r
              case Finished =>
                && own[|own| - 1] == steps[|steps| - 1] == WriteCall(w, Wrote)
                && w !in state.wakers && SucceededUnreported(steps, |steps| - 1, |steps|)
              case Failed => own[|own| - 1] == steps[|steps| - 1] == HardError(w)
              case StillTrying => |own| > calls && w in state.wakers
    {
      Begin(w);
      own := [Enter(w)];
      for i := 0 to calls
        invariant Valid() && MayWrite(state, w) && Took(old(steps), steps, w, own)
        invariant |own| > i && own[0] == Enter(w) && WritesNext(own[|own| - 1])
      {
        ghost var middle, tail := steps, [];
        var ended;
        ended, tail := Attempt(w, calls);
        own := TookOn(old(steps), middle, steps, w, own, tail);
        if ended.Some? { return ended.value, own; }
      }
      r := StillTrying;
    }
  }
}
