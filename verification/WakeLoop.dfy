/** Waking through an eventfd: any number of wakers and one waiting poller interleave over one kernel
    counter that is registered edge-triggered. A waker is a retry loop over single system calls, so each
    of its calls is one step here. */
module WakeLoop {
  import opened Vocabulary

  /** The largest value the counter can hold. A write that would pass it would block. */
  const COUNTER_MAX: nat := U64_MAX - 1

  type WakerId = nat

  /** Where a waker inside `wake` stands: about to write for the first time, about to read in `drain`, or
      drained and about to write again. */
  datatype Waker = Writing | Draining | Rewriting

  /** The kernel's counter and queued edge, and the wakers inside a call. `owed` is for the proof alone:
      some wake has succeeded since a wait last reported one. */
  datatype System = System(counter: nat, edge: bool, wakers: map<WakerId, Waker>, owed: bool)

  const INITIAL := System(0, false, map[], false)

  predicate At(s: System, w: WakerId, waker: Waker) {
    w in s.wakers && s.wakers[w] == waker
  }

  predicate MayWrite(s: System, w: WakerId) {
    At(s, w, Writing) || At(s, w, Rewriting)
  }

  datatype WriteOutcome = Wrote | WriteInterrupted | WriteWouldBlock
  datatype ReadOutcome = Read(drained: nat) | ReadInterrupted | ReadWouldBlock

  datatype Step =
    | Enter(w: WakerId)
    | WriteCall(w: WakerId, wrote: WriteOutcome)
    | ReadCall(w: WakerId, read: ReadOutcome)
    | HardError(w: WakerId)
    | WaitLooks(reported: bool)

  /** What eventfd(2) allows a write of one: it completes exactly when the counter has room, and a signal
      may interrupt it either way. */
  predicate WriteCan(s: System, outcome: WriteOutcome) {
    match outcome
    case Wrote => s.counter < COUNTER_MAX
    case WriteWouldBlock => s.counter == COUNTER_MAX
    case WriteInterrupted => true
  }

  /** A read takes the whole counter, or would block on an empty one. */
  predicate ReadCan(s: System, outcome: ReadOutcome) {
    match outcome
    case Read(drained) => drained == s.counter > 0
    case ReadWouldBlock => s.counter == 0
    case ReadInterrupted => true
  }

  /** The steps that the kernel and the two loops allow. A wait that looks at the wake source consumes a
      queued edge, and reports it only if the counter is nonzero by then. */
  predicate Allowed(s: System, step: Step) {
    match step
    case Enter(w) => w !in s.wakers
    case WriteCall(w, outcome) => MayWrite(s, w) && WriteCan(s, outcome)
    case ReadCall(w, outcome) => At(s, w, Draining) && ReadCan(s, outcome)
    case HardError(w) => w in s.wakers
    case WaitLooks(reported) => reported <==> s.edge && s.counter > 0
  }

  /** What the loops make of each outcome. A completed write leaves `wake`; a write that would block goes
      to drain; a drain that completed or found nothing goes back to write; an interrupted call is
      made again. */
  function Next(s: System, step: Step): System {
    match step
    case Enter(w) => s.(wakers := s.wakers[w := Writing])
    case WriteCall(w, Wrote) => System(s.counter + 1, true, s.wakers - {w}, true)
    case WriteCall(w, WriteInterrupted) => s
    case WriteCall(w, WriteWouldBlock) => s.(wakers := s.wakers[w := Draining])
    case ReadCall(w, Read(_)) => s.(counter := 0, wakers := s.wakers[w := Rewriting])
    case ReadCall(w, ReadWouldBlock) => s.(wakers := s.wakers[w := Rewriting])
    case ReadCall(w, ReadInterrupted) => s
    case HardError(w) => s.(wakers := s.wakers - {w})
    case WaitLooks(reported) => s.(edge := false, owed := s.owed && !reported)
  }

  function After(steps: seq<Step>, n: nat): System
    requires n <= |steps|
  {
    if n == 0 then INITIAL else Next(After(steps, n - 1), steps[n - 1])
  }

  /** The waker has emptied the counter under an owed wake and no other waker has. */
  ghost predicate HoldsTheLast(s: System, w: WakerId) {
    s.owed && s.counter == 0 && At(s, w, Rewriting) && forall v | At(s, v, Rewriting) :: v == w
  }

  /** A hard error does harm only to the last drained waker: it leaves without the write it owes. */
  ghost predicate Harmless(s: System, step: Step) {
    step.HardError? ==> !HoldsTheLast(s, step.w)
  }

  // ---------- No wake is lost ----------

  /** A wake that is owed can be seen now, or the counter is empty and a waker still owes the write that
      will show it. That write cannot block. */
  ghost predicate Carried(s: System) {
    (s.edge && s.counter > 0) || (s.counter == 0 && exists w :: At(s, w, Rewriting))
  }

  ghost predicate Sound(s: System) {
    && s.counter <= COUNTER_MAX
    && (s.owed ==> Carried(s))
    && (s.edge ==> s.owed)
  }

  /** Every step but one keeps every wake, and that one loses it. */
  lemma {:induction false} StepKeepsSound(s: System, step: Step)
    requires Sound(s) && Allowed(s, step)
    ensures Sound(Next(s, step)) <==> Harmless(s, step)
  {
    var t := Next(s, step);
    match step {
      case Enter(v) => forall w | At(s, w, Rewriting) ensures At(t, w, Rewriting) {}
      case WriteCall(v, _) =>
      case ReadCall(v, ReadInterrupted) =>
      case ReadCall(v, _) => assert At(t, v, Rewriting);
      case WaitLooks(_) => forall w | At(s, w, Rewriting) ensures At(t, w, Rewriting) {}
      case HardError(v) =>
        forall w ensures At(t, w, Rewriting) <==> At(s, w, Rewriting) && w != v {}
    }
  }

  predicate AllowedAt(steps: seq<Step>, i: nat)
    requires i < |steps|
  {
    Allowed(After(steps, i), steps[i])
  }

  ghost predicate HarmlessAt(steps: seq<Step>, i: nat)
    requires i < |steps|
  {
    Harmless(After(steps, i), steps[i])
  }

  ghost predicate IsRun(steps: seq<Step>) {
    forall i | 0 <= i < |steps| :: AllowedAt(steps, i)
  }

  ghost predicate IsHarmless(steps: seq<Step>) {
    forall i | 0 <= i < |steps| :: HarmlessAt(steps, i)
  }

  lemma {:induction false} NextStaysSound(steps: seq<Step>, n: nat)
    requires n < |steps| && AllowedAt(steps, n) && HarmlessAt(steps, n) && Sound(After(steps, n))
    ensures Sound(After(steps, n + 1))
  {
    StepKeepsSound(After(steps, n), steps[n]);
  }

  /** In every interleaving in which the last drained waker never fails, no wake is lost. */
  lemma {:induction false} RunsStaySound(steps: seq<Step>, n: nat)
    requires n <= |steps| && IsRun(steps) && IsHarmless(steps)
    ensures Sound(After(steps, n))
  {
    if n > 0 {
      RunsStaySound(steps, n - 1);
      assert AllowedAt(steps, n - 1) && HarmlessAt(steps, n - 1);
      NextStaysSound(steps, n - 1);
    }
  }

  /** Step `i` of the run completed a wake, and no wait before step `n` has reported since. */
  predicate SucceededUnreported(steps: seq<Step>, i: int, n: nat)
    requires n <= |steps|
  {
    && 0 <= i < n && steps[i].WriteCall? && steps[i].wrote.Wrote?
    && forall j | i < j < n :: steps[j] != WaitLooks(true)
  }

  /** `owed` means what it is for: a wake has succeeded and no wait has reported since. */
  lemma {:induction false} OwedMeansUnreported(steps: seq<Step>, n: nat)
    requires n <= |steps|
    ensures After(steps, n).owed <==> exists i :: SucceededUnreported(steps, i, n)
  {
    if n > 0 {
      OwedMeansUnreported(steps, n - 1);
      var last := steps[n - 1];
      if i :| SucceededUnreported(steps, i, n) {
        if i < n - 1 {
          assert steps[n - 1] != WaitLooks(true);
          assert SucceededUnreported(steps, i, n - 1);
        }
      }
      if last.WriteCall? && last.wrote.Wrote? { assert SucceededUnreported(steps, n - 1, n); }
      if After(steps, n - 1).owed && last != WaitLooks(true) {
        var i :| SucceededUnreported(steps, i, n - 1);
        assert SucceededUnreported(steps, i, n);
      }
    }
  }

  /** When no waker is inside a call, the next wait reports exactly if some wake succeeded since the last
      report: saturation loses none, and none is reported twice. */
  lemma {:induction false} QuietWaitIsExact(steps: seq<Step>, reported: bool)
    requires IsRun(steps) && IsHarmless(steps)
    requires After(steps, |steps|).wakers == map[] && Allowed(After(steps, |steps|), WaitLooks(reported))
    ensures reported <==> exists i :: SucceededUnreported(steps, i, |steps|)
  {
    RunsStaySound(steps, |steps|);
    OwedMeansUnreported(steps, |steps|);
  }

  /** Even with wakers inside their calls, a report always stands for a wake since the last one. */
  lemma {:induction false} ReportsAreEarned(steps: seq<Step>)
    requires IsRun(steps) && IsHarmless(steps) && Allowed(After(steps, |steps|), WaitLooks(true))
    ensures exists i :: SucceededUnreported(steps, i, |steps|)
  {
    RunsStaySound(steps, |steps|);
    OwedMeansUnreported(steps, |steps|);
  }

  /** While a wake is owed and not visible, some drained waker's next write cannot block, and completing it
      makes the wake visible. */
  lemma {:induction false} OwedWriteShows(steps: seq<Step>)
    requires IsRun(steps) && IsHarmless(steps)
    requires var s := After(steps, |steps|); s.owed && !(s.edge && s.counter > 0)
    ensures var s := After(steps, |steps|);
            exists w :: At(s, w, Rewriting) && !WriteCan(s, WriteWouldBlock) && Allowed(s, WriteCall(w, Wrote))
                        && Allowed(Next(s, WriteCall(w, Wrote)), WaitLooks(true))
  {
    RunsStaySound(steps, |steps|);
    var s := After(steps, |steps|);
    var w :| At(s, w, Rewriting);
    assert Allowed(s, WriteCall(w, Wrote));
  }

  // ---------- The one way to lose a wake, reached ----------

  lemma {:induction false} AfterPrefix(shorter: seq<Step>, longer: seq<Step>, n: nat)
    requires n <= |shorter| && shorter <= longer
    ensures After(longer, n) == After(shorter, n)
  {
    if n > 0 { AfterPrefix(shorter, longer, n - 1); }
  }

  lemma {:induction false} RunExtends(steps: seq<Step>, step: Step)
    requires IsRun(steps) && Allowed(After(steps, |steps|), step)
    ensures IsRun(steps + [step]) && After(steps + [step], |steps| + 1) == Next(After(steps, |steps|), step)
  {
    var longer := steps + [step];
    forall i | 0 <= i < |longer| ensures AllowedAt(longer, i) {
      AfterPrefix(steps, longer, i);
      if i < |steps| { assert AllowedAt(steps, i); }
    }
    AfterPrefix(steps, longer, |steps|);
  }

  /** Waker 0 wakes `n` times, with no wait in between. */
  function Fills(n: nat): seq<Step> {
    if n == 0 then [] else Fills(n - 1) + [Enter(0), WriteCall(0, Wrote)]
  }

  lemma {:induction false} FillsCounter(n: nat)
    requires n <= COUNTER_MAX
    ensures IsRun(Fills(n)) && After(Fills(n), |Fills(n)|) == System(n, n > 0, map[], n > 0)
  {
    if n > 0 {
      FillsCounter(n - 1);
      var steps := Fills(n - 1);
      RunExtends(steps, Enter(0));
      RunExtends(steps + [Enter(0)], WriteCall(0, Wrote));
      assert Fills(n) == steps + [Enter(0)] + [WriteCall(0, Wrote)];
    }
  }

  /** From an empty counter a run reaches the loss: the counter fills, one waker blocks, drains it and
      fails. Every earlier wake is owed, nobody is left to write, and no wait can report any of them. */
  lemma {:induction false} LossIsReachable(full: nat) returns (steps: seq<Step>)
    requires full == COUNTER_MAX
    ensures IsRun(steps) && |steps| > 0 && !HarmlessAt(steps, |steps| - 1)
    ensures var lost := After(steps, |steps|);
            lost.owed && !Carried(lost) && lost.wakers == map[] && !Allowed(lost, WaitLooks(true))
    ensures exists i :: SucceededUnreported(steps, i, |steps|)
  {
    steps := Fills(full);
    FillsCounter(full);
    for k := 0 to 4
      invariant IsRun(steps)
      invariant After(steps, |steps|) == (
        if k == 0 then System(full, true, map[], true)
        else if k == 1 then System(full, true, map[0 := Writing], true)
        else if k == 2 then System(full, true, map[0 := Draining], true)
        else if k == 3 then System(0, true, map[0 := Rewriting], true)
        else System(0, true, map[], true))
      invariant k == 4 ==> |steps| > 0 && !HarmlessAt(steps, |steps| - 1)
    {
      var step := if k == 0 then Enter(0) else if k == 1 then WriteCall(0, WriteWouldBlock)
                  else if k == 2 then ReadCall(0, Read(full)) else HardError(0);
      RunExtends(steps, step);
      AfterPrefix(steps, steps + [step], |steps|);
      steps := steps + [step];
    }
    OwedMeansUnreported(steps, |steps|);
  }
}
