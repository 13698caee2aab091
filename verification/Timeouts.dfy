/**
  Timeouts measured with wrapping counters: xTaskCheckForTimeOut, vTaskDelayUntil and the wait of
  the timer service task, against the unbounded clock whose low 32 bits they see.
 */
module Timeouts {
  import opened Ticks

  /** xNumOfOverflows at time c, itself a 32-bit counter. */
  function Overflows(c: nat): Tick { Wrap(Epoch(c)) }

  // ---- xTaskCheckForTimeOut ----

  datatype Snapshot = Snapshot(overflowCount: Tick, timeOnEntering: Tick)

  /** vTaskInternalSetTimeOutState */
  function SnapshotAt(c: nat): Snapshot { Snapshot(Overflows(c), Wrap(c)) }

  datatype Verdict = Verdict(expired: bool, snapshot: Snapshot, ticksToWait: Tick)

  /** xTaskCheckForTimeOut when it finds the given tick and overflow counts. */
  function Check(s: Snapshot, wait: Tick, tick: Tick, overflows: Tick): Verdict {
    var elapsed := Elapsed(tick, s.timeOnEntering);
    if wait == PORT_MAX_DELAY then Verdict(false, s, wait)
    else if overflows != s.overflowCount && tick >= s.timeOnEntering then Verdict(true, s, wait)
    else if elapsed < wait then Verdict(false, Snapshot(overflows, tick), wait - elapsed)
    else Verdict(true, s, 0)
  }

  class TimeOut {
    var overflowCount: Tick
    var timeOnEntering: Tick

    constructor (overflows: Tick, tick: Tick)
      ensures State() == Snapshot(overflows, tick)
    {
      overflowCount, timeOnEntering := overflows, tick;
    }

    function State(): Snapshot
      reads this
    {
      Snapshot(overflowCount, timeOnEntering)
    }

    method CheckForTimeOut(wait: Tick, tick: Tick, overflows: Tick) returns (expired: bool, ticksToWait: Tick)
      modifies this
      ensures Verdict(expired, State(), ticksToWait) == Check(old(State()), wait, tick, overflows)
    {
      ticksToWait := wait;
      var elapsedTime := Elapsed(tick, timeOnEntering);
      if ticksToWait == PORT_MAX_DELAY {
        expired := false;
      } else if overflows != overflowCount && tick >= timeOnEntering {
        expired := true;
      } else if elapsedTime < ticksToWait {
        ticksToWait := ticksToWait - elapsedTime;
        overflowCount, timeOnEntering := overflows, tick;
        expired := false;
      } else {
        ticksToWait := 0;
        expired := true;
      }
    }
  }

  function CheckAt(c0: nat, wait: Tick, c: nat): Verdict { Check(SnapshotAt(c0), wait, Wrap(c), Overflows(c)) }

  /** How far c is past c0 on the face of the counter. */
  function Residue(c0: nat, c: nat): int
    requires c0 <= c
  {
    (c - c0) % 0x1_0000_0000
  }

  lemma ElapsedIsResidue(c0: nat, c: nat)
    requires c0 <= c
    ensures Elapsed(Wrap(c), Wrap(c0)) == Residue(c0, c)
    ensures Wrap(c) >= Wrap(c0) ==> c - c0 == (Epoch(c) - Epoch(c0)) * 0x1_0000_0000 + Residue(c0, c)
    ensures Wrap(c) < Wrap(c0) ==> c - c0 == (Epoch(c) - Epoch(c0) - 1) * 0x1_0000_0000 + Residue(c0, c)
  {
  }

  /**
    The one case in which the code misses an expiry: a full turn or more has passed, the counter
    shows less than the wait, and the wraps are invisible, because the counter stands below the
    snapshot again or because the overflow count has itself come full circle.
   */
  predicate MissesExpiry(c0: nat, wait: Tick, c: nat) {
    && c >= c0 + 0x1_0000_0000 && Residue(c0, c) < wait
    && (Wrap(c) < Wrap(c0) || (Epoch(c) - Epoch(c0)) % 0x1_0000_0000 == 0)
  }

  lemma OverflowsAgree(c0: nat, c: nat)
    requires c0 <= c
    ensures Overflows(c) == Overflows(c0) <==> (Epoch(c) - Epoch(c0)) % 0x1_0000_0000 == 0
  {
    var a, b := Epoch(c0), Epoch(c);
    assert a == a / 0x1_0000_0000 * 0x1_0000_0000 + Overflows(c0) && b == b / 0x1_0000_0000 * 0x1_0000_0000 + Overflows(c);
  }

  /** Within one wrap of the snapshot no expiry is missed: a miss takes two. */
  lemma MissTakesTwoWraps(c0: nat, wait: Tick, c: nat)
    requires MissesExpiry(c0, wait, c)
    ensures Epoch(c) >= Epoch(c0) + 2
  {
    ElapsedIsResidue(c0, c);
  }

  /** A finite wait is reported expired exactly when the clock has reached the deadline, except in that case. */
  lemma ExpiryExact(c0: nat, wait: Tick, c: nat)
    requires c0 <= c && wait != PORT_MAX_DELAY
    ensures (CheckAt(c0, wait, c).expired <==> c >= c0 + wait) <==> !MissesExpiry(c0, wait, c)
  {
    ElapsedIsResidue(c0, c);
    OverflowsAgree(c0, c);
  }

  /** That case is real: two wraps between calls, and a wait of nearly a full turn goes on. */
  lemma MissedExpiry()
    ensures MissesExpiry(5, 0xFFFF_FFFE, 0x2_0000_0000) && !CheckAt(5, 0xFFFF_FFFE, 0x2_0000_0000).expired
  {
  }

  /** With at most one wrap since the snapshot the verdict is right, and what remains keeps the original deadline. */
  lemma DeadlineKept(c0: nat, wait: Tick, c: nat)
    requires c0 <= c && Epoch(c) <= Epoch(c0) + 1 && wait != PORT_MAX_DELAY
    ensures var v := CheckAt(c0, wait, c);
      && (v.expired <==> c >= c0 + wait)
      && (!v.expired ==> v.snapshot == SnapshotAt(c) && c + v.ticksToWait == c0 + wait && 0 < v.ticksToWait)
      && (v.expired ==> v.snapshot == SnapshotAt(c0) && v.ticksToWait == if c < c0 + 0x1_0000_0000 then 0 else wait)
  {
    ExpiryExact(c0, wait, c);
    ElapsedIsResidue(c0, c);
    if MissesExpiry(c0, wait, c) {
      MissTakesTwoWraps(c0, wait, c);
    }
  }

  /** The verdicts of successive calls at the given times, stopping at the first expiry. */
  function Checks(s: Snapshot, wait: Tick, times: seq<nat>): seq<Verdict>
    decreases |times|
  {
    if times == [] then []
    else
      var v := Check(s, wait, Wrap(times[0]), Overflows(times[0]));
      [v] + if v.expired then [] else Checks(v.snapshot, v.ticksToWait, times[1..])
  }

  /** Times that do not go back, with at most one wrap of the counter from each to the next. */
  predicate Paced(c0: nat, times: seq<nat>)
    decreases |times|
  {
    times == [] || (c0 <= times[0] && Epoch(times[0]) <= Epoch(c0) + 1 && Paced(times[0], times[1..]))
  }

  /**
    The first verdict of expiry is the first given at or after the deadline, and each one before
    it leaves exactly the time remaining.
   */
  ghost predicate KeepsDeadline(vs: seq<Verdict>, times: seq<nat>, deadline: nat) {
    && |vs| <= |times|
    && (forall i :: 0 <= i < |vs| ==> (vs[i].expired <==> times[i] >= deadline))
    && (forall i :: 0 <= i < |vs| && !vs[i].expired ==> times[i] + vs[i].ticksToWait == deadline)
    && (|vs| < |times| ==> |vs| > 0 && vs[|vs| - 1].expired)
  }

  lemma KeepsDeadlineStep(v: Verdict, rest: seq<Verdict>, times: seq<nat>, deadline: nat)
    requires times != [] && (v.expired <==> times[0] >= deadline) && (!v.expired ==> times[0] + v.ticksToWait == deadline)
    requires if v.expired then rest == [] else KeepsDeadline(rest, times[1..], deadline)
    ensures KeepsDeadline([v] + rest, times, deadline)
  {
    var vs := [v] + rest;
    if !v.expired {
      forall i | 0 <= i < |vs| ensures (vs[i].expired <==> times[i] >= deadline) && (!vs[i].expired ==> times[i] + vs[i].ticksToWait == deadline) {
        if i > 0 {
          assert vs[i] == rest[i - 1] && times[i] == times[1..][i - 1];
        }
      }
    }
  }

  /** Deadline conservation, over any paced sequence of calls. */
  lemma {:induction false} DeadlineConserved(c0: nat, wait: Tick, times: seq<nat>)
    requires wait != PORT_MAX_DELAY && Paced(c0, times)
    ensures KeepsDeadline(Checks(SnapshotAt(c0), wait, times), times, c0 + wait)
    decreases |times|
  {
    hide Check, Checks, SnapshotAt, Epoch, KeepsDeadline;
    if times == [] {
      NoChecks(c0, wait);
    } else {
      var v := CheckAt(c0, wait, times[0]);
      var rest := if v.expired then [] else Checks(v.snapshot, v.ticksToWait, times[1..]);
      DeadlineKept(c0, wait, times[0]);
      ChecksStep(c0, wait, times);
      if !v.expired {
        DeadlineConserved(times[0], v.ticksToWait, times[1..]);
      }
      KeepsDeadlineStep(v, rest, times, c0 + wait);
    }
  }

  lemma NoChecks(c0: nat, wait: Tick)
    ensures KeepsDeadline(Checks(SnapshotAt(c0), wait, []), [], c0 + wait)
  {
  }

  lemma ChecksStep(c0: nat, wait: Tick, times: seq<nat>)
    requires times != []
    ensures var v := CheckAt(c0, wait, times[0]);
      Checks(SnapshotAt(c0), wait, times) == [v] + if v.expired then [] else Checks(v.snapshot, v.ticksToWait, times[1..])
  {
  }

  /** A wait of portMAX_DELAY never expires, whatever the times of the calls, and nothing is used up. */
  lemma {:induction false} EndlessWaitNeverExpires(s: Snapshot, times: seq<nat>)
    ensures var vs := Checks(s, PORT_MAX_DELAY, times);
      |vs| == |times| && forall i :: 0 <= i < |vs| ==> vs[i] == Verdict(false, s, PORT_MAX_DELAY)
    decreases |times|
  {
    if times != [] {
      EndlessWaitNeverExpires(s, times[1..]);
    }
  }

  // ---- vTaskDelayUntil ----

  /** Whether it blocks, from the previous wake time, the time to wake and the tick count. */
  predicate ShouldDelay(previous: Tick, timeToWake: Tick, tick: Tick) {
    if tick < previous then timeToWake < previous && timeToWake > tick
    else timeToWake < previous || timeToWake > tick
  }

  class PeriodicTask {
    var previousWakeTime: Tick

    constructor (previous: Tick)
      ensures previousWakeTime == previous
    {
      previousWakeTime := previous;
    }

    /** The decision of vTaskDelayUntil, and the block time it passes on. */
    method DelayUntil(increment: Tick, tick: Tick) returns (delayed: bool, ticks: Tick)
      requires increment > 0
      modifies this
      ensures previousWakeTime == Plus(old(previousWakeTime), increment)
      ensures delayed == ShouldDelay(old(previousWakeTime), previousWakeTime, tick)
      ensures ticks == Elapsed(previousWakeTime, tick)
    {
      var timeToWake := Plus(previousWakeTime, increment);
      delayed := false;
      if tick < previousWakeTime {
        if timeToWake < previousWakeTime && timeToWake > tick {
          delayed := true;
        }
      } else {
        if timeToWake < previousWakeTime || timeToWake > tick {
          delayed := true;
        }
      }
      previousWakeTime := timeToWake;
      ticks := Elapsed(timeToWake, tick);
    }
  }

  /** What the wrapped comparison decides, for any time since the previous wake. */
  lemma DelayDecision(previous: nat, increment: Tick, c: nat)
    requires increment > 0 && previous <= c
    ensures ShouldDelay(Wrap(previous), Plus(Wrap(previous), increment), Wrap(c)) <==> Elapsed(Wrap(c), Wrap(previous)) < increment
  {
  }

  /** It blocks exactly when the wake time is in the future, unless a full turn has gone by unseen. */
  lemma DelayUntilExact(previous: nat, increment: Tick, c: nat)
    requires increment > 0 && previous <= c
    ensures (ShouldDelay(Wrap(previous), Plus(Wrap(previous), increment), Wrap(c)) <==> previous + increment > c)
            <==> (c < previous + 0x1_0000_0000 || Elapsed(Wrap(c), Wrap(previous)) >= increment)
  {
    DelayDecision(previous, increment, c);
    if c < previous + 0x1_0000_0000 {
      ElapsedExact(c, previous);
    }
  }

  /** A call a full turn late blocks for a wake time that has long passed. */
  lemma LateCallBlocks()
    ensures ShouldDelay(Wrap(0), Plus(Wrap(0), 10), Wrap(0x1_0000_0005)) && 0 + 10 < 0x1_0000_0005
  {
  }

  /** When it blocks, it is for exactly the time until the wake time. */
  lemma DelayUntilLength(previous: nat, increment: Tick, c: nat)
    requires increment > 0 && previous <= c < previous + increment
    ensures Elapsed(Plus(Wrap(previous), increment), Wrap(c)) == previous + increment - c > 0
  {
    PlusWraps(previous, increment);
    ElapsedExact(previous + increment, c);
  }

  /** The k-th wake time. */
  function WakeTime(start: nat, increment: Tick, k: nat): nat { start + k * increment }

  /** The variable *pxPreviousWakeTime after k calls. */
  function Previous(start: Tick, increment: Tick, k: nat): Tick {
    if k == 0 then start else Plus(Previous(start, increment, k - 1), increment)
  }

  lemma FirstWake(start: nat, increment: Tick)
    ensures WakeTime(start, increment, 0) == start
  {
  }

  lemma NextWake(start: nat, increment: Tick, k: nat)
    ensures WakeTime(start, increment, k + 1) == WakeTime(start, increment, k) + increment
  {
  }

  lemma {:induction false} PreviousExact(start: nat, increment: Tick, k: nat)
    ensures Previous(Wrap(start), increment, k) == Wrap(WakeTime(start, increment, k))
  {
    hide Wrap, Plus, WakeTime;
    if k == 0 {
      FirstWake(start, increment);
    } else {
      PreviousExact(start, increment, k - 1);
      NextWake(start, increment, k - 1);
      PlusWraps(WakeTime(start, increment, k - 1), increment);
    }
  }

  /**
    No drift: if call k + 1 is made at c, less than a full turn after wake time k, it blocks exactly
    when wake time k + 1 is still ahead, and then for exactly long enough to wake there.
   */
  lemma NoDrift(start: nat, increment: Tick, k: nat, c: nat)
    requires increment > 0 && WakeTime(start, increment, k) <= c < WakeTime(start, increment, k) + 0x1_0000_0000
    ensures var p, wake := Previous(Wrap(start), increment, k), Previous(Wrap(start), increment, k + 1);
      && (ShouldDelay(p, wake, Wrap(c)) <==> WakeTime(start, increment, k + 1) > c)
      && (ShouldDelay(p, wake, Wrap(c)) ==> c + Elapsed(wake, Wrap(c)) == WakeTime(start, increment, k + 1))
  {
    hide Wrap, Plus, Elapsed, WakeTime, ShouldDelay;
    var previous := WakeTime(start, increment, k);
    PreviousExact(start, increment, k);
    NextWake(start, increment, k);
    DelayUntilExact(previous, increment, c);
    if previous + increment > c {
      DelayUntilLength(previous, increment, c);
    }
  }

  // ---- The timer service task ----

  /** The block time of prvProcessTimerOrBlockTask; the head of an empty list counts as 0. */
  function DaemonWait(head: Tick, now: Tick): Tick { Elapsed(head, now) }

  /** It is zero only when the current timer list is empty and the tick count has just wrapped, or not yet moved. */
  lemma ZeroWaitOnlyAtTickZero(listEmpty: bool, head: Tick, now: Tick)
    requires if listEmpty then head == 0 else head > now
    ensures DaemonWait(head, now) == 0 <==> listEmpty && now == 0
  {
  }
}
