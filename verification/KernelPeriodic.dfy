/**
  A task that calls vTaskDelayUntil again and again, over a whole run of the kernel: if every call
  is made less than a full turn after the wake time before it, the k-th wake is at P0 + k * I.
 */
module KernelPeriodic {
  import opened Options
  import opened Ticks
  import opened Kernel
  import opened KernelLists
  import opened KernelTime
  import opened KernelRuns
  import opened KernelSteps
  import opened KernelTheorems
  import opened KernelResults
  import opened KernelWake
  import Rings
  import Timeouts

  // ---- The clock does not go back ----

  lemma ListsKeepClock(k: State, l: ListId, at: int, x: Item)
    ensures Unlink(k, x).clock == k.clock && LinkEnd(k, l, x).clock == k.clock && LinkAt(k, l, at, x).clock == k.clock
  {
    hide Rings.Valid, Rings.Remove, Rings.InsertEnd, Rings.InsertBefore;
  }

  lemma MovesKeepClock(k: State, t: Task, l: ListId)
    ensures MakeReady(k, t).clock == k.clock && Park(k, t, l).clock == k.clock && AddToReady(k, t).clock == k.clock
  {
    hide Unlink, LinkEnd;
    var k1 := Unlink(k, EventItem(t));
    var k2 := Unlink(k1, StateItem(t));
    var p, p2 := k.PriorityOf(t), k2.PriorityOf(t);
    ListsKeepClock(k, l, 0, EventItem(t));
    ListsKeepClock(k1, l, 0, StateItem(t));
    ListsKeepClock(k2, l, 0, StateItem(t));
    ListsKeepClock(k2.(topReady := if p2 > k2.topReady then p2 else k2.topReady), Ready(p2), 0, StateItem(t));
    ListsKeepClock(k.(topReady := if p > k.topReady then p else k.topReady), Ready(p), 0, StateItem(t));
  }

  lemma DelayKeepsClock(k: State, ticks: int, forever: bool)
    ensures DelayCurrent(k, ticks, forever).clock == k.clock
  {
    hide Unlink, LinkEnd, LinkAt, Place, State.RingOf;
    var t := k.current;
    var k1 := Unlink(k, StateItem(t));
    ListsKeepClock(k, Suspended, 0, StateItem(t));
    ListsKeepClock(k1, Suspended, 0, StateItem(t));
    if !(ticks == 0xFFFF_FFFF && forever) {
      hide DelayCurrent;
      DelayShape(k, ticks, forever);
      var k2 := Stamped(k, t, WakeValue(k, ticks), WakeTime(k, ticks));
      var l := Delayed(WakeList(k, ticks));
      ListsKeepClock(k2, l, Place(k2, k2.ItemsOf(l), WakeValue(k, ticks)), StateItem(t));
    }
  }

  lemma WakesKeepClock(k: State, t: Task)
    ensures RemoveUnordered(k, t).clock == k.clock && ResumeTask(k, t).clock == k.clock
  {
    hide Unlink, LinkEnd, MakeReady, IsSuspended, State.PriorityOf;
    MovesKeepClock(k, t, Suspended);
  }

  lemma IsrKeepsClock(k: State, t: Task)
    ensures ResumeFromIsr(k, t).clock == k.clock
  {
    hide Unlink, LinkEnd, MakeReady, IsSuspended, State.PriorityOf;
    MovesKeepClock(k, t, Suspended);
    ListsKeepClock(k, PendingReady, 0, EventItem(t));
  }

  lemma EventKeepsClock(k: State, o: Object)
    requires k.ItemsOf(Event(o)) != []
    ensures RemoveFromEvent(k, o).clock == k.clock
  {
    hide Unlink, LinkEnd, MakeReady, State.PriorityOf, State.RingOf;
    var u := k.ItemsOf(Event(o))[0].t;
    MovesKeepClock(k, u, Suspended);
    ListsKeepClock(k, PendingReady, 0, EventItem(u));
    ListsKeepClock(Unlink(k, EventItem(u)), PendingReady, 0, EventItem(u));
  }

  lemma TasksKeepClock(k: State, t: Task, p: int)
    ensures SuspendTask(k, t).clock == k.clock && DeleteTask(k, t).clock == k.clock && CreateTask(k, t, p).clock == k.clock
    ensures k.ItemsOf(Termination) != [] ==> CleanUpOne(k).clock == k.clock
  {
    hide Unlink, LinkEnd, Park, AddToReady, State.PriorityOf, State.RingOf;
    MovesKeepClock(k, t, Suspended);
    MovesKeepClock(k, t, Termination);
    MovesKeepClock(Enlisted(k, t, p), t, Suspended);
    ListsKeepClock(k, Suspended, 0, EventItem(t));
    ListsKeepClock(Unlink(k, EventItem(t)), Suspended, 0, StateItem(t));
    if k.ItemsOf(Termination) != [] {
      ListsKeepClock(k, Suspended, 0, StateItem(k.ItemsOf(Termination)[0].t));
    }
  }

  lemma PriorityKeepsClock(k: State, t: Task, p: int)
    ensures SetPriority(k, t, p).clock == k.clock
  {
    hide Unlink, AddToReady, State.PriorityOf, State.StateList;
    var q := if p >= MAX_PRIORITIES then MAX_PRIORITIES - 1 else p;
    var k1 := k.(priorities := k.priorities[t := q]);
    ListsKeepClock(k1, Suspended, 0, StateItem(t));
    MovesKeepClock(Unlink(k1, StateItem(t)), t, Suspended);
  }

  lemma TickMovesClock(k: State)
    requires Inv(k)
    ensures TickInterrupt(k).clock >= k.clock
  {
    hide Core, ProcessTick, TickSwitches, NonePending, RunOk;
    TickCore(k);
  }

  lemma ResumeMovesClock(k: State, thenYield: bool)
    requires Inv(k) && k.suspended > 0
    ensures ResumeAll(k, thenYield).clock >= k.clock
  {
    if k.suspended == 1 {
      hide Core, ResumeAll, RunOk, NonePending;
      OutermostFields(k, thenYield);
    } else {
      hide Core, DrainPending, ReplayTicks, RunOk, NonePending;
    }
  }

  lemma ClockGrows(k: State, a: Action)
    requires Inv(k) && Enabled(k, a)
    ensures Apply(k, a).clock >= k.clock
  {
    hide Inv, TickInterrupt, ResumeAll, MakeReady, DelayCurrent, RemoveFromEvent, RemoveUnordered, ResumeTask, ResumeFromIsr;
    hide SuspendTask, DeleteTask, CreateTask, CleanUpOne, SetPriority, LinkAt, Rings.Valid, Rings.Next, Rings.Picked, ScanDown;
    match a
    case ResumeScheduler(thenYield) => ResumeMovesClock(k, thenYield);
    case TickIsr => TickMovesClock(k);
    case Block(ticks, forever, event, at) =>
      var k0 := if event.Some? then LinkAt(k, Event(event.value), at, EventItem(k.current)) else k;
      DelayKeepsClock(k0, ticks, forever);
      if event.Some? {
        ListsKeepClock(k, Event(event.value), at, EventItem(k.current));
      }
    case RemoveEvent(o) => EventKeepsClock(k, o);
    case RemoveUnorderedEvent(t) => WakesKeepClock(k, t);
    case Resume(t) => WakesKeepClock(k, t);
    case ResumeIsr(t) => IsrKeepsClock(k, t);
    case Suspend(t) => TasksKeepClock(k, t, 0);
    case Delete(t) => TasksKeepClock(k, t, 0);
    case CleanUp => TasksKeepClock(k, IDLE, 0);
    case Create(t, p) => TasksKeepClock(k, t, p);
    case ChangePriority(t, p) => PriorityKeepsClock(k, t, p);
    case _ =>
  }

  lemma {:induction false} RunGrows(k: State, run: seq<Action>, k': State)
    requires Inv(k) && Runs(k, run, k')
    ensures Inv(k') && k'.clock >= k.clock
    decreases |run|
  {
    hide Inv, Enabled, Apply;
    if run != [] {
      StepKeeps(k, run[0]);
      ClockGrows(k, run[0]);
      RunGrows(Apply(k, run[0]), run[1..], k');
    }
  }

  // ---- Cycles ----

  /**
    One period of the task: a run up to its next call, the state of the call, whether it blocks,
    and if so the run while it sleeps, the state in which it still does, and the step that ends it.
   */
  datatype Cycle = Cycle(lead: seq<Action>, call: State, blocks: bool, run: seq<Action>, asleep: State, wake: Action)

  function TickOf(k: State): Tick { if 0 <= k.tick < 0x1_0000_0000 then k.tick else 0 }

  /** The block that vTaskDelayUntil passes on, from the wake time it has just stored. */
  function Nap(k: State, timeToWake: Tick): Action { Block(Elapsed(timeToWake, TickOf(k)), false, None, 0) }

  /** The step that processes the tick at which the sleep is over. */
  ghost predicate EndsSleep(c: Cycle, t: Task, timeToWake: Tick) {
    && Enabled(c.call, Nap(c.call, timeToWake))
    && RunsBefore(Apply(c.call, Nap(c.call, timeToWake)), c.run, c.asleep, t, c.call.clock + Elapsed(timeToWake, TickOf(c.call)))
    && Enabled(c.asleep, c.wake) && !Touches(c.asleep, c.wake, t)
    && Apply(c.asleep, c.wake).clock >= c.call.clock + Elapsed(timeToWake, TickOf(c.call))
  }

  /** Where a cycle leaves the kernel. */
  function End(c: Cycle): State {
    if c.blocks && Enabled(c.asleep, c.wake) then Apply(c.asleep, c.wake) else c.call
  }

  /**
    A run of the kernel in which t makes the calls, `previous` being its variable *pxPreviousWakeTime.
    `wake` is the time that it stands for; each call is made less than a full turn after it.
   */
  ghost predicate Cycles(from: State, t: Task, previous: Tick, wake: nat, increment: Tick, cycles: seq<Cycle>)
    decreases |cycles|
  {
    cycles == [] ||
      var c, next := cycles[0], Plus(previous, increment);
      && Runs(from, c.lead, c.call) && c.call.current == t && c.call.clock < wake + 0x1_0000_0000
      && c.blocks == Timeouts.ShouldDelay(previous, next, TickOf(c.call))
      && (c.blocks ==> EndsSleep(c, t, next))
      && Cycles(End(c), t, next, wake + increment, increment, cycles[1..])
  }

  /** The call blocks exactly when the wake time is ahead, and then the task is asleep until it and ready at it. */
  ghost predicate OnBeat(c: Cycle, t: Task, wake: int) {
    && (c.blocks <==> wake > c.call.clock)
    && (c.blocks ==>
          && SleepsUntil(c.asleep, t, wake) && c.asleep.clock < wake
          && Enabled(c.asleep, c.wake) && Apply(c.asleep, c.wake).clock >= wake
          && Apply(c.asleep, c.wake).StateList(t) == Some(Ready(c.asleep.PriorityOf(t))))
  }

  lemma CallTime(k: State, previous: Tick, wake: nat, increment: Tick)
    requires Inv(k) && increment > 0 && previous == Wrap(wake) && wake <= k.clock < wake + 0x1_0000_0000
    ensures var next := Plus(previous, increment);
      && next == Wrap(wake + increment)
      && (Timeouts.ShouldDelay(previous, next, TickOf(k)) <==> wake + increment > k.clock)
      && (wake + increment > k.clock ==> k.clock + Elapsed(next, TickOf(k)) == wake + increment)
  {
    hide Core;
    InvSuspended(k);
    CoreTick(k);
    TickIsWrapped(k);
    PlusWraps(wake, increment);
    Timeouts.DelayUntilExact(wake, increment, k.clock);
    if wake + increment > k.clock {
      Timeouts.DelayUntilLength(wake, increment, k.clock);
    }
  }

  /** One sleeping cycle. */
  lemma CycleOnBeat(c: Cycle, t: Task, timeToWake: Tick, wake: int)
    requires Inv(c.call) && c.call.current == t && c.blocks && wake > c.call.clock && EndsSleep(c, t, timeToWake)
    requires c.call.clock + Elapsed(timeToWake, TickOf(c.call)) == wake
    ensures OnBeat(c, t, wake) && Inv(End(c)) && End(c).clock >= wake
  {
    hide Inv, Enabled, Apply, Touches, RunsBefore, SleepsUntil, State.StateList;
    var nap := Nap(c.call, timeToWake);
    StepKeeps(c.call, nap);
    BlockStepSleeps(c.call, nap.ticks, false, None, 0);
    StillAsleep(Apply(c.call, nap), c.run, c.asleep, t, wake);
    DueAhead(c.asleep, t, wake);
    StepOnTime(c.asleep, c.wake, t, wake);
    StepKeeps(c.asleep, c.wake);
    OnTimeMeans(c.asleep, Apply(c.asleep, c.wake), t, wake);
  }

  lemma CycleEnds(from: State, c: Cycle, t: Task, previous: Tick, wake: nat, increment: Tick, rest: seq<Cycle>)
    requires Inv(from) && increment > 0 && previous == Wrap(wake) && wake <= from.clock
    requires Cycles(from, t, previous, wake, increment, [c] + rest)
    ensures OnBeat(c, t, wake + increment) && Inv(End(c)) && End(c).clock >= wake + increment
    ensures Plus(previous, increment) == Wrap(wake + increment)
    ensures Cycles(End(c), t, Plus(previous, increment), wake + increment, increment, rest)
  {
    hide Inv, Runs, EndsSleep, OnBeat, Timeouts.ShouldDelay;
    CyclesUnfold(from, c, t, previous, wake, increment, rest);
    hide Cycles;
    RunGrows(from, c.lead, c.call);
    CallTime(c.call, previous, wake, increment);
    if c.blocks {
      CycleOnBeat(c, t, Plus(previous, increment), wake + increment);
    } else {
      NoSleep(c, t, wake + increment);
    }
  }

  lemma NoSleep(c: Cycle, t: Task, wake: int)
    requires !c.blocks && wake <= c.call.clock
    ensures OnBeat(c, t, wake) && End(c) == c.call
  {
  }

  lemma CyclesUnfold(from: State, c: Cycle, t: Task, previous: Tick, wake: nat, increment: Tick, rest: seq<Cycle>)
    requires Cycles(from, t, previous, wake, increment, [c] + rest)
    ensures Runs(from, c.lead, c.call) && c.call.current == t && c.call.clock < wake + 0x1_0000_0000
    ensures c.blocks == Timeouts.ShouldDelay(previous, Plus(previous, increment), TickOf(c.call))
    ensures c.blocks ==> EndsSleep(c, t, Plus(previous, increment))
    ensures Cycles(End(c), t, Plus(previous, increment), wake + increment, increment, rest)
  {
    hide Runs, EndsSleep, Timeouts.ShouldDelay;
    assert ([c] + rest)[1..] == rest;
  }

  /** No drift: cycle i of any such run wakes at start + (i + 1) * increment, or finds that time past and does not sleep. */
  lemma {:induction false} WakesEveryPeriod(from: State, t: Task, start: nat, increment: Tick, cycles: seq<Cycle>, i: int)
    requires Inv(from) && increment > 0 && start <= from.clock && Cycles(from, t, Wrap(start), start, increment, cycles)
    requires 0 <= i < |cycles|
    ensures OnBeat(cycles[i], t, start + (i + 1) * increment)
    decreases |cycles|
  {
    hide Inv, Cycles, OnBeat, End;
    assert cycles == [cycles[0]] + cycles[1..];
    CycleEnds(from, cycles[0], t, Wrap(start), start, increment, cycles[1..]);
    if i > 0 {
      WakesEveryPeriod(End(cycles[0]), t, start + increment, increment, cycles[1..], i - 1);
      assert start + increment + i * increment == start + (i + 1) * increment;
    }
  }

  /** The same from any reachable state. */
  lemma PeriodicRun(from: State, t: Task, start: nat, increment: Tick, cycles: seq<Cycle>, i: int)
    requires Reachable(from) && increment > 0 && start <= from.clock && Cycles(from, t, Wrap(start), start, increment, cycles)
    requires 0 <= i < |cycles|
    ensures OnBeat(cycles[i], t, start + (i + 1) * increment)
  {
    hide Inv, Cycles, OnBeat, Reachable;
    ReachableInv(from);
    WakesEveryPeriod(from, t, start, increment, cycles, i);
  }
}
