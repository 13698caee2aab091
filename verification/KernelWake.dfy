/**
  Exact timed wake: a task that blocks for n ticks and is not woken otherwise is delayed until
  tick T + n has been processed and is ready from then on, through any run.
 */
module KernelWake {
  import opened Options
  import opened Kernel
  import opened KernelLists
  import opened KernelTime
  import opened KernelRuns
  import opened KernelSteps
  import opened KernelTheorems
  import opened KernelResults
  import Ticks
  import Timeouts

  /** The action wakes, suspends or deletes t. */
  predicate Touches(k: State, a: Action, t: Task)
    requires Enabled(k, a)
  {
    match a
    case RemoveEvent(o) => k.ItemsOf(Event(o))[0].t == t
    case RemoveUnorderedEvent(u) => u == t
    case Suspend(u) => u == t
    case Delete(u) => u == t
    case _ => false
  }

  /** t sleeps until the given time and nobody has woken it. */
  ghost predicate SleepsUntil(k: State, t: Task, due: int) {
    IsDelayed(k, t) && k.DueOf(t) == due && k.EventList(t) != Some(PendingReady)
  }

  /** The step did not concern t, and no tick was processed. */
  ghost predicate Undisturbed(k: State, k': State, t: Task) {
    k'.StateList(t) == k.StateList(t) && k'.DueOf(t) == k.DueOf(t) && k'.clock == k.clock
    && (k'.EventList(t) == k.EventList(t) || k'.EventList(t) == None)
  }

  lemma UndisturbedSleeps(k: State, k': State, t: Task, due: int)
    requires SleepsUntil(k, t, due) && Undisturbed(k, k', t)
    ensures SleepsUntil(k', t, due)
  {
    hide State.StateList, State.EventList, State.DueOf;
  }

  // ---- Each kind of change ----

  lemma FlagsUndisturbed(k: State, k': State, t: Task)
    requires SameCore(k, k')
    ensures Undisturbed(k, k', t)
  {
    SameAccess(k, k');
  }

  lemma WokenUndisturbed(k: State, k1: State, k': State, u: Task, t: Task)
    requires Woken(k, k1, {u}) && u != t && SameCore(k1, k')
    ensures Undisturbed(k, k', t)
  {
    SameAccess(k1, k');
    WokenFields(k, k1, {u});
    hide State.StateList, State.EventList, State.DueOf, State.PriorityOf, State.ValueOf;
  }

  lemma WakesAnother(k: State, u: Task, k': State, t: Task)
    requires Inv(k) && IsAsleep(k, u) && u != t && SameCore(MakeReady(k, u), k')
    ensures Undisturbed(k, k', t)
  {
    hide Core, Lists, Rest, MakeReady, Woken, SameCore, Undisturbed, IsAsleep;
    InvSuspended(k);
    MakeReadyWoken(k, u);
    WokenUndisturbed(k, MakeReady(k, u), k', u, t);
  }

  lemma PendsAnother(k: State, k1: State, k': State, u: Task, t: Task)
    requires EventMoved(k, k1, u, PendingReady) && u != t && SameCore(k1, k')
    ensures Undisturbed(k, k', t)
  {
    SameAccess(k1, k');
    OnlyListsAccess(k, k1);
    hide State.StateList, State.EventList, State.DueOf, State.PriorityOf, State.ValueOf;
  }

  lemma LeftUndisturbed(k: State, k1: State, k': State, u: Task, l: Option<ListId>, t: Task)
    requires Left(k, k1, u, l) && u != t && k' == k1.(nextUnblock := k'.nextUnblock, switchRequested := k'.switchRequested)
    ensures Undisturbed(k, k', t)
  {
    LeftAccess(k, k1, u, l);
    assert k'.StateList(t) == k1.StateList(t) && k'.EventList(t) == k1.EventList(t) && k'.DueOf(t) == k1.DueOf(t);
    hide State.StateList, State.EventList, State.DueOf, State.PriorityOf, State.ValueOf;
  }

  lemma EventUndisturbed(k: State, o: Object, t: Task)
    requires Inv(k) && k.ItemsOf(Event(o)) != [] && k.ItemsOf(Event(o))[0].t != t
    ensures Undisturbed(k, RemoveFromEvent(k, o), t)
  {
    hide Core, Lists, Rest, MakeReady, Unlink, LinkEnd, Undisturbed, IsAsleep, State.PriorityOf, EventMoved, State.EventList;
    var u, k' := k.ItemsOf(Event(o))[0].t, RemoveFromEvent(k, o);
    InvSuspended(k);
    HeadWaits(k, o);
    if k.suspended == 0 {
      WakesAnother(k, u, k', t);
    } else {
      PendEvent(k, u);
      PendsAnother(k, LinkEnd(Unlink(k, EventItem(u)), PendingReady, EventItem(u)), k', u, t);
    }
  }

  lemma UnorderedUndisturbed(k: State, u: Task, t: Task)
    requires Inv(k) && k.EventList(u).Some? && u != t
    ensures Undisturbed(k, RemoveUnordered(k, u), t)
  {
    hide Inv, MakeReady, Undisturbed, IsAsleep, State.PriorityOf, State.EventList;
    WaiterSleeps(k, u);
    WakesAnother(k, u, RemoveUnordered(k, u), t);
  }

  /** Resuming does nothing to a task that is delayed. */
  lemma ResumeUndisturbed(k: State, u: Task, t: Task)
    requires Inv(k) && IsDelayed(k, t)
    ensures Undisturbed(k, ResumeTask(k, u), t) && Undisturbed(k, ResumeFromIsr(k, u), t)
  {
    hide Inv, Lists, Rest, Core, MakeReady, LinkEnd, State.PriorityOf, State.EventList, State.StateList, State.DueOf;
    if IsSuspended(k, u) {
      assert u != t && IsAsleep(k, u);
      if u != k.current {
        WakesAnother(k, u, ResumeTask(k, u), t);
      }
      if k.suspended == 0 {
        WakesAnother(k, u, ResumeFromIsr(k, u), t);
      } else {
        InvSuspended(k);
        EventToEnd(k, PendingReady, u);
        PendsAnother(k, LinkEnd(k, PendingReady, EventItem(u)), ResumeFromIsr(k, u), u, t);
      }
    }
  }

  lemma SuspendUndisturbed(k: State, u: Task, t: Task)
    requires Inv(k) && u != t
    ensures Undisturbed(k, SuspendTask(k, u), t)
  {
    hide Inv, Lists, Rest, Core, Park, Left, ResetNextUnblock, Undisturbed;
    var k1 := Park(k, u, Suspended);
    InvSuspended(k);
    ParkedLeft(k, u, Suspended);
    ResetAccess(k1);
    LeftUndisturbed(k, k1, SuspendTask(k, u), u, Some(Suspended), t);
  }

  lemma DeleteUndisturbed(k: State, u: Task, t: Task)
    requires Inv(k) && u != t && Live(k, u)
    ensures Undisturbed(k, DeleteTask(k, u), t)
  {
    hide Inv, Lists, Rest, Core, Park, Unlink, Left, ResetNextUnblock, Undisturbed, State.StateList, State.EventList;
    InvSuspended(k);
    if u == k.current {
      var k0 := Park(k, u, Termination);
      ParkedLeft(k, u, Termination);
      TerminatedLeft(k, k0, u);
      LeftUndisturbed(k, k0.(deletedWaiting := k.deletedWaiting + 1), DeleteTask(k, u), u, Some(Termination), t);
    } else {
      var k0 := Unlink(Unlink(k, EventItem(u)), StateItem(u));
      DetachView(k, u);
      ForgottenLeft(k, k0, u, 0);
      assert DeleteTask(k, u) == ResetNextUnblock(Forget(k, k0, u, 0));
      ResetAccess(Forget(k, k0, u, 0));
      LeftUndisturbed(k, Forget(k, k0, u, 0), DeleteTask(k, u), u, None, t);
    }
  }

  lemma CleanUpUndisturbed(k: State, t: Task)
    requires Inv(k) && k.ItemsOf(Termination) != [] && IsDelayed(k, t)
    ensures Undisturbed(k, CleanUpOne(k), t)
  {
    hide Inv, Lists, Rest, Core, Unlink, Left, Undisturbed, State.StateList, State.EventList;
    var u := k.ItemsOf(Termination)[0].t;
    var k0 := Unlink(k, StateItem(u));
    InvSuspended(k);
    HeadDead(k);
    StateOff(k, u);
    ForgottenLeft(k, k0, u, 1);
    LeftUndisturbed(k, Forget(k, k0, u, 1), CleanUpOne(k), u, None, t);
  }

  lemma CreateUndisturbed(k: State, u: Task, p: int, t: Task)
    requires Inv(k) && u !in k.tasks && 0 <= p < MAX_PRIORITIES && IsDelayed(k, t)
    ensures Undisturbed(k, CreateTask(k, u, p), t)
  {
    hide Inv, Core, AddToReady, State.StateList, State.EventList, State.DueOf, State.PriorityOf;
    var k1, k' := AddToReady(Enlisted(k, u, p), u), CreateTask(k, u, p);
    InvSuspended(k);
    CreateCore(k, u, p);
    assert SameCore(k1, k');
    SameAccess(k1, k');
    assert k1.DueOf(t) == k.DueOf(t) by { SameDue(k, k1); }
  }

  lemma SameDue(k: State, k': State)
    requires k'.due == k.due
    ensures forall t :: k'.DueOf(t) == k.DueOf(t)
  {
  }

  lemma PriorityUndisturbed(k: State, u: Task, requested: int, t: Task)
    requires Inv(k) && u in k.tasks && requested >= 0 && IsDelayed(k, t)
    ensures Undisturbed(k, SetPriority(k, u, requested), t)
  {
    hide Inv, Core, Lists, Rest, Relisted, State.StateList, State.EventList, State.DueOf, State.PriorityOf;
    var p := if requested >= MAX_PRIORITIES then MAX_PRIORITIES - 1 else requested;
    if p != k.PriorityOf(u) {
      var k1, k' := Relisted(k, u, p), SetPriority(k, u, requested);
      SetPriorityShape(k, u, requested, p);
      InvSuspended(k);
      PriorityPlaced(k, u);
      RelistView(k, u, p);
      assert SameCore(k1, k');
      SameAccess(k1, k');
      assert k1.DueOf(t) == k.DueOf(t) by { SameDue(k, k1); }
    }
  }

  lemma BlockUndisturbed(k: State, ticks: int, forever: bool, event: Option<Object>, at: int, t: Task)
    requires Inv(k) && IsReady(k, k.current) && IsDelayed(k, t)
    requires 0 <= ticks < 0x1_0000_0000 && (ticks == 0 ==> k.tick != 0xFFFF_FFFF)
    requires event.Some? ==> 0 <= at <= |k.ItemsOf(Event(event.value))|
    ensures Undisturbed(k, DelayCurrent(Hooked(k, event, at), ticks, forever), t)
  {
    hide Inv, Lists, SleepsRight, DelayCurrent, Hooked, State.EventList, State.StateList, State.DueOf, State.ValueOf, State.PriorityOf;
    var k0 := Hooked(k, event, at);
    ReadyWaitsForNothing(k, k.current);
    HookView(k, event, at);
    var l := DelayView(k0, ticks, forever);
    OnlyListsSleep(k, k0);
  }

  lemma SwitchUndisturbed(k: State, t: Task)
    requires Inv(k)
    ensures Undisturbed(k, SwitchContext(k), t)
  {
    if k.suspended != 0 {
      FlagsUndisturbed(k, SwitchContext(k), t);
    } else {
      hide SwitchContext, Core, RunOk, State.StateList, State.EventList, State.DueOf, State.PriorityOf, State.ValueOf;
      SwitchView(k);
      SwitchedAccess(k, SwitchContext(k));
    }
  }

  // ---- Ticks ----

  /** What a step leaves of t's sleep: it goes on, or it is over exactly because its time came. */
  ghost predicate WakesOnTime(k: State, k': State, t: Task, due: int) {
    if k'.clock < due then SleepsUntil(k', t, due) else k'.StateList(t) == Some(Ready(k.PriorityOf(t)))
  }

  lemma TickOnTime(k: State, t: Task, due: int)
    requires Inv(k) && SleepsUntil(k, t, due)
    ensures WakesOnTime(k, TickInterrupt(k), t, due)
  {
    InvSuspended(k);
    DelayedNotOverdue(k, t);
    var k' := TickInterrupt(k);
    if k.suspended != 0 {
      FlagsUndisturbed(k, k', t);
      hide Core, Inv;
    } else {
      hide Core, Inv, ProcessTick, TickInterrupt, State.StateList, State.EventList, State.PriorityOf, State.DueOf, SameCore;
      TickInterruptFields(k);
      TickExact(k);
      TickFrame(k);
      SamePriorities(k, ProcessTick(k));
      SameAccess(ProcessTick(k), k');
      SameCoreTasks(ProcessTick(k), k');
    }
  }

  lemma ResumeOnTime(k: State, thenYield: bool, t: Task, due: int)
    requires Inv(k) && SleepsUntil(k, t, due) && k.suspended > 0
    ensures WakesOnTime(k, ResumeAll(k, thenYield), t, due)
  {
    InvSuspended(k);
    DelayedNotOverdue(k, t);
    var k' := ResumeAll(k, thenYield);
    if k.suspended != 1 {
      hide Core, Inv, DrainPending, ReplayTicks;
      FlagsUndisturbed(k, k', t);
    } else {
      hide Core, ResumeAll, State.StateList, State.EventList, State.PriorityOf, State.DueOf, Calm, ReadyGrows, Highest, IsReady;
      OutermostResume(k, thenYield);
      SameDue(k, k');
    }
  }

  lemma StepUndisturbed(k: State, a: Action, t: Task, due: int)
    requires Inv(k) && Enabled(k, a) && !a.TickIsr? && !a.ResumeScheduler? && SleepsUntil(k, t, due) && !Touches(k, a, t)
    ensures Undisturbed(k, Apply(k, a), t)
  {
    hide Inv, Undisturbed;
    match a
    case Block(ticks, forever, event, at) => BlockUndisturbed(k, ticks, forever, event, at, t);
    case RemoveEvent(o) => EventUndisturbed(k, o, t);
    case RemoveUnorderedEvent(u) => UnorderedUndisturbed(k, u, t);
    case Resume(u) => ResumeUndisturbed(k, u, t);
    case Suspend(u) => SuspendUndisturbed(k, u, t);
    case Delete(u) => DeleteUndisturbed(k, u, t);
    case CleanUp => CleanUpUndisturbed(k, t);
    case Create(u, p) => CreateUndisturbed(k, u, p, t);
    case ChangePriority(u, p) => PriorityUndisturbed(k, u, p, t);
    case ResumeIsr(u) => ResumeUndisturbed(k, u, t);
    case Switch => SwitchUndisturbed(k, t);
    case SuspendScheduler => FlagsUndisturbed(k, Apply(k, a), t);
    case Yield => FlagsUndisturbed(k, Apply(k, a), t);
  }

  /** No step other than a tick ends the sleep, and a tick ends it exactly when it is due. */
  lemma StepOnTime(k: State, a: Action, t: Task, due: int)
    requires Inv(k) && Enabled(k, a) && SleepsUntil(k, t, due) && !Touches(k, a, t)
    ensures WakesOnTime(k, Apply(k, a), t, due)
  {
    if a.TickIsr? {
      TickOnTime(k, t, due);
    } else if a.ResumeScheduler? {
      ResumeOnTime(k, a.thenYield, t, due);
    } else {
      DueAhead(k, t, due);
      StepUndisturbed(k, a, t, due);
      hide Inv, Apply, Enabled, Touches;
      UndisturbedSleeps(k, Apply(k, a), t, due);
    }
  }

  lemma DueAhead(k: State, t: Task, due: int)
    requires Inv(k) && SleepsUntil(k, t, due)
    ensures k.clock < due
  {
    InvSuspended(k);
    DelayedNotOverdue(k, t);
  }

  // ---- Runs ----

  /** A run in which t is touched by nothing until time due. */
  ghost predicate RunsBefore(k: State, run: seq<Action>, k': State, t: Task, due: int)
    decreases |run|
  {
    if run == [] then k == k'
    else
      && Enabled(k, run[0]) && !Touches(k, run[0], t) && Apply(k, run[0]).clock < due
      && RunsBefore(Apply(k, run[0]), run[1..], k', t, due)
  }

  lemma {:induction false} StillAsleep(k: State, run: seq<Action>, k': State, t: Task, due: int)
    requires Inv(k) && SleepsUntil(k, t, due) && RunsBefore(k, run, k', t, due)
    ensures Inv(k') && SleepsUntil(k', t, due)
    decreases |run|
  {
    hide Inv, Enabled, Apply, Touches, SleepsUntil;
    if run != [] {
      StepKeeps(k, run[0]);
      StepOnTime(k, run[0], t, due);
      StillAsleep(Apply(k, run[0]), run[1..], k', t, due);
    }
  }

  /** What blocking for n ticks records. */
  lemma BlockSleeps(k: State, n: int, forever: bool, event: Option<Object>, at: int)
    requires Inv(k) && IsReady(k, k.current) && 0 < n < 0x1_0000_0000 && !(n == 0xFFFF_FFFF && forever)
    requires event.Some? ==> 0 <= at <= |k.ItemsOf(Event(event.value))|
    ensures SleepsUntil(DelayCurrent(Hooked(k, event, at), n, forever), k.current, k.clock + n)
  {
    hide Inv, Lists, DelayCurrent, Hooked, State.EventList, State.StateList, State.DueOf, State.ValueOf, State.PriorityOf, TimedTask;
    ReadyWaitsForNothing(k, k.current);
    HookView(k, event, at);
    var l := DelayView(Hooked(k, event, at), n, forever);
  }

  /**
    A task that blocks at time T for n ticks, in a reachable state, and is not touched: in every
    state before tick T + n is processed it is delayed, and the step that processes it readies it.
   */
  lemma ExactTimedWake(k: State, n: int, forever: bool, event: Option<Object>, at: int, run: seq<Action>, k2: State, a: Action)
    requires Reachable(k) && Enabled(k, Block(n, forever, event, at)) && n > 0 && !(n == 0xFFFF_FFFF && forever)
    requires RunsBefore(Apply(k, Block(n, forever, event, at)), run, k2, k.current, k.clock + n)
    requires Enabled(k2, a) && !Touches(k2, a, k.current)
    ensures IsDelayed(k2, k.current)
    ensures var k3 := Apply(k2, a);
      if k3.clock < k.clock + n then IsDelayed(k3, k.current) else k3.StateList(k.current) == Some(Ready(k2.PriorityOf(k.current)))
  {
    hide Inv, Apply, Enabled, Reachable, Touches, RunsBefore, SleepsUntil;
    var block, t, due := Block(n, forever, event, at), k.current, k.clock + n;
    ReachableInv(k);
    BlockStepSleeps(k, n, forever, event, at);
    StepKeeps(k, block);
    StillAsleep(Apply(k, block), run, k2, t, due);
    StepOnTime(k2, a, t, due);
    SleeperDelayed(k2, t, due);
    OnTimeMeans(k2, Apply(k2, a), t, due);
  }

  lemma BlockStepSleeps(k: State, n: int, forever: bool, event: Option<Object>, at: int)
    requires Inv(k) && Enabled(k, Block(n, forever, event, at)) && n > 0 && !(n == 0xFFFF_FFFF && forever)
    ensures SleepsUntil(Apply(k, Block(n, forever, event, at)), k.current, k.clock + n)
  {
    hide Inv, SleepsUntil, DelayCurrent;
    BlockSleeps(k, n, forever, event, at);
  }

  lemma SleeperDelayed(k: State, t: Task, due: int)
    requires SleepsUntil(k, t, due)
    ensures IsDelayed(k, t)
  {
  }

  lemma OnTimeMeans(k: State, k': State, t: Task, due: int)
    requires WakesOnTime(k, k', t, due)
    ensures if k'.clock < due then IsDelayed(k', t) else k'.StateList(t) == Some(Ready(k.PriorityOf(t)))
  {
  }

  /** The tick count is the low half of the clock. */
  lemma TickIsWrapped(k: State)
    requires TickOk(k) && k.clock >= 0
    ensures k.tick == Ticks.Wrap(k.clock)
  {
  }

  /**
    vTaskDelayUntil and the delayed lists together: a call that finds P + I still ahead puts the
    task to sleep until exactly P + I, whichever list that takes.
   */
  lemma PeriodicWake(k: State, previous: nat, increment: Ticks.Tick, n: int)
    requires Reachable(k) && Enabled(k, Block(n, false, None, 0))
    requires previous <= k.clock < previous + increment
    requires 0 <= k.tick < 0x1_0000_0000 && n == Ticks.Elapsed(Ticks.Plus(Ticks.Wrap(previous), increment), k.tick)
    ensures Timeouts.ShouldDelay(Ticks.Wrap(previous), Ticks.Plus(Ticks.Wrap(previous), increment), k.tick)
    ensures SleepsUntil(Apply(k, Block(n, false, None, 0)), k.current, previous + increment)
  {
    hide Enabled, Apply, SleepsUntil, Reachable, Core;
    ReachableInv(k);
    InvSuspended(k);
    CoreTick(k);
    TickIsWrapped(k);
    Timeouts.DelayUntilExact(previous, increment, k.clock);
    Timeouts.DelayUntilLength(previous, increment, k.clock);
    BlockStepSleeps(k, n, false, None, 0);
  }
}
