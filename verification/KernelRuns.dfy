/**
  Every step of the scheduler keeps its invariants, so they hold in every state that any run
  reaches: the census of tasks, tick conservation, wake times and preemption.
 */
module KernelRuns {
  import opened Options
  import opened Kernel
  import opened KernelLists
  import opened KernelTime

  ghost predicate NonePending(k: State) {
    forall t :: k.EventList(t) != Some(PendingReady)
  }

  /** Nothing is pending once the scheduler is resumed. */
  ghost predicate Drained(k: State) {
    k.suspended == 0 ==> NonePending(k)
  }

  /** Processed and pended ticks add up to the tick interrupts. */
  predicate Conserved(k: State) {
    k.pended >= 0 && k.suspended >= 0 && k.clock + k.pended == k.interrupts && (k.suspended == 0 ==> k.pended == 0)
  }

  /** No ready task outranks the running task. */
  ghost predicate Highest(k: State) {
    forall t :: IsReady(k, t) ==> k.StateList(t).value.priority <= k.PriorityOf(k.current)
  }

  ghost predicate RunOk(k: State) {
    && IsReady(k, IDLE) && k.current in k.tasks
    && (!k.switchRequested && k.suspended == 0 ==> IsReady(k, k.current))
    && (!k.switchRequested && !k.yieldPending ==> Highest(k))
  }

  ghost predicate Inv(k: State) {
    Core(k) && Drained(k) && Conserved(k) && RunOk(k)
  }

  // ---- Ticks ----

  /** Apart from time and lists, k' is k. */
  ghost predicate SameTasks(k: State, k': State) {
    && k'.current == k.current && k'.priorities == k.priorities && k'.tasks == k.tasks && k'.due == k.due
    && k'.suspended == k.suspended && k'.pended == k.pended && k'.interrupts == k.interrupts
    && k'.switchRequested == k.switchRequested
  }

  lemma SamePriorities(k: State, k': State)
    requires SameTasks(k, k')
    ensures forall t :: k'.PriorityOf(t) == k.PriorityOf(t) && k'.DueOf(t) == k.DueOf(t)
  {
  }

  lemma TickFrame(k: State)
    requires Core(k)
    ensures SameTasks(k, ProcessTick(k)) && ProcessTick(k).yieldPending == k.yieldPending
  {
    hide Core, ProcessTick, State.StateList, State.EventList, DueNext, State.PriorityOf;
    TickExact(k);
  }

  lemma TickCore(k: State)
    requires Core(k)
    ensures Core(ProcessTick(k)) && ProcessTick(k).clock == k.clock + 1
  {
    hide Core, ProcessTick, State.StateList, State.EventList, DueNext, State.PriorityOf;
    TickExact(k);
  }

  /** A tick that asks for no switch readied nobody at or above the running task. */
  lemma QuietTick(k: State, t: Task)
    requires Core(k) && !TickSwitches(k) && DueNext(k, t)
    ensures k.PriorityOf(t) < k.PriorityOf(k.current)
  {
    var k1 := Advance(k);
    AdvanceKeeps(k);
    AdvanceFields(k);
    hide Advance, ProcessTick, Core, DueNext, Advanced, State.PriorityOf;
    UnblockedIsDueNext(k, t);
    var items := Unblocked(k1);
    assert t in Owners(items);
    var i :| 0 <= i < |items| && items[i].t == t;
  }

  lemma TickHighest(k: State)
    requires Core(k) && !TickSwitches(k) && Highest(k)
    ensures Highest(ProcessTick(k))
  {
    var k' := ProcessTick(k);
    hide Core, ProcessTick, TickSwitches, State.StateList, State.EventList, DueNext, State.PriorityOf;
    TickExact(k);
    TickFrame(k);
    SamePriorities(k, k');
    forall t | IsReady(k', t) ensures k'.StateList(t).value.priority <= k'.PriorityOf(k'.current) {
      if DueNext(k, t) {
        QuietTick(k, t);
      }
    }
  }

  /** Ready tasks stay ready, and nothing becomes pending. */
  lemma TickReady(k: State)
    requires Core(k)
    ensures forall t :: IsReady(k, t) ==> IsReady(ProcessTick(k), t)
    ensures forall t :: ProcessTick(k).EventList(t) == Some(PendingReady) ==> k.EventList(t) == Some(PendingReady)
    ensures forall t :: IsAsleep(ProcessTick(k), t) ==> IsAsleep(k, t) && !DueNext(k, t)
  {
    hide Core, ProcessTick, State.StateList, State.EventList, State.PriorityOf, State.DueOf;
    TickExact(k);
  }

  lemma PendTickKeeps(k: State)
    requires Inv(k) && k.suspended != 0
    ensures Inv(TickInterrupt(k))
  {
    var k' := TickInterrupt(k);
    hide Core, Highest, IsReady, State.EventList;
    assert SameCore(k, k');
    hide SameCore;
    SameKeeps(k, k');
    SameRun(k, k');
  }

  /** From the state after the tick to the state after its interrupt. */
  lemma TickInterruptFields(k: State)
    requires k.suspended == 0
    ensures var k1, k' := ProcessTick(k), TickInterrupt(k);
      && SameCore(k1, k') && k'.current == k1.current && k'.yieldPending == k1.yieldPending && k'.suspended == k1.suspended
      && k'.pended == k1.pended && k'.interrupts == k.interrupts + 1
      && k'.switchRequested == (k.switchRequested || TickSwitches(k))
  {
    hide ProcessTick, TickSwitches;
  }

  lemma TickRunOk(k: State)
    requires Core(k) && RunOk(k) && k.suspended == 0
    ensures RunOk(TickInterrupt(k))
  {
    var k1, k' := ProcessTick(k), TickInterrupt(k);
    hide Core, ProcessTick, TickInterrupt, TickSwitches, Highest, IsReady, State.EventList, SameCore;
    TickInterruptFields(k);
    TickFrame(k);
    TickReady(k);
    SameRun(k1, k');
    assert k'.tasks == k1.tasks by { SameCoreTasks(k1, k'); }
    if !k'.switchRequested && !k'.yieldPending {
      TickHighest(k);
    }
  }

  lemma TickPending(k: State)
    requires Core(k) && NonePending(k) && k.suspended == 0
    ensures NonePending(TickInterrupt(k))
  {
    hide Core, ProcessTick, TickInterrupt, TickSwitches, State.EventList, SameCore, IsReady, IsAsleep, DueNext, Highest;
    TickInterruptFields(k);
    TickReady(k);
    SameRun(ProcessTick(k), TickInterrupt(k));
  }

  lemma SameCoreTasks(k: State, k': State)
    requires SameCore(k, k')
    ensures k'.tasks == k.tasks && k'.clock == k.clock && k'.priorities == k.priorities && k'.due == k.due
  {
  }

  lemma TickInterruptKeeps(k: State)
    requires Inv(k)
    ensures Inv(TickInterrupt(k))
  {
    if k.suspended != 0 {
      PendTickKeeps(k);
    } else {
      var k1, k' := ProcessTick(k), TickInterrupt(k);
      hide Core, ProcessTick, TickInterrupt, TickSwitches, RunOk, SameCore, NonePending;
      TickInterruptFields(k);
      TickRunOk(k);
      TickCore(k);
      TickFrame(k);
      TickPending(k);
      SameKeeps(k1, k');
      SameCoreTasks(k1, k');
    }
  }

  /** What preemption looks at, when neither lists nor priorities change. */
  lemma SameRun(k: State, k': State)
    requires SameCore(k, k')
    ensures forall t :: IsReady(k', t) == IsReady(k, t) && k'.EventList(t) == k.EventList(t)
    ensures k'.current == k.current ==> Highest(k') == Highest(k)
  {
    SameAccess(k, k');
    hide State.StateList, State.EventList, State.PriorityOf;
  }

  // ---- Resuming the scheduler ----

  lemma PendingAsleep(k: State)
    requires Lists(k) && Placed(k) && Waits(k)
    ensures forall t :: t in Owners(k.ItemsOf(PendingReady)) <==> k.EventList(t) == Some(PendingReady)
    ensures forall t :: t in Owners(k.ItemsOf(PendingReady)) ==> IsAsleep(k, t)
  {
    var items := k.ItemsOf(PendingReady);
    forall t ensures t in Owners(items) <==> k.EventList(t) == Some(PendingReady) {
      OwnersMember(items, t);
      if k.EventList(t) == Some(PendingReady) {
        assert EventItem(t) in items && EventItem(t).t == t;
      }
      if x :| x in items && x.t == t {
        OnPending(k, x);
      }
    }
  }

  lemma OnPending(k: State, x: Item)
    requires Lists(k) && Placed(k) && x in k.ItemsOf(PendingReady)
    ensures x == EventItem(x.t) && k.EventList(x.t) == Some(PendingReady)
  {
    assert x.StateItem? ==> k.StateList(x.t) == Some(PendingReady);
  }

  lemma WokenFrame(k: State, k': State, ts: set<Task>)
    requires Woken(k, k', ts)
    ensures SameTasks(k, k') && k'.clock == k.clock && k'.yieldPending == k.yieldPending
  {
  }

  /** Ready tasks stay ready; below the running task, newly readied ones make no difference. */
  lemma WokenReady(k: State, k': State, ts: set<Task>)
    requires Woken(k, k', ts)
    ensures forall t :: IsReady(k, t) || t in ts ==> IsReady(k', t)
    ensures Highest(k) && (forall t :: t in ts ==> k.PriorityOf(t) <= k.PriorityOf(k.current)) ==> Highest(k')
  {
    WokenFields(k, k', ts);
    hide State.StateList, State.EventList, State.PriorityOf;
  }

  lemma NoneAtLeast(k: State, items: seq<Item>, t: Task)
    requires !AnyAtLeast(k, items) && t in Owners(items)
    ensures k.PriorityOf(t) < k.PriorityOf(k.current)
  {
    var i :| 0 <= i < |items| && items[i].t == t;
  }

  lemma DrainCore(k: State)
    requires Core(k)
    ensures Woken(k, WakeAll(k, k.ItemsOf(PendingReady)), Owners(k.ItemsOf(PendingReady)))
    ensures Core(WakeAll(k, k.ItemsOf(PendingReady))) && NonePending(WakeAll(k, k.ItemsOf(PendingReady)))
  {
    var items := k.ItemsOf(PendingReady);
    var k1 := WakeAll(k, items);
    PendingAsleep(k);
    hide Lists, Rest, Timed, NextOk, WakeAll, Owners, State.StateList, State.EventList, State.PriorityOf, IsAsleep;
    WakeAllWoken(k, items);
    WokenKeeps(k, k1, Owners(items));
  }

  /** The state list of each task once every pending task has been moved. */
  ghost predicate DrainedView(k: State, k': State) {
    forall u :: k'.StateList(u) == if k.EventList(u) == Some(PendingReady) then Some(Ready(k.PriorityOf(u))) else k.StateList(u)
  }

  ghost predicate ReadyGrows(k: State, k': State) {
    forall t :: IsReady(k, t) ==> IsReady(k', t)
  }

  /** A higher task may only have been readied with xYieldPending set. */
  ghost predicate Calm(k: State, k': State) {
    (k.yieldPending ==> k'.yieldPending) && (!k'.yieldPending && Highest(k) ==> Highest(k'))
  }

  lemma DrainKeeps(k: State)
    requires Core(k)
    ensures var k' := DrainPending(k);
      && Core(k') && NonePending(k') && SameTasks(k, k') && k'.clock == k.clock
      && Calm(k, k') && ReadyGrows(k, k') && DrainedView(k, k')
  {
    var items := k.ItemsOf(PendingReady);
    CoreParts(k);
    PendingAsleep(k);
    if items == [] {
      hide Core, Owners, State.StateList, State.EventList, State.PriorityOf, IsReady, Highest;
      NoneOwned(k);
    } else {
      hide Core, WakeAll, Owners, State.StateList, State.EventList, State.PriorityOf, IsReady, Highest, ResetNextUnblock, NonePending, AnyAtLeast, Woken, SameTasks, DrainedView, IsAsleep;
      DrainCore(k);
      DrainFinish(k, WakeAll(k, items), items);
    }
  }

  lemma CoreParts(k: State)
    requires Core(k)
    ensures Lists(k) && Placed(k) && Waits(k)
  {
  }

  lemma NoneOwned(k: State)
    requires k.ItemsOf(PendingReady) == []
    requires forall t :: t in Owners(k.ItemsOf(PendingReady)) <==> k.EventList(t) == Some(PendingReady)
    ensures NonePending(k) && DrainedView(k, k)
  {
  }

  /** ResetNextUnblock and the yield flag, after the moves. */
  function Finished(k: State, k1: State, items: seq<Item>): State {
    ResetNextUnblock(k1).(yieldPending := k.yieldPending || AnyAtLeast(k, items))
  }

  lemma DrainFinish(k: State, k1: State, items: seq<Item>)
    requires Core(k1) && NonePending(k1) && Woken(k, k1, Owners(items))
    requires forall t :: t in Owners(items) <==> k.EventList(t) == Some(PendingReady)
    ensures var k' := Finished(k, k1, items);
      && Core(k') && NonePending(k') && SameTasks(k, k') && k'.clock == k.clock
      && Calm(k, k') && ReadyGrows(k, k') && DrainedView(k, k')
  {
    hide Core, Owners, Highest, AnyAtLeast, Woken, Finished, NonePending, IsReady, State.StateList, State.EventList, State.PriorityOf;
    FinishedCore(k, k1, items);
    FinishedFields(k, k1, items);
    WokenFrame(k, k1, Owners(items));
    WokenReady(k, k1, Owners(items));
    FinishedCalm(k, k1, items);
    WokenStates(k, k1, Owners(items));
  }

  lemma WokenStates(k: State, k1: State, ts: set<Task>)
    requires Woken(k, k1, ts)
    ensures forall u :: k1.StateList(u) == if u in ts then Some(Ready(k.PriorityOf(u))) else k.StateList(u)
  {
    hide State.StateList, State.PriorityOf;
  }

  lemma FinishedFields(k: State, k1: State, items: seq<Item>)
    ensures var k' := Finished(k, k1, items);
      && SameTasks(k1, k') && k'.clock == k1.clock && k'.yieldPending == (k.yieldPending || AnyAtLeast(k, items))
      && (forall t :: k'.StateList(t) == k1.StateList(t) && IsReady(k', t) == IsReady(k1, t))
  {
    hide AnyAtLeast;
  }

  lemma FinishedCore(k: State, k1: State, items: seq<Item>)
    requires Core(k1) && NonePending(k1)
    ensures Core(Finished(k, k1, items)) && NonePending(Finished(k, k1, items))
  {
    var k2 := ResetNextUnblock(k1);
    hide Core, State.StateList, State.EventList, ResetNextUnblock, AnyAtLeast;
    ResetAccess(k1);
    ResetKeeps(k1);
    SameKeeps(k2, Finished(k, k1, items));
    SameAccess(k2, Finished(k, k1, items));
  }

  lemma FinishedCalm(k: State, k1: State, items: seq<Item>)
    requires Woken(k, k1, Owners(items))
    ensures Calm(k, Finished(k, k1, items))
  {
    var k' := Finished(k, k1, items);
    FinishedFields(k, k1, items);
    assert Highest(k1) ==> Highest(k') by {
      SamePriorities(k1, k');
    }
    hide State.StateList, State.EventList, State.PriorityOf, Owners, Finished, AnyAtLeast, Woken, Highest;
    WokenReady(k, k1, Owners(items));
    if !AnyAtLeast(k, items) {
      forall t | t in Owners(items) ensures k.PriorityOf(t) < k.PriorityOf(k.current) {
        NoneAtLeast(k, items, t);
      }
    }
  }

  lemma SameStates(k: State, k': State)
    requires SameCore(k, k')
    ensures forall t :: k'.StateList(t) == k.StateList(t)
  {
  }

  /** One replayed tick. */
  function Replayed(k: State): State {
    ProcessTick(k).(yieldPending := k.yieldPending || TickSwitches(k))
  }

  /** Every task due within n ticks is ready, and nobody else moved. */
  ghost predicate ReplayView(k: State, k': State, n: int) {
    forall u :: k'.StateList(u) == if IsDelayed(k, u) && k.DueOf(u) <= k.clock + n then Some(Ready(k.PriorityOf(u))) else k.StateList(u)
  }

  lemma ReplayedFields(k: State)
    requires Core(k)
    ensures var k1, k' := ProcessTick(k), Replayed(k);
      && SameCore(k1, k') && k'.current == k1.current && SameTasks(k, k') && k'.clock == k.clock + 1
      && k'.yieldPending == (k.yieldPending || TickSwitches(k))
  {
    hide ProcessTick, TickSwitches, Core;
    TickFrame(k);
    TickCore(k);
  }

  lemma ReplayedKeeps(k: State)
    requires Core(k) && NonePending(k)
    ensures var k' := Replayed(k);
      Core(k') && NonePending(k') && Calm(k, k') && ReadyGrows(k, k')
  {
    var k1, k' := ProcessTick(k), Replayed(k);
    hide ProcessTick, TickSwitches, Core, SameCore, Replayed, IsReady, IsAsleep, Highest, State.EventList, DueNext;
    ReplayedFields(k);
    TickCore(k);
    TickReady(k);
    SameKeeps(k1, k');
    SameRun(k1, k');
    if !TickSwitches(k) && Highest(k) {
      TickHighest(k);
    }
  }

  lemma ReplayedView(k: State)
    requires Core(k)
    ensures forall u :: Replayed(k).StateList(u) == if DueNext(k, u) then Some(Ready(k.PriorityOf(u))) else k.StateList(u)
  {
    hide ProcessTick, TickSwitches, Core, SameCore, Replayed, DueNext, State.StateList, State.EventList, State.PriorityOf;
    ReplayedFields(k);
    TickExact(k);
    SameStates(ProcessTick(k), Replayed(k));
  }

  lemma DelayedNotOverdue(k: State, t: Task)
    requires Core(k) && IsDelayed(k, t)
    ensures k.DueOf(t) > k.clock
  {
    assert TimedTask(k, t, 0);
  }

  lemma ReplayJoins(k: State, k': State, n: nat)
    requires Core(k) && ReplayView(Replayed(k), k', n)
    ensures ReplayView(k, k', n + 1)
  {
    var k1 := Replayed(k);
    hide Replayed, State.StateList, State.PriorityOf, State.DueOf, Core;
    ReplayedView(k);
    ReplayedFields(k);
    SamePriorities(k, k1);
    forall u ensures k'.StateList(u) == if IsDelayed(k, u) && k.DueOf(u) <= k.clock + (n + 1) then Some(Ready(k.PriorityOf(u))) else k.StateList(u) {
      if IsDelayed(k, u) {
        DelayedNotOverdue(k, u);
      }
    }
  }

  lemma ReplayNone(k: State)
    requires Core(k)
    ensures ReplayView(k, k, 0)
  {
    hide Core, State.StateList, State.PriorityOf, State.DueOf;
    forall u ensures !(IsDelayed(k, u) && k.DueOf(u) <= k.clock) {
      if IsDelayed(k, u) {
        DelayedNotOverdue(k, u);
      }
    }
  }

  lemma {:induction false} ReplayKeeps(k: State, n: nat)
    requires Core(k) && NonePending(k)
    ensures var k' := ReplayTicks(k, n);
      && Core(k') && NonePending(k') && Calm(k, k') && ReadyGrows(k, k')
      && SameTasks(k, k') && k'.clock == k.clock + n && ReplayView(k, k', n)
    decreases n
  {
    hide Replayed, Core, NonePending, IsReady, Highest, ReplayView;
    if n == 0 {
      ReplayNone(k);
    } else {
      var k1 := Replayed(k);
      ReplayStep(k, n);
      ReplayedKeeps(k);
      ReplayedFields(k);
      ReplayKeeps(k1, n - 1);
      ReplayJoins(k, ReplayTicks(k, n), n - 1);
    }
  }

  lemma ReplayStep(k: State, n: nat)
    requires n > 0
    ensures ReplayTicks(k, n) == ReplayTicks(Replayed(k), n - 1)
  {
  }

  /** Pending tasks and tasks whose time has come are ready; nobody else moved. */
  ghost predicate ResumedView(k: State, k': State) {
    forall u :: k'.StateList(u) ==
      if k.EventList(u) == Some(PendingReady) || (IsDelayed(k, u) && k.DueOf(u) <= k'.clock)
      then Some(Ready(k.PriorityOf(u))) else k.StateList(u)
  }

  /** The stages of an outermost xTaskResumeAll. */
  function Stage1(k: State): State { k.(suspended := k.suspended - 1) }
  function Stage2(k: State): State { DrainPending(Stage1(k)) }
  function Stage3(k: State): State
    requires k.pended >= 0
  {
    ReplayTicks(Stage2(k), k.pended)
  }

  lemma ResumeStages(k: State, thenYield: bool)
    requires k.suspended == 1 && k.pended >= 0
    ensures var k1, k3, k' := Stage1(k), Stage3(k), ResumeAll(k, thenYield);
      && SameCore(k, k1) && k1.current == k.current && k1.yieldPending == k.yieldPending && k1.suspended == 0
      && k1.interrupts == k.interrupts && k1.switchRequested == k.switchRequested
      && SameCore(k3, k') && k'.current == k3.current && k'.yieldPending == k3.yieldPending && k'.suspended == k3.suspended
      && k'.interrupts == k3.interrupts && k'.pended == 0
      && k'.switchRequested == (k3.switchRequested || k3.yieldPending || thenYield)
  {
    hide DrainPending, ReplayTicks;
  }

  /** After the outermost xTaskResumeAll no tick is pended, no task is pending, and none is overdue. */
  lemma OutermostResume(k: State, thenYield: bool)
    requires Core(k) && Conserved(k) && k.suspended == 1
    ensures var k' := ResumeAll(k, thenYield);
      && Core(k') && NonePending(k') && Calm(k, k') && ReadyGrows(k, k') && ResumedView(k, k')
      && k'.pended == 0 && k'.suspended == 0 && k'.clock == k.clock + k.pended && k'.interrupts == k.interrupts
      && k'.switchRequested == (k.switchRequested || k'.yieldPending || thenYield)
      && k'.current == k.current && k'.tasks == k.tasks && k'.priorities == k.priorities && k'.due == k.due
  {
    hide Core, ResumeAll, NonePending, Calm, ReadyGrows, ResumedView;
    StagesKeep(k);
    OutermostFields(k, thenYield);
    OutermostView(k, thenYield);
  }

  lemma StagesKeep(k: State)
    requires Core(k) && Conserved(k) && k.suspended == 1
    ensures var k1, k2, k3 := Stage1(k), Stage2(k), Stage3(k);
      && Core(k3) && NonePending(k3) && SameTasks(k1, k2) && SameTasks(k2, k3)
      && Calm(k1, k2) && ReadyGrows(k1, k2) && DrainedView(k1, k2) && k2.clock == k1.clock
      && Calm(k2, k3) && ReadyGrows(k2, k3) && ReplayView(k2, k3, k.pended) && k3.clock == k2.clock + k.pended
  {
    hide Core, ReplayTicks, DrainPending, NonePending, Calm, ReadyGrows, ReplayView, DrainedView, SameTasks;
    SameKeeps(k, Stage1(k));
    DrainKeeps(Stage1(k));
    ReplayKeeps(Stage2(k), k.pended);
  }

  lemma OutermostFields(k: State, thenYield: bool)
    requires Core(k) && Conserved(k) && k.suspended == 1
    ensures var k' := ResumeAll(k, thenYield);
      && k'.pended == 0 && k'.suspended == 0 && k'.clock == k.clock + k.pended && k'.interrupts == k.interrupts
      && k'.switchRequested == (k.switchRequested || k'.yieldPending || thenYield)
      && k'.current == k.current && k'.tasks == k.tasks && k'.priorities == k.priorities && k'.due == k.due
  {
    hide Core, Stage2, Stage3, ReplayTicks, DrainPending, ResumeAll, NonePending, Calm, ReadyGrows, ReplayView, DrainedView;
    StagesKeep(k);
    ResumeStages(k, thenYield);
  }

  lemma OutermostView(k: State, thenYield: bool)
    requires Core(k) && Conserved(k) && k.suspended == 1
    ensures var k' := ResumeAll(k, thenYield);
      Core(k') && NonePending(k') && Calm(k, k') && ReadyGrows(k, k') && ResumedView(k, k')
  {
    hide Core, Stage1, Stage2, Stage3, ReplayTicks, DrainPending, ResumeAll, NonePending, Calm, ReadyGrows, ReplayView, DrainedView, ResumedView, SameTasks, SameCore;
    StagesKeep(k);
    ResumeStages(k, thenYield);
    SameKeeps(Stage3(k), ResumeAll(k, thenYield));
    ResumeChain(k, Stage1(k), Stage2(k), Stage3(k), ResumeAll(k, thenYield));
  }

  /** The stages, joined. */
  lemma ResumeChain(k: State, k1: State, k2: State, k3: State, k': State)
    requires SameCore(k, k1) && k1.current == k.current && k1.yieldPending == k.yieldPending
    requires DrainedView(k1, k2) && Calm(k1, k2) && ReadyGrows(k1, k2) && SameTasks(k1, k2) && k2.clock == k1.clock
    requires ReplayView(k2, k3, k3.clock - k2.clock) && Calm(k2, k3) && ReadyGrows(k2, k3) && NonePending(k3)
    requires SameCore(k3, k') && k'.current == k3.current && k'.yieldPending == k3.yieldPending
    ensures Calm(k, k') && ReadyGrows(k, k') && NonePending(k') && ResumedView(k, k')
  {
    SameRun(k, k1);
    SameRun(k3, k');
    SameAccess(k, k1);
    SameAccess(k3, k');
    SamePriorities(k1, k2);
    SameCoreTasks(k, k1);
    SameCoreTasks(k3, k');
    hide SameCore, SameTasks, Highest, State.StateList, State.EventList, State.PriorityOf, State.DueOf, State.ValueOf;
  }
}
