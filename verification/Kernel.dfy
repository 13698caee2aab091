/**
  The scheduler of tasks.c with generic task selection, preemption, time slicing and
  vTaskSuspend, without mutexes. Every task has two list items; a list item is on at most one
  list, and remembers which. Lists are the rings of list.c.

  Besides the kernel's variables the state holds the hardware's pending context switch
  (switchRequested) and four specification values that no branch reads: the unbounded clock,
  the number of tick interrupts, the time at which each delayed task is due, and the set of tasks.
 */
module Kernel {
  import opened Options
  import Rings

  type Task = int
  type Object = int

  const MAX_PRIORITIES: int := 15
  const IDLE: Task := 0

  datatype Item = StateItem(t: Task) | EventItem(t: Task)

  /** Delayed(false) and Delayed(true) are xDelayedTaskList1 and xDelayedTaskList2. */
  datatype ListId =
    | Ready(priority: int)
    | Delayed(second: bool)
    | Suspended
    | Termination
    | PendingReady
    | Event(on: Object)

  datatype State = State(
    lists: map<ListId, Rings.Ring<Item>>, containers: map<Item, ListId>, values: map<Item, int>,
    priorities: map<Task, int>, current: Task,
    tick: int, overflows: int, nextUnblock: int, second: bool,
    topReady: int, suspended: int, pended: int, yieldPending: bool,
    numTasks: int, deletedWaiting: int,
    switchRequested: bool,
    clock: int, interrupts: int, due: map<Task, int>, tasks: set<Task>)
  {
    function RingOf(l: ListId): Rings.Ring<Item> { if l in lists then lists[l] else Rings.Ring([], 0) }
    function ItemsOf(l: ListId): seq<Item> { RingOf(l).items }
    function ContainerOf(x: Item): Option<ListId> { if x in containers then Some(containers[x]) else None }
    function StateList(t: Task): Option<ListId> { ContainerOf(StateItem(t)) }
    function EventList(t: Task): Option<ListId> { ContainerOf(EventItem(t)) }
    function ValueOf(x: Item): int { if x in values then values[x] else 0 }
    function PriorityOf(t: Task): int { if t in priorities then priorities[t] else 0 }
    function DueOf(t: Task): int { if t in due then due[t] else 0 }
  }

  // ---- List operations ----

  /** uxListRemove, on an item that may be on no list. */
  function Unlink(k: State, x: Item): State {
    match k.ContainerOf(x)
    case None => k
    case Some(l) =>
      var r := k.RingOf(l);
      k.(lists := k.lists[l := if Rings.Valid(r) then Rings.Remove(r, x) else r], containers := k.containers - {x})
  }

  /** vListInsertEnd */
  function LinkEnd(k: State, l: ListId, x: Item): State {
    var r := k.RingOf(l);
    k.(lists := k.lists[l := if Rings.Valid(r) && x !in r.items then Rings.InsertEnd(r, x) else r],
       containers := k.containers[x := l])
  }

  /** vListInsert at the position its search found. */
  function LinkAt(k: State, l: ListId, at: int, x: Item): State {
    var r := k.RingOf(l);
    k.(lists := k.lists[l := if Rings.Valid(r) && x !in r.items && 0 <= at <= |r.items| then Rings.InsertBefore(r, at, x) else r],
       containers := k.containers[x := l])
  }

  /** The search of vListInsert: past every item whose value is not larger. */
  function Place(k: State, items: seq<Item>, v: int): (at: int)
    ensures 0 <= at <= |items|
  {
    if items == [] || k.ValueOf(items[0]) > v then 0 else 1 + Place(k, items[1..], v)
  }

  // ---- Moving tasks ----

  /** prvAddTaskToReadyList */
  function AddToReady(k: State, t: Task): State {
    var p := k.PriorityOf(t);
    LinkEnd(k.(topReady := if p > k.topReady then p else k.topReady), Ready(p), StateItem(t))
  }

  /** Off its lists and onto its ready list. */
  function MakeReady(k: State, t: Task): State {
    AddToReady(Unlink(Unlink(k, EventItem(t)), StateItem(t)), t)
  }

  /** Off its lists and onto the end of l. */
  function Park(k: State, t: Task, l: ListId): State {
    LinkEnd(Unlink(Unlink(k, EventItem(t)), StateItem(t)), l, StateItem(t))
  }

  /** One task after another is made ready. */
  function WakeAll(k: State, items: seq<Item>): State
    decreases |items|
  {
    if items == [] then k else WakeAll(MakeReady(k, items[0].t), items[1..])
  }

  predicate AnyAtLeast(k: State, items: seq<Item>) {
    exists i :: 0 <= i < |items| && k.PriorityOf(items[i].t) >= k.PriorityOf(k.current)
  }

  // ---- Time ----

  /** prvResetNextTaskUnblockTime */
  function ResetNextUnblock(k: State): State {
    var items := k.ItemsOf(Delayed(k.second));
    k.(nextUnblock := if items == [] then 0xFFFF_FFFF else k.ValueOf(items[0]))
  }

  /** The incremented tick, with the delayed lists switched if it wrapped. */
  function Advance(k: State): State {
    var k1 := k.(tick := if k.tick == 0xFFFF_FFFF then 0 else k.tick + 1, clock := k.clock + 1);
    if k1.tick == 0 then ResetNextUnblock(k1.(second := !k.second, overflows := k.overflows + 1)) else k1
  }

  /** The items at the head of the delayed list whose time has come. */
  function Expired(k: State, items: seq<Item>): seq<Item> {
    if items == [] || k.tick < k.ValueOf(items[0]) then [] else [items[0]] + Expired(k, items[1..])
  }

  /** What xTaskIncrementTick unblocks, given the advanced tick. */
  function Unblocked(k: State): seq<Item> {
    if k.tick >= k.nextUnblock then Expired(k, k.ItemsOf(Delayed(k.second))) else []
  }

  function Unblock(k: State): State {
    if k.tick >= k.nextUnblock then ResetNextUnblock(WakeAll(k, Unblocked(k))) else k
  }

  /** xTaskIncrementTick with the scheduler not suspended. */
  function ProcessTick(k: State): State { Unblock(Advance(k)) }

  /** Its return value. */
  predicate TickSwitches(k: State) {
    var k1 := Advance(k);
    AnyAtLeast(k1, Unblocked(k1)) || |ProcessTick(k).ItemsOf(Ready(k.PriorityOf(k.current)))| > 1 || k.yieldPending
  }

  /** The tick interrupt; the handler pends a switch when xTaskIncrementTick asks for one. */
  function TickInterrupt(k: State): State {
    if k.suspended == 0 then
      ProcessTick(k).(interrupts := k.interrupts + 1, switchRequested := k.switchRequested || TickSwitches(k))
    else
      k.(pended := k.pended + 1, interrupts := k.interrupts + 1, switchRequested := k.switchRequested || k.yieldPending)
  }

  /** prvAddCurrentTaskToDelayedList, after its event item was placed if it waits for an event. */
  function DelayCurrent(k: State, ticks: int, forever: bool): State {
    var t := k.current;
    var k1 := Unlink(k, StateItem(t));
    if ticks == 0xFFFF_FFFF && forever then LinkEnd(k1, Suspended, StateItem(t))
    else
      var wrapped := k.tick + ticks >= 0x1_0000_0000;
      var wake := if wrapped then k.tick + ticks - 0x1_0000_0000 else k.tick + ticks;
      var k2 := k1.(values := k1.values[StateItem(t) := wake],
                    due := k1.due[t := k.clock + if ticks == 0 then 1 else ticks]);
      var l := Delayed(if wrapped then !k.second else k.second);
      var k3 := LinkAt(k2, l, Place(k2, k2.ItemsOf(l), wake), StateItem(t));
      if !wrapped && wake < k.nextUnblock then k3.(nextUnblock := wake) else k3
  }

  // ---- Suspending and resuming the scheduler ----

  /** Moves the tasks readied while the scheduler was suspended. */
  function DrainPending(k: State): State {
    var items := k.ItemsOf(PendingReady);
    if items == [] then k
    else ResetNextUnblock(WakeAll(k, items)).(yieldPending := k.yieldPending || AnyAtLeast(k, items))
  }

  function ReplayTicks(k: State, n: nat): State
    decreases n
  {
    if n == 0 then k
    else ReplayTicks(ProcessTick(k).(yieldPending := k.yieldPending || TickSwitches(k)), n - 1)
  }

  /** xTaskResumeAll, then the caller's own yield unless it yielded already. */
  function ResumeAll(k: State, thenYield: bool): State {
    var k1 := k.(suspended := k.suspended - 1);
    if k1.suspended != 0 then k1.(switchRequested := k.switchRequested || thenYield)
    else
      var k2 := DrainPending(k1);
      var k3 := ReplayTicks(k2, if k.pended > 0 then k.pended else 0).(pended := 0);
      k3.(switchRequested := k3.switchRequested || k3.yieldPending || thenYield)
  }

  // ---- Events ----

  /** xTaskRemoveFromEventList, from a task or an interrupt. */
  function RemoveFromEvent(k: State, o: Object): State
    requires k.ItemsOf(Event(o)) != []
  {
    var t := k.ItemsOf(Event(o))[0].t;
    var k1 := if k.suspended == 0 then MakeReady(k, t) else LinkEnd(Unlink(k, EventItem(t)), PendingReady, EventItem(t));
    if k.PriorityOf(t) > k.PriorityOf(k.current) then k1.(yieldPending := true) else k1
  }

  /** vTaskRemoveFromUnorderedEventList */
  function RemoveUnordered(k: State, t: Task): State {
    var k1 := MakeReady(k, t);
    if k.PriorityOf(t) > k.PriorityOf(k.current) then k1.(yieldPending := true) else k1
  }

  // ---- Tasks ----

  function YieldIf(k: State, c: bool): State { k.(switchRequested := k.switchRequested || c) }

  /** prvTaskIsTaskSuspended */
  predicate IsSuspended(k: State, t: Task) {
    k.StateList(t) == Some(Suspended) && k.EventList(t) == None
  }

  function ResumeTask(k: State, t: Task): State {
    if t != k.current && IsSuspended(k, t) then YieldIf(MakeReady(k, t), k.PriorityOf(t) >= k.PriorityOf(k.current)) else k
  }

  function ResumeFromIsr(k: State, t: Task): State {
    if !IsSuspended(k, t) then k
    else if k.suspended == 0 then YieldIf(MakeReady(k, t), k.PriorityOf(t) >= k.PriorityOf(k.current))
    else LinkEnd(k, PendingReady, EventItem(t))
  }

  function SuspendTask(k: State, t: Task): State {
    YieldIf(ResetNextUnblock(Park(k, t, Suspended)), t == k.current)
  }

  function DeleteTask(k: State, t: Task): State {
    if t == k.current then YieldIf(Park(k, t, Termination).(deletedWaiting := k.deletedWaiting + 1), true)
    else
      ResetNextUnblock(Unlink(Unlink(k, EventItem(t)), StateItem(t)).(numTasks := k.numTasks - 1, tasks := k.tasks - {t}))
  }

  /** One turn of the loop in prvCheckTasksWaitingTermination. */
  function CleanUpOne(k: State): State
    requires k.ItemsOf(Termination) != []
  {
    var t := k.ItemsOf(Termination)[0].t;
    Unlink(k, StateItem(t)).(numTasks := k.numTasks - 1, deletedWaiting := k.deletedWaiting - 1, tasks := k.tasks - {t})
  }

  /** prvAddNewTaskToReadyList with the scheduler running. */
  function CreateTask(k: State, t: Task, p: int): State {
    var k1 := AddToReady(k.(numTasks := k.numTasks + 1, tasks := k.tasks + {t}, priorities := k.priorities[t := p]), t);
    YieldIf(k1, k.PriorityOf(k.current) < p)
  }

  /** vTaskPrioritySet when no priority is inherited. */
  function SetPriority(k: State, t: Task, requested: int): State {
    var p := if requested >= MAX_PRIORITIES then MAX_PRIORITIES - 1 else requested;
    var was := k.PriorityOf(t);
    if p == was then k
    else
      var yielding := if p > was then t != k.current && p >= k.PriorityOf(k.current) else t == k.current;
      var k1 := k.(priorities := k.priorities[t := p]);
      var k2 := if k.StateList(t) == Some(Ready(was)) then AddToReady(Unlink(k1, StateItem(t)), t) else k1;
      YieldIf(k2, yielding)
  }

  // ---- Selection ----

  /** The downward scan of taskSELECT_HIGHEST_PRIORITY_TASK. */
  function ScanDown(k: State, p: int): int
    decreases p
  {
    if p <= 0 || k.ItemsOf(Ready(p)) != [] then p else ScanDown(k, p - 1)
  }

  /** vTaskSwitchContext */
  function SwitchContext(k: State): State {
    if k.suspended != 0 then k.(yieldPending := true, switchRequested := false)
    else
      var p := ScanDown(k, k.topReady);
      var r := k.RingOf(Ready(p));
      if Rings.Valid(r) && r.items != [] then
        k.(yieldPending := false, switchRequested := false, topReady := p,
           lists := k.lists[Ready(p) := Rings.Next(r)], current := Rings.Picked(r).t)
      else k
  }

  // ---- Steps ----

  datatype Action =
    | SuspendScheduler
    | ResumeScheduler(thenYield: bool)
    | Block(ticks: int, forever: bool, event: Option<Object>, at: int)
    | RemoveEvent(o: Object)
    | RemoveUnorderedEvent(t: Task)
    | Resume(t: Task)
    | Suspend(t: Task)
    | Delete(t: Task)
    | CleanUp
    | Create(t: Task, p: int)
    | ChangePriority(t: Task, p: int)
    | Yield
    | TickIsr
    | ResumeIsr(t: Task)
    | Switch

  /** The task is known and has not been deleted. */
  predicate Live(k: State, t: Task) { t in k.tasks && k.StateList(t) != Some(Termination) }

  predicate IsReady(k: State, t: Task) { k.StateList(t).Some? && k.StateList(t).value.Ready? }

  /**
    Calls are made by the running task, so not while a switch is pending. A task that put itself
    to sleep yields on resuming the scheduler; the idle task never sleeps and is never removed;
    nothing suspends or deletes the running task while the scheduler is suspended. No wait of
    length zero is made at the last tick before the wrap.
   */
  predicate Enabled(k: State, a: Action) {
    match a
    case SuspendScheduler => !k.switchRequested
    case ResumeScheduler(thenYield) => !k.switchRequested && k.suspended > 0 && (IsReady(k, k.current) || thenYield)
    case Block(ticks, forever, event, at) =>
      && !k.switchRequested && k.suspended == 1 && k.current != IDLE && IsReady(k, k.current)
      && 0 <= ticks < 0x1_0000_0000 && (ticks == 0 ==> k.tick != 0xFFFF_FFFF)
      && (event.Some? ==> 0 <= at <= |k.ItemsOf(Event(event.value))|)
    case RemoveEvent(o) => k.ItemsOf(Event(o)) != []
    case RemoveUnorderedEvent(t) =>
      !k.switchRequested && k.suspended > 0 && k.EventList(t).Some? && k.EventList(t).value.Event?
    case Resume(t) => !k.switchRequested
    case Suspend(t) => !k.switchRequested && t != IDLE && Live(k, t) && (t == k.current ==> k.suspended == 0)
    case Delete(t) => !k.switchRequested && t != IDLE && Live(k, t) && (t == k.current ==> k.suspended == 0)
    case CleanUp => !k.switchRequested && k.current == IDLE && k.deletedWaiting > 0 && k.ItemsOf(Termination) != []
    case Create(t, p) => !k.switchRequested && t !in k.tasks && 0 <= p < MAX_PRIORITIES
    case ChangePriority(t, p) => !k.switchRequested && Live(k, t) && p >= 0
    case Yield => !k.switchRequested
    case TickIsr => true
    case ResumeIsr(t) => true
    case Switch => k.switchRequested
  }

  function Apply(k: State, a: Action): State
    requires Enabled(k, a)
  {
    match a
    case SuspendScheduler => k.(suspended := k.suspended + 1)
    case ResumeScheduler(thenYield) => ResumeAll(k, thenYield)
    case Block(ticks, forever, event, at) =>
      DelayCurrent(if event.Some? then LinkAt(k, Event(event.value), at, EventItem(k.current)) else k, ticks, forever)
    case RemoveEvent(o) => RemoveFromEvent(k, o)
    case RemoveUnorderedEvent(t) => RemoveUnordered(k, t)
    case Resume(t) => ResumeTask(k, t)
    case Suspend(t) => SuspendTask(k, t)
    case Delete(t) => DeleteTask(k, t)
    case CleanUp => CleanUpOne(k)
    case Create(t, p) => CreateTask(k, t, p)
    case ChangePriority(t, p) => SetPriority(k, t, p)
    case Yield => YieldIf(k, true)
    case TickIsr => TickInterrupt(k)
    case ResumeIsr(t) => ResumeFromIsr(k, t)
    case Switch => SwitchContext(k)
  }
}
