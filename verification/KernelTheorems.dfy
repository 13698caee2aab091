/**
  Blocking and selection, then runs: in every state that any order of calls, ticks and
  interrupts can reach from a started scheduler, the invariant holds, and with it the main results.
 */
module KernelTheorems {
  import opened Options
  import opened Kernel
  import opened KernelLists
  import opened KernelTime
  import opened KernelRuns
  import opened KernelSteps
  import Rings

  // ---- Blocking ----

  /** The running task is asleep on l, waiting for an event or not. */
  ghost predicate Slept(k: State, k': State, t: Task, l: ListId, event: Option<ListId>) {
    && k' == k.(lists := k'.lists, containers := k'.containers, values := k'.values, due := k'.due, nextUnblock := k'.nextUnblock)
    && (forall u :: k'.StateList(u) == if u == t then Some(l) else k.StateList(u))
    && (forall u :: k'.EventList(u) == if u == t then event else k.EventList(u))
    && (forall u :: u != t ==> k'.DueOf(u) == k.DueOf(u) && k'.ValueOf(StateItem(u)) == k.ValueOf(StateItem(u)))
    && (forall u :: k'.PriorityOf(u) == k.PriorityOf(u))
  }

  /** Where a task that blocks now for this long goes, and what is recorded. */
  ghost predicate SleepsRight(k: State, k': State, t: Task, l: ListId, ticks: int) {
    match l
    case Suspended => k'.nextUnblock == k.nextUnblock
    case Delayed(b) =>
      && TimedTask(k', t, 0) && k'.DueOf(t) == k.clock + (if ticks == 0 then 1 else ticks)
      && k'.nextUnblock <= k.nextUnblock && 0 <= k'.nextUnblock
      && (b == k.second ==> k'.nextUnblock <= k'.ValueOf(StateItem(t)))
    case _ => false
  }

  lemma ValueKeepsLists(k: State, k': State, x: Item, v: int)
    requires Lists(k) && k.ContainerOf(x) == None
    requires k'.lists == k.lists && k'.containers == k.containers && k'.values == k.values[x := v]
    ensures Lists(k')
  {
    assert forall l :: k'.RingOf(l) == k.RingOf(l);
    assert forall y :: k'.ContainerOf(y) == k.ContainerOf(y);
    assert forall y :: y != x ==> k'.ValueOf(y) == k.ValueOf(y);
    assert forall l :: x !in k.ItemsOf(l);
    hide State.RingOf, State.ContainerOf, State.ValueOf, Rings.Valid;
    StillSorted(k, k', k.ItemsOf(Delayed(false)), x);
    StillSorted(k, k', k.ItemsOf(Delayed(true)), x);
    hide SortedItems;
  }

  lemma StillSorted(k: State, k': State, items: seq<Item>, x: Item)
    requires SortedItems(k, items) && x !in items && forall y :: y != x ==> k'.ValueOf(y) == k.ValueOf(y)
    ensures SortedItems(k', items)
  {
    hide State.ValueOf;
  }

  /** The running task's item with its wake value, before it goes onto a delayed list. */
  function Stamped(k: State, t: Task, wake: int, due: int): State {
    var k1 := Unlink(k, StateItem(t));
    k1.(values := k1.values[StateItem(t) := wake], due := k1.due[t := due])
  }

  lemma StampedView(k: State, t: Task, wake: int, due: int)
    requires Lists(k)
    ensures var k2 := Stamped(k, t, wake, due);
      && Lists(k2) && k2.StateList(t) == None && k2.ValueOf(StateItem(t)) == wake && k2.DueOf(t) == due
      && k2 == k.(lists := k2.lists, containers := k2.containers, values := k2.values, due := k2.due)
      && (forall u :: u != t ==> k2.StateList(u) == k.StateList(u))
      && (forall u :: k2.EventList(u) == k.EventList(u))
      && (forall u :: u != t ==> k2.DueOf(u) == k.DueOf(u) && k2.ValueOf(StateItem(u)) == k.ValueOf(StateItem(u)))
  {
    var k1, k2 := Unlink(k, StateItem(t)), Stamped(k, t, wake, due);
    hide Unlink, Lists;
    StateOff(k, t);
    assert k1.StateList(t) == None;
    ValueKeepsLists(k1, k2, StateItem(t), wake);
  }

  function Inserted(k2: State, b: bool, t: Task, wake: int): State {
    LinkAt(k2, Delayed(b), Place(k2, k2.ItemsOf(Delayed(b)), wake), StateItem(t))
  }

  lemma OnlyListsSleep(k: State, k': State)
    requires OnlyLists(k, k')
    ensures forall u :: k'.DueOf(u) == k.DueOf(u) && k'.ValueOf(StateItem(u)) == k.ValueOf(StateItem(u)) && k'.PriorityOf(u) == k.PriorityOf(u)
  {
  }

  lemma DelayedView(k: State, t: Task, wake: int, due: int, b: bool)
    requires Lists(k)
    ensures var k3 := Inserted(Stamped(k, t, wake, due), b, t, wake);
      && Lists(k3) && Slept(k, k3, t, Delayed(b), k.EventList(t)) && k3.nextUnblock == k.nextUnblock
      && k3.ValueOf(StateItem(t)) == wake && k3.DueOf(t) == due
  {
    var k2 := Stamped(k, t, wake, due);
    var k3 := Inserted(k2, b, t, wake);
    hide LinkAt, Lists, Stamped, Place, State.StateList, State.EventList, State.DueOf, State.ValueOf, State.PriorityOf;
    StampedView(k, t, wake, due);
    StateInOrder(k2, b, t);
    OnlyListsSleep(k2, k3);
    assert forall u :: k2.PriorityOf(u) == k.PriorityOf(u) by { SamePriority(k, k2); }
  }

  lemma SamePriority(k: State, k': State)
    requires k'.priorities == k.priorities
    ensures forall u :: k'.PriorityOf(u) == k.PriorityOf(u)
  {
  }

  /** The cached unblock time is lowered to a wake value in the current list. */
  lemma CachedView(k: State, k3: State, k': State, t: Task, l: ListId, event: Option<ListId>)
    requires Lists(k3) && Slept(k, k3, t, l, event) && k' == k3.(nextUnblock := k'.nextUnblock)
    ensures Lists(k') && Slept(k, k', t, l, event)
    ensures k'.ValueOf(StateItem(t)) == k3.ValueOf(StateItem(t)) && k'.DueOf(t) == k3.DueOf(t)
  {
    assert forall u :: k'.DueOf(u) == k3.DueOf(u) && k'.ValueOf(StateItem(u)) == k3.ValueOf(StateItem(u)) && k'.PriorityOf(u) == k3.PriorityOf(u);
    hide Lists, State.StateList, State.EventList, State.DueOf, State.ValueOf, State.PriorityOf;
    FieldsKeepLists(k3, k');
  }

  function WakeValue(k: State, ticks: int): int {
    if k.tick + ticks >= 0x1_0000_0000 then k.tick + ticks - 0x1_0000_0000 else k.tick + ticks
  }

  function WakeList(k: State, ticks: int): bool {
    if k.tick + ticks >= 0x1_0000_0000 then !k.second else k.second
  }

  function WakeTime(k: State, ticks: int): int { k.clock + if ticks == 0 then 1 else ticks }

  lemma DelayShape(k: State, ticks: int, forever: bool)
    requires !(ticks == 0xFFFF_FFFF && forever)
    ensures var t, wake, b := k.current, WakeValue(k, ticks), WakeList(k, ticks);
      var k3 := Inserted(Stamped(k, t, wake, WakeTime(k, ticks)), b, t, wake);
      DelayCurrent(k, ticks, forever) == if b == k.second && wake < k.nextUnblock then k3.(nextUnblock := wake) else k3
  {
    hide Unlink, LinkAt, Place, State.RingOf;
  }

  lemma FiniteView(k: State, ticks: int, forever: bool)
    requires Lists(k) && TickOk(k) && 0 <= k.nextUnblock < 0x1_0000_0000 && !(ticks == 0xFFFF_FFFF && forever)
    requires 0 <= ticks < 0x1_0000_0000 && (ticks == 0 ==> k.tick != 0xFFFF_FFFF)
    ensures var k', t, l := DelayCurrent(k, ticks, forever), k.current, Delayed(WakeList(k, ticks));
      Lists(k') && Slept(k, k', t, l, k.EventList(t)) && SleepsRight(k, k', t, l, ticks)
  {
    var k', t, wake, b, due := DelayCurrent(k, ticks, forever), k.current, WakeValue(k, ticks), WakeList(k, ticks), WakeTime(k, ticks);
    var k3 := Inserted(Stamped(k, t, wake, due), b, t, wake);
    hide DelayCurrent, Inserted, Stamped, Lists, Slept, State.EventList, State.ValueOf, State.DueOf, TimedTask;
    DelayShape(k, ticks, forever);
    DelayedView(k, t, wake, due, b);
    CachedView(k, k3, k', t, Delayed(b), k.EventList(t));
    SleptTimed(k, k', t, b, k.EventList(t), ticks, wake, due);
  }

  lemma DelayView(k: State, ticks: int, forever: bool) returns (l: ListId)
    requires Lists(k) && TickOk(k) && 0 <= k.nextUnblock < 0x1_0000_0000
    requires 0 <= ticks < 0x1_0000_0000 && (ticks == 0 ==> k.tick != 0xFFFF_FFFF)
    ensures l == if ticks == 0xFFFF_FFFF && forever then Suspended else Delayed(WakeList(k, ticks))
    ensures var k', t := DelayCurrent(k, ticks, forever), k.current;
      Lists(k') && Slept(k, k', t, l, k.EventList(t)) && SleepsRight(k, k', t, l, ticks)
  {
    if ticks == 0xFFFF_FFFF && forever {
      l := Suspended;
      ForeverView(k, k.current);
      hide Slept, Lists, Unlink, LinkEnd, State.EventList;
    } else {
      l := Delayed(WakeList(k, ticks));
      hide DelayCurrent, Slept, SleepsRight, Lists, State.EventList;
      FiniteView(k, ticks, forever);
    }
  }

  lemma ForeverView(k: State, t: Task)
    requires Lists(k)
    ensures var k' := LinkEnd(Unlink(k, StateItem(t)), Suspended, StateItem(t));
      Lists(k') && Slept(k, k', t, Suspended, k.EventList(t)) && k'.nextUnblock == k.nextUnblock
  {
    var k1 := Unlink(k, StateItem(t));
    hide Unlink, LinkEnd, Lists, State.StateList, State.EventList, State.DueOf, State.ValueOf, State.PriorityOf;
    StateOff(k, t);
    LinkedToEnd(k1, Suspended, t);
    OnlyListsSleep(k, LinkEnd(k1, Suspended, StateItem(t)));
  }

  lemma SleptTimed(k: State, k': State, t: Task, b: bool, event: Option<ListId>, ticks: int, wake: int, due: int)
    requires TickOk(k) && Slept(k, k', t, Delayed(b), event) && k'.ValueOf(StateItem(t)) == wake && k'.DueOf(t) == due
    requires 0 <= ticks < 0x1_0000_0000 && (ticks == 0 ==> k.tick != 0xFFFF_FFFF)
    requires due == k.clock + if ticks == 0 then 1 else ticks
    requires if k.tick + ticks >= 0x1_0000_0000 then b == !k.second && wake == k.tick + ticks - 0x1_0000_0000
             else b == k.second && wake == k.tick + ticks
    ensures TimedTask(k', t, 0)
  {
    hide State.StateList, State.EventList, State.DueOf, State.ValueOf, State.PriorityOf;
  }

  lemma SleptTime(k: State, k': State, t: Task, l: ListId, event: Option<ListId>, ticks: int)
    requires Timed(k, 0) && NextOk(k) && TickOk(k) && Slept(k, k', t, l, event) && SleepsRight(k, k', t, l, ticks)
    ensures Timed(k', 0) && NextOk(k') && TickOk(k')
  {
    hide State.StateList, State.EventList, State.DueOf, State.ValueOf, State.PriorityOf;
    forall u ensures TimedTask(k', u, 0) {
      assert TimedTask(k, u, 0);
    }
  }

  lemma SleptRest(k: State, k': State, t: Task, l: ListId, event: Option<ListId>)
    requires Rest(k) && Slept(k, k', t, l, event) && IsReady(k, t) && (l.Suspended? || l.Delayed?)
    requires event.None? || event.value.Event?
    ensures Rest(k')
  {
    hide State.StateList, State.EventList, State.DueOf, State.ValueOf, State.PriorityOf;
    assert Dead(k') == Dead(k);
  }

  lemma SleptRun(k: State, k': State, t: Task, l: ListId, event: Option<ListId>)
    requires RunOk(k) && Slept(k, k', t, l, event) && t == k.current != IDLE && k.suspended > 0 && (l.Suspended? || l.Delayed?)
    ensures RunOk(k')
  {
    hide State.StateList, State.EventList, State.DueOf, State.ValueOf, State.PriorityOf;
  }

  lemma SleptInv(k: State, k': State, t: Task, l: ListId, event: Option<ListId>, ticks: int)
    requires Inv(k) && Lists(k') && Slept(k, k', t, l, event) && SleepsRight(k, k', t, l, ticks)
    requires t == k.current != IDLE && IsReady(k, t) && k.suspended > 0 && (event.None? || event.value.Event?)
    ensures Inv(k')
  {
    assert l.Suspended? || l.Delayed?;
    assert Conserved(k') && Drained(k');
    hide Lists, Rest, Timed, NextOk, TickOk, RunOk, Slept, SleepsRight, Conserved, Drained, IsReady;
    SleptTime(k, k', t, l, event, ticks);
    SleptRest(k, k', t, l, event);
    SleptRun(k, k', t, l, event);
  }

  /** Two stages of blocking as one. */
  lemma SleptJoin(k: State, k0: State, k': State, t: Task, l: ListId, event: Option<ListId>, ticks: int)
    requires OnlyLists(k, k0) && (forall u :: k0.StateList(u) == k.StateList(u))
    requires forall u :: k0.EventList(u) == if u == t then event else k.EventList(u)
    requires Slept(k0, k', t, l, k0.EventList(t)) && SleepsRight(k0, k', t, l, ticks)
    ensures Slept(k, k', t, l, event) && SleepsRight(k, k', t, l, ticks)
  {
    OnlyListsSleep(k, k0);
    hide State.StateList, State.EventList, State.DueOf, State.ValueOf, State.PriorityOf, TimedTask;
  }

  function Hooked(k: State, event: Option<Object>, at: int): State {
    if event.Some? then LinkAt(k, Event(event.value), at, EventItem(k.current)) else k
  }

  lemma HookView(k: State, event: Option<Object>, at: int)
    requires Lists(k) && k.EventList(k.current) == None && (event.Some? ==> 0 <= at <= |k.ItemsOf(Event(event.value))|)
    ensures var k0 := Hooked(k, event, at);
      && Lists(k0) && OnlyLists(k, k0) && (forall u :: k0.StateList(u) == k.StateList(u))
      && (forall u :: k0.EventList(u) == if u == k.current then (if event.Some? then Some(Event(event.value)) else None) else k.EventList(u))
  {
    hide Lists, LinkAt, State.StateList, State.EventList;
    if event.Some? {
      EventAt(k, Event(event.value), at, k.current);
    }
  }

  lemma ReadyWaitsForNothing(k: State, t: Task)
    requires Inv(k) && IsReady(k, t)
    ensures k.EventList(t) == None && Lists(k) && TickOk(k) && NextOk(k)
  {
    assert !IsAsleep(k, t);
  }

  lemma BlockKeeps(k: State, ticks: int, forever: bool, event: Option<Object>, at: int)
    requires Inv(k) && k.suspended > 0 && k.current != IDLE && IsReady(k, k.current)
    requires 0 <= ticks < 0x1_0000_0000 && (ticks == 0 ==> k.tick != 0xFFFF_FFFF)
    requires event.Some? ==> 0 <= at <= |k.ItemsOf(Event(event.value))|
    ensures Inv(DelayCurrent(Hooked(k, event, at), ticks, forever))
  {
    hide Inv, Lists, Slept, SleepsRight, DelayCurrent, State.EventList, State.StateList, IsReady, Hooked;
    var k0, t := Hooked(k, event, at), k.current;
    var k' := DelayCurrent(k0, ticks, forever);
    var e := if event.Some? then Some(Event(event.value)) else None;
    ReadyWaitsForNothing(k, t);
    HookView(k, event, at);
    var l := DelayView(k0, ticks, forever);
    SleptJoin(k, k0, k', t, l, e, ticks);
    SleptInv(k, k', t, l, e, ticks);
  }

  // ---- Selection ----

  /** The scan stops at the highest priority that has a ready task. */
  lemma {:induction false} ScanFindsHighest(k: State, p: int)
    requires Linked(k) && Placed(k) && IsReady(k, IDLE) && 0 <= p
    requires forall t :: IsReady(k, t) ==> k.StateList(t).value.priority <= p
    ensures var q := ScanDown(k, p);
      && 0 <= q <= p && k.ItemsOf(Ready(q)) != []
      && forall t :: IsReady(k, t) ==> k.StateList(t).value.priority <= q
    decreases p
  {
    if k.ItemsOf(Ready(p)) == [] {
      forall t | IsReady(k, t) ensures k.StateList(t).value.priority <= p - 1 {
        assert StateItem(t) in k.ItemsOf(k.StateList(t).value);
      }
      assert 0 <= k.StateList(IDLE).value.priority;
      ScanFindsHighest(k, p - 1);
    }
  }

  /** A member of a ready list is a task of that priority. */
  lemma OnReady(k: State, x: Item, p: int)
    requires Linked(k) && Placed(k) && Waits(k) && x in k.ItemsOf(Ready(p))
    ensures x == StateItem(x.t) && k.StateList(x.t) == Some(Ready(p)) && k.PriorityOf(x.t) == p && x.t in k.tasks
  {
    assert x.EventItem? ==> k.EventList(x.t) == Some(Ready(p));
    assert x.StateItem? ==> k.StateList(x.t) == Some(Ready(p));
  }

  /** k' differs from k in who runs, the index of a ready list and the bound uxTopReadyPriority. */
  ghost predicate Switched(k: State, k': State) {
    && k' == k.(yieldPending := false, switchRequested := false, topReady := k'.topReady, lists := k'.lists, current := k'.current)
    && (forall l :: k'.ItemsOf(l) == k.ItemsOf(l) && Rings.Valid(k'.RingOf(l)))
  }

  lemma SwitchView(k: State)
    requires Core(k) && RunOk(k) && k.suspended == 0
    ensures var k' := SwitchContext(k);
      && Switched(k, k') && 0 <= k'.topReady <= k.topReady
      && k.StateList(k'.current) == Some(Ready(k'.topReady)) && k.PriorityOf(k'.current) == k'.topReady && k'.current in k.tasks
      && forall t :: IsReady(k, t) ==> k.StateList(t).value.priority <= k'.topReady
  {
    var p := ScanDown(k, k.topReady);
    assert Linked(k);
    ScanFindsHighest(k, k.topReady);
    var r := k.RingOf(Ready(p));
    assert Rings.Valid(r);
    hide ScanDown, Rings.Valid, Rings.Next, Rings.Picked;
    var x := Rings.Picked(r);
    OnReady(k, x, p);
  }

  lemma SwitchedAccess(k: State, k': State)
    requires Switched(k, k')
    ensures forall t :: k'.StateList(t) == k.StateList(t) && k'.EventList(t) == k.EventList(t) && k'.PriorityOf(t) == k.PriorityOf(t)
    ensures forall t :: k'.DueOf(t) == k.DueOf(t) && k'.ValueOf(StateItem(t)) == k.ValueOf(StateItem(t))
    ensures Lists(k) ==> Lists(k')
  {
    assert forall y :: k'.ContainerOf(y) == k.ContainerOf(y) && k'.ValueOf(y) == k.ValueOf(y);
    hide Rings.Valid, State.RingOf, State.ContainerOf, State.ValueOf;
  }

  lemma SwitchCore(k: State)
    requires Core(k) && RunOk(k) && k.suspended == 0
    ensures Core(SwitchContext(k))
  {
    var k' := SwitchContext(k);
    hide SwitchContext, Lists, State.StateList, State.EventList, State.PriorityOf, State.DueOf, State.ValueOf, RunOk;
    SwitchView(k);
    SwitchedAccess(k, k');
    SwitchTime(k, k');
    hide Timed, NextOk;
    assert Dead(k') == Dead(k);
  }

  lemma SwitchTime(k: State, k': State)
    requires Switched(k, k') && Timed(k, 0) && NextOk(k)
    ensures Timed(k', 0) && NextOk(k')
  {
    SwitchedAccess(k, k');
    hide State.StateList, State.EventList, State.PriorityOf, State.DueOf, State.ValueOf;
    forall t ensures TimedTask(k', t, 0) {
      assert TimedTask(k, t, 0);
    }
  }

  lemma SwitchKeeps(k: State)
    requires Inv(k)
    ensures Inv(SwitchContext(k))
  {
    if k.suspended == 0 {
      SelectionKeeps(k);
    } else {
      hide Core, IsReady, Highest, Drained, Conserved;
      FlagsKeep(k, SwitchContext(k));
    }
  }

  lemma SelectionKeeps(k: State)
    requires Inv(k) && k.suspended == 0
    ensures Inv(SwitchContext(k))
  {
    var k' := SwitchContext(k);
    hide SwitchContext, Core, State.StateList, State.EventList, State.PriorityOf, State.DueOf, State.ValueOf;
    SwitchCore(k);
    SwitchView(k);
    SwitchedAccess(k, k');
  }

  // ---- Steps and runs ----

  lemma StepKeeps(k: State, a: Action)
    requires Inv(k) && Enabled(k, a)
    ensures Inv(Apply(k, a))
  {
    match a
    case ResumeScheduler(thenYield) => ResumeKeeps(k, thenYield);
    case Block(ticks, forever, event, at) => BlockKeeps(k, ticks, forever, event, at);
    case RemoveEvent(o) => RemoveFromEventKeeps(k, o);
    case RemoveUnorderedEvent(t) => RemoveUnorderedKeeps(k, t);
    case Resume(t) => ResumeTaskKeeps(k, t);
    case Suspend(t) => SuspendTaskKeeps(k, t);
    case Delete(t) => if t == k.current { DeleteSelfKeeps(k, t); } else { DeleteOtherKeeps(k, t); }
    case CleanUp => CleanUpKeeps(k);
    case Create(t, p) => CreateKeeps(k, t, p);
    case ChangePriority(t, p) => SetPriorityKeeps(k, t, p);
    case TickIsr => TickInterruptKeeps(k);
    case ResumeIsr(t) => ResumeFromIsrKeeps(k, t);
    case Switch => SwitchKeeps(k);
    case SuspendScheduler => SuspendSchedulerKeeps(k);
    case Yield => YieldKeeps(k);
  }

  lemma SuspendSchedulerKeeps(k: State)
    requires Inv(k)
    ensures Inv(k.(suspended := k.suspended + 1))
  {
    hide Core, IsReady, Highest, NonePending;
    var k' := k.(suspended := k.suspended + 1);
    SameKeeps(k, k');
    SameRun(k, k');
  }

  lemma YieldKeeps(k: State)
    requires Inv(k)
    ensures Inv(YieldIf(k, true))
  {
    hide Core, IsReady, Highest, Drained, Conserved;
    FlagsKeep(k, YieldIf(k, true));
  }
}
