/**
  The scheduler as tasks.c runs it: global variables updated in place, lists emptied from the
  head, priorities scanned downward. Each method is proved against the functions of `Kernel`.
 */
module Scheduler {
  import opened Seqs
  import opened Kernel
  import opened KernelLists
  import opened KernelTime
  import opened KernelRuns
  import opened KernelTheorems
  import opened KernelCensus
  import opened SchedulerLemmas
  import Rings

  class Scheduler {
    var lists: map<ListId, Rings.Ring<Item>>
    var containers: map<Item, ListId>
    var values: map<Item, int>
    var priorities: map<Task, int>
    var current: Task
    var tick: int
    var overflows: int
    var nextUnblock: int
    var second: bool
    var topReady: int
    var suspended: int
    var pended: int
    var yieldPending: bool
    var numTasks: int
    var deletedWaiting: int
    var switchRequested: bool
    ghost var clock: int
    ghost var interrupts: int
    ghost var due: map<Task, int>
    ghost var tasks: set<Task>

    ghost function Now(): State
      reads this
    {
      State(lists, containers, values, priorities, current, tick, overflows, nextUnblock, second, topReady, suspended, pended,
            yieldPending, numTasks, deletedWaiting, switchRequested, clock, interrupts, due, tasks)
    }

    function RingOf(l: ListId): (r: Rings.Ring<Item>)
      reads this
      ensures r == Now().RingOf(l)
    {
      if l in lists then lists[l] else Rings.Ring([], 0)
    }

    function PriorityOf(t: Task): (p: int)
      reads this
      ensures p == Now().PriorityOf(t)
    {
      if t in priorities then priorities[t] else 0
    }

    function ValueOf(x: Item): (v: int)
      reads this
      ensures v == Now().ValueOf(x)
    {
      if x in values then values[x] else 0
    }

    // ---- Lists ----

    method ListRemove(x: Item)
      modifies this`lists, this`containers
      ensures Now() == Unlink(old(Now()), x)
    {
      if x in containers {
        var l := containers[x];
        var r := RingOf(l);
        if Rings.Valid(r) {
          r := Rings.Remove(r, x);
        }
        lists := lists[l := r];
        containers := containers - {x};
      }
    }

    method ListInsertEnd(l: ListId, x: Item)
      modifies this`lists, this`containers
      ensures Now() == LinkEnd(old(Now()), l, x)
    {
      var r := RingOf(l);
      if Rings.Valid(r) && x !in r.items {
        r := Rings.InsertEnd(r, x);
      }
      lists := lists[l := r];
      containers := containers[x := l];
    }

    /** vListInsert, with its search. */
    method ListInsert(l: ListId, x: Item)
      modifies this`lists, this`containers
      ensures Now() == LinkAt(old(Now()), l, Place(old(Now()), old(Now()).ItemsOf(l), old(ValueOf(x))), x)
    {
      var r := RingOf(l);
      var at := FindPlace(r.items, ValueOf(x));
      if Rings.Valid(r) && x !in r.items {
        r := Rings.InsertBefore(r, at, x);
      }
      lists := lists[l := r];
      containers := containers[x := l];
    }

    method FindPlace(items: seq<Item>, v: int) returns (at: int)
      ensures at == Place(Now(), items, v)
    {
      at := 0;
      while at < |items| && ValueOf(items[at]) <= v
        invariant 0 <= at <= |items|
        invariant Place(Now(), items, v) == at + Place(Now(), items[at..], v)
      {
        assert items[at..][1..] == items[at + 1..];
        at := at + 1;
      }
    }

    method AddTaskToReadyList(t: Task)
      modifies this`lists, this`containers, this`topReady
      ensures Now() == AddToReady(old(Now()), t)
    {
      var p := PriorityOf(t);
      if p > topReady {
        topReady := p;
      }
      ListInsertEnd(Ready(p), StateItem(t));
    }

    method ReadyTask(t: Task)
      modifies this`lists, this`containers, this`topReady
      ensures Now() == MakeReady(old(Now()), t)
    {
      ListRemove(EventItem(t));
      ListRemove(StateItem(t));
      AddTaskToReadyList(t);
    }

    // ---- The tick ----

    method ResetNextTaskUnblockTime()
      modifies this`nextUnblock
      ensures Now() == ResetNextUnblock(old(Now()))
    {
      var items := RingOf(Delayed(second)).items;
      if |items| == 0 {
        nextUnblock := 0xFFFF_FFFF;
      } else {
        nextUnblock := ValueOf(items[0]);
      }
    }

    /** taskSWITCH_DELAYED_LISTS */
    method SwitchDelayedLists()
      modifies this`overflows, this`second, this`nextUnblock
      ensures Now() == ResetNextUnblock(old(Now()).(second := !old(second), overflows := old(overflows) + 1))
    {
      second := !second;
      overflows := overflows + 1;
      ResetNextTaskUnblockTime();
    }

    method AdvanceTick()
      modifies this`tick, this`overflows, this`second, this`nextUnblock, this`clock
      ensures Now() == Advance(old(Now()))
    {
      hide ResetNextUnblock;
      clock := clock + 1;
      tick := if tick == 0xFFFF_FFFF then 0 else tick + 1;
      if tick == 0 {
        SwitchDelayedLists();
      }
    }

    /** The for(;;) loop of xTaskIncrementTick. */
    method UnblockExpired() returns (switchRequired: bool)
      requires Lists(Now()) && Rest(Now())
      modifies this`lists, this`containers, this`topReady, this`nextUnblock
      ensures var k := old(Now()); var expired := Expired(k, k.ItemsOf(Delayed(k.second)));
        Now() == ResetNextUnblock(WakeAll(k, expired)) && switchRequired == AnyAtLeast(k, expired)
    {
      hide Expired, AnyAtLeast, WakeAll, MakeReady, ResetNextUnblock, Lists, Rest, Scanning, State.RingOf, State.ValueOf, State.PriorityOf;
      ghost var k := Now();
      ghost var all := k.ItemsOf(Delayed(second));
      ghost var i := 0;
      switchRequired := false;
      ScanStarts(k);
      var items := RingOf(Delayed(second)).items;
      while |items| > 0 && ValueOf(items[0]) <= tick
        invariant Scanning(k, Now(), all, i, switchRequired)
        invariant 0 <= i <= |all| && items == all[i..] && items == RingOf(Delayed(second)).items
        decreases |items|
      {
        ScanStep(k, Now(), all, i, switchRequired);
        if PriorityOf(items[0].t) >= PriorityOf(current) {
          switchRequired := true;
        }
        ReadyTask(items[0].t);
        i := i + 1;
        ScanReads(k, Now(), all, i, switchRequired);
        items := RingOf(Delayed(second)).items;
      }
      ScanEnds(k, Now(), all, i, switchRequired);
      ResetNextTaskUnblockTime();
    }
  
    /** xTaskIncrementTick */
    method IncrementTick() returns (switchRequired: bool)
      requires Core(Now())
      modifies this`lists, this`containers, this`topReady, this`nextUnblock, this`tick, this`overflows, this`second, this`clock, this`pended
      ensures old(suspended) == 0 ==> Now() == ProcessTick(old(Now())) && switchRequired == TickSwitches(old(Now()))
      ensures old(suspended) != 0 ==> Now() == old(Now()).(pended := old(pended) + 1) && switchRequired == yieldPending
    {
      switchRequired := false;
      if suspended == 0 {
        switchRequired := ProcessOneTick();
      } else {
        pended := pended + 1;
      }
      if yieldPending {
        switchRequired := true;
      }
    }

    method ProcessOneTick() returns (switchRequired: bool)
      requires Core(Now())
      modifies this`lists, this`containers, this`topReady, this`nextUnblock, this`tick, this`overflows, this`second, this`clock
      ensures Now() == ProcessTick(old(Now()))
      ensures switchRequired || yieldPending <==> TickSwitches(old(Now()))
    {
      hide Advance, Expired, AnyAtLeast, WakeAll, ResetNextUnblock, Lists, Rest, Timed, NextOk, Core, State.RingOf, State.PriorityOf;
      switchRequired := false;
      AdvanceKeeps(Now());
      AdvanceSame(Now());
      AdvanceTick();
      NothingAtLeast(Now());
      if tick >= nextUnblock {
        switchRequired := UnblockExpired();
      }
      if |RingOf(Ready(PriorityOf(current))).items| > 1 {
        switchRequired := true;
      }
      assert PriorityOf(current) == old(PriorityOf(current));
    }
  
    method MoveHead(t: Task)
      modifies this`lists, this`containers, this`topReady, this`yieldPending
      ensures var k := old(Now()); var k2 := MakeReady(k, t);
        Now() == if k.PriorityOf(t) >= k.PriorityOf(k.current) then k2.(yieldPending := true) else k2
    {
      hide MakeReady, State.PriorityOf;
      var yielding := PriorityOf(t) >= PriorityOf(current);
      ReadyTask(t);
      if yielding {
        yieldPending := true;
      }
    }

    /** The first half of xTaskResumeAll: readied tasks leave the pending list. */
    method MovePending()
      requires Lists(Now()) && Rest(Now())
      modifies this`lists, this`containers, this`topReady, this`nextUnblock, this`yieldPending
      ensures Now() == DrainPending(old(Now()))
    {
      hide AnyAtLeast, WakeAll, MakeReady, ResetNextUnblock, Lists, Rest, Draining, State.RingOf, State.PriorityOf;
      ghost var k := Now();
      ghost var all := k.ItemsOf(PendingReady);
      ghost var i := 0;
      DrainStarts(k);
      var moved := false;
      var items := RingOf(PendingReady).items;
      while |items| > 0
        invariant Draining(k, Now(), all, i)
        invariant 0 <= i <= |all| && items == all[i..] && items == RingOf(PendingReady).items
        invariant moved <==> i > 0
        decreases |items|
      {
        DrainStep(k, Now(), all, i);
        MoveHead(items[0].t);
        moved := true;
        i := i + 1;
        DrainReads(k, Now(), all, i);
        items := RingOf(PendingReady).items;
      }
      assert all[..i] == all;
      DrainReads(k, Now(), all, i);
      if moved {
        ResetNextTaskUnblockTime();
        DrainMoved(k);
      } else {
        DrainUnmoved(k);
      }
    }

    method ReplayOne()
      requires Core(Now()) && suspended == 0
      modifies this`lists, this`containers, this`topReady, this`nextUnblock, this`tick, this`overflows, this`second, this`clock, this`pended, this`yieldPending
      ensures Now() == Replayed(old(Now()))
    {
      hide Core, ProcessTick, TickSwitches;
      ReplayedSuspended(Now());
      var switchRequired := IncrementTick();
      if switchRequired {
        yieldPending := true;
      }
    }

    /** The second half: the ticks pended meanwhile are processed. */
    method ProcessPended()
      requires Core(Now()) && NonePending(Now()) && suspended == 0 && pended >= 0
      modifies this`lists, this`containers, this`topReady, this`nextUnblock, this`tick, this`overflows, this`second, this`clock, this`pended, this`yieldPending
      ensures Now() == ReplayTicks(old(Now()), old(pended))
    {
      hide Core, NonePending, Replayed, ReplayTicks, Calm, ReadyGrows;
      var pendedCounts: nat := pended;
      ghost var k := Now();
      while pendedCounts > 0
        invariant Core(Now()) && NonePending(Now()) && Now().suspended == 0
        invariant ReplayTicks(k, k.pended) == ReplayTicks(Now(), pendedCounts)
      {
        ReplayedKeeps(Now());
        ReplayedSuspended(Now());
        ReplayStep(Now(), pendedCounts);
        ReplayOne();
        pendedCounts := pendedCounts - 1;
      }
      ReplayZero(Now());
    }

    /** xTaskResumeAll */
    method ResumeAll() returns (alreadyYielded: bool)
      requires Core(Now()) && Conserved(Now()) && suspended > 0 && numTasks > 0
      modifies this
      ensures Now() == Kernel.ResumeAll(old(Now()), false)
      ensures alreadyYielded == (suspended == 0 && yieldPending)
    {
      alreadyYielded := false;
      if suspended == 1 {
        hide Core, Kernel.ResumeAll;
        alreadyYielded := ResumeOutermost();
      } else {
        suspended := suspended - 1;
      }
    }

    method ResumeOutermost() returns (alreadyYielded: bool)
      requires Core(Now()) && suspended == 1 && pended >= 0
      modifies this
      ensures Now() == Kernel.ResumeAll(old(Now()), false) && suspended == 0
      ensures alreadyYielded == yieldPending
    {
      hide Core, DrainPending, ReplayTicks, Kernel.ResumeAll;
      ghost var k := Now();
      ResumeStart(k);
      suspended := suspended - 1;
      CatchUp();
      ghost var k2 := Now();
      pended := 0;
      ResumeJoins(k, k2, Now());
      alreadyYielded := yieldPending;
      if yieldPending {
        switchRequested := true;
      }
    }

    method CatchUp()
      requires Core(Now()) && suspended == 0 && pended >= 0
      modifies this
      ensures Now() == ReplayTicks(DrainPending(old(Now())), old(pended)) && suspended == 0
    {
      hide Core, Lists, Rest, NonePending, DrainPending, ReplayTicks, Calm, ReadyGrows, DrainedView;
      DrainKeeps(Now());
      CoreParts2(Now());
      MovePending();
      ReplayFields(Now(), pended);
      ProcessPended();
    }

    /** vTaskSwitchContext with taskSELECT_HIGHEST_PRIORITY_TASK. */
    method SwitchContext()
      requires Core(Now()) && IsReady(Now(), IDLE)
      modifies this`lists, this`topReady, this`current, this`yieldPending, this`switchRequested
      ensures Now() == Kernel.SwitchContext(old(Now()))
    {
      hide Core, IsReady, Rings.Valid, Rings.Next, Rings.Picked, ScanDown;
      if suspended != 0 {
        yieldPending := true;
        switchRequested := false;
      } else {
        FlagsCore(Now(), Now().(yieldPending := false, switchRequested := false));
        yieldPending := false;
        switchRequested := false;
        SelectHighest();
      }
    }

    method SelectHighest()
      requires Core(Now()) && IsReady(Now(), IDLE)
      modifies this`lists, this`topReady, this`current
      ensures var k := old(Now()); var p := ScanDown(k, k.topReady); var r := k.RingOf(Ready(p));
        && Rings.Valid(r) && r.items != []
        && Now() == k.(lists := k.lists[Ready(p) := Rings.Next(r)], topReady := p, current := Rings.Picked(r).t)
    {
      hide Core, IsReady, Rings.Valid, Rings.Next, Rings.Picked, ScanDown;
      var topPriority := FindTop();
      var r := RingOf(Ready(topPriority));
      current := Rings.Picked(r).t;
      lists := lists[Ready(topPriority) := Rings.Next(r)];
      topReady := topPriority;
    }

    method FindTop() returns (p: int)
      requires Core(Now()) && IsReady(Now(), IDLE)
      ensures p == ScanDown(Now(), topReady) && Rings.Valid(RingOf(Ready(p))) && RingOf(Ready(p)).items != []
    {
      ScanHighest(Now());
      hide Core, IsReady, Rings.Valid;
      p := topReady;
      while |RingOf(Ready(p)).items| == 0
        invariant 0 <= p && ScanDown(Now(), topReady) == ScanDown(Now(), p)
        decreases p
      {
        p := p - 1;
      }
    }

    /** prvAddCurrentTaskToDelayedList */
    method AddCurrentTaskToDelayedList(ticksToWait: int, canBlockIndefinitely: bool)
      requires 0 <= ticksToWait < 0x1_0000_0000 && 0 <= tick < 0x1_0000_0000
      modifies this`lists, this`containers, this`values, this`due, this`nextUnblock
      ensures Now() == DelayCurrent(old(Now()), ticksToWait, canBlockIndefinitely)
    {
      hide Unlink, LinkEnd, Inserted, Stamped, DelayCurrent, WakeValue;
      if ticksToWait == 0xFFFF_FFFF && canBlockIndefinitely {
        DelayForever(Now());
        ListRemove(StateItem(current));
        ListInsertEnd(Suspended, StateItem(current));
      } else {
        DelayFinite(ticksToWait, canBlockIndefinitely);
      }
    }

    method DelayFinite(ticksToWait: int, ghost canBlockIndefinitely: bool)
      requires 0 <= ticksToWait < 0x1_0000_0000 && 0 <= tick < 0x1_0000_0000
      requires !(ticksToWait == 0xFFFF_FFFF && canBlockIndefinitely)
      modifies this`lists, this`containers, this`values, this`due, this`nextUnblock
      ensures Now() == DelayCurrent(old(Now()), ticksToWait, canBlockIndefinitely)
    {
      hide Inserted, Stamped, DelayCurrent, WakeValue, State.ValueOf;
      DelayShape(Now(), ticksToWait, canBlockIndefinitely);
      WakeRange(Now(), ticksToWait);
      var timeToWake := AddTicks(ticksToWait);
      ghost var dueTime := WakeTime(Now(), ticksToWait);
      StampedReads(Now(), current, timeToWake, dueTime);
      StampCurrent(timeToWake, dueTime);
      if timeToWake < tick {
        InsertCurrent(!second, timeToWake);
      } else {
        InsertCurrent(second, timeToWake);
        if timeToWake < nextUnblock {
          nextUnblock := timeToWake;
        }
      }
    }

    /** 32-bit addition to the tick count. */
    method AddTicks(n: int) returns (t: int)
      requires 0 <= n < 0x1_0000_0000 && 0 <= tick < 0x1_0000_0000
      ensures t == WakeValue(Now(), n)
    {
      t := (tick + n) % 0x1_0000_0000;
    }

    method StampCurrent(wake: int, ghost dueTime: int)
      modifies this`lists, this`containers, this`values, this`due
      ensures Now() == Stamped(old(Now()), current, wake, dueTime)
    {
      hide Unlink;
      ListRemove(StateItem(current));
      values := values[StateItem(current) := wake];
      due := due[current := dueTime];
    }

    method InsertCurrent(b: bool, wake: int)
      requires Now().ValueOf(StateItem(current)) == wake
      modifies this`lists, this`containers
      ensures Now() == Inserted(old(Now()), b, current, wake)
    {
      hide LinkAt, Place;
      ListInsert(Delayed(b), StateItem(current));
    }

    /** xTaskRemoveFromEventList */
    method RemoveFromEventList(o: Object) returns (higher: bool)
      requires Now().ItemsOf(Event(o)) != []
      modifies this`lists, this`containers, this`topReady, this`yieldPending
      ensures Now() == RemoveFromEvent(old(Now()), o)
      ensures higher == (old(PriorityOf(Now().ItemsOf(Event(o))[0].t)) > old(PriorityOf(current)))
    {
      hide Unlink, LinkEnd, MakeReady, State.PriorityOf;
      var t := RingOf(Event(o)).items[0].t;
      higher := PriorityOf(t) > PriorityOf(current);
      if suspended == 0 {
        ReadyTask(t);
      } else {
        ListRemove(EventItem(t));
        ListInsertEnd(PendingReady, EventItem(t));
      }
      if higher {
        yieldPending := true;
      }
    }
  
    /** One call of prvListTasksWithinSingleList: the index of the list has moved on by one. */
    method ListTasks(l: ListId) returns (found: seq<Task>)
      requires Rings.Valid(RingOf(l)) && OneEach(RingOf(l).items)
      modifies this`lists
      ensures found == Visited(old(RingOf(l)))
      ensures forall m :: RingOf(m) == if m == l then TurnedOn(old(RingOf(l))) else old(RingOf(m))
    {
      var r;
      found, r := ListTasksWithinSingleList(RingOf(l));
      lists := lists[l := r];
    }

    /** uxTaskGetSystemState: the reported tasks, or none if the array is too small. */
    method GetSystemState(arraySize: int) returns (found: seq<Task>)
      requires Lists(Now()) && Rest(Now())
      modifies this`lists
      ensures if arraySize < numTasks then found == [] else NoDup(found) && Elements(found) == tasks && |found| == numTasks
      ensures forall l :: RingOf(l) == if arraySize >= numTasks && Reported(l) then TurnedOn(old(RingOf(l))) else old(RingOf(l))
    {
      found := [];
      if arraySize >= numTasks {
        ghost var k := Now();
        CensusExact(k);
        hide Lists, Rest, NoDup, Elements;
        found := WalkStateLists();
      }
    }

    method WalkStateLists() returns (found: seq<Task>)
      requires Lists(Now()) && Rest(Now())
      modifies this`lists
      ensures found == Gather(old(Now()), StateLists(old(Now())))
      ensures forall l :: RingOf(l) == if Reported(l) then TurnedOn(old(RingOf(l))) else old(RingOf(l))
    {
      ghost var k := Now();
      hide Lists, Rest, Visited, CanWalk, State.RingOf, Gather, StateLists, TurnedOn;
      Walkable(k);
      LastLists(k);
      found := WalkReady();
      found := WalkRest(k, found);
    }

    method WalkReady() returns (found: seq<Task>)
      requires forall p :: 0 <= p < MAX_PRIORITIES ==> CanWalk(RingOf(Ready(p)))
      modifies this`lists
      ensures found == Gather(old(Now()), ReadyLists())
      ensures forall l: ListId :: RingOf(l) == if l.Ready? && Reported(l) then TurnedOn(old(RingOf(l))) else old(RingOf(l))
    {
      hide Visited, OneEach, Rings.Valid, State.RingOf, Gather, TurnedOn;
      ghost var k := Now();
      found := [];
      GatherNone(k);
      var queue := MAX_PRIORITIES;
      while queue > 0
        invariant 0 <= queue <= MAX_PRIORITIES && found == Gather(k, ReadyLists()[..MAX_PRIORITIES - queue])
        invariant forall l: ListId ::
          RingOf(l) == if l.Ready? && queue <= l.priority < MAX_PRIORITIES then TurnedOn(old(RingOf(l))) else old(RingOf(l))
      {
        queue := queue - 1;
        GatherNext(k, ReadyLists(), MAX_PRIORITIES - 1 - queue);
        var more := ListTasks(Ready(queue));
        found := found + more;
      }
      assert ReadyLists()[..MAX_PRIORITIES] == ReadyLists();
    }

    method WalkRest(ghost k: State, sofar: seq<Task>) returns (found: seq<Task>)
      requires second == k.second && RingOf(Delayed(second)) == k.RingOf(Delayed(second)) && CanWalk(RingOf(Delayed(second)))
      requires RingOf(Delayed(!second)) == k.RingOf(Delayed(!second)) && CanWalk(RingOf(Delayed(!second)))
      requires RingOf(Termination) == k.RingOf(Termination) && CanWalk(RingOf(Termination))
      requires RingOf(Suspended) == k.RingOf(Suspended) && CanWalk(RingOf(Suspended))
      modifies this`lists
      ensures found == sofar + Visited(k.RingOf(Delayed(k.second))) + Visited(k.RingOf(Delayed(!k.second)))
                       + Visited(k.RingOf(Termination)) + Visited(k.RingOf(Suspended))
      ensures forall l: ListId :: RingOf(l) == if !l.Ready? && Reported(l) then TurnedOn(old(RingOf(l))) else old(RingOf(l))
    {
      hide Visited, OneEach, Rings.Valid, State.RingOf, TurnedOn;
      var more := ListTasks(Delayed(second));
      found := sofar + more;
      more := ListTasks(Delayed(!second));
      found := found + more;
      more := ListTasks(Termination);
      found := found + more;
      more := ListTasks(Suspended);
      found := found + more;
    }
  }
}
