/**
  What holds of the lists in every state, and the exact effect of a tick: it readies precisely
  the delayed tasks that are due, across any number of wraps, although the code looks only at
  the head of one list, and only when a cached lower bound says so.
 */
module KernelTime {
  import opened Options
  import opened Kernel
  import opened KernelLists

  predicate IsAsleep(k: State, t: Task) {
    k.StateList(t).Some? && (k.StateList(t).value.Delayed? || k.StateList(t).value.Suspended?)
  }

  /** Every task is on exactly one state list, its ready list being that of its priority. */
  ghost predicate Placed(k: State) {
    forall t ::
      && (t in k.tasks <==> k.StateList(t).Some?)
      && (k.StateList(t).Some? ==> IsAsleep(k, t) || k.StateList(t).value.Termination? || k.StateList(t).value == Ready(k.PriorityOf(t)))
      && (t in k.tasks ==> 0 <= k.PriorityOf(t) < MAX_PRIORITIES)
  }

  /** Only a sleeping task waits for an object, or is about to be readied. */
  ghost predicate Waits(k: State) {
    forall t :: k.EventList(t).Some? ==> IsAsleep(k, t) && (k.EventList(t).value.Event? || k.EventList(t).value.PendingReady?)
  }

  /** The tick count and the overflow count are the two halves of the clock. */
  predicate TickOk(k: State) {
    0 <= k.tick < 0x1_0000_0000 && k.clock == k.overflows * 0x1_0000_0000 + k.tick
  }

  /**
    A delayed task's wake value, read in the epoch of its list, is when it is due; a wait of
    length zero is due one tick later. With slack 0 no task is overdue.
   */
  predicate TimedTask(k: State, t: Task, slack: int) {
    k.StateList(t).Some? && k.StateList(t).value.Delayed? ==>
      var v, base := k.ValueOf(StateItem(t)), k.clock - k.tick;
      && 0 <= v < 0x1_0000_0000
      && if k.StateList(t).value.second == k.second then
           && (k.DueOf(t) == base + v || (k.DueOf(t) == base + v + 1 && base + v + slack <= k.clock))
           && k.clock - slack < k.DueOf(t) < base + 0x1_0000_0000
         else k.DueOf(t) == base + 0x1_0000_0000 + v
  }

  ghost predicate Timed(k: State, slack: int) {
    forall t :: TimedTask(k, t, slack)
  }

  /** xNextTaskUnblockTime is never above a wake value in the current delayed list. */
  ghost predicate NextOk(k: State) {
    && 0 <= k.nextUnblock < 0x1_0000_0000
    && forall t :: k.StateList(t) == Some(Delayed(k.second)) ==> k.nextUnblock <= k.ValueOf(StateItem(t))
  }

  /** uxTopReadyPriority is never below the priority of a ready task. */
  ghost predicate TopOk(k: State) {
    && 0 <= k.topReady < MAX_PRIORITIES
    && forall t :: IsReady(k, t) ==> k.StateList(t).value.priority <= k.topReady
  }

  function Dead(k: State): set<Task> {
    set t | t in k.tasks && k.StateList(t) == Some(Termination)
  }

  ghost predicate Counted(k: State) {
    k.numTasks == |k.tasks| && k.deletedWaiting == |Dead(k)|
  }

  ghost predicate Rest(k: State) {
    Placed(k) && Waits(k) && TopOk(k) && Counted(k)
  }

  ghost predicate Core(k: State) {
    Lists(k) && Rest(k) && TickOk(k) && Timed(k, 0) && NextOk(k)
  }

  // ---- Changes that leave all of this alone ----

  /** Equal in everything the list invariants look at. */
  ghost predicate SameCore(k: State, k': State) {
    && k'.lists == k.lists && k'.containers == k.containers && k'.values == k.values && k'.priorities == k.priorities
    && k'.tick == k.tick && k'.overflows == k.overflows && k'.nextUnblock == k.nextUnblock && k'.second == k.second
    && k'.topReady == k.topReady && k'.numTasks == k.numTasks && k'.deletedWaiting == k.deletedWaiting
    && k'.clock == k.clock && k'.due == k.due && k'.tasks == k.tasks
  }

  lemma SameAccess(k: State, k': State)
    requires SameCore(k, k')
    ensures forall t :: k'.StateList(t) == k.StateList(t) && k'.EventList(t) == k.EventList(t)
    ensures forall t :: k'.PriorityOf(t) == k.PriorityOf(t) && k'.DueOf(t) == k.DueOf(t)
    ensures forall t :: k'.ValueOf(StateItem(t)) == k.ValueOf(StateItem(t))
  {
  }

  lemma SameRest(k: State, k': State)
    requires SameCore(k, k') && Rest(k)
    ensures Rest(k')
  {
    SameAccess(k, k');
    hide State.StateList, State.EventList, State.PriorityOf, State.DueOf, State.ValueOf;
    assert Dead(k') == Dead(k);
  }

  lemma SameTime(k: State, k': State)
    requires SameCore(k, k') && Timed(k, 0) && NextOk(k)
    ensures Timed(k', 0) && NextOk(k')
  {
    SameAccess(k, k');
    hide State.StateList, State.EventList, State.PriorityOf, State.DueOf, State.ValueOf;
    forall t ensures TimedTask(k', t, 0) {
      assert TimedTask(k, t, 0);
    }
  }

  lemma SameKeeps(k: State, k': State)
    requires SameCore(k, k') && Core(k)
    ensures Core(k')
  {
    FieldsKeepLists(k, k');
    hide Lists, Rest, Timed, NextOk;
    SameRest(k, k');
    SameTime(k, k');
  }

  // ---- Waking ----

  /** k' is k with the tasks ts readied. */
  ghost predicate Woken(k: State, k': State, ts: set<Task>) {
    && OnlyReady(k, k') && k.topReady <= k'.topReady < MAX_PRIORITIES
    && (forall t :: t in ts ==> k.PriorityOf(t) <= k'.topReady)
    && (forall u :: k'.StateList(u) == if u in ts then Some(Ready(k.PriorityOf(u))) else k.StateList(u))
    && (forall u :: k'.EventList(u) == if u in ts then None else k.EventList(u))
  }

  lemma WakeAllWoken(k: State, items: seq<Item>)
    requires Lists(k) && Rest(k) && forall t :: t in Owners(items) ==> IsAsleep(k, t)
    ensures Woken(k, WakeAll(k, items), Owners(items)) && Lists(WakeAll(k, items))
  {
    hide WakeAll, Lists, Owners, State.StateList, State.PriorityOf, State.EventList;
    WakeAllView(k, items);
    WakeAllTop(k, items, MAX_PRIORITIES - 1);
  }

  lemma MakeReadyWoken(k: State, t: Task)
    requires Lists(k) && Rest(k) && IsAsleep(k, t)
    ensures Woken(k, MakeReady(k, t), {t}) && Lists(MakeReady(k, t))
  {
    hide MakeReady, Lists, State.StateList, State.PriorityOf, State.EventList;
    MakeReadyView(k, t);
  }

  /** Fields other than lists, containers and the top priority read the same after a wake. */
  lemma WokenFields(k: State, k': State, ts: set<Task>)
    requires Woken(k, k', ts)
    ensures forall t :: k'.PriorityOf(t) == k.PriorityOf(t) && k'.DueOf(t) == k.DueOf(t)
    ensures forall t :: k'.ValueOf(StateItem(t)) == k.ValueOf(StateItem(t))
  {
  }

  lemma WokenRest(k: State, k': State, ts: set<Task>)
    requires Rest(k) && Woken(k, k', ts) && forall t :: t in ts ==> IsAsleep(k, t)
    ensures Rest(k')
  {
    WokenFields(k, k', ts);
    hide State.StateList, State.EventList, State.PriorityOf, State.DueOf, State.ValueOf;
    assert Dead(k') == Dead(k);
  }

  /** Whatever slack there was, it is used up if the overdue tasks are among those woken. */
  lemma WokenTimed(k: State, k': State, ts: set<Task>, slack: int)
    requires 0 <= slack <= 1 && Timed(k, slack) && TickOk(k) && Woken(k, k', ts)
    requires forall t :: k.StateList(t) == Some(Delayed(k.second)) && k.DueOf(t) <= k.clock ==> t in ts
    ensures Timed(k', 0)
  {
    WokenFields(k, k', ts);
    hide State.StateList, State.EventList, State.PriorityOf, State.DueOf, State.ValueOf;
    forall t ensures TimedTask(k', t, 0) {
      assert TimedTask(k, t, slack);
    }
  }

  lemma WokenNext(k: State, k': State, ts: set<Task>)
    requires NextOk(k) && Woken(k, k', ts)
    ensures NextOk(k')
  {
    WokenFields(k, k', ts);
    hide State.StateList, State.EventList, State.PriorityOf, State.DueOf, State.ValueOf;
  }

  lemma WokenKeeps(k: State, k': State, ts: set<Task>)
    requires Core(k) && Lists(k') && Woken(k, k', ts) && forall t :: t in ts ==> IsAsleep(k, t)
    ensures Core(k')
  {
    NotOverdue(k);
    assert TickOk(k');
    hide Lists, Rest, Timed, NextOk, Woken, IsAsleep;
    WokenRest(k, k', ts);
    WokenTimed(k, k', ts, 0);
    WokenNext(k, k', ts);
  }

  lemma NotOverdue(k: State)
    requires Timed(k, 0)
    ensures forall t :: k.StateList(t) == Some(Delayed(k.second)) ==> k.DueOf(t) > k.clock
  {
    hide State.StateList, State.DueOf, State.ValueOf;
    forall t | k.StateList(t) == Some(Delayed(k.second)) ensures k.DueOf(t) > k.clock {
      assert TimedTask(k, t, 0);
    }
  }

  // ---- The cached unblock time ----

  lemma ResetNextOk(k: State, slack: int)
    requires Lists(k) && Waits(k) && Timed(k, slack)
    ensures NextOk(ResetNextUnblock(k))
  {
    var items, k' := k.ItemsOf(Delayed(k.second)), ResetNextUnblock(k);
    assert SortedItems(k, items);
    forall t | k.StateList(t) == Some(Delayed(k.second)) ensures k'.nextUnblock <= k.ValueOf(StateItem(t)) {
      HeadIsLeast(k, t);
    }
    if items != [] {
      HeadInRange(k, slack);
    }
  }

  lemma HeadIsLeast(k: State, t: Task)
    requires Lists(k) && k.StateList(t) == Some(Delayed(k.second))
    ensures var items := k.ItemsOf(Delayed(k.second)); items != [] && k.ValueOf(items[0]) <= k.ValueOf(StateItem(t))
  {
    var items := k.ItemsOf(Delayed(k.second));
    assert StateItem(t) in items;
    assert SortedItems(k, items);
    hide State.ValueOf, State.RingOf;
    var i :| 0 <= i < |items| && items[i] == StateItem(t);
  }

  /** Only state items are on the delayed lists. */
  lemma OnDelayed(k: State, x: Item, b: bool)
    requires Lists(k) && Waits(k) && x in k.ItemsOf(Delayed(b))
    ensures x == StateItem(x.t) && k.StateList(x.t) == Some(Delayed(b))
  {
    assert x.EventItem? ==> k.EventList(x.t) == Some(Delayed(b));
  }

  lemma HeadInRange(k: State, slack: int)
    requires Lists(k) && Waits(k) && Timed(k, slack) && k.ItemsOf(Delayed(k.second)) != []
    ensures 0 <= k.ValueOf(k.ItemsOf(Delayed(k.second))[0]) < 0x1_0000_0000
  {
    var x := k.ItemsOf(Delayed(k.second))[0];
    OnDelayed(k, x, k.second);
    assert TimedTask(k, x.t, slack);
  }

  // ---- Advancing the tick ----

  /** The state between incrementing the tick and unblocking: some tasks may be due now. */
  ghost predicate Advanced(k: State) {
    Lists(k) && Rest(k) && TickOk(k) && Timed(k, 1) && NextOk(k)
  }

  /** When the tick is about to wrap, the current delayed list is empty. */
  lemma EmptyAtWrap(k: State)
    requires Core(k) && k.tick == 0xFFFF_FFFF
    ensures k.ItemsOf(Delayed(k.second)) == []
    ensures forall t :: k.StateList(t) != Some(Delayed(k.second))
  {
    forall t ensures k.StateList(t) != Some(Delayed(k.second)) {
      assert TimedTask(k, t, 0);
    }
    var items := k.ItemsOf(Delayed(k.second));
    if items != [] {
      OnDelayed(k, items[0], k.second);
    }
  }

  function Ticked(k: State): State {
    k.(tick := if k.tick == 0xFFFF_FFFF then 0 else k.tick + 1, clock := k.clock + 1,
       second := if k.tick == 0xFFFF_FFFF then !k.second else k.second,
       overflows := if k.tick == 0xFFFF_FFFF then k.overflows + 1 else k.overflows)
  }

  lemma TickedTask(k: State, k': State, t: Task)
    requires TickOk(k) && TimedTask(k, t, 0) && k' == Ticked(k)
    requires k.tick == 0xFFFF_FFFF ==> k.StateList(t) != Some(Delayed(k.second))
    requires k'.StateList(t) == k.StateList(t) && k'.DueOf(t) == k.DueOf(t) && k'.ValueOf(StateItem(t)) == k.ValueOf(StateItem(t))
    ensures TimedTask(k', t, 1)
  {
    hide State.StateList, State.ValueOf, State.DueOf;
  }

  lemma TickedTimed(k: State)
    requires Core(k)
    ensures Timed(Ticked(k), 1)
  {
    if k.tick == 0xFFFF_FFFF {
      EmptyAtWrap(k);
    }
    var k' := Ticked(k);
    assert forall t :: k'.StateList(t) == k.StateList(t) && k'.DueOf(t) == k.DueOf(t) && k'.ValueOf(StateItem(t)) == k.ValueOf(StateItem(t));
    hide State.StateList, State.ValueOf, State.DueOf, Lists, Rest;
    forall t ensures TimedTask(k', t, 1) {
      assert TimedTask(k, t, 0);
      TickedTask(k, k', t);
    }
  }

  lemma TickedRest(k: State)
    requires Lists(k) && Rest(k)
    ensures Lists(Ticked(k)) && Rest(Ticked(k))
  {
    var k' := Ticked(k);
    FieldsKeepLists(k, k');
    assert forall t :: k'.PriorityOf(t) == k.PriorityOf(t);
    hide State.StateList, State.EventList, State.PriorityOf, Lists;
    assert Dead(k') == Dead(k);
  }

  lemma RestWaits(k: State)
    requires Rest(k)
    ensures Waits(k)
  {
  }

  lemma AdvanceKeeps(k: State)
    requires Core(k)
    ensures Advanced(Advance(k))
  {
    TickedTimed(k);
    TickedRest(k);
    assert TickOk(Ticked(k));
    var k1 := Ticked(k);
    if k.tick == 0xFFFF_FFFF {
      assert Advance(k) == ResetNextUnblock(k1);
      hide Lists, Timed, ResetNextUnblock, Rest;
      assert Waits(k1) by { RestWaits(k1); }
      ResetNextOk(k1, 1);
      ResetAlike(k1, 1);
    } else {
      assert Advance(k) == k1;
      assert forall t :: k1.StateList(t) == k.StateList(t) && k1.ValueOf(StateItem(t)) == k.ValueOf(StateItem(t));
      hide State.StateList, State.ValueOf, Lists, Rest, Timed;
    }
  }

  /** Resetting the cached unblock time changes nothing else. */
  lemma ResetAlike(k: State, slack: int)
    requires Lists(k) && Rest(k) && TickOk(k) && Timed(k, slack)
    ensures var k' := ResetNextUnblock(k); Lists(k') && Rest(k') && TickOk(k') && Timed(k', slack)
  {
    var k' := ResetNextUnblock(k);
    FieldsKeepLists(k, k');
    assert k'.priorities == k.priorities && k'.values == k.values && k'.due == k.due && k'.tasks == k.tasks;
    hide Lists, ResetNextUnblock;
    ResetRest(k);
    ResetTimed(k, slack);
  }

  lemma ResetRest(k: State)
    requires Rest(k)
    ensures Rest(ResetNextUnblock(k))
  {
    var k' := ResetNextUnblock(k);
    assert forall t :: k'.StateList(t) == k.StateList(t) && k'.EventList(t) == k.EventList(t) && k'.PriorityOf(t) == k.PriorityOf(t);
    hide State.StateList, State.EventList, State.PriorityOf;
    assert Dead(k') == Dead(k);
  }

  lemma ResetTimed(k: State, slack: int)
    requires Timed(k, slack)
    ensures Timed(ResetNextUnblock(k), slack)
  {
    var k' := ResetNextUnblock(k);
    forall t ensures TimedTask(k', t, slack) {
      assert TimedTask(k, t, slack);
    }
  }

  lemma ResetKeeps(k: State)
    requires Core(k)
    ensures Core(ResetNextUnblock(k))
  {
    hide ResetNextUnblock, Lists, Timed, Placed, TopOk, Counted, Waits, NextOk, TickOk;
    ResetNextOk(k, 0);
    ResetAlike(k, 0);
  }

  // ---- Unblocking ----

  predicate IsDelayed(k: State, t: Task) {
    k.StateList(t).Some? && k.StateList(t).value.Delayed?
  }

  /** The scan stops at the first task that is not due, and because the list is sorted that is enough. */
  lemma {:induction false} ExpiredExact(k: State, items: seq<Item>)
    requires SortedItems(k, items)
    ensures forall x :: x in Expired(k, items) <==> x in items && k.ValueOf(x) <= k.tick
  {
    hide State.ValueOf;
    if items != [] {
      assert items == [items[0]] + items[1..];
      if k.tick < k.ValueOf(items[0]) {
        forall x | x in items ensures k.ValueOf(x) > k.tick {
          var i :| 0 <= i < |items| && items[i] == x;
        }
      } else {
        ExpiredExact(k, items[1..]);
      }
    }
  }

  lemma OwnersMember(items: seq<Item>, t: Task)
    ensures t in Owners(items) <==> exists x :: x in items && x.t == t
  {
    if x :| x in items && x.t == t {
      var i :| 0 <= i < |items| && items[i] == x;
    }
  }

  /** A wake value at or below the tick is the same as being due now. */
  lemma DueMeansExpired(k: State, t: Task)
    requires TickOk(k) && TimedTask(k, t, 1) && k.StateList(t) == Some(Delayed(k.second))
    ensures k.ValueOf(StateItem(t)) <= k.tick <==> k.DueOf(t) == k.clock
  {
    hide State.StateList, State.ValueOf, State.DueOf;
  }

  /** The guarded scan of the head finds exactly the tasks that are due. */
  lemma UnblockedExact(k: State, t: Task)
    requires Advanced(k)
    ensures t in Owners(Unblocked(k)) <==> k.StateList(t) == Some(Delayed(k.second)) && k.DueOf(t) == k.clock
  {
    var items := k.ItemsOf(Delayed(k.second));
    assert SortedItems(k, items);
    ExpiredExact(k, items);
    OwnersMember(Unblocked(k), t);
    assert TimedTask(k, t, 1);
    var due := k.StateList(t) == Some(Delayed(k.second)) && k.DueOf(t) == k.clock;
    if due {
      DueMeansExpired(k, t);
      assert StateItem(t) in items && StateItem(t).t == t;
      assert k.nextUnblock <= k.ValueOf(StateItem(t));
      assert StateItem(t) in Unblocked(k);
    }
    if x :| x in Unblocked(k) && x.t == t {
      OnDelayed(k, x, k.second);
      DueMeansExpired(k, t);
    }
  }

  lemma UnblockedAsleep(k: State)
    requires Advanced(k)
    ensures forall t :: t in Owners(Unblocked(k)) ==> IsAsleep(k, t)
    ensures forall t :: t in Owners(Unblocked(k)) <==> k.StateList(t) == Some(Delayed(k.second)) && k.DueOf(t) == k.clock
  {
    hide Advanced, Unblocked, Owners, State.DueOf;
    forall t ensures t in Owners(Unblocked(k)) <==> k.StateList(t) == Some(Delayed(k.second)) && k.DueOf(t) == k.clock {
      UnblockedExact(k, t);
    }
  }

  /** k' is k after a tick: the tasks ts were readied. */
  ghost predicate After(k: State, k': State, ts: set<Task>) {
    && (forall u :: k'.StateList(u) == if u in ts then Some(Ready(k.PriorityOf(u))) else k.StateList(u))
    && (forall u :: k'.EventList(u) == if u in ts then None else k.EventList(u))
  }

  lemma AdvancedTimed(k: State)
    requires Advanced(k)
    ensures forall t :: k.StateList(t) == Some(Delayed(k.second)) ==> k.clock <= k.DueOf(t)
  {
    hide State.StateList, State.DueOf, State.ValueOf;
    forall t | k.StateList(t) == Some(Delayed(k.second)) ensures k.clock <= k.DueOf(t) {
      assert TimedTask(k, t, 1);
    }
  }

  lemma WokenTick(k: State, k': State, ts: set<Task>)
    requires Woken(k, k', ts) && TickOk(k)
    ensures TickOk(k')
  {
  }

  lemma ScanKeeps(k: State)
    requires Advanced(k)
    ensures var k', ts := WakeAll(k, Unblocked(k)), Owners(Unblocked(k));
      Woken(k, k', ts) && Lists(k') && Rest(k') && TickOk(k') && Timed(k', 0) && NextOk(k')
  {
    hide Unblocked, Owners, Lists, Rest, Timed, NextOk, WakeAll, State.StateList, State.DueOf, IsAsleep, State.EventList, State.PriorityOf, Woken;
    UnblockedAsleep(k);
    AdvancedTimed(k);
    var k', ts := WakeAll(k, Unblocked(k)), Owners(Unblocked(k));
    WakeAllWoken(k, Unblocked(k));
    assert TickOk(k') by { WokenTick(k, k', ts); }
    WokenRest(k, k', ts);
    WokenTimed(k, k', ts, 1);
    WokenNext(k, k', ts);
  }

  lemma UnblockKeeps(k: State)
    requires Advanced(k)
    ensures Core(Unblock(k)) && After(k, Unblock(k), Owners(Unblocked(k)))
    ensures Unblock(k) == k.(lists := Unblock(k).lists, containers := Unblock(k).containers,
                             topReady := Unblock(k).topReady, nextUnblock := Unblock(k).nextUnblock)
  {
    var k1 := WakeAll(k, Unblocked(k));
    hide Core, Advanced, WakeAll, Unblocked, Owners, ResetNextUnblock, State.StateList, State.EventList, State.PriorityOf;
    ScanCore(k);
    if k.tick >= k.nextUnblock {
      ResetKeeps(k1);
      ResetAccess(k1);
    } else {
      NothingUnblocked(k);
    }
  }

  lemma ScanCore(k: State)
    requires Advanced(k)
    ensures var k', ts := WakeAll(k, Unblocked(k)), Owners(Unblocked(k)); Core(k') && After(k, k', ts) && OnlyReady(k, k')
  {
    hide WakeAll, Unblocked, Owners, Lists, Rest, Timed, NextOk, TickOk, State.StateList, State.EventList, State.PriorityOf;
    ScanKeeps(k);
  }

  lemma NothingUnblocked(k: State)
    requires k.tick < k.nextUnblock
    ensures WakeAll(k, Unblocked(k)) == k
  {
  }

  lemma ResetAccess(k: State)
    ensures var k' := ResetNextUnblock(k);
      && k' == k.(nextUnblock := k'.nextUnblock)
      && forall u :: k'.StateList(u) == k.StateList(u) && k'.EventList(u) == k.EventList(u)
  {
  }

  /** The tasks that the next tick will find due. */
  predicate DueNext(k: State, t: Task) {
    IsDelayed(k, t) && k.DueOf(t) == k.clock + 1
  }

  lemma AdvanceFields(k: State)
    requires TickOk(k)
    ensures var k1 := Advance(k);
      && k1 == k.(tick := k1.tick, overflows := k1.overflows, clock := k.clock + 1, second := k1.second, nextUnblock := k1.nextUnblock)
      && k1.tick == Ticked(k).tick && k1.second == Ticked(k).second
      && (forall u :: k1.StateList(u) == k.StateList(u) && k1.EventList(u) == k.EventList(u))
      && (forall u :: k1.PriorityOf(u) == k.PriorityOf(u) && k1.DueOf(u) == k.DueOf(u))
  {
  }

  /** A task due at the next tick will be on the current list by then. */
  lemma DueNextIsCurrent(k: State, t: Task)
    requires Core(k) && IsDelayed(k, t)
    ensures DueNext(k, t) <==> k.StateList(t) == Some(Delayed(Ticked(k).second)) && k.DueOf(t) == k.clock + 1
  {
    assert TimedTask(k, t, 0);
    if k.tick == 0xFFFF_FFFF {
      EmptyAtWrap(k);
    }
    hide State.StateList, State.DueOf, State.ValueOf;
  }

  /**
    The exact effect of a processed tick: the delayed tasks due at the new time are ready and
    wait for nothing, and nobody else moves.
   */
  lemma TickExact(k: State)
    requires Core(k)
    ensures var k' := ProcessTick(k);
      && Core(k') && k'.clock == k.clock + 1
      && (forall u :: k'.StateList(u) == if DueNext(k, u) then Some(Ready(k.PriorityOf(u))) else k.StateList(u))
      && (forall u :: k'.EventList(u) == if DueNext(k, u) then None else k.EventList(u))
      && k' == k.(lists := k'.lists, containers := k'.containers, topReady := k'.topReady, nextUnblock := k'.nextUnblock,
                  tick := k'.tick, overflows := k'.overflows, clock := k'.clock, second := k'.second)
  {
    var k1 := Advance(k);
    hide Advance, Unblock, Unblocked, Owners, Core, Advanced, DueNext, State.StateList, State.EventList, State.PriorityOf, State.DueOf, Ticked;
    AdvanceKeeps(k);
    CoreTick(k);
    AdvanceFields(k);
    UnblockKeeps(k1);
    forall u ensures u in Owners(Unblocked(k1)) <==> DueNext(k, u) {
      UnblockedIsDueNext(k, u);
    }
  }

  lemma CoreTick(k: State)
    requires Core(k)
    ensures TickOk(k)
  {
  }

  lemma UnblockedIsDueNext(k: State, u: Task)
    requires Core(k) && Advanced(Advance(k))
    ensures u in Owners(Unblocked(Advance(k))) <==> DueNext(k, u)
  {
    AdvanceFields(k);
    hide Advance, Unblocked, Owners, Lists, Rest, Timed, NextOk;
    UnblockedAsleep(Advance(k));
    if IsDelayed(k, u) {
      DueNextIsCurrent(k, u);
    }
  }
}
