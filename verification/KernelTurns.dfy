/**
  Who runs next: a tick asks for a switch when another task of the running task's priority is
  ready, a switch takes the next task of the highest ready list, and so a task of that priority
  gets its turn. The ready list of each priority changes by the list operations that `StepOps`
  names, so the law of overtaking applies to it.
 */
module KernelTurns {
  import opened Options
  import opened Kernel
  import opened KernelLists
  import opened KernelTime
  import opened KernelRuns
  import opened KernelSteps
  import opened KernelTheorems
  import opened KernelResults
  import Rings

  // ---- When a tick asks for a switch ----

  /** Two tasks ready at a priority. */
  ghost predicate Sharing(k: State, p: int) {
    exists t, u :: t != u && k.StateList(t) == Some(Ready(p)) && k.StateList(u) == Some(Ready(p))
  }

  lemma SharingIsLength(k: State, p: int)
    requires Lists(k) && Placed(k) && Waits(k)
    ensures Sharing(k, p) <==> |k.ItemsOf(Ready(p))| > 1
  {
    var items := k.ItemsOf(Ready(p));
    assert Rings.Valid(k.RingOf(Ready(p)));
    if t, u :| t != u && k.StateList(t) == Some(Ready(p)) && k.StateList(u) == Some(Ready(p)) {
      assert StateItem(t) in items && StateItem(u) in items;
      var i :| 0 <= i < |items| && items[i] == StateItem(t);
      var j :| 0 <= j < |items| && items[j] == StateItem(u);
    }
    if |items| > 1 {
      assert Linked(k);
      OnReady(k, items[0], p);
      OnReady(k, items[1], p);
      assert items[0].t != items[1].t;
    }
  }

  lemma AnyAtLeastOwners(k: State, items: seq<Item>)
    ensures AnyAtLeast(k, items) <==> exists t :: t in Owners(items) && k.PriorityOf(t) >= k.PriorityOf(k.current)
  {
    if AnyAtLeast(k, items) {
      var i :| 0 <= i < |items| && k.PriorityOf(items[i].t) >= k.PriorityOf(k.current);
      assert items[i].t in Owners(items);
    }
  }

  /** Exactly when a processed tick asks for a switch: someone due is not below the running task, or shares its priority. */
  lemma TickSwitchesExact(k: State)
    requires Core(k)
    ensures TickSwitches(k) <==>
      || (exists t :: DueNext(k, t) && k.PriorityOf(t) >= k.PriorityOf(k.current))
      || Sharing(ProcessTick(k), k.PriorityOf(k.current))
      || k.yieldPending
  {
    hide Core, Advance, Unblocked, AnyAtLeast, ProcessTick, Owners, DueNext, State.PriorityOf, Sharing;
    var k1 := Advance(k);
    CoreTick(k);
    AdvanceKeeps(k);
    AdvanceFields(k);
    TickCore(k);
    CoreParts(ProcessTick(k));
    SharingIsLength(ProcessTick(k), k.PriorityOf(k.current));
    AnyAtLeastOwners(k1, Unblocked(k1));
    forall t ensures t in Owners(Unblocked(k1)) <==> DueNext(k, t) {
      UnblockedIsDueNext(k, t);
    }
  }

  /** Time slicing: with another task ready at the running task's priority, every tick asks for a switch. */
  lemma TimeSlice(k: State, t: Task)
    requires Reachable(k) && k.suspended == 0 && IsReady(k, k.current) && IsReady(k, t)
    requires t != k.current && k.PriorityOf(t) == k.PriorityOf(k.current)
    ensures TickInterrupt(k).switchRequested
  {
    hide Reachable, Inv, Core, ProcessTick, TickSwitches, TickInterrupt, State.StateList, State.PriorityOf, State.EventList, DueNext;
    ReachableInv(k);
    InvSuspended(k);
    PriorityPlaced(k, t);
    PriorityPlaced(k, k.current);
    TickInterruptFields(k);
    TickSwitchesExact(k);
    TickExact(k);
    SleeperNotReady(k, t);
    SleeperNotReady(k, k.current);
    assert Sharing(ProcessTick(k), k.PriorityOf(k.current));
  }

  lemma SleeperNotReady(k: State, t: Task)
    ensures IsReady(k, t) ==> !DueNext(k, t)
  {
  }

  // ---- What a switch picks ----

  /** A switch takes the next task of the highest ready list and turns that list on by one. */
  lemma SwitchTakesNext(k: State)
    requires Reachable(k) && k.suspended == 0
    ensures var k', p := SwitchContext(k), ScanDown(k, k.topReady);
      && (forall t :: IsReady(k, t) ==> k.PriorityOf(t) <= p) && Rings.Valid(k.RingOf(Ready(p))) && k.ItemsOf(Ready(p)) != []
      && k'.current == Rings.Picked(k.RingOf(Ready(p))).t && k'.RingOf(Ready(p)) == Rings.Next(k.RingOf(Ready(p)))
      && (forall l :: l != Ready(p) ==> k'.RingOf(l) == k.RingOf(l))
      && !k'.switchRequested && !k'.yieldPending
  {
    hide Reachable, Inv, Core, ScanDown, Rings.Valid, Rings.Next, Rings.Picked, IsReady, Lists, Rest;
    ReachableInv(k);
    SwitchPicks(k);
    forall t | IsReady(k, t) ensures k.PriorityOf(t) <= ScanDown(k, k.topReady) {
      PriorityPlaced(k, t);
      ReadyAt(k, t);
    }
  }

  lemma ReadyAt(k: State, t: Task)
    requires Inv(k) && IsReady(k, t) && k.StateList(t) == Some(Ready(k.PriorityOf(t)))
    ensures k.PriorityOf(t) <= ScanDown(k, k.topReady)
  {
    assert Linked(k);
    ScanFindsHighest(k, k.topReady);
  }

  lemma SwitchPicks(k: State)
    requires Inv(k) && k.suspended == 0
    ensures var k', p := SwitchContext(k), ScanDown(k, k.topReady);
      && Rings.Valid(k.RingOf(Ready(p))) && k.ItemsOf(Ready(p)) != []
      && k'.current == Rings.Picked(k.RingOf(Ready(p))).t && k'.RingOf(Ready(p)) == Rings.Next(k.RingOf(Ready(p)))
      && (forall l :: l != Ready(p) ==> k'.RingOf(l) == k.RingOf(l))
      && !k'.switchRequested && !k'.yieldPending
  {
    assert Linked(k);
    ScanFindsHighest(k, k.topReady);
    assert Rings.Valid(k.RingOf(Ready(ScanDown(k, k.topReady))));
    hide Linked, Placed, ScanDown, Rings.Valid, Rings.Next, Rings.Picked;
  }

  // ---- Ready lists as rings ----

  type Op = Rings.Op<Item>

  /** The operations turn r into r' and pass x over. */
  ghost predicate Turns(r: Rings.Ring<Item>, ops: seq<Op>, x: Item, r': Rings.Ring<Item>) {
    Rings.PassesOver(r, ops, x) && Rings.After(r, ops, x) == r'
  }

  lemma TurnsNone(r: Rings.Ring<Item>, x: Item)
    requires Rings.Valid(r) && x in r.items
    ensures Turns(r, [], x, r)
  {
  }

  lemma TurnsOne(r: Rings.Ring<Item>, op: Op, x: Item)
    requires Rings.Allowed(r, op) && x in r.items && op != Rings.RemoveOp(x) && (op.NextOp? ==> Rings.Picked(r) != x)
    ensures Turns(r, [op], x, Rings.Apply(r, op)) && Rings.Selections([op]) == if op.NextOp? then 1 else 0
  {
    hide Rings.Allowed, Rings.Apply, Rings.Picked, Rings.PassesOver, Rings.After, Rings.Selections;
    Rings.PassesOne(r, op, x);
  }

  lemma TurnsThen(r: Rings.Ring<Item>, ops: seq<Op>, r1: Rings.Ring<Item>, more: seq<Op>, r2: Rings.Ring<Item>, x: Item)
    requires Turns(r, ops, x, r1) && Turns(r1, more, x, r2)
    ensures Turns(r, ops + more, x, r2) && Rings.Selections(ops + more) == Rings.Selections(ops) + Rings.Selections(more)
  {
    hide Rings.PassesOver, Rings.After;
    Rings.PassesAppend(r, ops, more, x);
  }

  /** A task that is made ready joins the list of its priority. */
  function JoinOps(k: State, u: Task, p: int): seq<Op> {
    if k.PriorityOf(u) == p then [Rings.InsertOp(StateItem(u))] else []
  }

  /** A task that stops being ready, or moves, leaves the list it was on. */
  function LeaveOps(k: State, u: Task, p: int): seq<Op> {
    if k.StateList(u) == Some(Ready(p)) then [Rings.RemoveOp(StateItem(u))] else []
  }

  function WakeOps(k: State, items: seq<Item>, p: int): seq<Op> {
    if items == [] then [] else JoinOps(k, items[0].t, p) + WakeOps(k, items[1..], p)
  }

  function TickOps(k: State, p: int): seq<Op> { WakeOps(Advance(k), Unblocked(Advance(k)), p) }

  function ReplayOps(k: State, n: nat, p: int): seq<Op>
    decreases n
  {
    if n == 0 then [] else TickOps(k, p) + ReplayOps(Replayed(k), n - 1, p)
  }

  function ResumeOps(k: State, p: int): seq<Op> {
    if k.suspended != 1 || k.pended < 0 then []
    else WakeOps(k, k.ItemsOf(PendingReady), p) + ReplayOps(Stage2(k), k.pended, p)
  }

  /** What one action does to the ready list of priority p. */
  function StepOps(k: State, a: Action, p: int): seq<Op> {
    match a
    case ResumeScheduler(_) => ResumeOps(k, p)
    case Block(_, _, _, _) => LeaveOps(k, k.current, p)
    case RemoveEvent(o) => if k.suspended == 0 && k.ItemsOf(Event(o)) != [] then JoinOps(k, k.ItemsOf(Event(o))[0].t, p) else []
    case RemoveUnorderedEvent(u) => JoinOps(k, u, p)
    case Resume(u) => if u != k.current && IsSuspended(k, u) then JoinOps(k, u, p) else []
    case Suspend(u) => LeaveOps(k, u, p)
    case Delete(u) => LeaveOps(k, u, p)
    case Create(u, q) => if q == p then [Rings.InsertOp(StateItem(u))] else []
    case ChangePriority(u, q) =>
      var q' := if q >= MAX_PRIORITIES then MAX_PRIORITIES - 1 else q;
      if q' == k.PriorityOf(u) || !IsReady(k, u) then []
      else LeaveOps(k, u, p) + if q' == p then [Rings.InsertOp(StateItem(u))] else []
    case TickIsr => if k.suspended == 0 then TickOps(k, p) else []
    case ResumeIsr(u) => if IsSuspended(k, u) && k.suspended == 0 then JoinOps(k, u, p) else []
    case Switch => if k.suspended == 0 && ScanDown(k, k.topReady) == p then [Rings.NextOp] else []
    case _ => []
  }

  /** t is ready at p. */
  predicate At(k: State, t: Task, p: int) { k.StateList(t) == Some(Ready(p)) }

  lemma RingMember(k: State, t: Task, p: int)
    requires Lists(k) && At(k, t, p)
    ensures Rings.Valid(k.RingOf(Ready(p))) && StateItem(t) in k.ItemsOf(Ready(p))
  {
    assert Linked(k);
  }

  // ---- Primitives ----

  lemma UnlinkRing(k: State, x: Item, p: int)
    requires Lists(k)
    ensures Unlink(k, x).RingOf(Ready(p)) ==
      if k.ContainerOf(x) == Some(Ready(p)) then Rings.Remove(k.RingOf(Ready(p)), x) else k.RingOf(Ready(p))
  {
    hide Unlink, Rings.Valid, Rings.Remove, State.RingOf, State.ContainerOf;
    ListsLinked(k);
    UnlinkView(k, x);
  }

  lemma ListsLinked(k: State)
    requires Lists(k)
    ensures Linked(k)
  {
  }

  lemma AddRing(k: State, u: Task, p: int)
    requires Lists(k) && k.StateList(u) == None
    ensures Rings.Valid(k.RingOf(Ready(p))) && StateItem(u) !in k.ItemsOf(Ready(p))
    ensures AddToReady(k, u).RingOf(Ready(p)) ==
      if k.PriorityOf(u) == p then Rings.InsertEnd(k.RingOf(Ready(p)), StateItem(u)) else k.RingOf(Ready(p))
  {
    hide LinkEnd, Lists, Rings.Valid, Rings.InsertEnd, State.RingOf, State.PriorityOf;
    var q := k.PriorityOf(u);
    var k1 := k.(topReady := if q > k.topReady then q else k.topReady);
    FieldsKeepLists(k, k1);
    ListsLinked(k);
    ListsLinked(k1);
    SameRings(k, k1, p);
    LinkEndView(k1, Ready(q), StateItem(u));
    NotThere(k, u, p);
  }

  lemma SameRings(k: State, k1: State, p: int)
    requires k1.lists == k.lists
    ensures k1.RingOf(Ready(p)) == k.RingOf(Ready(p))
  {
  }

  lemma NotThere(k: State, u: Task, p: int)
    requires Linked(k) && k.StateList(u) != Some(Ready(p))
    ensures Rings.Valid(k.RingOf(Ready(p))) && StateItem(u) !in k.ItemsOf(Ready(p))
  {
  }

  /** A sleeping task that is made ready is inserted in the list of its priority and changes no other ready list. */
  lemma MakeReadyRing(k: State, u: Task, p: int)
    requires Lists(k) && Rest(k) && IsAsleep(k, u)
    ensures Rings.Valid(k.RingOf(Ready(p))) && StateItem(u) !in k.ItemsOf(Ready(p))
    ensures MakeReady(k, u).RingOf(Ready(p)) ==
      if k.PriorityOf(u) == p then Rings.InsertEnd(k.RingOf(Ready(p)), StateItem(u)) else k.RingOf(Ready(p))
  {
    hide Unlink, AddToReady, Lists, Rings.Valid, Rings.InsertEnd, Rings.Remove, State.RingOf, State.PriorityOf, OnlyLists;
    var k1 := Unlink(k, EventItem(u));
    var k2 := Unlink(k1, StateItem(u));
    SleeperLists(k, u, p);
    EventOff(k, u);
    StateOff(k1, u);
    UnlinkRing(k, EventItem(u), p);
    UnlinkRing(k1, StateItem(u), p);
    OnlyListsAccess(k, k1);
    OnlyListsAccess(k1, k2);
    AddRing(k2, u, p);
  }

  /** Neither item of a sleeping task is on a ready list. */
  lemma SleeperLists(k: State, u: Task, p: int)
    requires Rest(k) && IsAsleep(k, u)
    ensures k.ContainerOf(EventItem(u)) != Some(Ready(p)) && k.ContainerOf(StateItem(u)) != Some(Ready(p))
    ensures k.EventList(u) != Some(Ready(p)) && k.StateList(u) != Some(Ready(p))
  {
    assert k.EventList(u).Some? ==> IsAsleep(k, u);
  }

  lemma JoinTurns(k: State, u: Task, t: Task, p: int)
    requires Lists(k) && Rest(k) && IsAsleep(k, u) && At(k, t, p)
    ensures Turns(k.RingOf(Ready(p)), JoinOps(k, u, p), StateItem(t), MakeReady(k, u).RingOf(Ready(p)))
    ensures Rings.Selections(JoinOps(k, u, p)) == 0
  {
    hide MakeReady, Lists, Rest, Turns, Rings.Valid, Rings.InsertEnd, State.RingOf, State.PriorityOf, IsAsleep;
    RingMember(k, t, p);
    MakeReadyRing(k, u, p);
    TurnsNone(k.RingOf(Ready(p)), StateItem(t));
    if k.PriorityOf(u) == p {
      TurnsOne(k.RingOf(Ready(p)), Rings.InsertOp(StateItem(u)), StateItem(t));
    }
  }

  // ---- Ticks and resuming ----

  lemma PrioritiesAfter(k: State, u: Task, items: seq<Item>, p: int)
    requires Lists(k)
    ensures WakeOps(MakeReady(k, u), items, p) == WakeOps(k, items, p)
  {
    hide MakeReady, Lists, State.PriorityOf;
    MakeReadyView(k, u);
    OnlyReadyThen(k, MakeReady(k, u), MakeReady(k, u));
    SamePrioritiesSameOps(k, MakeReady(k, u), items, p);
  }

  lemma {:induction false} SamePrioritiesSameOps(k: State, k': State, items: seq<Item>, p: int)
    requires forall u :: k'.PriorityOf(u) == k.PriorityOf(u)
    ensures WakeOps(k', items, p) == WakeOps(k, items, p)
  {
    hide State.PriorityOf;
    if items != [] {
      SamePrioritiesSameOps(k, k', items[1..], p);
    }
  }

  /** Waking one sleeper leaves the other sleepers asleep and the ready tasks ready. */
  lemma AfterOneWake(k: State, items: seq<Item>, t: Task, p: int)
    requires Lists(k) && Rest(k) && items != [] && At(k, t, p)
    requires forall i :: 0 <= i < |items| ==> IsAsleep(k, items[i].t)
    requires forall i, j :: 0 <= i < j < |items| ==> items[i].t != items[j].t
    ensures var k1 := MakeReady(k, items[0].t);
      && Lists(k1) && Rest(k1) && At(k1, t, p)
      && forall i :: 0 <= i < |items[1..]| ==> IsAsleep(k1, items[1..][i].t)
  {
    hide MakeReady, Lists, Rest, State.StateList, State.EventList, State.PriorityOf;
    var k1 := MakeReady(k, items[0].t);
    assert IsAsleep(k, items[0].t) && !IsAsleep(k, t);
    MakeReadyWoken(k, items[0].t);
    WokenRest(k, k1, {items[0].t});
    WokenStates(k, k1, {items[0].t});
  }

  lemma {:induction false} WakeTurns(k: State, items: seq<Item>, t: Task, p: int)
    requires Lists(k) && Rest(k) && At(k, t, p)
    requires forall i :: 0 <= i < |items| ==> IsAsleep(k, items[i].t)
    requires forall i, j :: 0 <= i < j < |items| ==> items[i].t != items[j].t
    ensures Turns(k.RingOf(Ready(p)), WakeOps(k, items, p), StateItem(t), WakeAll(k, items).RingOf(Ready(p)))
    ensures Rings.Selections(WakeOps(k, items, p)) == 0
    decreases |items|
  {
    hide MakeReady, Lists, Rest, Turns, State.RingOf, State.PriorityOf, IsAsleep, At, JoinOps, Rings.Valid;
    if items == [] {
      RingMember(k, t, p);
      TurnsNone(k.RingOf(Ready(p)), StateItem(t));
    } else {
      var u, k1 := items[0].t, MakeReady(k, items[0].t);
      AfterOneWake(k, items, t, p);
      JoinTurns(k, u, t, p);
      PrioritiesAfter(k, u, items[1..], p);
      WakeTurns(k1, items[1..], t, p);
      TurnsThen(k.RingOf(Ready(p)), JoinOps(k, u, p), k1.RingOf(Ready(p)), WakeOps(k, items[1..], p), WakeAll(k, items).RingOf(Ready(p)), StateItem(t));
    }
  }

  /** The sleepers on one list are different tasks. */
  lemma SleepersDiffer(k: State, l: ListId, items: seq<Item>)
    requires Lists(k) && Placed(k) && Waits(k) && (l.Delayed? || l.PendingReady?)
    requires |items| <= |k.ItemsOf(l)| && items == k.ItemsOf(l)[..|items|]
    ensures forall i :: 0 <= i < |items| ==> IsAsleep(k, items[i].t)
    ensures forall i, j :: 0 <= i < j < |items| ==> items[i].t != items[j].t
  {
    var all := k.ItemsOf(l);
    assert Rings.Valid(k.RingOf(l));
    hide Placed, Waits, Lists, State.RingOf;
    forall i | 0 <= i < |all| ensures IsAsleep(k, all[i].t) && all[i] == if l.Delayed? then StateItem(all[i].t) else EventItem(all[i].t) {
      SleeperItem(k, l, all[i]);
    }
  }

  lemma SleeperItem(k: State, l: ListId, x: Item)
    requires Lists(k) && Placed(k) && Waits(k) && (l.Delayed? || l.PendingReady?) && x in k.ItemsOf(l)
    ensures IsAsleep(k, x.t) && x == if l.Delayed? then StateItem(x.t) else EventItem(x.t)
  {
    if l.Delayed? {
      OnDelayed(k, x, l.second);
    } else {
      OnPending(k, x);
    }
  }

  lemma {:induction false} ExpiredPrefix(k: State, items: seq<Item>)
    ensures |Expired(k, items)| <= |items| && Expired(k, items) == items[..|Expired(k, items)|]
  {
    if items != [] && k.tick >= k.ValueOf(items[0]) {
      ExpiredPrefix(k, items[1..]);
      var n := |Expired(k, items[1..])|;
      assert items[..n + 1] == [items[0]] + items[1..][..n];
    }
  }

  lemma TickTurns(k: State, t: Task, p: int)
    requires Core(k) && At(k, t, p)
    ensures Turns(k.RingOf(Ready(p)), TickOps(k, p), StateItem(t), ProcessTick(k).RingOf(Ready(p)))
    ensures Rings.Selections(TickOps(k, p)) == 0
  {
    hide Core, Advance, Unblock, Unblocked, WakeOps, WakeAll, TickOps, ProcessTick, Lists, Rest, Turns, Advanced, State.StateList;
    hide State.EventList, State.PriorityOf, State.RingOf;
    var k1 := Advance(k);
    TickShape(k, p);
    CoreTick(k);
    AdvanceKeeps(k);
    AdvanceFields(k);
    AdvancedParts(k1);
    AdvanceRings(k, p);
    UnblockedDiffer(k1);
    WakeTurns(k1, Unblocked(k1), t, p);
    UnblockRings(k1, p);
  }

  lemma TickShape(k: State, p: int)
    ensures TickOps(k, p) == WakeOps(Advance(k), Unblocked(Advance(k)), p) && ProcessTick(k) == Unblock(Advance(k))
  {
  }

  lemma AdvancedParts(k: State)
    requires Advanced(k)
    ensures Lists(k) && Rest(k) && Placed(k) && Waits(k)
  {
  }

  lemma AdvanceRings(k: State, p: int)
    ensures Advance(k).RingOf(Ready(p)) == k.RingOf(Ready(p))
  {
    hide State.ValueOf;
    SameRings(k, Advance(k), p);
  }

  lemma UnblockedDiffer(k: State)
    requires Advanced(k)
    ensures var items := Unblocked(k);
      && (forall i :: 0 <= i < |items| ==> IsAsleep(k, items[i].t))
      && (forall i, j :: 0 <= i < j < |items| ==> items[i].t != items[j].t)
  {
    AdvancedParts(k);
    ExpiredPrefix(k, k.ItemsOf(Delayed(k.second)));
    hide Expired, Advanced, IsAsleep, Lists, Placed, Waits, Rest;
    SleepersDiffer(k, Delayed(k.second), Unblocked(k));
  }

  lemma UnblockRings(k: State, p: int)
    ensures Unblock(k).RingOf(Ready(p)) == WakeAll(k, Unblocked(k)).RingOf(Ready(p))
  {
    hide Expired;
    if k.tick >= k.nextUnblock {
      SameRings(WakeAll(k, Unblocked(k)), ResetNextUnblock(WakeAll(k, Unblocked(k))), p);
    } else {
      assert WakeAll(k, []) == k;
    }
  }

  lemma DrainTurns(k: State, t: Task, p: int)
    requires Core(k) && At(k, t, p)
    ensures Turns(k.RingOf(Ready(p)), WakeOps(k, k.ItemsOf(PendingReady), p), StateItem(t), DrainPending(k).RingOf(Ready(p)))
    ensures Rings.Selections(WakeOps(k, k.ItemsOf(PendingReady), p)) == 0
  {
    var items := k.ItemsOf(PendingReady);
    assert items[..|items|] == items;
    hide Core, WakeOps, WakeAll, Lists, Rest, Turns, At, State.RingOf, ResetNextUnblock, AnyAtLeast, DrainPending;
    InvSuspendedCore(k);
    SleepersDiffer(k, PendingReady, items);
    WakeTurns(k, items, t, p);
    DrainRings(k, p);
  }

  lemma InvSuspendedCore(k: State)
    requires Core(k)
    ensures Lists(k) && Rest(k) && Placed(k) && Waits(k)
  {
  }

  lemma DrainRings(k: State, p: int)
    ensures DrainPending(k).RingOf(Ready(p)) == WakeAll(k, k.ItemsOf(PendingReady)).RingOf(Ready(p))
  {
    hide AnyAtLeast, WakeAll;
    if k.ItemsOf(PendingReady) == [] {
      WakeNone(k);
    }
  }

  lemma WakeNone(k: State)
    ensures WakeAll(k, []) == k
  {
  }

  lemma {:induction false} ReplayTurns(k: State, n: nat, t: Task, p: int)
    requires Core(k) && NonePending(k) && At(k, t, p)
    ensures Turns(k.RingOf(Ready(p)), ReplayOps(k, n, p), StateItem(t), ReplayTicks(k, n).RingOf(Ready(p)))
    ensures Rings.Selections(ReplayOps(k, n, p)) == 0
    decreases n
  {
    hide Core, NonePending, Turns, TickOps, Replayed, Lists, Rest, State.RingOf, Rings.Valid, Calm, ReadyGrows;
    if n == 0 {
      InvSuspendedCore(k);
      RingMember(k, t, p);
      TurnsNone(k.RingOf(Ready(p)), StateItem(t));
    } else {
      var k1 := Replayed(k);
      TickTurns(k, t, p);
      ReplayedRing(k, p);
      ReplayStep(k, n);
      ReplayedKeeps(k);
      ReplayedAt(k, t, p);
      ReplayTurns(k1, n - 1, t, p);
      TurnsThen(k.RingOf(Ready(p)), TickOps(k, p), k1.RingOf(Ready(p)), ReplayOps(k1, n - 1, p), ReplayTicks(k, n).RingOf(Ready(p)), StateItem(t));
    }
  }

  lemma ReplayedRing(k: State, p: int)
    ensures Replayed(k).RingOf(Ready(p)) == ProcessTick(k).RingOf(Ready(p))
  {
    hide ProcessTick, TickSwitches;
  }

  lemma ReplayedAt(k: State, t: Task, p: int)
    requires Core(k) && At(k, t, p)
    ensures At(Replayed(k), t, p)
  {
    hide Core, Replayed, State.StateList, State.PriorityOf;
    ReplayedView(k);
  }

  lemma ResumeTurns(k: State, thenYield: bool, t: Task, p: int)
    requires Inv(k) && k.suspended > 0 && At(k, t, p)
    ensures Turns(k.RingOf(Ready(p)), ResumeOps(k, p), StateItem(t), ResumeAll(k, thenYield).RingOf(Ready(p)))
    ensures Rings.Selections(ResumeOps(k, p)) == 0
  {
    if k.suspended != 1 {
      NestedRing(k, thenYield, p);
      InvSuspended(k);
      RingMember(k, t, p);
      TurnsNone(k.RingOf(Ready(p)), StateItem(t));
      hide Inv, ResumeAll, Turns, Lists;
    } else {
      OuterTurns(k, thenYield, t, p);
    }
  }

  lemma NestedRing(k: State, thenYield: bool, p: int)
    requires k.suspended != 1
    ensures ResumeAll(k, thenYield).RingOf(Ready(p)) == k.RingOf(Ready(p))
  {
    hide DrainPending, ReplayTicks;
  }

  lemma OuterTurns(k: State, thenYield: bool, t: Task, p: int)
    requires Inv(k) && k.suspended == 1 && At(k, t, p)
    ensures Turns(k.RingOf(Ready(p)), ResumeOps(k, p), StateItem(t), ResumeAll(k, thenYield).RingOf(Ready(p)))
    ensures Rings.Selections(ResumeOps(k, p)) == 0
  {
    hide Core, Turns, WakeOps, ReplayOps, ReplayTicks, DrainPending, ResumeAll, NonePending, Calm, ReadyGrows, RunOk, State.RingOf, Rings.Valid;
    var k1 := Stage1(k);
    SuspendedSame(k, p);
    SameKeeps(k, k1);
    SameStates(k, k1);
    DrainTurns(k1, t, p);
    DrainKeeps(k1);
    DrainAt(k1, t, p);
    ReplayTurns(Stage2(k), k.pended, t, p);
    ResumeRing(k, thenYield, p);
    TurnsThen(k.RingOf(Ready(p)), WakeOps(k, k.ItemsOf(PendingReady), p), Stage2(k).RingOf(Ready(p)), ReplayOps(Stage2(k), k.pended, p),
              ResumeAll(k, thenYield).RingOf(Ready(p)), StateItem(t));
  }

  lemma SuspendedSame(k: State, p: int)
    ensures SameCore(k, Stage1(k)) && Stage1(k).RingOf(Ready(p)) == k.RingOf(Ready(p))
    ensures Stage1(k).ItemsOf(PendingReady) == k.ItemsOf(PendingReady)
    ensures WakeOps(Stage1(k), k.ItemsOf(PendingReady), p) == WakeOps(k, k.ItemsOf(PendingReady), p)
  {
    assert forall u :: Stage1(k).PriorityOf(u) == k.PriorityOf(u);
    hide WakeOps, State.PriorityOf;
    SamePrioritiesSameOps(k, Stage1(k), k.ItemsOf(PendingReady), p);
  }

  lemma DrainAt(k: State, t: Task, p: int)
    requires Core(k) && At(k, t, p) && DrainedView(k, DrainPending(k))
    ensures At(DrainPending(k), t, p)
  {
    ReadySleepsNot(k, t, p);
    hide Core, DrainPending, State.StateList, State.EventList, State.PriorityOf;
  }

  lemma ReadySleepsNot(k: State, t: Task, p: int)
    requires Core(k) && At(k, t, p)
    ensures k.EventList(t) == None
  {
    assert !IsAsleep(k, t);
  }

  lemma ResumeRing(k: State, thenYield: bool, p: int)
    requires k.suspended == 1 && k.pended >= 0
    ensures ResumeAll(k, thenYield).RingOf(Ready(p)) == Stage3(k).RingOf(Ready(p))
  {
    hide DrainPending, ReplayTicks;
  }
}
