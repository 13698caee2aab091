/**
  Round robin: over any run of the kernel a ready task of the highest ready priority, with n
  tasks ahead of it in its list, is chosen within n + 1 switches, plus one for each task that was
  inserted directly in front of it in the meantime.
 */
module KernelRoundRobin {
  import opened Options
  import opened Kernel
  import opened KernelLists
  import opened KernelTime
  import opened KernelRuns
  import opened KernelSteps
  import opened KernelTheorems
  import opened KernelResults
  import opened KernelTurns
  import Rings

  // ---- What list operations do to a ready list ----

  lemma LinkEndElsewhere(k: State, l: ListId, x: Item, p: int)
    requires l != Ready(p)
    ensures LinkEnd(k, l, x).RingOf(Ready(p)) == k.RingOf(Ready(p))
  {
  }

  lemma LinkAtElsewhere(k: State, l: ListId, at: int, x: Item, p: int)
    requires l != Ready(p)
    ensures LinkAt(k, l, at, x).RingOf(Ready(p)) == k.RingOf(Ready(p))
  {
  }

  /** A ready list after u has left it, if it was there. */
  function WithoutTask(k: State, u: Task, p: int): Rings.Ring<Item>
    requires Rings.Valid(k.RingOf(Ready(p)))
  {
    if k.StateList(u) == Some(Ready(p)) then Rings.Remove(k.RingOf(Ready(p)), StateItem(u)) else k.RingOf(Ready(p))
  }

  lemma ReadyRing(k: State, p: int)
    requires Lists(k)
    ensures Rings.Valid(k.RingOf(Ready(p)))
  {
    assert Linked(k);
  }

  lemma NoEventOnReady(k: State, u: Task, p: int)
    requires Rest(k)
    ensures k.EventList(u) != Some(Ready(p)) && k.ContainerOf(EventItem(u)) != Some(Ready(p))
  {
  }

  lemma UnlinkTaskRing(k: State, u: Task, p: int)
    requires Lists(k)
    ensures Rings.Valid(k.RingOf(Ready(p))) && Unlink(k, StateItem(u)).RingOf(Ready(p)) == WithoutTask(k, u, p)
  {
    hide Unlink, Lists, Rings.Valid, Rings.Remove, State.RingOf, State.ContainerOf;
    ReadyRing(k, p);
    UnlinkRing(k, StateItem(u), p);
  }

  /** Both items of u are taken off their lists. */
  lemma DetachRing(k: State, u: Task, p: int)
    requires Lists(k) && Rest(k)
    ensures Rings.Valid(k.RingOf(Ready(p)))
    ensures Unlink(Unlink(k, EventItem(u)), StateItem(u)).RingOf(Ready(p)) == WithoutTask(k, u, p)
  {
    hide Unlink, Lists, Rest, Rings.Valid, Rings.Remove, State.RingOf, State.ContainerOf, State.EventList, State.StateList;
    var k1 := Unlink(k, EventItem(u));
    NoEventOnReady(k, u, p);
    UnlinkRing(k, EventItem(u), p);
    EventOff(k, u);
    ReadyRing(k, p);
    UnlinkTaskRing(k1, u, p);
  }

  lemma LeaveTurns(k: State, u: Task, t: Task, p: int)
    requires Lists(k) && At(k, t, p) && u != t
    ensures Rings.Valid(k.RingOf(Ready(p)))
    ensures Turns(k.RingOf(Ready(p)), LeaveOps(k, u, p), StateItem(t), WithoutTask(k, u, p))
    ensures Rings.Selections(LeaveOps(k, u, p)) == 0
  {
    hide Lists, Turns, Rings.Valid, Rings.Remove, State.RingOf;
    RingMember(k, t, p);
    TurnsNone(k.RingOf(Ready(p)), StateItem(t));
    if k.StateList(u) == Some(Ready(p)) {
      RingMember(k, u, p);
      TurnsOne(k.RingOf(Ready(p)), Rings.RemoveOp(StateItem(u)), StateItem(t));
    }
  }

  /** The step leaves the ready list of p as it was. */
  lemma SameTurns(k: State, k': State, t: Task, p: int)
    requires Lists(k) && At(k, t, p) && k'.RingOf(Ready(p)) == k.RingOf(Ready(p))
    ensures Turns(k.RingOf(Ready(p)), [], StateItem(t), k'.RingOf(Ready(p))) && Rings.Selections<Item>([]) == 0
  {
    hide Lists, Turns, Rings.Valid, State.RingOf;
    RingMember(k, t, p);
    TurnsNone(k.RingOf(Ready(p)), StateItem(t));
  }

  // ---- What each action does to a ready list ----

  /** A step from k to k' that passes t over. */
  ghost predicate Passes(k: State, ops: seq<Op>, k': State, t: Task, p: int) {
    Turns(k.RingOf(Ready(p)), ops, StateItem(t), k'.RingOf(Ready(p)))
  }

  /** Flags do not matter to a ready list. */
  lemma JoinPasses(k: State, u: Task, k': State, t: Task, p: int)
    requires Inv(k) && IsAsleep(k, u) && At(k, t, p) && k'.lists == MakeReady(k, u).lists
    ensures Passes(k, JoinOps(k, u, p), k', t, p) && Rings.Selections(JoinOps(k, u, p)) == 0
  {
    hide Inv, Core, Lists, Rest, MakeReady, Turns, JoinOps, IsAsleep, At;
    InvSuspended(k);
    JoinTurns(k, u, t, p);
    SameRings(MakeReady(k, u), k', p);
  }

  lemma EventPasses(k: State, o: Object, t: Task, p: int)
    requires Inv(k) && k.ItemsOf(Event(o)) != [] && At(k, t, p)
    ensures Passes(k, StepOps(k, RemoveEvent(o), p), RemoveFromEvent(k, o), t, p)
    ensures Rings.Selections(StepOps(k, RemoveEvent(o), p)) == 0
  {
    hide Inv, Core, Lists, Rest, MakeReady, Unlink, LinkEnd, Passes, JoinOps, IsAsleep, At, State.PriorityOf, State.EventList;
    var u, k' := k.ItemsOf(Event(o))[0].t, RemoveFromEvent(k, o);
    InvSuspended(k);
    HeadWaits(k, o);
    if k.suspended == 0 {
      JoinPasses(k, u, k', t, p);
    } else {
      PendRing(k, u, k', p);
      SamePasses(k, k', t, p);
    }
  }

  lemma SamePasses(k: State, k': State, t: Task, p: int)
    requires Inv(k) && At(k, t, p) && k'.RingOf(Ready(p)) == k.RingOf(Ready(p))
    ensures Passes(k, [], k', t, p) && Rings.Selections<Item>([]) == 0
  {
    hide Inv, Core, Lists, Rest, Turns, At, State.RingOf;
    InvSuspended(k);
    SameTurns(k, k', t, p);
  }

  lemma PendRing(k: State, u: Task, k': State, p: int)
    requires Inv(k) && k'.lists == LinkEnd(Unlink(k, EventItem(u)), PendingReady, EventItem(u)).lists
    ensures k'.RingOf(Ready(p)) == k.RingOf(Ready(p))
  {
    hide Inv, Core, Lists, Rest, LinkEnd, Unlink, State.RingOf, State.ContainerOf, State.EventList, Rings.Valid, Rings.Remove;
    var k1 := Unlink(k, EventItem(u));
    InvSuspended(k);
    NoEventOnReady(k, u, p);
    UnlinkRing(k, EventItem(u), p);
    LinkEndElsewhere(k1, PendingReady, EventItem(u), p);
    SameRings(LinkEnd(k1, PendingReady, EventItem(u)), k', p);
  }

  lemma UnorderedPasses(k: State, u: Task, t: Task, p: int)
    requires Inv(k) && k.EventList(u).Some? && At(k, t, p)
    ensures Passes(k, JoinOps(k, u, p), RemoveUnordered(k, u), t, p) && Rings.Selections(JoinOps(k, u, p)) == 0
  {
    hide Inv, MakeReady, Passes, JoinOps, IsAsleep, At, State.PriorityOf;
    WaiterSleeps(k, u);
    JoinPasses(k, u, RemoveUnordered(k, u), t, p);
  }

  lemma ResumePasses(k: State, u: Task, t: Task, p: int)
    requires Inv(k) && At(k, t, p)
    ensures Passes(k, StepOps(k, Resume(u), p), ResumeTask(k, u), t, p) && Rings.Selections(StepOps(k, Resume(u), p)) == 0
  {
    hide Inv, MakeReady, Passes, JoinOps, At, State.PriorityOf, State.StateList, State.EventList;
    if u != k.current && IsSuspended(k, u) {
      JoinPasses(k, u, ResumeTask(k, u), t, p);
    } else {
      SamePasses(k, k, t, p);
    }
  }

  lemma ResumeIsrPasses(k: State, u: Task, t: Task, p: int)
    requires Inv(k) && At(k, t, p)
    ensures Passes(k, StepOps(k, ResumeIsr(u), p), ResumeFromIsr(k, u), t, p) && Rings.Selections(StepOps(k, ResumeIsr(u), p)) == 0
  {
    hide Inv, MakeReady, LinkEnd, Passes, JoinOps, At, State.PriorityOf, State.StateList, State.EventList, State.RingOf;
    if IsSuspended(k, u) && k.suspended == 0 {
      JoinPasses(k, u, ResumeFromIsr(k, u), t, p);
    } else {
      if IsSuspended(k, u) {
        LinkEndElsewhere(k, PendingReady, EventItem(u), p);
      }
      SamePasses(k, ResumeFromIsr(k, u), t, p);
    }
  }

  lemma LeavePasses(k: State, u: Task, k': State, t: Task, p: int)
    requires Inv(k) && At(k, t, p) && u != t && Rings.Valid(k.RingOf(Ready(p))) && k'.RingOf(Ready(p)) == WithoutTask(k, u, p)
    ensures Passes(k, LeaveOps(k, u, p), k', t, p) && Rings.Selections(LeaveOps(k, u, p)) == 0
  {
    hide Inv, Core, Lists, Rest, Turns, LeaveOps, At, State.RingOf, Rings.Valid, WithoutTask;
    InvSuspended(k);
    LeaveTurns(k, u, t, p);
  }

  lemma ParkRing(k: State, u: Task, l: ListId, p: int)
    requires Inv(k) && l != Ready(p)
    ensures Rings.Valid(k.RingOf(Ready(p))) && Park(k, u, l).RingOf(Ready(p)) == WithoutTask(k, u, p)
  {
    hide Inv, Core, Lists, Rest, LinkEnd, Unlink, State.RingOf, Rings.Valid, WithoutTask;
    InvSuspended(k);
    DetachRing(k, u, p);
    LinkEndElsewhere(Unlink(Unlink(k, EventItem(u)), StateItem(u)), l, StateItem(u), p);
  }

  lemma SuspendPasses(k: State, u: Task, t: Task, p: int)
    requires Inv(k) && At(k, t, p) && u != t
    ensures Passes(k, LeaveOps(k, u, p), SuspendTask(k, u), t, p) && Rings.Selections(LeaveOps(k, u, p)) == 0
  {
    hide Inv, Park, Passes, LeaveOps, At, WithoutTask, Rings.Valid;
    ParkRing(k, u, Suspended, p);
    SameRings(Park(k, u, Suspended), SuspendTask(k, u), p);
    LeavePasses(k, u, SuspendTask(k, u), t, p);
  }

  lemma DeletePasses(k: State, u: Task, t: Task, p: int)
    requires Inv(k) && At(k, t, p) && u != t
    ensures Passes(k, LeaveOps(k, u, p), DeleteTask(k, u), t, p) && Rings.Selections(LeaveOps(k, u, p)) == 0
  {
    hide Inv, Core, Lists, Rest, Park, Unlink, Passes, LeaveOps, At, WithoutTask, Rings.Valid, ResetNextUnblock;
    var k' := DeleteTask(k, u);
    ParkRing(k, u, Termination, p);
    if u == k.current {
      SameRings(Park(k, u, Termination), k', p);
    } else {
      InvSuspended(k);
      DetachRing(k, u, p);
      ForgottenRings(Unlink(Unlink(k, EventItem(u)), StateItem(u)), k', k.numTasks - 1, k.tasks - {u}, p);
    }
    LeavePasses(k, u, k', t, p);
  }

  lemma ForgottenRings(k: State, k': State, n: int, ts: set<Task>, p: int)
    requires k' == ResetNextUnblock(k.(numTasks := n, tasks := ts))
    ensures k'.RingOf(Ready(p)) == k.RingOf(Ready(p))
  {
  }

  lemma CleanUpPasses(k: State, t: Task, p: int)
    requires Inv(k) && At(k, t, p) && k.ItemsOf(Termination) != []
    ensures Passes(k, [], CleanUpOne(k), t, p) && Rings.Selections<Item>([]) == 0
  {
    hide Inv, Core, Lists, Rest, Unlink, Passes, At, Rings.Valid, Rings.Remove;
    var u := k.ItemsOf(Termination)[0].t;
    InvSuspended(k);
    HeadDead(k);
    UnlinkTaskRing(k, u, p);
    SameRings(Unlink(k, StateItem(u)), CleanUpOne(k), p);
    SamePasses(k, CleanUpOne(k), t, p);
  }

  lemma CreatePasses(k: State, u: Task, q: int, t: Task, p: int)
    requires Inv(k) && At(k, t, p) && u !in k.tasks
    ensures Passes(k, StepOps(k, Create(u, q), p), CreateTask(k, u, q), t, p)
    ensures Rings.Selections(StepOps(k, Create(u, q), p)) == 0
  {
    hide Inv, Core, Lists, Rest, AddToReady, Turns, At, Rings.Valid, Rings.InsertEnd, State.StateList, State.EventList, State.PriorityOf;
    var k0 := Enlisted(k, u, q);
    InvSuspended(k);
    Unknown(k, u);
    NewPriority(k, k0, u, q);
    FieldsKeepLists(k, k0);
    AddRing(k0, u, p);
    SameRings(k, k0, p);
    SameRings(AddToReady(k0, u), CreateTask(k, u, q), p);
    InsertTurns(k, u, t, p);
    if q != p {
      SamePasses(k, CreateTask(k, u, q), t, p);
    }
  }

  /** Inserting a task that is not there. */
  lemma InsertTurns(k: State, u: Task, t: Task, p: int)
    requires Lists(k) && At(k, t, p) && StateItem(u) !in k.ItemsOf(Ready(p))
    ensures Rings.Valid(k.RingOf(Ready(p)))
    ensures Turns(k.RingOf(Ready(p)), [Rings.InsertOp(StateItem(u))], StateItem(t), Rings.InsertEnd(k.RingOf(Ready(p)), StateItem(u)))
    ensures Rings.Selections([Rings.InsertOp(StateItem(u))]) == 0
  {
    hide Lists, Turns, Rings.Valid, Rings.InsertEnd, State.RingOf, At;
    RingMember(k, t, p);
    TurnsOne(k.RingOf(Ready(p)), Rings.InsertOp(StateItem(u)), StateItem(t));
  }

  lemma PriorityPasses(k: State, u: Task, requested: int, t: Task, p: int)
    requires Inv(k) && At(k, t, p) && u != t
    ensures Passes(k, StepOps(k, ChangePriority(u, requested), p), SetPriority(k, u, requested), t, p)
    ensures Rings.Selections(StepOps(k, ChangePriority(u, requested), p)) == 0
  {
    hide Inv, Core, Lists, Rest, Relisted, Passes, At, LeaveOps, State.StateList, State.PriorityOf, SetPriority;
    var q := if requested >= MAX_PRIORITIES then MAX_PRIORITIES - 1 else requested;
    var k' := SetPriority(k, u, requested);
    if q == k.PriorityOf(u) {
      SetPriorityNone(k, u, requested, q);
      SamePasses(k, k, t, p);
    } else {
      SetPriorityShape(k, u, requested, q);
      PriorityPlaced(k, u);
      YieldRings(Relisted(k, u, q), k', p);
      if IsReady(k, u) {
        RelistPasses(k, u, q, k', t, p);
      } else {
        RelistNone(k, u, q, p);
        SamePasses(k, k', t, p);
      }
    }
  }

  lemma SetPriorityNone(k: State, u: Task, requested: int, q: int)
    requires q == (if requested >= MAX_PRIORITIES then MAX_PRIORITIES - 1 else requested) && q == k.PriorityOf(u)
    ensures SetPriority(k, u, requested) == k
  {
  }

  lemma YieldRings(k: State, k': State, p: int)
    requires k' == YieldIf(k, k'.switchRequested) || k'.lists == k.lists
    ensures k'.RingOf(Ready(p)) == k.RingOf(Ready(p))
  {
  }

  lemma RelistNone(k: State, u: Task, q: int, p: int)
    requires !IsReady(k, u)
    ensures Relisted(k, u, q).RingOf(Ready(p)) == k.RingOf(Ready(p))
  {
  }

  /** A ready task whose priority changes goes from one ready list to the end of another, or of the same. */
  lemma RelistPasses(k: State, u: Task, q: int, k': State, t: Task, p: int)
    requires Inv(k) && At(k, t, p) && u != t && k.StateList(u) == Some(Ready(k.PriorityOf(u)))
    requires k'.RingOf(Ready(p)) == Relisted(k, u, q).RingOf(Ready(p))
    ensures var ops := LeaveOps(k, u, p) + if q == p then [Rings.InsertOp(StateItem(u))] else [];
      Passes(k, ops, k', t, p) && Rings.Selections(ops) == 0
  {
    hide Inv, Core, Lists, Rest, AddToReady, Unlink, Turns, At, LeaveOps, State.StateList, State.EventList, State.PriorityOf, State.RingOf;
    hide Rings.Valid, Rings.InsertEnd, WithoutTask;
    var k1 := k.(priorities := k.priorities[u := q]);
    var k2 := Unlink(k1, StateItem(u));
    InvSuspended(k);
    NewPriority(k, k1, u, q);
    FieldsKeepLists(k, k1);
    SameRings(k, k1, p);
    LeaveTurns(k, u, t, p);
    SameWithout(k, k1, u, p);
    UnlinkTaskRing(k1, u, p);
    StateOff(k1, u);
    OnlyListsAccess(k1, k2);
    AddRing(k2, u, p);
    StillAt(k, k2, t, p);
    RingMember(k2, t, p);
    var r := k2.RingOf(Ready(p));
    if q == p {
      InsertTurns(k2, u, t, p);
      TurnsThen(k.RingOf(Ready(p)), LeaveOps(k, u, p), r, [Rings.InsertOp(StateItem(u))], k'.RingOf(Ready(p)), StateItem(t));
    } else {
      assert LeaveOps(k, u, p) + [] == LeaveOps(k, u, p);
    }
  }

  lemma SameWithout(k: State, k1: State, u: Task, p: int)
    requires k1.lists == k.lists && k1.containers == k.containers && Rings.Valid(k.RingOf(Ready(p)))
    ensures Rings.Valid(k1.RingOf(Ready(p))) && WithoutTask(k1, u, p) == WithoutTask(k, u, p)
  {
  }

  lemma StillAt(k: State, k2: State, t: Task, p: int)
    requires At(k, t, p) && k2.StateList(t) == k.StateList(t)
    ensures At(k2, t, p)
  {
  }

  lemma BlockPasses(k: State, ticks: int, forever: bool, event: Option<Object>, at: int, t: Task, p: int)
    requires Inv(k) && At(k, t, p) && k.current != t && IsReady(k, k.current)
    requires event.Some? ==> 0 <= at <= |k.ItemsOf(Event(event.value))|
    ensures Passes(k, LeaveOps(k, k.current, p), DelayCurrent(Hooked(k, event, at), ticks, forever), t, p)
    ensures Rings.Selections(LeaveOps(k, k.current, p)) == 0
  {
    hide Inv, Core, Lists, Rest, Hooked, DelayCurrent, Passes, LeaveOps, At, State.RingOf, State.StateList, State.EventList, Rings.Valid;
    hide WithoutTask, IsReady;
    var k0, u := Hooked(k, event, at), k.current;
    ReadyWaitsForNothing(k, u);
    HookView(k, event, at);
    HookRing(k, event, at, p);
    ReadyRing(k, p);
    HookWithout(k, k0, u, p);
    HookCurrent(k, event, at);
    DelayRing(k0, ticks, forever, p);
    UnlinkTaskRing(k0, u, p);
    LeavePasses(k, u, DelayCurrent(k0, ticks, forever), t, p);
  }

  lemma HookCurrent(k: State, event: Option<Object>, at: int)
    ensures Hooked(k, event, at).current == k.current
  {
  }

  lemma HookRing(k: State, event: Option<Object>, at: int, p: int)
    ensures Hooked(k, event, at).RingOf(Ready(p)) == k.RingOf(Ready(p))
  {
    hide LinkAt, State.RingOf;
    if event.Some? {
      LinkAtElsewhere(k, Event(event.value), at, EventItem(k.current), p);
    }
  }

  lemma HookWithout(k: State, k0: State, u: Task, p: int)
    requires Rings.Valid(k.RingOf(Ready(p))) && k0.RingOf(Ready(p)) == k.RingOf(Ready(p)) && k0.StateList(u) == k.StateList(u)
    ensures Rings.Valid(k0.RingOf(Ready(p))) && WithoutTask(k0, u, p) == WithoutTask(k, u, p)
  {
  }

  lemma DelayRing(k: State, ticks: int, forever: bool, p: int)
    ensures DelayCurrent(k, ticks, forever).RingOf(Ready(p)) == Unlink(k, StateItem(k.current)).RingOf(Ready(p))
  {
    hide Unlink, LinkAt, LinkEnd, Place, State.RingOf;
    var t := k.current;
    var k1 := Unlink(k, StateItem(t));
    var k' := DelayCurrent(k, ticks, forever);
    if ticks == 0xFFFF_FFFF && forever {
      LinkEndElsewhere(k1, Suspended, StateItem(t), p);
    } else {
      var wrapped := k.tick + ticks >= 0x1_0000_0000;
      var wake := if wrapped then k.tick + ticks - 0x1_0000_0000 else k.tick + ticks;
      var k2 := k1.(values := k1.values[StateItem(t) := wake], due := k1.due[t := k.clock + if ticks == 0 then 1 else ticks]);
      var l := Delayed(if wrapped then !k.second else k.second);
      var at := Place(k2, k2.ItemsOf(l), wake);
      SameRings(k1, k2, p);
      LinkAtElsewhere(k2, l, at, StateItem(t), p);
      SameRings(LinkAt(k2, l, at, StateItem(t)), k', p);
    }
  }

  lemma TickPasses(k: State, t: Task, p: int)
    requires Inv(k) && At(k, t, p)
    ensures Passes(k, StepOps(k, TickIsr, p), TickInterrupt(k), t, p) && Rings.Selections(StepOps(k, TickIsr, p)) == 0
  {
    hide Inv, Core, Lists, Rest, ProcessTick, TickSwitches, Turns, TickOps, At;
    var k' := TickInterrupt(k);
    InvSuspended(k);
    if k.suspended == 0 {
      TickTurns(k, t, p);
      SameRings(ProcessTick(k), k', p);
    } else {
      SameRings(k, k', p);
      SamePasses(k, k', t, p);
    }
  }

  lemma ResumeAllPasses(k: State, thenYield: bool, t: Task, p: int)
    requires Inv(k) && k.suspended > 0 && At(k, t, p)
    ensures Passes(k, ResumeOps(k, p), ResumeAll(k, thenYield), t, p) && Rings.Selections(ResumeOps(k, p)) == 0
  {
    hide Inv, ResumeAll, ResumeOps, At, Turns;
    ResumeTurns(k, thenYield, t, p);
  }

  lemma SwitchPasses(k: State, t: Task, p: int)
    requires Inv(k) && At(k, t, p) && (k.suspended == 0 ==> SwitchContext(k).current != t)
    ensures var ops := StepOps(k, Switch, p);
      && Passes(k, ops, SwitchContext(k), t, p)
      && Rings.Selections(ops) == if k.suspended == 0 && ScanDown(k, k.topReady) == p then 1 else 0
  {
    hide Inv, Lists, ScanDown, SwitchContext, Turns, At, Rings.Valid, Rings.Picked, Rings.Next;
    var k' := SwitchContext(k);
    if k.suspended != 0 {
      SuspendedSwitch(k, p);
      SamePasses(k, k', t, p);
    } else {
      SwitchPicks(k);
      if ScanDown(k, k.topReady) == p {
        InvSuspended(k);
        RingMember(k, t, p);
        NextTurns(k, t, p);
      } else {
        SamePasses(k, k', t, p);
      }
    }
  }

  lemma SuspendedSwitch(k: State, p: int)
    requires k.suspended != 0
    ensures SwitchContext(k).RingOf(Ready(p)) == k.RingOf(Ready(p))
  {
  }

  lemma NextTurns(k: State, t: Task, p: int)
    requires Lists(k) && At(k, t, p) && Rings.Valid(k.RingOf(Ready(p))) && k.ItemsOf(Ready(p)) != []
    requires Rings.Picked(k.RingOf(Ready(p))).t != t
    ensures Turns(k.RingOf(Ready(p)), [Rings.NextOp], StateItem(t), Rings.Next(k.RingOf(Ready(p))))
    ensures Rings.Selections<Item>([Rings.NextOp]) == 1
  {
    hide Lists, Turns, At, Rings.Valid, Rings.Picked, Rings.Next;
    RingMember(k, t, p);
    TurnsOne(k.RingOf(Ready(p)), Rings.NextOp, StateItem(t));
  }

  // ---- Runs ----

  /** The action takes t off its ready list: it blocks, is suspended or deleted, or gets another priority. */
  predicate Displaces(k: State, a: Action, t: Task) {
    match a
    case Block(_, _, _, _) => k.current == t
    case Suspend(u) => u == t
    case Delete(u) => u == t
    case ChangePriority(u, _) => u == t
    case _ => false
  }

  /** A switch that really chooses a task. */
  predicate Chooses(k: State, a: Action) { a.Switch? && k.suspended == 0 }

  /** No ready task is above p. */
  ghost predicate NoneAbove(k: State, p: int) {
    forall u :: IsReady(k, u) ==> k.PriorityOf(u) <= p
  }

  /** Over the run t is not displaced, and nobody ready is above p when a task is chosen. */
  ghost predicate Stays(k: State, run: seq<Action>, t: Task, p: int)
    decreases |run|
  {
    run != [] ==>
      && Enabled(k, run[0]) && !Displaces(k, run[0], t) && (Chooses(k, run[0]) ==> NoneAbove(k, p))
      && Stays(Apply(k, run[0]), run[1..], t, p)
  }

  /** Some switch of the run chooses t. */
  ghost predicate GetsTurn(k: State, run: seq<Action>, t: Task)
    decreases |run|
  {
    run != [] && Enabled(k, run[0]) && ((Chooses(k, run[0]) && Apply(k, run[0]).current == t) || GetsTurn(Apply(k, run[0]), run[1..], t))
  }

  /** How many times a task is chosen. */
  ghost function Choices(k: State, run: seq<Action>): (n: nat)
    decreases |run|
  {
    if run == [] || !Enabled(k, run[0]) then 0 else (if Chooses(k, run[0]) then 1 else 0) + Choices(Apply(k, run[0]), run[1..])
  }

  /** What the run does to the ready list of p. */
  ghost function RunOps(k: State, run: seq<Action>, p: int): seq<Op>
    decreases |run|
  {
    if run == [] || !Enabled(k, run[0]) then [] else StepOps(k, run[0], p) + RunOps(Apply(k, run[0]), run[1..], p)
  }

  lemma ScanIsHighest(k: State, t: Task, p: int)
    requires Inv(k) && At(k, t, p) && NoneAbove(k, p)
    ensures ScanDown(k, k.topReady) == p
  {
    assert Linked(k);
    ScanFindsHighest(k, k.topReady);
    var q := ScanDown(k, k.topReady);
    hide Linked, ScanDown, Placed, Waits, State.RingOf;
    OnReady(k, k.ItemsOf(Ready(q))[0], q);
    assert IsReady(k, t);
  }

  lemma ApplyBlock(k: State, ticks: int, forever: bool, event: Option<Object>, at: int)
    requires Enabled(k, Block(ticks, forever, event, at))
    ensures Apply(k, Block(ticks, forever, event, at)) == DelayCurrent(Hooked(k, event, at), ticks, forever)
    ensures event.Some? ==> 0 <= at <= |k.ItemsOf(Event(event.value))|
  {
    hide DelayCurrent, LinkAt;
  }

  /** What each action does to the list on which t waits for its turn. */
  lemma StepPasses(k: State, a: Action, t: Task, p: int)
    requires Inv(k) && Enabled(k, a) && At(k, t, p) && !Displaces(k, a, t)
    requires Chooses(k, a) ==> NoneAbove(k, p) && Apply(k, a).current != t
    ensures Passes(k, StepOps(k, a, p), Apply(k, a), t, p)
    ensures Rings.Selections(StepOps(k, a, p)) == if Chooses(k, a) then 1 else 0
  {
    hide Inv, Core, At, Passes, MakeReady, LinkAt, Hooked, DelayCurrent, ResumeAll, RemoveFromEvent, RemoveUnordered, ResumeTask;
    hide SuspendTask, DeleteTask, CleanUpOne, CreateTask, SetPriority, TickInterrupt, ResumeFromIsr, SwitchContext, ScanDown, JoinOps;
    hide LeaveOps, TickOps, ResumeOps, Live, NoneAbove, State.PriorityOf, State.RingOf, State.StateList, State.EventList, IsReady;
    hide IsSuspended;
    match a
    case SuspendScheduler =>
      YieldRings(k, Apply(k, a), p);
      SamePasses(k, Apply(k, a), t, p);
    case ResumeScheduler(thenYield) => ResumeAllPasses(k, thenYield, t, p);
    case Block(ticks, forever, event, at) =>
      ApplyBlock(k, ticks, forever, event, at);
      BlockPasses(k, ticks, forever, event, at, t, p);
    case RemoveEvent(o) => EventPasses(k, o, t, p);
    case RemoveUnorderedEvent(u) => UnorderedPasses(k, u, t, p);
    case Resume(u) => ResumePasses(k, u, t, p);
    case Suspend(u) => SuspendPasses(k, u, t, p);
    case Delete(u) => DeletePasses(k, u, t, p);
    case CleanUp => CleanUpPasses(k, t, p);
    case Create(u, q) => CreatePasses(k, u, q, t, p);
    case ChangePriority(u, q) => PriorityPasses(k, u, q, t, p);
    case Yield =>
      YieldRings(k, Apply(k, a), p);
      SamePasses(k, Apply(k, a), t, p);
    case TickIsr => TickPasses(k, t, p);
    case ResumeIsr(u) => ResumeIsrPasses(k, u, t, p);
    case Switch =>
      if k.suspended == 0 {
        ScanIsHighest(k, t, p);
      }
      SwitchPasses(k, t, p);
  }

  /** t is still ready after a step that passes it over. */
  lemma PassedStays(k: State, ops: seq<Op>, k': State, t: Task, p: int)
    requires Passes(k, ops, k', t, p) && Inv(k')
    ensures At(k', t, p)
  {
    hide Rings.PassesOver, Rings.After, Rings.Ahead, Rings.RemovalsAhead, Rings.PushCount, Inv;
    Rings.OvertakingLaw(k.RingOf(Ready(p)), ops, StateItem(t));
    ItemLists(k', t);
  }

  lemma {:induction false} RunPasses(k: State, run: seq<Action>, k': State, t: Task, p: int)
    requires Inv(k) && Runs(k, run, k') && At(k, t, p) && Stays(k, run, t, p) && !GetsTurn(k, run, t)
    ensures Passes(k, RunOps(k, run, p), k', t, p) && Rings.Selections(RunOps(k, run, p)) == Choices(k, run)
    ensures At(k', t, p)
    decreases |run|
  {
    hide Inv, At, Turns, StepOps, Apply, Enabled, Chooses, NoneAbove, Displaces, State.RingOf;
    if run == [] {
      SamePasses(k, k, t, p);
    } else {
      var a, k1 := run[0], Apply(k, run[0]);
      StepPasses(k, a, t, p);
      StepKeeps(k, a);
      PassedStays(k, StepOps(k, a, p), k1, t, p);
      RunPasses(k1, run[1..], k', t, p);
      TurnsThen(k.RingOf(Ready(p)), StepOps(k, a, p), k1.RingOf(Ready(p)), RunOps(k1, run[1..], p), k'.RingOf(Ready(p)), StateItem(t));
    }
  }

  /**
    Over any run in which t stays ready at p and nobody ready is above p, either t is chosen, or
    its list changed by list operations that pass it over, one selection for each choice made:
    at most one choice for each task that was ahead, and one for each insertion in front of t.
   */
  lemma RoundRobin(k: State, run: seq<Action>, k': State, t: Task, p: int)
    requires Reachable(k) && Runs(k, run, k') && k.StateList(t) == Some(Ready(p)) && Stays(k, run, t, p)
    ensures GetsTurn(k, run, t) || (
      var r, ops, x := k.RingOf(Ready(p)), RunOps(k, run, p), StateItem(t);
      && Rings.PassesOver(r, ops, x) && Rings.After(r, ops, x) == k'.RingOf(Ready(p))
      && k'.StateList(t) == Some(Ready(p)) && Choices(k, run) <= Rings.Ahead(r, x) + Rings.PushCount(r, ops, x))
  {
    if !GetsTurn(k, run, t) {
      hide Reachable, Inv, Runs, Stays, GetsTurn, Choices, RunOps, Rings.PassesOver, Rings.After, Rings.Ahead, Rings.PushCount;
      ReachableInv(k);
      RunPasses(k, run, k', t, p);
      Rings.BoundedOvertaking(k.RingOf(Ready(p)), RunOps(k, run, p), StateItem(t));
    }
  }

  /** How many tasks the ready list of p will choose before t. */
  function TasksAhead(k: State, t: Task, p: int): int {
    var r, x := k.RingOf(Ready(p)), StateItem(t);
    if Rings.Valid(r) && x in r.items then Rings.Ahead(r, x) else 0
  }

  lemma AheadIs(k: State, ops: seq<Op>, t: Task, p: int)
    ensures Rings.PassesOver(k.RingOf(Ready(p)), ops, StateItem(t)) ==> TasksAhead(k, t, p) == Rings.Ahead(k.RingOf(Ready(p)), StateItem(t))
  {
    hide Rings.Ahead, Rings.Apply, Rings.Allowed, Rings.Picked;
  }

  /** No task joins the list. */
  predicate NoJoin(ops: seq<Op>) { forall i :: 0 <= i < |ops| ==> !ops[i].InsertOp? }

  /** With nobody joining the list, n tasks ahead mean a turn within n + 1 choices. */
  lemma TurnWithin(k: State, run: seq<Action>, k': State, t: Task, p: int)
    requires Reachable(k) && Runs(k, run, k') && k.StateList(t) == Some(Ready(p)) && Stays(k, run, t, p)
    requires NoJoin(RunOps(k, run, p)) && Choices(k, run) > TasksAhead(k, t, p)
    ensures GetsTurn(k, run, t)
  {
    hide Reachable, Runs, Stays, GetsTurn, Choices, RunOps, Rings.PassesOver, Rings.Ahead, Rings.After, Rings.PushCount, Rings.Valid;
    RoundRobin(k, run, k', t, p);
    AheadIs(k, RunOps(k, run, p), t, p);
    if !GetsTurn(k, run, t) {
      Rings.NoInsertionsNoPushes(k.RingOf(Ready(p)), RunOps(k, run, p), StateItem(t));
    }
  }
}
