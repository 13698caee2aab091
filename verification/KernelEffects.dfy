/**
  Where every step puts every task: the lists of its two items and its priority after any
  action, exactly; and what else of the state the step changes.
 */
module KernelEffects {
  import opened Options
  import opened Kernel
  import opened KernelLists
  import opened KernelTime
  import opened KernelRuns
  import opened KernelSteps
  import opened KernelTheorems
  import opened KernelResults
  import opened KernelTurns

  /** The lists that hold a task's two items, and its priority. */
  datatype Standing = Standing(state: Option<ListId>, event: Option<ListId>, priority: int)

  function StandingOf(k: State, t: Task): Standing { Standing(k.StateList(t), k.EventList(t), k.PriorityOf(t)) }

  /** The action makes t ready. */
  predicate Wakes(k: State, a: Action, t: Task) {
    match a
    case RemoveEvent(o) => k.suspended == 0 && k.ItemsOf(Event(o)) != [] && k.ItemsOf(Event(o))[0].t == t
    case RemoveUnorderedEvent(u) => u == t
    case Resume(u) => u == t && t != k.current && IsSuspended(k, t)
    case ResumeIsr(u) => u == t && k.suspended == 0 && IsSuspended(k, t)
    case TickIsr => k.suspended == 0 && DueNext(k, t)
    case ResumeScheduler(_) => k.suspended == 1 && (k.EventList(t) == Some(PendingReady) || DueWithin(k, t, k.pended))
    case _ => false
  }

  predicate DueWithin(k: State, t: Task, n: int) { IsDelayed(k, t) && k.DueOf(t) <= k.clock + n }

  /** The action finds the scheduler suspended and leaves t to be made ready later. */
  predicate Pends(k: State, a: Action, t: Task) {
    && k.suspended != 0
    && match a
       case RemoveEvent(o) => k.ItemsOf(Event(o)) != [] && k.ItemsOf(Event(o))[0].t == t
       case ResumeIsr(u) => u == t && IsSuspended(k, t)
       case _ => false
  }

  function Clamped(requested: int): int { if requested >= MAX_PRIORITIES then MAX_PRIORITIES - 1 else requested }

  /** The list for a wait of this length. */
  function SleepList(k: State, ticks: int, forever: bool): ListId {
    if ticks == 0xFFFF_FFFF && forever then Suspended
    else if k.tick + ticks < 0x1_0000_0000 then Delayed(k.second)
    else Delayed(!k.second)
  }

  /** Where t is after the action. */
  function Destination(k: State, a: Action, t: Task): Standing {
    var was := StandingOf(k, t);
    if Wakes(k, a, t) then Standing(Some(Ready(was.priority)), None, was.priority)
    else if Pends(k, a, t) then was.(event := Some(PendingReady))
    else
      match a
      case Block(ticks, forever, event, _) =>
        if t == k.current then Standing(Some(SleepList(k, ticks, forever)), if event.Some? then Some(Event(event.value)) else None, was.priority)
        else was
      case Suspend(u) => if u == t then Standing(Some(Suspended), None, was.priority) else was
      case Delete(u) => if u == t then Standing(if t == k.current then Some(Termination) else None, None, was.priority) else was
      case CleanUp => if k.ItemsOf(Termination) != [] && k.ItemsOf(Termination)[0].t == t then Standing(None, None, was.priority) else was
      case Create(u, p) => if u == t then Standing(Some(Ready(p)), None, p) else was
      case ChangePriority(u, q) =>
        if u == t then Standing(if IsReady(k, t) then Some(Ready(Clamped(q))) else was.state, was.event, Clamped(q)) else was
      case _ => was
  }

  // ---- Each action ----

  lemma SameStanding(k: State, k': State, t: Task)
    requires SameCore(k, k')
    ensures StandingOf(k', t) == StandingOf(k, t)
  {
    SameAccess(k, k');
  }

  /** One task is made ready, and flags may change. */
  lemma ReadiedStanding(k: State, u: Task, k': State, t: Task)
    requires Lists(k) && SameCore(MakeReady(k, u), k')
    ensures StandingOf(k', t) == if t == u then Standing(Some(Ready(k.PriorityOf(t))), None, k.PriorityOf(t)) else StandingOf(k, t)
  {
    hide Lists, MakeReady, State.StateList, State.EventList, State.PriorityOf, SameCore;
    MakeReadyView(k, u);
    OnlyReadyThen(k, MakeReady(k, u), MakeReady(k, u));
    SameAccess(MakeReady(k, u), k');
  }

  /** One event item moves to the pending list, and flags may change. */
  lemma PendedStanding(k: State, u: Task, k1: State, k': State, t: Task)
    requires EventMoved(k, k1, u, PendingReady) && SameCore(k1, k')
    ensures StandingOf(k', t) == if t == u then StandingOf(k, t).(event := Some(PendingReady)) else StandingOf(k, t)
  {
    hide State.StateList, State.EventList, State.PriorityOf, SameCore;
    OnlyListsAccess(k, k1);
    SameAccess(k1, k');
  }

  lemma EventMoves(k: State, o: Object, t: Task)
    requires Inv(k) && k.ItemsOf(Event(o)) != []
    ensures StandingOf(RemoveFromEvent(k, o), t) == Destination(k, RemoveEvent(o), t)
  {
    hide Inv, Core, Lists, Rest, MakeReady, LinkEnd, Unlink, EventMoved, StandingOf, State.PriorityOf, State.StateList, State.EventList;
    var u, k' := k.ItemsOf(Event(o))[0].t, RemoveFromEvent(k, o);
    InvSuspended(k);
    StandingFields(k, t);
    if k.suspended == 0 {
      ReadiedStanding(k, u, k', t);
    } else {
      PendEvent(k, u);
      PendedStanding(k, u, LinkEnd(Unlink(k, EventItem(u)), PendingReady, EventItem(u)), k', t);
    }
  }

  lemma StandingFields(k: State, t: Task)
    ensures StandingOf(k, t).priority == k.PriorityOf(t)
  {
  }

  lemma UnorderedMoves(k: State, u: Task, t: Task)
    requires Inv(k)
    ensures StandingOf(RemoveUnordered(k, u), t) == Destination(k, RemoveUnorderedEvent(u), t)
  {
    hide Inv, Core, Lists, MakeReady, StandingOf, State.PriorityOf;
    InvSuspended(k);
    StandingFields(k, t);
    ReadiedStanding(k, u, RemoveUnordered(k, u), t);
  }

  lemma ResumeMoves(k: State, u: Task, t: Task)
    requires Inv(k)
    ensures StandingOf(ResumeTask(k, u), t) == Destination(k, Resume(u), t)
  {
    hide Inv, Core, Lists, MakeReady, StandingOf, State.PriorityOf, IsSuspended;
    InvSuspended(k);
    StandingFields(k, t);
    if u != k.current && IsSuspended(k, u) {
      ReadiedStanding(k, u, ResumeTask(k, u), t);
    }
  }

  lemma ResumeIsrMoves(k: State, u: Task, t: Task)
    requires Inv(k)
    ensures StandingOf(ResumeFromIsr(k, u), t) == Destination(k, ResumeIsr(u), t)
  {
    hide Inv, Core, Lists, MakeReady, LinkEnd, StandingOf, State.PriorityOf, State.StateList, State.EventList, EventMoved;
    InvSuspended(k);
    StandingFields(k, t);
    if IsSuspended(k, u) {
      if k.suspended == 0 {
        ReadiedStanding(k, u, ResumeFromIsr(k, u), t);
      } else {
        PendSuspended(k, u);
        PendedStanding(k, u, LinkEnd(k, PendingReady, EventItem(u)), ResumeFromIsr(k, u), t);
      }
    }
  }

  lemma PendSuspended(k: State, u: Task)
    requires Lists(k) && IsSuspended(k, u)
    ensures EventMoved(k, LinkEnd(k, PendingReady, EventItem(u)), u, PendingReady)
  {
    hide Lists, LinkEnd, State.StateList, State.EventList;
    EventToEnd(k, PendingReady, u);
  }

  lemma LeftStanding(k: State, k1: State, k': State, u: Task, l: Option<ListId>, t: Task)
    requires Left(k, k1, u, l) && k' == k1.(nextUnblock := k'.nextUnblock, switchRequested := k'.switchRequested)
    ensures StandingOf(k', t) == if t == u then Standing(l, None, k.PriorityOf(t)) else StandingOf(k, t)
  {
    LeftAccess(k, k1, u, l);
    assert k'.StateList(t) == k1.StateList(t) && k'.EventList(t) == k1.EventList(t) && k'.PriorityOf(t) == k1.PriorityOf(t);
    hide State.StateList, State.EventList, State.PriorityOf;
  }

  lemma SuspendMoves(k: State, u: Task, t: Task)
    requires Inv(k)
    ensures StandingOf(SuspendTask(k, u), t) == Destination(k, Suspend(u), t)
  {
    hide Inv, Core, Lists, Park, Left, StandingOf, State.PriorityOf;
    InvSuspended(k);
    StandingFields(k, t);
    ParkedLeft(k, u, Suspended);
    LeftStanding(k, Park(k, u, Suspended), SuspendTask(k, u), u, Some(Suspended), t);
  }

  lemma DeleteMoves(k: State, u: Task, t: Task)
    requires Inv(k)
    ensures StandingOf(DeleteTask(k, u), t) == Destination(k, Delete(u), t)
  {
    hide Inv, Core, Lists, Park, Unlink, Left, StandingOf, State.PriorityOf, ResetNextUnblock, State.StateList, State.EventList;
    InvSuspended(k);
    StandingFields(k, t);
    if u == k.current {
      var k0 := Park(k, u, Termination);
      var k1 := k0.(deletedWaiting := k.deletedWaiting + 1);
      ParkedLeft(k, u, Termination);
      LeftCounted(k, k0, k1, u, Some(Termination));
      LeftStanding(k, k1, DeleteTask(k, u), u, Some(Termination), t);
    } else {
      var k0 := Unlink(Unlink(k, EventItem(u)), StateItem(u));
      var k1 := Forget(k, k0, u, 0);
      DetachView(k, u);
      ForgottenLeft(k, k0, u, 0);
      ResetOnly(k1);
      LeftStanding(k, k1, DeleteTask(k, u), u, None, t);
    }
  }

  lemma ResetOnly(k: State)
    ensures ResetNextUnblock(k) == k.(nextUnblock := ResetNextUnblock(k).nextUnblock)
  {
  }

  lemma LeftCounted(k: State, k0: State, k1: State, u: Task, l: Option<ListId>)
    requires Left(k, k0, u, l) && k1 == k0.(deletedWaiting := k1.deletedWaiting)
    ensures Left(k, k1, u, l)
  {
    assert forall v :: k1.StateList(v) == k0.StateList(v) && k1.EventList(v) == k0.EventList(v);
    hide State.StateList, State.EventList;
  }

  lemma CleanUpMoves(k: State, t: Task)
    requires Inv(k) && k.ItemsOf(Termination) != []
    ensures StandingOf(CleanUpOne(k), t) == Destination(k, CleanUp, t)
  {
    hide Inv, Core, Lists, Unlink, Left, StandingOf, State.PriorityOf, State.StateList, State.EventList;
    var u := k.ItemsOf(Termination)[0].t;
    InvSuspended(k);
    StandingFields(k, t);
    HeadDead(k);
    StateOff(k, u);
    ForgottenLeft(k, Unlink(k, StateItem(u)), u, 1);
    LeftStanding(k, CleanUpOne(k), CleanUpOne(k), u, None, t);
  }

  lemma CreateMoves(k: State, u: Task, p: int, t: Task)
    requires Inv(k) && u !in k.tasks
    ensures StandingOf(CreateTask(k, u, p), t) == Destination(k, Create(u, p), t)
  {
    hide Inv, Core, Lists, AddToReady, Created, State.PriorityOf, State.StateList, State.EventList;
    var k1 := AddToReady(Enlisted(k, u, p), u);
    InvSuspended(k);
    CreateLists(k, u, p);
    CreatedStanding(k, k1, u, p, t);
    SameStanding(k1, CreateTask(k, u, p), t);
  }

  lemma CreatedStanding(k: State, k1: State, u: Task, p: int, t: Task)
    requires Created(k, k1, u, p)
    ensures StandingOf(k1, t) == Destination(k, Create(u, p), t)
  {
    hide State.PriorityOf, State.StateList, State.EventList;
  }

  lemma PriorityMoves(k: State, u: Task, requested: int, t: Task)
    requires Inv(k) && requested >= 0
    ensures StandingOf(SetPriority(k, u, requested), t) == Destination(k, ChangePriority(u, requested), t)
  {
    hide Inv, Core, Lists, Relisted, Reprioritised, SetPriority, IsReady, StandingOf, Destination, State.PriorityOf, State.StateList, State.EventList;
    var q, k' := Clamped(requested), SetPriority(k, u, requested);
    InvSuspended(k);
    PriorityPlaced(k, u);
    if q == k.PriorityOf(u) {
      SetPriorityAsBefore(k, u, requested, t);
    } else {
      SetPriorityShape(k, u, requested, q);
      RelistView(k, u, q);
      ReprioritisedStanding(k, Relisted(k, u, q), u, requested, t);
      SameStanding(Relisted(k, u, q), k', t);
    }
  }

  lemma SetPriorityAsBefore(k: State, u: Task, requested: int, t: Task)
    requires Clamped(requested) == k.PriorityOf(u) && (IsReady(k, u) ==> k.StateList(u) == Some(Ready(k.PriorityOf(u))))
    ensures StandingOf(SetPriority(k, u, requested), t) == Destination(k, ChangePriority(u, requested), t)
  {
    hide State.StateList, State.EventList, State.PriorityOf;
  }

  lemma ReprioritisedStanding(k: State, k1: State, u: Task, requested: int, t: Task)
    requires Reprioritised(k, k1, u, Clamped(requested))
    ensures StandingOf(k1, t) == Destination(k, ChangePriority(u, requested), t)
  {
    hide State.StateList, State.EventList, State.PriorityOf;
  }

  lemma BlockMoves(k: State, ticks: int, forever: bool, event: Option<Object>, at: int, t: Task)
    requires Inv(k) && Enabled(k, Block(ticks, forever, event, at))
    ensures StandingOf(DelayCurrent(Hooked(k, event, at), ticks, forever), t) == Destination(k, Block(ticks, forever, event, at), t)
  {
    hide Inv, Lists, Slept, SleepsRight, DelayCurrent, State.EventList, State.StateList, IsReady, Hooked, Destination, StandingOf, SleepList;
    var k0, u := Hooked(k, event, at), k.current;
    var k' := DelayCurrent(k0, ticks, forever);
    var e := if event.Some? then Some(Event(event.value)) else None;
    ReadyWaitsForNothing(k, u);
    HookView(k, event, at);
    var l := DelayView(k0, ticks, forever);
    SleptJoin(k, k0, k', u, l, e, ticks);
    SleepListIs(k, k0, ticks, forever);
    SleptStanding(k, k', ticks, forever, event, at, t);
  }

  lemma SleepListIs(k: State, k0: State, ticks: int, forever: bool)
    requires OnlyLists(k, k0)
    ensures SleepList(k, ticks, forever) == if ticks == 0xFFFF_FFFF && forever then Suspended else Delayed(WakeList(k0, ticks))
  {
  }

  lemma SleptStanding(k: State, k': State, ticks: int, forever: bool, event: Option<Object>, at: int, t: Task)
    requires Slept(k, k', k.current, SleepList(k, ticks, forever), if event.Some? then Some(Event(event.value)) else None)
    ensures StandingOf(k', t) == Destination(k, Block(ticks, forever, event, at), t)
  {
    hide State.EventList, State.StateList, State.PriorityOf, SleepList;
  }

  lemma TickMoves(k: State, t: Task)
    requires Inv(k)
    ensures StandingOf(TickInterrupt(k), t) == Destination(k, TickIsr, t)
  {
    hide Inv, Core, TickInterrupt, StandingOf, DueNext, State.PriorityOf;
    InvSuspended(k);
    StandingFields(k, t);
    if k.suspended != 0 {
      TickPended(k);
      SameStanding(k, TickInterrupt(k), t);
    } else {
      TickStanding(k, t);
    }
  }

  lemma TickPended(k: State)
    requires k.suspended != 0
    ensures SameCore(k, TickInterrupt(k))
  {
    hide ProcessTick, TickSwitches;
  }

  lemma TickStanding(k: State, t: Task)
    requires Core(k) && k.suspended == 0
    ensures StandingOf(TickInterrupt(k), t) == if DueNext(k, t) then Standing(Some(Ready(k.PriorityOf(t))), None, k.PriorityOf(t)) else StandingOf(k, t)
  {
    hide Core, ProcessTick, TickInterrupt, TickSwitches, State.EventList, State.StateList, State.PriorityOf, SameCore, DueNext;
    TickInterruptFields(k);
    TickExact(k);
    TickFrame(k);
    SamePriorities(k, ProcessTick(k));
    SameStanding(ProcessTick(k), TickInterrupt(k), t);
  }

  // ---- Resuming the scheduler ----

  /** n ticks take the waits of the tasks they make ready. */
  ghost predicate EventsAfter(k: State, k': State, n: int) {
    forall u :: k'.EventList(u) == if DueWithin(k, u, n) then None else k.EventList(u)
  }

  lemma ReplayedEvents(k: State)
    requires Core(k)
    ensures forall u :: Replayed(k).EventList(u) == if DueNext(k, u) then None else k.EventList(u)
  {
    hide ProcessTick, TickSwitches, Core, SameCore, Replayed, DueNext, State.StateList, State.EventList, State.PriorityOf;
    ReplayedFields(k);
    TickExact(k);
    SameEvents(ProcessTick(k), Replayed(k));
  }

  lemma SameEvents(k: State, k': State)
    requires SameCore(k, k')
    ensures forall t :: k'.EventList(t) == k.EventList(t)
  {
  }

  lemma EventsJoin(k: State, k': State, n: nat)
    requires Core(k) && EventsAfter(Replayed(k), k', n)
    ensures EventsAfter(k, k', n + 1)
  {
    var k1 := Replayed(k);
    hide Replayed, State.StateList, State.EventList, State.PriorityOf, State.DueOf, Core;
    ReplayedView(k);
    ReplayedEvents(k);
    ReplayedFields(k);
    SamePriorities(k, k1);
    forall u ensures k'.EventList(u) == if DueWithin(k, u, n + 1) then None else k.EventList(u) {
      if IsDelayed(k, u) {
        DelayedNotOverdue(k, u);
      }
    }
  }

  lemma NoEvents(k: State)
    requires Core(k)
    ensures EventsAfter(k, k, 0)
  {
    hide Core, State.StateList, State.EventList, State.DueOf;
    forall u ensures !DueWithin(k, u, 0) {
      if IsDelayed(k, u) {
        DelayedNotOverdue(k, u);
      }
    }
  }

  lemma {:induction false} ReplayEvents(k: State, n: nat)
    requires Core(k) && NonePending(k)
    ensures EventsAfter(k, ReplayTicks(k, n), n)
    decreases n
  {
    hide Replayed, Core, NonePending, EventsAfter, Calm, ReadyGrows;
    if n == 0 {
      NoEvents(k);
    } else {
      ReplayStep(k, n);
      ReplayedKeeps(k);
      ReplayEvents(Replayed(k), n - 1);
      EventsJoin(k, ReplayTicks(k, n), n - 1);
    }
  }

  /** Moving the pending tasks takes nobody else's waits. */
  ghost predicate DrainedEvents(k: State, k': State) {
    forall u :: k'.EventList(u) == if k.EventList(u) == Some(PendingReady) then None else k.EventList(u)
  }

  lemma DrainEvents(k: State)
    requires Core(k)
    ensures DrainedEvents(k, DrainPending(k))
  {
    hide Core, WakeAll, Owners, State.StateList, State.EventList, State.PriorityOf, ResetNextUnblock, NonePending, AnyAtLeast, IsAsleep;
    var items := k.ItemsOf(PendingReady);
    CoreParts(k);
    PendingAsleep(k);
    if items == [] {
      NoneOwned(k);
      NoneDrained(k);
    } else {
      DrainCore(k);
      FinishedEvents(WakeAll(k, items), DrainPending(k));
    }
  }

  lemma NoneDrained(k: State)
    requires NonePending(k)
    ensures DrainedEvents(k, k)
  {
    hide State.EventList;
  }

  lemma FinishedEvents(k: State, k': State)
    requires k' == ResetNextUnblock(k).(yieldPending := k'.yieldPending)
    ensures forall u :: k'.EventList(u) == k.EventList(u)
  {
  }

  lemma ResumeAllMoves(k: State, thenYield: bool, t: Task)
    requires Inv(k) && k.suspended > 0
    ensures StandingOf(ResumeAll(k, thenYield), t) == Destination(k, ResumeScheduler(thenYield), t)
  {
    if k.suspended != 1 {
      hide Inv, Core, DrainPending, ReplayTicks;
      SameStanding(k, ResumeAll(k, thenYield), t);
    } else {
      OuterMoves(k, thenYield, t);
    }
  }

  lemma OuterMoves(k: State, thenYield: bool, t: Task)
    requires Inv(k) && k.suspended == 1
    ensures StandingOf(ResumeAll(k, thenYield), t) == Destination(k, ResumeScheduler(thenYield), t)
  {
    hide Core, ResumeAll, State.StateList, State.EventList, State.PriorityOf, State.DueOf, Calm, ReadyGrows, NonePending, Highest, IsReady, RunOk;
    OutermostResume(k, thenYield);
    OuterEvents(k, thenYield, t);
    SamePrioritiesOnly(k, ResumeAll(k, thenYield));
  }

  lemma SamePrioritiesOnly(k: State, k': State)
    requires k'.priorities == k.priorities
    ensures forall t :: k'.PriorityOf(t) == k.PriorityOf(t)
  {
  }

  lemma OuterEvents(k: State, thenYield: bool, t: Task)
    requires Inv(k) && k.suspended == 1
    ensures ResumeAll(k, thenYield).EventList(t) ==
      if k.EventList(t) == Some(PendingReady) || DueWithin(k, t, k.pended) then None else k.EventList(t)
  {
    hide Core, ResumeAll, Stage2, Stage3, ReplayTicks, DrainPending, State.StateList, State.EventList, State.DueOf, Calm, ReadyGrows;
    hide NonePending, Highest, RunOk, SameCore;
    var k1, k2, k3, k' := Stage1(k), Stage2(k), Stage3(k), ResumeAll(k, thenYield);
    StagesKeep(k);
    ResumeStages(k, thenYield);
    SameKeeps(k, k1);
    SameAccess(k, k1);
    SameAccess(k3, k');
    OuterStages(k);
    SamePriorities(k1, k2);
    PendingOrDelayed(k, t);
  }

  lemma OuterStages(k: State)
    requires Inv(k) && k.suspended == 1
    ensures DrainedEvents(Stage1(k), Stage2(k)) && EventsAfter(Stage2(k), Stage3(k), k.pended)
  {
    hide Core, ReplayTicks, DrainPending, NonePending, Calm, ReadyGrows, ReplayView, DrainedView, SameTasks, EventsAfter, DrainedEvents, RunOk;
    SameKeeps(k, Stage1(k));
    DrainEvents(Stage1(k));
    DrainKeeps(Stage1(k));
    ReplayEvents(Stage2(k), k.pended);
  }

  /** A task made ready from the pending list is no longer delayed. */
  lemma PendingOrDelayed(k: State, t: Task)
    requires DrainedView(Stage1(k), Stage2(k)) && SameCore(k, Stage1(k)) && Stage2(k).clock == k.clock
    requires forall u :: Stage2(k).DueOf(u) == k.DueOf(u)
    ensures DueWithin(Stage2(k), t, k.pended) <==> k.EventList(t) != Some(PendingReady) && DueWithin(k, t, k.pended)
  {
    hide Stage2, State.StateList, State.EventList, State.PriorityOf, State.DueOf, State.ValueOf, SameCore;
    SameAccess(k, Stage1(k));
  }

  lemma SwitchMoves(k: State, t: Task)
    requires Inv(k)
    ensures StandingOf(SwitchContext(k), t) == StandingOf(k, t)
  {
    if k.suspended != 0 {
      SameStanding(k, SwitchContext(k), t);
    } else {
      hide SwitchContext, Core, RunOk, State.StateList, State.EventList, State.PriorityOf;
      SwitchView(k);
      SwitchedAccess(k, SwitchContext(k));
    }
  }

  /** After any enabled action of a reachable state, each task is on exactly these lists with this priority. */
  lemma StepMoves(k: State, a: Action, t: Task)
    requires Reachable(k) && Enabled(k, a)
    ensures StandingOf(Apply(k, a), t) == Destination(k, a, t)
  {
    hide Reachable, Inv, Core, StandingOf, MakeReady, LinkAt, Hooked, DelayCurrent, ResumeAll, RemoveFromEvent, RemoveUnordered;
    hide ResumeTask, SuspendTask, DeleteTask, CleanUpOne, CreateTask, SetPriority, TickInterrupt, ResumeFromIsr, SwitchContext, Live;
    hide IsReady, State.PriorityOf, State.StateList, State.EventList;
    ReachableInv(k);
    match a
    case SuspendScheduler => SameStanding(k, Apply(k, a), t);
    case ResumeScheduler(thenYield) => ResumeAllMoves(k, thenYield, t);
    case Block(ticks, forever, event, at) =>
      BlockShape(k, ticks, forever, event, at);
      BlockMoves(k, ticks, forever, event, at, t);
    case RemoveEvent(o) => EventMoves(k, o, t);
    case RemoveUnorderedEvent(u) => UnorderedMoves(k, u, t);
    case Resume(u) => ResumeMoves(k, u, t);
    case Suspend(u) => SuspendMoves(k, u, t);
    case Delete(u) => DeleteMoves(k, u, t);
    case CleanUp => CleanUpMoves(k, t);
    case Create(u, p) => CreateMoves(k, u, p, t);
    case ChangePriority(u, p) => PriorityMoves(k, u, p, t);
    case Yield => SameStanding(k, Apply(k, a), t);
    case TickIsr => TickMoves(k, t);
    case ResumeIsr(u) => ResumeIsrMoves(k, u, t);
    case Switch => SwitchMoves(k, t);
  }

  lemma BlockShape(k: State, ticks: int, forever: bool, event: Option<Object>, at: int)
    requires Enabled(k, Block(ticks, forever, event, at))
    ensures Apply(k, Block(ticks, forever, event, at)) == DelayCurrent(Hooked(k, event, at), ticks, forever)
  {
    hide DelayCurrent, LinkAt;
  }

  // ---- Who runs, who exists, and when a switch is asked for ----

  /** The parts of the state that lists do not show. */
  datatype Controls = Controls(current: Task, suspended: int, interrupts: int, tasks: set<Task>, yieldPending: bool, switchRequested: bool)

  function ControlsOf(k: State): Controls {
    Controls(k.current, k.suspended, k.interrupts, k.tasks, k.yieldPending, k.switchRequested)
  }

  predicate Outranks(k: State, t: Task) { k.PriorityOf(t) > k.PriorityOf(k.current) }

  predicate Matches(k: State, t: Task) { k.PriorityOf(t) >= k.PriorityOf(k.current) }

  /** What a change of priority asks for: another task now at least as high, or the running task lowered. */
  predicate PriorityAsks(k: State, u: Task, p: int) {
    if u == k.current then p < k.PriorityOf(u) else k.PriorityOf(u) < p && p >= k.PriorityOf(k.current)
  }

  /** What a processed tick asks for. */
  ghost predicate TickAsks(k: State) {
    (exists t :: DueNext(k, t) && Matches(k, t)) || Sharing(ProcessTick(k), k.PriorityOf(k.current)) || k.yieldPending
  }

  /** Everything but resuming the scheduler and choosing a task. */
  ghost function ControlsAfter(k: State, a: Action): Controls {
    var c := ControlsOf(k);
    match a
    case SuspendScheduler => c.(suspended := c.suspended + 1)
    case RemoveEvent(o) => c.(yieldPending := c.yieldPending || (k.ItemsOf(Event(o)) != [] && Outranks(k, k.ItemsOf(Event(o))[0].t)))
    case RemoveUnorderedEvent(u) => c.(yieldPending := c.yieldPending || Outranks(k, u))
    case Resume(u) => c.(switchRequested := c.switchRequested || (Wakes(k, a, u) && Matches(k, u)))
    case ResumeIsr(u) => c.(switchRequested := c.switchRequested || (Wakes(k, a, u) && Matches(k, u)))
    case Suspend(u) => c.(switchRequested := c.switchRequested || u == k.current)
    case Delete(u) =>
      c.(switchRequested := c.switchRequested || u == k.current, tasks := if u == k.current then k.tasks else k.tasks - {u})
    case CleanUp => c.(tasks := if k.ItemsOf(Termination) != [] then k.tasks - {k.ItemsOf(Termination)[0].t} else k.tasks)
    case Create(u, p) => c.(switchRequested := c.switchRequested || k.PriorityOf(k.current) < p, tasks := k.tasks + {u})
    case ChangePriority(u, p) => c.(switchRequested := c.switchRequested || PriorityAsks(k, u, Clamped(p)))
    case Yield => c.(switchRequested := true)
    case TickIsr =>
      c.(interrupts := c.interrupts + 1, switchRequested := c.switchRequested || (if k.suspended == 0 then TickAsks(k) else k.yieldPending))
    case Switch => c.(yieldPending := true, switchRequested := false)
    case _ => c
  }

  lemma ReadiedControls(k: State, u: Task)
    requires Lists(k)
    ensures ControlsOf(MakeReady(k, u)) == ControlsOf(k)
  {
    hide Lists, MakeReady, State.StateList, State.EventList, State.PriorityOf;
    MakeReadyView(k, u);
  }

  lemma EventControls(k: State, o: Object)
    requires Lists(k) && k.ItemsOf(Event(o)) != []
    ensures ControlsOf(RemoveFromEvent(k, o)) == ControlsAfter(k, RemoveEvent(o))
  {
    hide Lists, MakeReady, Unlink, LinkEnd, State.StateList, State.EventList, State.PriorityOf;
    var u := k.ItemsOf(Event(o))[0].t;
    ReadiedControls(k, u);
    PendEvent(k, u);
  }

  lemma UnorderedControls(k: State, u: Task)
    requires Lists(k)
    ensures ControlsOf(RemoveUnordered(k, u)) == ControlsAfter(k, RemoveUnorderedEvent(u))
  {
    hide Lists, MakeReady, State.PriorityOf;
    ReadiedControls(k, u);
  }

  lemma ResumeTaskControls(k: State, u: Task)
    requires Lists(k)
    ensures ControlsOf(ResumeTask(k, u)) == ControlsAfter(k, Resume(u))
  {
    hide Lists, MakeReady, IsSuspended, State.PriorityOf;
    ReadiedControls(k, u);
  }

  lemma ResumeIsrControls(k: State, u: Task)
    requires Lists(k)
    ensures ControlsOf(ResumeFromIsr(k, u)) == ControlsAfter(k, ResumeIsr(u))
  {
    hide Lists, MakeReady, LinkEnd, LinkAt, IsSuspended, State.PriorityOf;
    ReadiedControls(k, u);
    LinkControls(k, PendingReady, 0, EventItem(u));
  }

  lemma UnlinkControls(k: State, x: Item)
    ensures ControlsOf(Unlink(k, x)) == ControlsOf(k)
  {
  }

  lemma LinkControls(k: State, l: ListId, at: int, x: Item)
    ensures ControlsOf(LinkEnd(k, l, x)) == ControlsOf(k) && ControlsOf(LinkAt(k, l, at, x)) == ControlsOf(k)
  {
  }

  lemma ParkControls(k: State, u: Task, l: ListId)
    ensures ControlsOf(Park(k, u, l)) == ControlsOf(k)
  {
    hide Unlink, LinkEnd, LinkAt;
    var k1 := Unlink(k, EventItem(u));
    UnlinkControls(k, EventItem(u));
    UnlinkControls(k1, StateItem(u));
    LinkControls(Unlink(k1, StateItem(u)), l, 0, StateItem(u));
  }

  lemma ResetControls(k: State)
    ensures ControlsOf(ResetNextUnblock(k)) == ControlsOf(k)
  {
  }

  lemma SuspendControls(k: State, u: Task)
    ensures ControlsOf(SuspendTask(k, u)) == ControlsAfter(k, Suspend(u))
  {
    hide Park, ResetNextUnblock;
    ParkControls(k, u, Suspended);
    ResetControls(Park(k, u, Suspended));
  }

  lemma DeleteControls(k: State, u: Task)
    ensures ControlsOf(DeleteTask(k, u)) == ControlsAfter(k, Delete(u))
  {
    hide Park, Unlink, ResetNextUnblock;
    var k1 := Unlink(k, EventItem(u));
    ParkControls(k, u, Termination);
    UnlinkControls(k, EventItem(u));
    UnlinkControls(k1, StateItem(u));
    ResetControls(Unlink(k1, StateItem(u)).(numTasks := k.numTasks - 1, tasks := k.tasks - {u}));
  }

  lemma CleanUpControls(k: State)
    requires k.ItemsOf(Termination) != []
    ensures ControlsOf(CleanUpOne(k)) == ControlsAfter(k, CleanUp)
  {
    hide Unlink;
    UnlinkControls(k, StateItem(k.ItemsOf(Termination)[0].t));
  }

  lemma CreateControls(k: State, u: Task, p: int)
    requires Core(k) && u !in k.tasks
    ensures ControlsOf(CreateTask(k, u, p)) == ControlsAfter(k, Create(u, p))
  {
    hide Core, Lists, AddToReady, Created, State.PriorityOf;
    CreateLists(k, u, p);
    CreatedFields(k, AddToReady(Enlisted(k, u, p), u), u, p);
  }

  lemma PriorityControls(k: State, u: Task, requested: int)
    requires Inv(k) && requested >= 0
    ensures ControlsOf(SetPriority(k, u, requested)) == ControlsAfter(k, ChangePriority(u, requested))
  {
    hide Inv, Core, Lists, Relisted, SetPriority, IsReady, State.PriorityOf, State.StateList, State.EventList;
    InvSuspended(k);
    PriorityPlaced(k, u);
    if Clamped(requested) == k.PriorityOf(u) {
      SetPriorityNothing(k, u, requested);
    } else {
      SetPriorityShape(k, u, requested, Clamped(requested));
      RelistView(k, u, Clamped(requested));
    }
  }

  lemma SetPriorityNothing(k: State, u: Task, requested: int)
    requires Clamped(requested) == k.PriorityOf(u)
    ensures SetPriority(k, u, requested) == k
  {
  }

  lemma TickControls(k: State)
    requires Inv(k)
    ensures ControlsOf(TickInterrupt(k)) == ControlsAfter(k, TickIsr)
  {
    hide Inv, Core, ProcessTick, TickSwitches, DueNext, Sharing, State.PriorityOf;
    InvSuspended(k);
    if k.suspended == 0 {
      TickInterruptFields(k);
      TickFrame(k);
      TickSwitchesExact(k);
    }
  }

  lemma BlockControls(k: State, ticks: int, forever: bool, event: Option<Object>, at: int)
    ensures ControlsOf(DelayCurrent(Hooked(k, event, at), ticks, forever)) == ControlsOf(k)
  {
    hide DelayCurrent, Hooked;
    HookControls(k, event, at);
    DelayControls(Hooked(k, event, at), ticks, forever);
  }

  lemma HookControls(k: State, event: Option<Object>, at: int)
    ensures ControlsOf(Hooked(k, event, at)) == ControlsOf(k)
  {
  }

  lemma DelayControls(k: State, ticks: int, forever: bool)
    ensures ControlsOf(DelayCurrent(k, ticks, forever)) == ControlsOf(k)
  {
    hide Unlink, LinkAt, LinkEnd, Place, DelayCurrent, Inserted, Stamped;
    if ticks == 0xFFFF_FFFF && forever {
      ForeverControls(k);
    } else {
      DelayShape(k, ticks, forever);
      StampedControls(k, k.current, WakeValue(k, ticks), WakeTime(k, ticks));
      InsertedControls(Stamped(k, k.current, WakeValue(k, ticks), WakeTime(k, ticks)), WakeList(k, ticks), k.current, WakeValue(k, ticks));
    }
  }

  lemma ForeverControls(k: State)
    ensures ControlsOf(DelayCurrent(k, 0xFFFF_FFFF, true)) == ControlsOf(k)
  {
    hide Unlink, LinkEnd, LinkAt, Place;
    UnlinkControls(k, StateItem(k.current));
    LinkControls(Unlink(k, StateItem(k.current)), Suspended, 0, StateItem(k.current));
  }

  lemma StampedControls(k: State, t: Task, wake: int, due: int)
    ensures ControlsOf(Stamped(k, t, wake, due)) == ControlsOf(k)
  {
    hide Unlink;
    UnlinkControls(k, StateItem(t));
  }

  lemma InsertedControls(k: State, b: bool, t: Task, wake: int)
    ensures ControlsOf(Inserted(k, b, t, wake)) == ControlsOf(k)
  {
    hide LinkAt, LinkEnd, Place;
    LinkControls(k, Delayed(b), Place(k, k.ItemsOf(Delayed(b)), wake), StateItem(t));
  }

  /** A step changes these parts exactly so; the two exceptions have their own laws. */
  lemma StepControls(k: State, a: Action)
    requires Reachable(k) && Enabled(k, a) && !a.ResumeScheduler? && (a.Switch? ==> k.suspended != 0)
    ensures ControlsOf(Apply(k, a)) == ControlsAfter(k, a)
  {
    hide Reachable, Inv, Core, Lists, Rest, MakeReady, LinkAt, Hooked, DelayCurrent, ResumeAll, RemoveFromEvent, RemoveUnordered;
    hide ResumeTask, SuspendTask, DeleteTask, CleanUpOne, CreateTask, SetPriority, TickInterrupt, ResumeFromIsr, Live, IsReady;
    hide State.PriorityOf, State.StateList, State.EventList, TickAsks, Outranks, Matches;
    ReachableInv(k);
    InvSuspended(k);
    match a
    case SuspendScheduler =>
    case Block(ticks, forever, event, at) =>
      BlockShape(k, ticks, forever, event, at);
      BlockControls(k, ticks, forever, event, at);
    case RemoveEvent(o) => EventControls(k, o);
    case RemoveUnorderedEvent(u) => UnorderedControls(k, u);
    case Resume(u) => ResumeTaskControls(k, u);
    case Suspend(u) => SuspendControls(k, u);
    case Delete(u) => DeleteControls(k, u);
    case CleanUp => CleanUpControls(k);
    case Create(u, p) => CreateControls(k, u, p);
    case ChangePriority(u, p) => PriorityControls(k, u, p);
    case Yield =>
    case TickIsr => TickControls(k);
    case ResumeIsr(u) => ResumeIsrControls(k, u);
    case Switch =>
  }

  /** The outermost resume: a yield is pending exactly if one was, or a pending task is not below the running one, or a replayed tick asks. */
  lemma ResumeControls(k: State, thenYield: bool)
    requires Reachable(k) && k.suspended > 0
    ensures var c, k' := ControlsOf(k), ResumeAll(k, thenYield);
      && ControlsOf(k') == c.(suspended := c.suspended - 1, yieldPending := k'.yieldPending,
                              switchRequested := c.switchRequested || thenYield || (k.suspended == 1 && k'.yieldPending))
      && (k.suspended > 1 ==> k'.yieldPending == k.yieldPending)
      && (k.suspended == 1 && k.pended == 0 ==>
            (k'.yieldPending <==> k.yieldPending || exists t :: k.EventList(t) == Some(PendingReady) && Matches(k, t)))
  {
    hide Reachable, Inv, Core, DrainPending, ReplayTicks, Matches, State.EventList;
    ReachableInv(k);
    InvSuspended(k);
    if k.suspended == 1 {
      OuterControls(k, thenYield);
    }
  }

  lemma OuterControls(k: State, thenYield: bool)
    requires Inv(k) && k.suspended == 1
    ensures var c, k' := ControlsOf(k), ResumeAll(k, thenYield);
      && ControlsOf(k') == c.(suspended := 0, yieldPending := k'.yieldPending, switchRequested := c.switchRequested || thenYield || k'.yieldPending)
      && (k.pended == 0 ==> (k'.yieldPending <==> k.yieldPending || exists t :: k.EventList(t) == Some(PendingReady) && Matches(k, t)))
  {
    hide Core, ResumeAll, ReplayTicks, DrainPending, Calm, ReadyGrows, NonePending, ResumedView, RunOk, Matches, State.EventList;
    OutermostResume(k, thenYield);
    if k.pended == 0 {
      OuterYield(k, thenYield);
      StageWaits(k);
      DrainYield(Stage1(k));
    }
  }

  lemma StageWaits(k: State)
    ensures forall t :: Stage1(k).EventList(t) == k.EventList(t) && Matches(Stage1(k), t) == Matches(k, t)
    ensures Core(k) ==> Core(Stage1(k))
  {
    assert SameCore(k, Stage1(k));
    SameAccess(k, Stage1(k));
    hide Core, State.EventList, State.PriorityOf;
    if Core(k) {
      SameKeeps(k, Stage1(k));
    }
  }

  lemma OuterYield(k: State, thenYield: bool)
    requires k.suspended == 1 && k.pended == 0
    ensures ResumeAll(k, thenYield).yieldPending == DrainPending(Stage1(k)).yieldPending
  {
    hide DrainPending;
  }

  lemma DrainYield(k: State)
    requires Core(k)
    ensures DrainPending(k).yieldPending <==> k.yieldPending || exists t :: k.EventList(t) == Some(PendingReady) && Matches(k, t)
  {
    hide Core, WakeAll, ResetNextUnblock, Owners, State.EventList, State.PriorityOf, State.ItemsOf;
    CoreParts(k);
    PendingAsleep(k);
    AnyAtLeastOwners(k, k.ItemsOf(PendingReady));
    NothingAtLeast(k);
    DrainYieldShape(k);
  }

  lemma NothingAtLeast(k: State)
    ensures !AnyAtLeast(k, [])
  {
  }

  lemma DrainYieldShape(k: State)
    ensures DrainPending(k).yieldPending == (k.yieldPending || AnyAtLeast(k, k.ItemsOf(PendingReady)))
  {
    hide WakeAll, ResetNextUnblock, State.PriorityOf;
    ResetOnly(WakeAll(k, k.ItemsOf(PendingReady)));
  }

  // ---- The cached unblock time ----

  /** xNextTaskUnblockTime is the least wake value on the current delayed list, or the maximum if that is empty. */
  ghost predicate ExactNext(k: State) {
    && (forall t :: k.StateList(t) == Some(Delayed(k.second)) ==> k.nextUnblock <= k.ValueOf(StateItem(t)))
    && (k.nextUnblock == 0xFFFF_FFFF || exists t :: k.StateList(t) == Some(Delayed(k.second)) && k.ValueOf(StateItem(t)) == k.nextUnblock)
  }

  lemma ResetExact(k: State)
    requires Core(k) && k.nextUnblock == ResetNextUnblock(k).nextUnblock
    ensures ExactNext(k)
  {
    var items := k.ItemsOf(Delayed(k.second));
    if items != [] {
      OnDelayed(k, items[0], k.second);
      assert k.StateList(items[0].t) == Some(Delayed(k.second));
    }
    hide Lists, Rest, Timed, ResetNextUnblock, State.StateList, State.ValueOf, State.ItemsOf;
  }

  lemma ResetTwice(k: State, k': State)
    requires k' == ResetNextUnblock(k).(switchRequested := k'.switchRequested)
    ensures k'.nextUnblock == ResetNextUnblock(k').nextUnblock
  {
  }

  lemma DueFound(k: State, t: Task)
    requires Core(k) && DueNext(k, t)
    ensures Advance(k).tick >= Advance(k).nextUnblock
  {
    hide Core, Advance, DueNext, Owners;
    AdvanceKeeps(k);
    UnblockedIsDueNext(k, t);
    OwnersMember(Unblocked(Advance(k)), t);
  }

  /** A tick that unblocks somebody, and suspending a task, bring the cached time up to date. */
  lemma NextUnblockExact(k: State, t: Task)
    requires Reachable(k)
    ensures k.suspended == 0 && DueNext(k, t) ==> ExactNext(TickInterrupt(k))
    ensures Enabled(k, Suspend(t)) ==> ExactNext(SuspendTask(k, t))
  {
    hide Reachable, Inv, Core, DueNext, ExactNext, Advance, WakeAll, Park, ResetNextUnblock, Unblocked, TickSwitches, Live;
    ReachableInv(k);
    if k.suspended == 0 && DueNext(k, t) {
      InvSuspended(k);
      TickInterruptKeeps(k);
      InvSuspended(TickInterrupt(k));
      DueFound(k, t);
      TickResets(k);
      ResetExact(TickInterrupt(k));
    }
    if Enabled(k, Suspend(t)) {
      SuspendEnabled(k, t);
      SuspendTaskKeeps(k, t);
      InvSuspended(SuspendTask(k, t));
      ResetTwice(Park(k, t, Suspended), SuspendTask(k, t));
      ResetExact(SuspendTask(k, t));
    }
  }

  lemma SuspendEnabled(k: State, t: Task)
    requires Enabled(k, Suspend(t))
    ensures t != IDLE && Live(k, t)
  {
  }

  lemma TickResets(k: State)
    requires k.suspended == 0 && Advance(k).tick >= Advance(k).nextUnblock
    ensures TickInterrupt(k).nextUnblock == ResetNextUnblock(TickInterrupt(k)).nextUnblock
  {
    hide Advance, WakeAll, Unblocked, TickSwitches;
  }
}
