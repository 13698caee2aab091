/** Each action of the scheduler keeps the invariant. */
module KernelSteps {
  import opened Options
  import opened Kernel
  import opened KernelLists
  import opened KernelTime
  import opened KernelRuns

  lemma ResumeKeeps(k: State, thenYield: bool)
    requires Inv(k) && !k.switchRequested && k.suspended > 0 && (IsReady(k, k.current) || thenYield)
    ensures Inv(ResumeAll(k, thenYield))
  {
    if k.suspended == 1 {
      hide Core, ResumeAll, NonePending, RunOk, IsReady, Calm, ReadyGrows, ResumedView;
      OutermostRun(k, thenYield);
      OutermostResume(k, thenYield);
    } else {
      NestedResumeKeeps(k, thenYield);
    }
  }

  lemma OutermostRun(k: State, thenYield: bool)
    requires Core(k) && Conserved(k) && RunOk(k) && k.suspended == 1 && !k.switchRequested && (IsReady(k, k.current) || thenYield)
    ensures RunOk(ResumeAll(k, thenYield))
  {
    hide Core, ResumeAll, Conserved, NonePending, Highest, IsReady, Calm, ReadyGrows, ResumedView;
    OutermostResume(k, thenYield);
    RunAfter(k, ResumeAll(k, thenYield), thenYield);
  }

  lemma RunAfter(k: State, k': State, thenYield: bool)
    requires RunOk(k) && !k.switchRequested && (IsReady(k, k.current) || thenYield)
    requires Calm(k, k') && ReadyGrows(k, k') && k'.current == k.current && k'.tasks == k.tasks
    requires k'.switchRequested == (k.switchRequested || k'.yieldPending || thenYield)
    ensures RunOk(k')
  {
    hide Highest, IsReady;
  }

  lemma NestedResumeKeeps(k: State, thenYield: bool)
    requires Inv(k) && k.suspended > 1
    ensures Inv(ResumeAll(k, thenYield))
  {
    hide Core, DrainPending, ReplayTicks, Highest, IsReady;
    var k' := ResumeAll(k, thenYield);
    SameKeeps(k, k');
    SameRun(k, k');
  }

  // ---- Waking one task ----

  /** A change of the two switch flags. */
  lemma FlagsKeep(k: State, k': State)
    requires Core(k) && Drained(k) && Conserved(k)
    requires k' == k.(yieldPending := k'.yieldPending, switchRequested := k'.switchRequested)
    ensures Core(k') && Drained(k') && Conserved(k')
    ensures Highest(k') == Highest(k) && forall t :: IsReady(k', t) == IsReady(k, t)
  {
    assert SameCore(k, k');
    hide Core, Highest, IsReady, State.EventList;
    SameKeeps(k, k');
    SameRun(k, k');
  }

  lemma WokenInv(k: State, k1: State, t: Task)
    requires Inv(k) && Lists(k1) && Woken(k, k1, {t}) && IsAsleep(k, t)
    ensures Core(k1) && Drained(k1) && Conserved(k1) && ReadyGrows(k, k1) && SameTasks(k, k1) && k1.yieldPending == k.yieldPending
    ensures k.PriorityOf(t) <= k.PriorityOf(k.current) && Highest(k) ==> Highest(k1)
  {
    hide Core, Highest, IsReady, State.StateList, State.PriorityOf, Lists, IsAsleep;
    WokenKeeps(k, k1, {t});
    WokenFrame(k, k1, {t});
    WokenReady(k, k1, {t});
  }

  /** The task is readied, and some flag is raised if it outranks the running task. */
  lemma WakeOneKeeps(k: State, t: Task, k': State)
    requires Inv(k) && IsAsleep(k, t)
    requires var k1 := MakeReady(k, t); k' == k1.(yieldPending := k'.yieldPending, switchRequested := k'.switchRequested)
    requires (k.switchRequested ==> k'.switchRequested) && (k.yieldPending ==> k'.yieldPending)
    requires k.PriorityOf(t) > k.PriorityOf(k.current) ==> k'.yieldPending || k'.switchRequested
    ensures Inv(k')
  {
    var k1 := MakeReady(k, t);
    CoreLists(k);
    hide MakeReady, Core, Highest, IsReady, Lists, Rest, Woken, Drained, Conserved, IsAsleep;
    MakeReadyWoken(k, t);
    WokenInv(k, k1, t);
    FlagsKeep(k1, k');
  }

  lemma MakeReadyFlags(k: State, t: Task)
    requires Inv(k)
    ensures var k1 := MakeReady(k, t); k1.switchRequested == k.switchRequested && k1.yieldPending == k.yieldPending
  {
    hide MakeReady, Lists, Core, State.StateList, State.EventList, State.PriorityOf;
    InvSuspended(k);
    MakeReadyView(k, t);
  }

  lemma CoreLists(k: State)
    requires Core(k)
    ensures Lists(k) && Rest(k)
  {
  }

  /** An event item moves; its task stays asleep where it was. */
  ghost predicate EventMoved(k: State, k': State, t: Task, l: ListId) {
    && OnlyLists(k, k')
    && (forall u :: k'.StateList(u) == k.StateList(u))
    && (forall u :: k'.EventList(u) == if u == t then Some(l) else k.EventList(u))
  }

  lemma OnlyListsAccess(k: State, k': State)
    requires OnlyLists(k, k')
    ensures forall t :: k'.PriorityOf(t) == k.PriorityOf(t) && k'.DueOf(t) == k.DueOf(t) && k'.ValueOf(StateItem(t)) == k.ValueOf(StateItem(t))
  {
  }

  lemma EventMovedTime(k: State, k': State, t: Task, l: ListId)
    requires Timed(k, 0) && NextOk(k) && EventMoved(k, k', t, l)
    ensures Timed(k', 0) && NextOk(k')
  {
    OnlyListsAccess(k, k');
    hide State.StateList, State.EventList, State.PriorityOf, State.DueOf, State.ValueOf;
    forall u ensures TimedTask(k', u, 0) {
      assert TimedTask(k, u, 0);
    }
  }

  lemma EventMovedRest(k: State, k': State, t: Task, l: ListId)
    requires Rest(k) && EventMoved(k, k', t, l) && IsAsleep(k, t) && (l.Event? || l.PendingReady?)
    ensures Rest(k')
  {
    OnlyListsAccess(k, k');
    hide State.StateList, State.EventList, State.PriorityOf, State.DueOf, State.ValueOf;
    assert Dead(k') == Dead(k);
  }

  lemma EventMovedRun(k: State, k': State, t: Task, l: ListId)
    requires EventMoved(k, k', t, l) && RunOk(k)
    ensures RunOk(k')
  {
    OnlyListsAccess(k, k');
    hide State.StateList, State.EventList, State.PriorityOf, State.DueOf, State.ValueOf;
  }

  /** While the scheduler is suspended, a woken task is only noted as pending. */
  lemma PendKeeps(k: State, k1: State, t: Task)
    requires Inv(k) && Lists(k1) && EventMoved(k, k1, t, PendingReady) && IsAsleep(k, t) && k.suspended > 0
    ensures Inv(k1)
  {
    EventMovedRun(k, k1, t, PendingReady);
    EventMovedRest(k, k1, t, PendingReady);
    EventMovedTime(k, k1, t, PendingReady);
    hide Rest, Timed, NextOk, RunOk, State.StateList, State.EventList;
  }

  lemma PendThenFlag(k: State, k1: State, k': State)
    requires Inv(k1) && k' == k1.(yieldPending := k'.yieldPending) && (k1.yieldPending ==> k'.yieldPending)
    ensures Inv(k')
  {
    hide Core, Highest, IsReady, Drained, Conserved;
    FlagsKeep(k1, k');
  }

  lemma HeadWaits(k: State, o: Object)
    requires Core(k) && k.ItemsOf(Event(o)) != []
    ensures var x := k.ItemsOf(Event(o))[0]; x == EventItem(x.t) && k.EventList(x.t) == Some(Event(o)) && IsAsleep(k, x.t)
  {
    var x := k.ItemsOf(Event(o))[0];
    assert x in k.ItemsOf(Event(o));
    assert x.StateItem? ==> k.StateList(x.t) == Some(Event(o));
  }

  lemma PendEvent(k: State, t: Task)
    requires Lists(k)
    ensures var k' := LinkEnd(Unlink(k, EventItem(t)), PendingReady, EventItem(t)); Lists(k') && EventMoved(k, k', t, PendingReady)
  {
    hide Lists, Unlink, LinkEnd, State.StateList, State.EventList;
    EventOff(k, t);
    EventToEnd(Unlink(k, EventItem(t)), PendingReady, t);
  }

  lemma RemoveFromEventKeeps(k: State, o: Object)
    requires Inv(k) && k.ItemsOf(Event(o)) != []
    ensures Inv(RemoveFromEvent(k, o))
  {
    hide Inv, MakeReady, LinkEnd, Unlink, IsAsleep, State.PriorityOf, Core, Lists, Rest, EventMoved, State.EventList;
    var t, k' := k.ItemsOf(Event(o))[0].t, RemoveFromEvent(k, o);
    InvSuspended(k);
    HeadWaits(k, o);
    if k.suspended == 0 {
      MakeReadyFlags(k, t);
      WakeOneKeeps(k, t, k');
    } else {
      var k1 := LinkEnd(Unlink(k, EventItem(t)), PendingReady, EventItem(t));
      PendEvent(k, t);
      PendKeeps(k, k1, t);
      PendThenFlag(k, k1, k');
    }
  }

  lemma WaiterSleeps(k: State, t: Task)
    requires Inv(k) && k.EventList(t).Some?
    ensures IsAsleep(k, t)
  {
  }

  lemma InvSuspended(k: State)
    requires Inv(k)
    ensures Core(k) && Lists(k) && Rest(k) && k.suspended >= 0
  {
  }

  lemma RemoveUnorderedKeeps(k: State, t: Task)
    requires Inv(k) && k.EventList(t).Some?
    ensures Inv(RemoveUnordered(k, t))
  {
    hide Inv, MakeReady, IsAsleep, State.PriorityOf;
    WaiterSleeps(k, t);
    MakeReadyFlags(k, t);
    WakeOneKeeps(k, t, RemoveUnordered(k, t));
  }

  lemma ResumeTaskKeeps(k: State, t: Task)
    requires Inv(k)
    ensures Inv(ResumeTask(k, t))
  {
    if t != k.current && IsSuspended(k, t) {
      assert IsAsleep(k, t);
      hide Inv, MakeReady, IsAsleep, IsSuspended, State.PriorityOf;
      MakeReadyFlags(k, t);
      WakeOneKeeps(k, t, ResumeTask(k, t));
    }
  }

  lemma ResumeFromIsrKeeps(k: State, t: Task)
    requires Inv(k)
    ensures Inv(ResumeFromIsr(k, t))
  {
    hide Inv, MakeReady, LinkEnd, State.PriorityOf, State.EventList, State.StateList, Core, Lists, Rest;
    InvSuspended(k);
    if IsSuspended(k, t) {
      if k.suspended == 0 {
        MakeReadyFlags(k, t);
        WakeOneKeeps(k, t, ResumeFromIsr(k, t));
      } else {
        EventToEnd(k, PendingReady, t);
        PendKeeps(k, LinkEnd(k, PendingReady, EventItem(t)), t);
      }
    }
  }

  // ---- Suspending, deleting and cleaning up ----

  /** Task t leaves its lists for l, or for none; the counts of tasks may change. */
  ghost predicate Left(k: State, k': State, t: Task, l: Option<ListId>) {
    && k' == k.(lists := k'.lists, containers := k'.containers,
                tasks := k'.tasks, numTasks := k'.numTasks, deletedWaiting := k'.deletedWaiting)
    && (forall u :: k'.StateList(u) == if u == t then l else k.StateList(u))
    && (forall u :: k'.EventList(u) == if u == t then None else k.EventList(u))
  }

  predicate OffDuty(l: Option<ListId>) { l.None? || l == Some(Suspended) || l == Some(Termination) }

  lemma LeftAccess(k: State, k': State, t: Task, l: Option<ListId>)
    requires Left(k, k', t, l)
    ensures forall u :: k'.PriorityOf(u) == k.PriorityOf(u) && k'.DueOf(u) == k.DueOf(u) && k'.ValueOf(StateItem(u)) == k.ValueOf(StateItem(u))
  {
  }

  lemma LeftTime(k: State, k': State, t: Task, l: Option<ListId>)
    requires Timed(k, 0) && NextOk(k) && TickOk(k) && Left(k, k', t, l) && OffDuty(l)
    ensures Timed(k', 0) && NextOk(k') && TickOk(k')
  {
    LeftAccess(k, k', t, l);
    hide State.StateList, State.EventList, State.PriorityOf, State.DueOf, State.ValueOf;
    forall u ensures TimedTask(k', u, 0) {
      assert TimedTask(k, u, 0);
    }
  }

  lemma LeftRest(k: State, k': State, t: Task, l: Option<ListId>)
    requires Placed(k) && Waits(k) && TopOk(k) && Left(k, k', t, l) && OffDuty(l) && Counted(k')
    requires k'.tasks == if l.Some? then k.tasks else k.tasks - {t}
    requires t in k.tasks
    ensures Rest(k')
  {
    LeftAccess(k, k', t, l);
    hide State.StateList, State.EventList, State.PriorityOf, State.DueOf, State.ValueOf, Counted;
  }

  lemma LeftKeeps(k: State, k': State, t: Task, l: Option<ListId>)
    requires Core(k) && Lists(k') && Left(k, k', t, l) && OffDuty(l) && Counted(k')
    requires k'.tasks == (if l.Some? then k.tasks else k.tasks - {t}) && t in k.tasks
    ensures Core(k')
  {
    hide Lists, Timed, NextOk, TickOk, Placed, Waits, TopOk, Counted, Left;
    LeftTime(k, k', t, l);
    LeftRest(k, k', t, l);
  }

  /** The other tasks are as ready and as pending as before. */
  lemma LeftOthers(k: State, k': State, t: Task, l: Option<ListId>)
    requires Left(k, k', t, l) && OffDuty(l)
    ensures forall u :: u != t ==> IsReady(k', u) == IsReady(k, u)
    ensures NonePending(k) ==> NonePending(k')
    ensures Highest(k) ==> Highest(k')
  {
    LeftAccess(k, k', t, l);
    hide State.StateList, State.EventList, State.PriorityOf, State.DueOf, State.ValueOf;
  }

  /** The cached unblock time and the pending switch do not matter to anyone's readiness. */
  lemma TailAccess(k1: State, k': State)
    requires k' == k1.(nextUnblock := k'.nextUnblock, switchRequested := k'.switchRequested)
    ensures NonePending(k') == NonePending(k1) && Highest(k') == Highest(k1)
    ensures forall u :: IsReady(k', u) == IsReady(k1, u)
  {
    assert forall u :: k'.StateList(u) == k1.StateList(u) && k'.EventList(u) == k1.EventList(u) && k'.PriorityOf(u) == k1.PriorityOf(u);
    hide State.StateList, State.EventList, State.PriorityOf;
  }

  lemma LeftSame(k: State, k1: State, t: Task, l: Option<ListId>)
    requires Left(k, k1, t, l)
    ensures k1.current == k.current && k1.suspended == k.suspended && k1.yieldPending == k.yieldPending
    ensures k1.switchRequested == k.switchRequested
    ensures k1.pended == k.pended && k1.clock == k.clock && k1.interrupts == k.interrupts
  {
  }

  /** A task that takes itself off duty yields. */
  lemma LeftInv(k: State, k1: State, k': State, t: Task, l: Option<ListId>)
    requires Inv(k) && Left(k, k1, t, l) && OffDuty(l) && t != IDLE && k.current in k1.tasks
    requires k' == k1.(nextUnblock := k'.nextUnblock, switchRequested := k.switchRequested || t == k.current) && Core(k')
    ensures Inv(k')
  {
    hide Core, NonePending, Highest, IsReady, Left;
    LeftOthers(k, k1, t, l);
    LeftSame(k, k1, t, l);
    TailAccess(k1, k');
  }

  lemma SuspendTaskKeeps(k: State, t: Task)
    requires Inv(k) && t != IDLE && Live(k, t)
    ensures Inv(SuspendTask(k, t))
  {
    hide Park, ResetNextUnblock, Lists, Rest, Core, Left, Inv, Counted;
    var k1 := Park(k, t, Suspended);
    InvSuspended(k);
    ParkedLeft(k, t, Suspended);
    SuspendedCount(k, k1, t);
    LeftSame(k, k1, t, Some(Suspended));
    LeftKeeps(k, k1, t, Some(Suspended));
    ResetKeeps(k1);
    ResetAccess(k1);
    YieldKeepsCore(ResetNextUnblock(k1), t == k.current);
    CurrentStays(k);
    LeftInv(k, k1, SuspendTask(k, t), t, Some(Suspended));
  }

  lemma CurrentStays(k: State)
    requires Inv(k)
    ensures k.current in k.tasks
  {
  }

  lemma YieldKeepsCore(k: State, c: bool)
    requires Core(k)
    ensures Core(YieldIf(k, c))
  {
    hide Core;
    SameKeeps(k, YieldIf(k, c));
  }

  lemma ParkedLeft(k: State, t: Task, l: ListId)
    requires Lists(k) && !l.Delayed?
    ensures var k1 := Park(k, t, l);
      && Lists(k1) && Left(k, k1, t, Some(l))
      && k1.tasks == k.tasks && k1.numTasks == k.numTasks && k1.deletedWaiting == k.deletedWaiting
  {
    hide Park, Lists, State.StateList, State.EventList;
    ParkView(k, t, l);
  }

  lemma SuspendedCount(k: State, k1: State, t: Task)
    requires Rest(k) && Live(k, t) && Left(k, k1, t, Some(Suspended))
    requires k1.tasks == k.tasks && k1.numTasks == k.numTasks && k1.deletedWaiting == k.deletedWaiting
    ensures Counted(k1)
  {
    hide State.StateList, State.EventList, State.PriorityOf;
    assert Dead(k1) == Dead(k);
  }

  lemma DeleteSelfKeeps(k: State, t: Task)
    requires Inv(k) && t == k.current && t != IDLE && Live(k, t)
    ensures Inv(DeleteTask(k, t))
  {
    hide Park, Lists, Rest, Core, Left, Inv, Counted, Live;
    var k0 := Park(k, t, Termination);
    var k1 := k0.(deletedWaiting := k.deletedWaiting + 1);
    InvSuspended(k);
    CurrentStays(k);
    ParkedLeft(k, t, Termination);
    TerminatedLeft(k, k0, t);
    LeftSame(k, k1, t, Some(Termination));
    LeftKeeps(k, k1, t, Some(Termination));
    YieldKeepsCore(k1, true);
    LeftInv(k, k1, DeleteTask(k, t), t, Some(Termination));
  }

  lemma TerminatedLeft(k: State, k0: State, t: Task)
    requires Rest(k) && Live(k, t) && Lists(k0) && Left(k, k0, t, Some(Termination))
    requires k0.tasks == k.tasks && k0.numTasks == k.numTasks && k0.deletedWaiting == k.deletedWaiting
    ensures var k1 := k0.(deletedWaiting := k.deletedWaiting + 1);
      Lists(k1) && Left(k, k1, t, Some(Termination)) && Counted(k1)
  {
    hide Lists, Placed, Waits, TopOk, State.StateList, State.EventList;
    var k1 := k0.(deletedWaiting := k.deletedWaiting + 1);
    FieldsKeepLists(k0, k1);
    LeftStates(k, k0, t, Some(Termination));
    TerminatedCount(k, k1, t);
  }

  lemma TerminatedCount(k: State, k1: State, t: Task)
    requires Counted(k) && Live(k, t) && k1.StateList(t) == Some(Termination) && forall u :: u != t ==> k1.StateList(u) == k.StateList(u)
    requires k1.tasks == k.tasks && k1.numTasks == k.numTasks && k1.deletedWaiting == k.deletedWaiting + 1
    ensures Counted(k1)
  {
    hide State.StateList;
    assert Dead(k1) == Dead(k) + {t};
  }

  function Forget(k: State, k0: State, t: Task, dead: int): State {
    k0.(numTasks := k.numTasks - 1, tasks := k.tasks - {t}, deletedWaiting := k.deletedWaiting - dead)
  }

  /** A task is forgotten, with its two items on no list. */
  lemma ForgottenLeft(k: State, k0: State, t: Task, dead: int)
    requires Lists(k0) && OnlyLists(k, k0)
    requires forall u :: k0.StateList(u) == if u == t then None else k.StateList(u)
    requires forall u :: k0.EventList(u) == if u == t then None else k.EventList(u)
    ensures Lists(Forget(k, k0, t, dead)) && Left(k, Forget(k, k0, t, dead), t, None)
  {
    hide Lists, State.StateList, State.EventList;
    FieldsKeepLists(k0, Forget(k, k0, t, dead));
  }

  lemma ForgottenCount(k: State, k1: State, t: Task, dead: int)
    requires Counted(k) && t in k.tasks && k1.tasks == k.tasks - {t} && k1.numTasks == k.numTasks - 1
    requires forall u :: u != t ==> k1.StateList(u) == k.StateList(u)
    requires k1.deletedWaiting == k.deletedWaiting - dead
    requires dead == if k.StateList(t) == Some(Termination) then 1 else 0
    ensures Counted(k1)
  {
    hide State.StateList;
    assert Dead(k1) == Dead(k) - {t};
  }

  lemma ForgottenCore(k: State, k0: State, t: Task, dead: int)
    requires Core(k) && t in k.tasks && Lists(k0) && OnlyLists(k, k0)
    requires forall u :: k0.StateList(u) == if u == t then None else k.StateList(u)
    requires forall u :: k0.EventList(u) == if u == t then None else k.EventList(u)
    requires dead == if k.StateList(t) == Some(Termination) then 1 else 0
    ensures var k1 := Forget(k, k0, t, dead); Core(k1) && Left(k, k1, t, None)
  {
    var k1 := Forget(k, k0, t, dead);
    assert Counted(k);
    hide Core, Lists, Counted, Left, State.StateList, State.EventList;
    ForgottenLeft(k, k0, t, dead);
    assert k1.tasks == k.tasks - {t};
    LeftStates(k, k1, t, None);
    ForgottenCount(k, k1, t, dead);
    hide Forget;
    LeftKeeps(k, k1, t, None);
  }

  lemma LeftStates(k: State, k1: State, t: Task, l: Option<ListId>)
    requires Left(k, k1, t, l)
    ensures forall u :: u != t ==> k1.StateList(u) == k.StateList(u)
  {
    hide State.StateList, State.EventList;
  }

  lemma DeleteOtherKeeps(k: State, t: Task)
    requires Inv(k) && t != k.current && t != IDLE && Live(k, t)
    ensures Inv(DeleteTask(k, t))
  {
    hide Unlink, Lists, Rest, Core, Left, Inv, ResetNextUnblock, State.StateList, State.EventList;
    var k0 := Unlink(Unlink(k, EventItem(t)), StateItem(t));
    var k1 := Forget(k, k0, t, 0);
    InvSuspended(k);
    CurrentStays(k);
    DetachView(k, t);
    ForgottenCore(k, k0, t, 0);
    LeftSame(k, k1, t, None);
    assert DeleteTask(k, t) == ResetNextUnblock(k1);
    ResetKeeps(k1);
    ResetAccess(k1);
    LeftInv(k, k1, ResetNextUnblock(k1), t, None);
  }

  lemma HeadDead(k: State)
    requires Core(k) && k.ItemsOf(Termination) != []
    ensures var x := k.ItemsOf(Termination)[0];
      x == StateItem(x.t) && k.StateList(x.t) == Some(Termination) && x.t in k.tasks && k.EventList(x.t) == None
  {
    var x := k.ItemsOf(Termination)[0];
    assert x in k.ItemsOf(Termination);
    assert x.EventItem? ==> k.EventList(x.t) == Some(Termination);
    assert x.StateItem? ==> k.StateList(x.t) == Some(Termination);
    hide Lists;
    assert !IsAsleep(k, x.t);
  }

  lemma CleanUpKeeps(k: State)
    requires Inv(k) && k.current == IDLE && k.ItemsOf(Termination) != []
    ensures Inv(CleanUpOne(k))
  {
    hide Unlink, Lists, Rest, Core, Left, Inv, ResetNextUnblock, State.StateList, State.EventList;
    var t := k.ItemsOf(Termination)[0].t;
    var k0, k1 := Unlink(k, StateItem(t)), CleanUpOne(k);
    InvSuspended(k);
    CurrentStays(k);
    HeadDead(k);
    IdleLives(k);
    StateOff(k, t);
    ForgottenCore(k, k0, t, 1);
    LeftSame(k, k1, t, None);
    LeftInv(k, k1, k1, t, None);
  }

  lemma IdleLives(k: State)
    requires Inv(k)
    ensures IsReady(k, IDLE)
  {
  }

  // ---- Creating a task ----

  function Enlisted(k: State, t: Task, p: int): State {
    k.(numTasks := k.numTasks + 1, tasks := k.tasks + {t}, priorities := k.priorities[t := p])
  }

  /** The state after a task was created. */
  ghost predicate Created(k: State, k1: State, t: Task, p: int) {
    && OnlyReady(Enlisted(k, t, p), k1) && k1.topReady == (if p > k.topReady then p else k.topReady)
    && (forall u :: k1.StateList(u) == if u == t then Some(Ready(p)) else k.StateList(u))
    && (forall u :: k1.EventList(u) == k.EventList(u))
    && (forall u :: k1.PriorityOf(u) == if u == t then p else k.PriorityOf(u))
    && k.StateList(t) == None && k.EventList(t) == None
  }

  lemma CreatedRest(k: State, k1: State, t: Task, p: int)
    requires Rest(k) && t !in k.tasks && 0 <= p < MAX_PRIORITIES && Created(k, k1, t, p)
    ensures Rest(k1)
  {
    hide State.StateList, State.EventList, State.PriorityOf;
    assert Dead(k1) == Dead(k);
  }

  lemma CreatedTime(k: State, k1: State, t: Task, p: int)
    requires Timed(k, 0) && NextOk(k) && TickOk(k) && Created(k, k1, t, p)
    ensures Timed(k1, 0) && NextOk(k1) && TickOk(k1)
  {
    hide State.StateList, State.EventList, State.PriorityOf;
    CreateTime(k, k1, t);
  }

  lemma CreateCore(k: State, t: Task, p: int)
    requires Core(k) && t !in k.tasks && 0 <= p < MAX_PRIORITIES
    ensures Core(AddToReady(Enlisted(k, t, p), t)) && Created(k, AddToReady(Enlisted(k, t, p), t), t, p)
  {
    hide AddToReady, Lists, Created, Rest, Timed, NextOk, TickOk;
    var k1 := AddToReady(Enlisted(k, t, p), t);
    assert Created(k, k1, t, p) && Lists(k1) by { CreateLists(k, t, p); }
    CreatedRest(k, k1, t, p);
    CreatedTime(k, k1, t, p);
  }

  /** The new task has the given priority and is on its ready list. */
  lemma CreateLists(k: State, t: Task, p: int)
    requires Core(k) && t !in k.tasks
    ensures var k1 := AddToReady(Enlisted(k, t, p), t); Lists(k1) && Created(k, k1, t, p)
  {
    hide Core, AddToReady, Lists, State.StateList, State.EventList, State.PriorityOf, OnlyReady;
    var k0 := Enlisted(k, t, p);
    Unknown(k, t);
    NewPriority(k, k0, t, p);
    FieldsKeepLists(k, k0);
    AddToReadyView(k0, t);
    OnlyReadyThen(k0, AddToReady(k0, t), AddToReady(k0, t));
  }

  lemma NewPriority(k: State, k0: State, t: Task, p: int)
    requires k0.priorities == k.priorities[t := p]
    ensures forall u :: k0.PriorityOf(u) == if u == t then p else k.PriorityOf(u)
  {
  }

  lemma Unknown(k: State, t: Task)
    requires Core(k) && t !in k.tasks
    ensures Lists(k) && k.StateList(t) == None && k.EventList(t) == None
  {
    assert k.StateList(t) == None && !IsAsleep(k, t);
  }

  lemma CreateTime(k: State, k1: State, t: Task)
    requires Timed(k, 0) && NextOk(k) && k1.values == k.values && k1.due == k.due && k1.clock == k.clock && k1.tick == k.tick
    requires k1.second == k.second && k1.nextUnblock == k.nextUnblock
    requires forall u :: k1.StateList(u) == k.StateList(u) || (k1.StateList(u).Some? && !k1.StateList(u).value.Delayed?)
    ensures Timed(k1, 0) && NextOk(k1)
  {
    assert forall u :: k1.DueOf(u) == k.DueOf(u) && k1.ValueOf(StateItem(u)) == k.ValueOf(StateItem(u));
    hide State.StateList, State.DueOf, State.ValueOf;
    forall u ensures TimedTask(k1, u, 0) {
      assert TimedTask(k, u, 0);
    }
  }

  lemma CreatedRun(k: State, k1: State, k': State, t: Task, p: int)
    requires Created(k, k1, t, p) && t !in k.tasks && Drained(k) && Conserved(k) && RunOk(k)
    requires k' == YieldIf(k1, k.PriorityOf(k.current) < p)
    ensures Drained(k') && Conserved(k') && RunOk(k')
  {
    TailAccess(k1, k');
    CreatedFields(k, k1, t, p);
    hide State.StateList, State.EventList, State.PriorityOf, Created;
    CreatedReady(k, k1, t, p);
    hide NonePending, Highest, IsReady;
  }

  lemma CreatedFields(k: State, k1: State, t: Task, p: int)
    requires Created(k, k1, t, p)
    ensures k1.current == k.current && k1.suspended == k.suspended && k1.yieldPending == k.yieldPending
    ensures k1.switchRequested == k.switchRequested && k1.tasks == k.tasks + {t}
    ensures k1.pended == k.pended && k1.clock == k.clock && k1.interrupts == k.interrupts
  {
    hide State.StateList, State.EventList, State.PriorityOf;
  }

  lemma CreatedReady(k: State, k1: State, t: Task, p: int)
    requires Created(k, k1, t, p) && t !in k.tasks && k.current in k.tasks
    ensures NonePending(k) ==> NonePending(k1)
    ensures ReadyGrows(k, k1)
    ensures Highest(k) && p <= k.PriorityOf(k.current) ==> Highest(k1)
  {
    hide State.StateList, State.EventList, State.PriorityOf;
  }

  lemma CreateKeeps(k: State, t: Task, p: int)
    requires Inv(k) && t !in k.tasks && 0 <= p < MAX_PRIORITIES
    ensures Inv(CreateTask(k, t, p))
  {
    hide Core, AddToReady, State.PriorityOf, Drained, Conserved, RunOk, Created;
    var k1 := AddToReady(Enlisted(k, t, p), t);
    assert CreateTask(k, t, p) == YieldIf(k1, k.PriorityOf(k.current) < p);
    CreateCore(k, t, p);
    YieldKeepsCore(k1, k.PriorityOf(k.current) < p);
    CreatedRun(k, k1, CreateTask(k, t, p), t, p);
  }

  // ---- Changing a priority ----

  /** The state after task t got priority p. */
  ghost predicate Reprioritised(k: State, k1: State, t: Task, p: int) {
    && k1 == k.(lists := k1.lists, containers := k1.containers, topReady := k1.topReady, priorities := k.priorities[t := p])
    && k1.topReady == (if IsReady(k, t) && p > k.topReady then p else k.topReady)
    && (forall u :: k1.StateList(u) == if u == t && IsReady(k, t) then Some(Ready(p)) else k.StateList(u))
    && (forall u :: k1.EventList(u) == k.EventList(u))
    && (forall u :: k1.PriorityOf(u) == if u == t then p else k.PriorityOf(u))
  }

  function Relisted(k: State, t: Task, p: int): State {
    var k1 := k.(priorities := k.priorities[t := p]);
    if k.StateList(t) == Some(Ready(k.PriorityOf(t))) then AddToReady(Unlink(k1, StateItem(t)), t) else k1
  }

  lemma RelistView(k: State, t: Task, p: int)
    requires Lists(k) && (IsReady(k, t) ==> k.StateList(t) == Some(Ready(k.PriorityOf(t))))
    ensures Lists(Relisted(k, t, p)) && Reprioritised(k, Relisted(k, t, p), t, p)
  {
    hide Lists, AddToReady, Unlink, State.StateList, State.EventList, State.PriorityOf;
    var k1 := k.(priorities := k.priorities[t := p]);
    NewPriority(k, k1, t, p);
    FieldsKeepLists(k, k1);
    if IsReady(k, t) {
      RelistReady(k, k1, t, p);
    }
  }

  lemma RelistReady(k: State, k1: State, t: Task, p: int)
    requires k1 == k.(priorities := k.priorities[t := p]) && Lists(k1) && IsReady(k, t)
    requires forall u :: k1.StateList(u) == k.StateList(u) && k1.EventList(u) == k.EventList(u)
    requires forall u :: k1.PriorityOf(u) == if u == t then p else k.PriorityOf(u)
    ensures var k3 := AddToReady(Unlink(k1, StateItem(t)), t); Lists(k3) && Reprioritised(k, k3, t, p)
  {
    hide Lists, AddToReady, Unlink, State.StateList, State.EventList, State.PriorityOf, IsReady;
    var k2 := Unlink(k1, StateItem(t));
    StateOff(k1, t);
    OnlyListsAccess(k1, k2);
    AddToReadyView(k2, t);
    OnlyReadyThen(k2, AddToReady(k2, t), AddToReady(k2, t));
  }

  lemma ReprioritisedRest(k: State, k1: State, t: Task, p: int)
    requires Rest(k) && Reprioritised(k, k1, t, p) && t in k.tasks && 0 <= p < MAX_PRIORITIES
    ensures Rest(k1)
  {
    hide State.StateList, State.EventList, State.PriorityOf;
    assert Dead(k1) == Dead(k);
  }

  lemma ReprioritisedTime(k: State, k1: State, t: Task, p: int)
    requires Timed(k, 0) && NextOk(k) && TickOk(k) && Reprioritised(k, k1, t, p)
    ensures Timed(k1, 0) && NextOk(k1) && TickOk(k1)
  {
    hide State.StateList, State.EventList, State.PriorityOf;
    CreateTime(k, k1, t);
  }

  lemma ReprioritisedReady(k: State, k1: State, t: Task, p: int)
    requires Reprioritised(k, k1, t, p)
    ensures NonePending(k) ==> NonePending(k1)
    ensures forall u :: IsReady(k1, u) == IsReady(k, u)
    ensures Highest(k) && t != k.current && p <= k.PriorityOf(k.current) ==> Highest(k1)
    ensures Highest(k) && t == k.current && k.PriorityOf(t) <= p ==> Highest(k1)
  {
    hide State.StateList, State.EventList, State.PriorityOf;
  }

  lemma ReprioritisedRun(k: State, k1: State, k': State, t: Task, p: int)
    requires Reprioritised(k, k1, t, p) && Drained(k) && Conserved(k) && RunOk(k) && p != k.PriorityOf(t)
    requires k' == YieldIf(k1, if p > k.PriorityOf(t) then t != k.current && p >= k.PriorityOf(k.current) else t == k.current)
    requires t != k.current && IsReady(k, t) && Highest(k) && p < k.PriorityOf(t) ==> p <= k.PriorityOf(k.current)
    ensures Drained(k') && Conserved(k') && RunOk(k')
  {
    TailAccess(k1, k');
    ReprioritisedReady(k, k1, t, p);
    LowerIsQuiet(k, k1, t, p);
    hide State.StateList, State.EventList, State.PriorityOf, NonePending, Highest, IsReady;
  }

  /** Lowering another task never puts it above the running task. */
  lemma LowerIsQuiet(k: State, k1: State, t: Task, p: int)
    requires Reprioritised(k, k1, t, p)
    requires t != k.current && IsReady(k, t) && Highest(k) && p < k.PriorityOf(t) ==> p <= k.PriorityOf(k.current)
    ensures Highest(k) && t != k.current && p <= k.PriorityOf(t) && p != k.PriorityOf(t) ==> Highest(k1)
  {
    hide State.StateList, State.EventList, State.PriorityOf;
  }

  lemma PriorityPlaced(k: State, t: Task)
    requires Inv(k)
    ensures IsReady(k, t) ==> k.StateList(t) == Some(Ready(k.PriorityOf(t)))
    ensures IsReady(k, t) && Highest(k) ==> k.PriorityOf(t) <= k.PriorityOf(k.current)
  {
    assert IsReady(k, t) ==> k.StateList(t) == Some(Ready(k.PriorityOf(t)));
  }

  lemma SetPriorityKeeps(k: State, t: Task, requested: int)
    requires Inv(k) && t in k.tasks && requested >= 0
    ensures Inv(SetPriority(k, t, requested))
  {
    hide Core, Lists, Rest, Relisted, State.StateList, State.PriorityOf, Drained, Conserved, RunOk, Reprioritised, IsReady, Highest;
    var p := if requested >= MAX_PRIORITIES then MAX_PRIORITIES - 1 else requested;
    if p != k.PriorityOf(t) {
      var k1, k' := Relisted(k, t, p), SetPriority(k, t, requested);
      SetPriorityShape(k, t, requested, p);
      InvSuspended(k);
      PriorityPlaced(k, t);
      RelistView(k, t, p);
      RelistCore(k, k1, t, p);
      YieldKeepsCore(k1, if p > k.PriorityOf(t) then t != k.current && p >= k.PriorityOf(k.current) else t == k.current);
      ReprioritisedRun(k, k1, k', t, p);
    }
  }

  lemma SetPriorityShape(k: State, t: Task, requested: int, p: int)
    requires p == (if requested >= MAX_PRIORITIES then MAX_PRIORITIES - 1 else requested) && p != k.PriorityOf(t)
    ensures SetPriority(k, t, requested) ==
      YieldIf(Relisted(k, t, p), if p > k.PriorityOf(t) then t != k.current && p >= k.PriorityOf(k.current) else t == k.current)
  {
    hide AddToReady, Unlink, State.StateList, State.PriorityOf;
  }

  lemma RelistCore(k: State, k1: State, t: Task, p: int)
    requires Core(k) && Lists(k1) && Reprioritised(k, k1, t, p) && t in k.tasks && 0 <= p < MAX_PRIORITIES
    ensures Core(k1)
  {
    hide Lists, Rest, Timed, NextOk, TickOk, Reprioritised;
    ReprioritisedRest(k, k1, t, p);
    ReprioritisedTime(k, k1, t, p);
  }
}
