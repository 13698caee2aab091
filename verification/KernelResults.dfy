/** The main results about the scheduler, over every run from a started scheduler. */
module KernelResults {
  import opened Options
  import opened Kernel
  import opened KernelLists
  import opened KernelTime
  import opened KernelRuns
  import opened KernelSteps
  import opened KernelTheorems
  import Rings

  ghost predicate Runs(k: State, run: seq<Action>, k': State)
    decreases |run|
  {
    if run == [] then k == k' else Enabled(k, run[0]) && Runs(Apply(k, run[0]), run[1..], k')
  }

  lemma {:induction false} RunKeeps(k: State, run: seq<Action>, k': State)
    requires Inv(k) && Runs(k, run, k')
    ensures Inv(k')
    decreases |run|
  {
    hide Inv, Enabled, Apply;
    if run != [] {
      StepKeeps(k, run[0]);
      RunKeeps(Apply(k, run[0]), run[1..], k');
    }
  }

  // ---- Starting ----

  function Blank(): State {
    State(map[], map[], map[], map[], IDLE, 0, 0, 0xFFFF_FFFF, false, 0, 0, 0, false, 0, 0, false, 0, 0, map[], {})
  }

  /** prvAddNewTaskToReadyList before the scheduler runs: the newest of the highest tasks will run. */
  function CreateFirst(k: State, t: Task, p: int): State {
    AddToReady(Enlisted(k, t, p), t).(current := if k.numTasks == 0 || k.PriorityOf(k.current) <= p then t else k.current)
  }

  datatype NewTask = NewTask(t: Task, p: int)

  /** The state in which the scheduler starts, given the tasks in order of creation. */
  function Boot(created: seq<NewTask>): State {
    if created == [] then Blank()
    else
      var last := created[|created| - 1];
      CreateFirst(Boot(created[..|created| - 1]), last.t, last.p)
  }

  predicate Creatable(created: seq<NewTask>) {
    && (forall i :: 0 <= i < |created| ==> 0 <= created[i].p < MAX_PRIORITIES)
    && (forall i, j :: 0 <= i < j < |created| ==> created[i].t != created[j].t)
  }

  function Names(created: seq<NewTask>): set<Task> {
    set i | 0 <= i < |created| :: created[i].t
  }

  lemma NamesSplit(created: seq<NewTask>)
    requires created != [] && Creatable(created)
    ensures var init, last := created[..|created| - 1], created[|created| - 1];
      Creatable(init) && Names(created) == Names(init) + {last.t} && last.t !in Names(init) && 0 <= last.p < MAX_PRIORITIES
  {
    assert created == created[..|created| - 1] + [created[|created| - 1]];
  }

  ghost predicate Booted(k: State) {
    && Core(k) && NonePending(k) && Conserved(k)
    && k.suspended == 0 && !k.switchRequested && !k.yieldPending && k.clock == 0
    && (forall t :: t in k.tasks ==> IsReady(k, t))
    && (k.tasks != {} ==> k.current in k.tasks && Highest(k))
  }

  lemma BlankBooted()
    ensures Booted(Blank()) && Blank().tasks == {}
  {
    hide Blank, Lists, Rest, Timed, NextOk, NonePending, Highest, IsReady;
    BlankFields();
    BlankLists();
    BlankRest();
    BlankTime();
  }

  lemma BlankFields()
    ensures var k := Blank();
      && k.tick == 0 && k.overflows == 0 && k.clock == 0 && k.pended == 0 && k.interrupts == 0 && k.suspended == 0
      && !k.switchRequested && !k.yieldPending && k.tasks == {}
  {
  }

  lemma BlankTime()
    ensures var k := Blank(); Timed(k, 0) && NextOk(k) && NonePending(k)
  {
    var k := Blank();
    assert forall t :: k.StateList(t) == None && k.EventList(t) == None;
    hide State.StateList, State.EventList;
  }

  lemma BlankLists()
    ensures Lists(Blank())
  {
    var k := Blank();
    assert forall l :: k.RingOf(l) == Rings.Ring([], 0);
    assert forall x :: k.ContainerOf(x) == None;
    hide State.RingOf, State.ContainerOf, Blank;
  }

  lemma BlankRest()
    ensures Rest(Blank())
  {
    var k := Blank();
    assert forall t :: k.StateList(t) == None && k.EventList(t) == None;
    assert Dead(k) == {};
    hide State.StateList, State.EventList;
  }

  lemma CreateFirstBooted(k: State, t: Task, p: int)
    requires Booted(k) && t !in k.tasks && 0 <= p < MAX_PRIORITIES
    ensures Booted(CreateFirst(k, t, p)) && CreateFirst(k, t, p).tasks == k.tasks + {t}
  {
    hide Core, AddToReady, Created, NonePending, IsReady, Highest, State.PriorityOf;
    var k1, k' := AddToReady(Enlisted(k, t, p), t), CreateFirst(k, t, p);
    CreateCore(k, t, p);
    CreatedFields(k, k1, t, p);
    SameKeeps(k1, k');
    SameRun(k1, k');
    CreatedPending(k, k1, t, p);
    NonePendingSame(k1, k');
    CreatedAllReady(k, k1, t, p);
    NumTasks(k);
    CreatedHighest(k, k1, k', t, p);
  }

  lemma NumTasks(k: State)
    requires Core(k)
    ensures k.numTasks == |k.tasks|
  {
  }

  lemma NonePendingSame(k: State, k': State)
    requires SameCore(k, k') && NonePending(k)
    ensures NonePending(k')
  {
    SameAccess(k, k');
    hide State.EventList;
  }

  lemma CreatedPending(k: State, k1: State, t: Task, p: int)
    requires Created(k, k1, t, p) && NonePending(k)
    ensures NonePending(k1)
  {
    hide State.StateList, State.EventList, State.PriorityOf;
  }

  lemma CreatedAllReady(k: State, k1: State, t: Task, p: int)
    requires Created(k, k1, t, p) && forall u :: u in k.tasks ==> IsReady(k, u)
    ensures forall u :: u in k.tasks + {t} ==> IsReady(k1, u)
  {
    hide State.StateList, State.EventList, State.PriorityOf;
  }

  lemma CreatedHighest(k: State, k1: State, k': State, t: Task, p: int)
    requires Core(k) && Created(k, k1, t, p) && t !in k.tasks && SameCore(k1, k')
    requires k.tasks != {} ==> k.current in k.tasks && Highest(k)
    requires k'.current == if k.tasks == {} || k.PriorityOf(k.current) <= p then t else k.current
    ensures Highest(k')
  {
    hide Core, SameCore, State.StateList, State.EventList, State.PriorityOf, State.DueOf, State.ValueOf;
    SameAccess(k1, k');
    ReadyKnown(k);
    forall u | IsReady(k', u) ensures k'.StateList(u).value.priority <= k'.PriorityOf(k'.current) {
      assert u != t ==> IsReady(k, u);
    }
  }

  lemma ReadyKnown(k: State)
    requires Core(k)
    ensures forall u :: IsReady(k, u) ==> u in k.tasks
  {
    hide State.StateList, State.EventList, State.PriorityOf, State.DueOf, State.ValueOf, Lists;
  }

  lemma {:induction false} BootKeeps(created: seq<NewTask>)
    requires Creatable(created)
    ensures Booted(Boot(created)) && Boot(created).tasks == Names(created)
  {
    hide Booted, CreateFirst;
    if created == [] {
      BlankBooted();
    } else {
      NamesSplit(created);
      var last := created[|created| - 1];
      BootKeeps(created[..|created| - 1]);
      CreateFirstBooted(Boot(created[..|created| - 1]), last.t, last.p);
    }
  }

  lemma AddKeeps(k: State, t: Task)
    ensures var k' := AddToReady(k, t); k'.numTasks == k.numTasks && k'.current == k.current && k'.priorities == k.priorities
  {
  }

  lemma {:induction false} BootCounts(created: seq<NewTask>)
    ensures Boot(created).numTasks == |created|
    decreases |created|
  {
    if created != [] {
      var init, last := created[..|created| - 1], created[|created| - 1];
      hide AddToReady;
      BootCounts(init);
      AddKeeps(Enlisted(Boot(init), last.t, last.p), last.t);
    }
  }

  /** The i-th task created is above all later ones and not below the earlier ones. */
  predicate NewestHighest(created: seq<NewTask>, i: int)
    requires 0 <= i < |created|
  {
    && (forall j :: 0 <= j < i ==> created[j].p <= created[i].p)
    && (forall j :: i < j < |created| ==> created[j].p < created[i].p)
  }

  /** The task that runs first is the newest of the highest priority. */
  lemma {:induction false} BootRunsNewest(created: seq<NewTask>) returns (i: int)
    requires Creatable(created) && created != []
    ensures 0 <= i < |created| && NewestHighest(created, i)
    ensures Boot(created).current == created[i].t && Boot(created).PriorityOf(created[i].t) == created[i].p
    decreases |created|
  {
    hide AddToReady, Creatable, NewestHighest;
    var n := |created| - 1;
    var init, last := created[..n], created[n];
    NamesSplit(created);
    BootCounts(init);
    AddKeeps(Enlisted(Boot(init), last.t, last.p), last.t);
    i := n;
    if init != [] {
      var h := BootRunsNewest(init);
      if init[h].p > last.p {
        i := h;
        Differ(created, h);
      }
      Newest(created, h);
    } else {
      Alone(created);
    }
  }

  lemma Differ(created: seq<NewTask>, h: int)
    requires Creatable(created) && 0 <= h < |created| - 1
    ensures created[h].t != created[|created| - 1].t
  {
  }

  lemma Alone(created: seq<NewTask>)
    requires |created| == 1
    ensures NewestHighest(created, 0)
  {
  }

  lemma Newest(created: seq<NewTask>, h: int)
    requires 0 <= h < |created| - 1 && NewestHighest(created[..|created| - 1], h)
    ensures NewestHighest(created, if created[h].p > created[|created| - 1].p then h else |created| - 1)
  {
    var init := created[..|created| - 1];
    assert forall j :: 0 <= j < |init| ==> created[j] == init[j];
  }

  /** A state that some run reaches from the start of the scheduler. */
  ghost predicate Reachable(k: State) {
    exists created, run :: Creatable(created) && IDLE in Names(created) && Runs(Boot(created), run, k)
  }

  lemma ReachableInv(k: State)
    requires Reachable(k)
    ensures Inv(k)
  {
    hide Inv, Runs, Boot, Booted;
    var created, run :| Creatable(created) && IDLE in Names(created) && Runs(Boot(created), run, k);
    BootKeeps(created);
    BootedInv(Boot(created));
    RunKeeps(Boot(created), run, k);
  }

  lemma BootedInv(k: State)
    requires Booted(k) && IDLE in k.tasks
    ensures Inv(k)
  {
    hide Core, NonePending, IsReady, Highest;
  }

  // ---- Main results ----

  /** Preemption: with no switch requested, the running task is ready and nobody ready outranks it. */
  lemma PreemptiveSafety(k: State, t: Task)
    requires Reachable(k) && k.suspended == 0 && !k.switchRequested && !k.yieldPending
    ensures IsReady(k, k.current)
    ensures IsReady(k, t) ==> k.PriorityOf(t) <= k.PriorityOf(k.current)
  {
    ReachableInv(k);
    PriorityPlaced(k, t);
  }

  /** uxTopReadyPriority bounds every ready priority, and a switch picks a ready task of the highest one. */
  lemma SelectionIsHighest(k: State, t: Task)
    requires Reachable(k) && k.suspended == 0
    ensures IsReady(k, t) ==> k.PriorityOf(t) <= k.topReady
    ensures var k' := SwitchContext(k);
      IsReady(k', k'.current) && (IsReady(k, t) ==> k.PriorityOf(t) <= k'.PriorityOf(k'.current))
  {
    ReachableInv(k);
    PriorityPlaced(k, t);
    var k' := SwitchContext(k);
    hide SwitchContext;
    SwitchView(k);
    SwitchedAccess(k, k');
  }

  /** No tick is lost or counted twice while the scheduler is suspended. */
  lemma TickConservation(k: State)
    requires Reachable(k)
    ensures k.clock + k.pended == k.interrupts && k.clock == k.overflows * 0x1_0000_0000 + k.tick
    ensures k.suspended == 0 ==> k.pended == 0 && k.ItemsOf(PendingReady) == []
  {
    ReachableInv(k);
    if k.suspended == 0 && k.ItemsOf(PendingReady) != [] {
      OnPending(k, k.ItemsOf(PendingReady)[0]);
    }
  }

  /** The outermost xTaskResumeAll catches up: nothing pended or pending, pending tasks ready, nobody overdue. */
  lemma ResumeCatchesUp(k: State, thenYield: bool, t: Task)
    requires Reachable(k) && k.suspended == 1
    ensures var k' := ResumeAll(k, thenYield);
      && k'.suspended == 0 && k'.pended == 0 && k'.clock == k'.interrupts
      && k'.EventList(t) != Some(PendingReady)
      && (k.EventList(t) == Some(PendingReady) ==> k'.StateList(t) == Some(Ready(k.PriorityOf(t))))
      && (IsDelayed(k', t) ==> k'.DueOf(t) > k'.clock)
      && (IsDelayed(k, t) && k.DueOf(t) <= k.clock + k.pended ==> k'.StateList(t) == Some(Ready(k.PriorityOf(t))))
  {
    ReachableInv(k);
    var k' := ResumeAll(k, thenYield);
    hide ResumeAll, Core, State.StateList, State.EventList, State.PriorityOf, State.DueOf, Calm, ReadyGrows, Highest, IsReady;
    OutermostResume(k, thenYield);
    if IsDelayed(k', t) {
      DelayedNotOverdue(k', t);
    }
  }

  /** The current delayed list is empty whenever the tick is about to wrap, and its cached bound is sound. */
  lemma DelayedLists(k: State, t: Task)
    requires Reachable(k)
    ensures k.tick == 0xFFFF_FFFF ==> k.ItemsOf(Delayed(k.second)) == []
    ensures k.StateList(t) == Some(Delayed(k.second)) ==> k.nextUnblock <= k.ValueOf(StateItem(t))
    ensures IsDelayed(k, t) ==> k.DueOf(t) > k.clock
  {
    ReachableInv(k);
    if k.tick == 0xFFFF_FFFF {
      EmptyAtWrap(k);
    }
    if IsDelayed(k, t) {
      DelayedNotOverdue(k, t);
    }
  }

  /** Every task is on one state list, the right one, and a ready task waits for nothing. */
  lemma StatePartition(k: State, t: Task)
    requires Reachable(k)
    ensures t in k.tasks <==> exists l :: StateItem(t) in k.ItemsOf(l)
    ensures forall l, m :: StateItem(t) in k.ItemsOf(l) && StateItem(t) in k.ItemsOf(m) ==> l == m
    ensures forall l :: StateItem(t) in k.ItemsOf(l) ==> l == Ready(k.PriorityOf(t)) || l.Delayed? || l == Suspended || l == Termination
    ensures forall o, p :: EventItem(t) in k.ItemsOf(Event(o)) ==> StateItem(t) !in k.ItemsOf(Ready(p))
  {
    hide Reachable, Inv, Core, State.ContainerOf, State.RingOf, IsAsleep;
    ReachableInv(k);
    ItemLists(k, t);
    TaskLists(k, t);
  }

  /** A task's items are on the lists their containers name. */
  lemma ItemLists(k: State, t: Task)
    requires Inv(k)
    ensures forall l :: StateItem(t) in k.ItemsOf(l) <==> k.StateList(t) == Some(l)
    ensures forall l :: EventItem(t) in k.ItemsOf(l) <==> k.EventList(t) == Some(l)
  {
    InvSuspended(k);
    assert Linked(k);
    hide Inv, Core, Rings.Valid, State.RingOf, State.ContainerOf;
  }

  lemma TaskLists(k: State, t: Task)
    requires Inv(k)
    ensures t in k.tasks <==> k.StateList(t).Some?
    ensures k.StateList(t).Some? ==>
      var l := k.StateList(t).value; l == Ready(k.PriorityOf(t)) || l.Delayed? || l == Suspended || l == Termination
    ensures k.EventList(t).Some? ==> k.StateList(t).Some? && !k.StateList(t).value.Ready?
  {
    hide Lists, Timed, NextOk, RunOk;
  }
}
