/**
  What the steps on mutexes do to priorities, exactly: blocking raises the holder to the caller and
  no further, a timeout that inheritance preceded lowers it to what the remaining waiters need, and
  xInheritanceOccurred is set when, and only when, the waiter outranks the holder's base priority.
 */
module MutexEffects {
  import opened Options
  import opened Mutexes
  import opened MutexTheorems

  // ---- Blocking ----

  lemma BlockParts(s: System, t: Task, m: MutexId)
    requires Inv(s) && Enabled(s, BlockStep(t, m))
    ensures s.MutexOf(m).holder.Some? && s.MutexOf(m).holder.value != t
    ensures s.TcbOf(t).priority == s.TcbOf(t).base
    ensures var h := s.MutexOf(m).holder.value; s.TcbOf(h).base <= s.TcbOf(h).priority
  {
    Blockable(s, BlockStep(t, m));
    HolderHolds(s, m, s.MutexOf(m).holder.value);
  }

  /** The holder is raised to the caller if it is below, keeps its priority otherwise, and nobody else changes. */
  lemma BlockRaisesHolder(s: System, t: Task, m: MutexId)
    requires Inv(s) && Enabled(s, BlockStep(t, m))
    ensures s.MutexOf(m).holder.Some?
    ensures var s', h := Apply(s, BlockStep(t, m)), s.MutexOf(m).holder.value;
      && s'.TcbOf(h).priority == (if s.TcbOf(h).priority < s.TcbOf(t).priority then s.TcbOf(t).priority else s.TcbOf(h).priority)
      && s'.TcbOf(h).base == s.TcbOf(h).base && s'.TcbOf(h).held == s.TcbOf(h).held
      && (forall u :: u != h ==> s'.TcbOf(u) == s.TcbOf(u))
      && s'.PhaseOf(t).Waiting? && s'.PhaseOf(t).on == m
      && (s'.PhaseOf(t).inherited <==> s.TcbOf(h).base < s.TcbOf(t).base)
  {
    BlockParts(s, t, m);
    BlockView(s, t, m, s.MutexOf(m).holder.value);
    hide Block, System.TcbOf, System.MutexOf, System.PhaseOf, InsertByValue, Inv;
  }

  // ---- Timing out ----

  /** A timed-out task leaves the list and remembers the flag; it gives up exactly when the mutex is still taken. */
  lemma TimeOutThenCheck(s: System, t: Task)
    requires Inv(s) && s.PhaseOf(t).Waiting?
    ensures var s1, m := Apply(s, TickTimeOut(t)), s.PhaseOf(t).on;
      && s1.PhaseOf(t) == Awake(m, s.PhaseOf(t).inherited) && t !in s1.MutexOf(m).waiters
      && (forall u :: s1.TcbOf(u) == s.TcbOf(u))
      && (forall u :: u != t ==> (u in s1.MutexOf(m).waiters <==> u in s.MutexOf(m).waiters) && s1.PhaseOf(u) == s.PhaseOf(u))
      && s1.MutexOf(m).holder == s.MutexOf(m).holder
  {
    TickView(s, t);
    RemoveExact(s.MutexOf(s.PhaseOf(t).on).waiters, t);
    hide Apply, System.TcbOf, System.MutexOf, System.PhaseOf, Inv;
  }

  lemma CheckDecides(s: System, t: Task)
    requires s.PhaseOf(t).Awake?
    ensures var s', p := Apply(s, CheckAfterTimeOut(t)), s.PhaseOf(t);
      && s'.PhaseOf(t) == (if s.MutexOf(p.on).count == 0 then GivingUp(p.on, p.inherited) else p)
      && (forall u :: s'.TcbOf(u) == s.TcbOf(u)) && (forall k :: s'.MutexOf(k) == s.MutexOf(k))
      && forall u :: u != t ==> s'.PhaseOf(u) == s.PhaseOf(u)
  {
  }

  /** The priority of the head of a wait list, and that nobody on it has a higher one. */
  lemma HeadPriority(s: System, m: MutexId)
    requires Ordered(s) && Priorities(s)
    ensures var w := s.MutexOf(m).waiters;
      && (w == [] ==> HighestWaiting(s, m) == IDLE_PRIORITY)
      && (w != [] ==> HighestWaiting(s, m) == s.TcbOf(w[0]).priority && w[0] in w)
      && forall u :: u in w ==> s.TcbOf(u).priority <= HighestWaiting(s, m)
  {
    forall u | u in s.MutexOf(m).waiters ensures s.TcbOf(u).priority <= HighestWaiting(s, m) {
      HeadIsHighest(s, m, u);
    }
    var w := s.MutexOf(m).waiters;
    if w != [] {
      assert s.TcbOf(w[0]).eventValue == MAX_PRIORITIES - s.TcbOf(w[0]).priority;
    }
  }

  /** The holder of a mutex whose waiter gives up: at its base priority, or at that of the highest task still waiting. */
  predicate Settled(s: System, s': System, h: Task, m: MutexId) {
    var p, w := s'.TcbOf(h).priority, s.MutexOf(m).waiters;
    && p >= s'.TcbOf(h).base
    && (forall i :: 0 <= i < |w| ==> p >= s.TcbOf(w[i]).priority)
    && (p == s'.TcbOf(h).base || exists i :: 0 <= i < |w| && p == s.TcbOf(w[i]).priority)
  }

  lemma LoweredSettles(s: System, m: MutexId, h: Task)
    requires Ordered(s) && Priorities(s) && s.TcbOf(h).held == 1
    ensures Settled(s, Lowered(s, m, h), h, m)
  {
    HeadPriority(s, m);
    LoweredView(s, m, h);
    assert s.TcbOf(h).base >= IDLE_PRIORITY;
    hide Lowered, HighestWaiting, System.TcbOf, System.MutexOf, Ordered, Priorities;
    var w, p := s.MutexOf(m).waiters, Lowered(s, m, h).TcbOf(h).priority;
    forall i | 0 <= i < |w| ensures p >= s.TcbOf(w[i]).priority {
      assert w[i] in w;
    }
    if w != [] && p != s.TcbOf(h).base {
      assert p == s.TcbOf(w[0]).priority;
    }
  }

  /**
    Giving up after inheritance: a holder of this one mutex is settled; a holder of several keeps its
    priority; without inheritance nothing changes. Base priorities and the mutexes stay as they were.
   */
  lemma GiveUpSettlesHolder(s0: System, run: seq<Action>, s: System, t: Task)
    requires Initial(s0) && Runs(s0, run, s) && s.PhaseOf(t).GivingUp?
    ensures var s', m, holder := Apply(s, GiveUp(t)), s.PhaseOf(t).on, s.MutexOf(s.PhaseOf(t).on).holder;
      && s'.PhaseOf(t) == Running && (forall k :: s'.MutexOf(k) == s.MutexOf(k))
      && (forall u :: s'.TcbOf(u).base == s.TcbOf(u).base && s'.TcbOf(u).held == s.TcbOf(u).held)
      && (forall u :: Some(u) != holder || !s.PhaseOf(t).inherited || s.TcbOf(u).held != 1 ==> s'.TcbOf(u) == s.TcbOf(u))
      && (holder.Some? && s.PhaseOf(t).inherited && s.TcbOf(holder.value).held == 1 ==> Settled(s, s', holder.value, m))
  {
    InitialInv(s0);
    RunKeeps(s0, run, s);
    GiveUpShape(s, t);
    var m, holder := s.PhaseOf(t).on, s.MutexOf(s.PhaseOf(t).on).holder;
    if holder.Some? && s.PhaseOf(t).inherited {
      LoweredView(s, m, holder.value);
      if s.TcbOf(holder.value).held == 1 {
        LoweredSettles(s, m, holder.value);
      }
    }
    hide Lowered, HighestWaiting, System.TcbOf, System.MutexOf, System.PhaseOf, Inv, Apply;
  }

  lemma GiveUpShape(s: System, t: Task)
    requires s.PhaseOf(t).GivingUp?
    ensures var s', p := Apply(s, GiveUp(t)), s.PhaseOf(t);
      var s1 := if p.inherited && s.MutexOf(p.on).holder.Some? then Lowered(s, p.on, s.MutexOf(p.on).holder.value) else s;
      && s'.PhaseOf(t) == Running
      && (forall u :: s'.TcbOf(u) == s1.TcbOf(u)) && (forall k :: s'.MutexOf(k) == s.MutexOf(k))
      && forall u :: u != t ==> s'.PhaseOf(u) == s.PhaseOf(u)
  {
    hide HighestWaiting, DisinheritAfterTimeout;
  }

  // ---- The flag, over runs ----

  /** Whoever waits since the present holder took the mutex has the flag set exactly if it outranks that holder's base. */
  ghost predicate Flagged(s: System) {
    forall t :: s.PhaseOf(t).Waiting? && s.PhaseOf(t).since == s.MutexOf(s.PhaseOf(t).on).epoch ==>
      && s.MutexOf(s.PhaseOf(t).on).holder.Some?
      && (s.PhaseOf(t).inherited <==> s.TcbOf(s.MutexOf(s.PhaseOf(t).on).holder.value).base < s.TcbOf(t).base)
  }

  ghost predicate IsBase(s: System, p: int) {
    exists u :: s.TcbOf(u).base == p
  }

  /** Every priority is the base priority of some task: priorities are borrowed, never made up. */
  ghost predicate Borrowed(s: System) {
    forall t :: IsBase(s, s.TcbOf(t).priority)
  }

  lemma BaseIsBase(s: System, u: Task)
    ensures IsBase(s, s.TcbOf(u).base)
  {
  }

  /** Base priorities never change here. */
  lemma IsBaseStays(s: System, s': System, p: int)
    requires IsBase(s, p) && forall u :: s'.TcbOf(u).base == s.TcbOf(u).base
    ensures IsBase(s', p)
  {
    hide System.TcbOf;
    var u :| s.TcbOf(u).base == p;
    assert s'.TcbOf(u).base == p;
  }

  /** One task's priority became someone's priority or base; nobody else's changed. */
  lemma KeepsBorrowed(s: System, s': System, h: Task, u: Task)
    requires Borrowed(s) && forall t :: s'.TcbOf(t).base == s.TcbOf(t).base
    requires forall t :: t != h ==> s'.TcbOf(t).priority == s.TcbOf(t).priority
    requires s'.TcbOf(h).priority == s.TcbOf(h).priority || s'.TcbOf(h).priority == s.TcbOf(h).base || s'.TcbOf(h).priority == s.TcbOf(u).priority
    ensures Borrowed(s')
  {
    hide System.TcbOf, IsBase;
    BaseIsBase(s, h);
    forall t ensures IsBase(s', s'.TcbOf(t).priority) {
      assert IsBase(s, s.TcbOf(t).priority) && IsBase(s, s.TcbOf(u).priority);
      IsBaseStays(s, s', s'.TcbOf(t).priority);
    }
  }

  lemma TakeFlags(s: System, t: Task, m: MutexId)
    requires Flagged(s) && Borrowed(s) && Protected(s) && !s.PhaseOf(t).Waiting?
    ensures Flagged(Take(s, t, m)) && Borrowed(Take(s, t, m))
  {
    TakeView(s, t, m);
    hide Take, System.TcbOf, System.MutexOf, System.PhaseOf, IsBase;
    assert Borrowed(Take(s, t, m)) by { KeepsBorrowed(s, Take(s, t, m), t, t); }
  }

  lemma BlockFlagged(s: System, t: Task, m: MutexId)
    requires Inv(s) && Flagged(s) && Enabled(s, BlockStep(t, m)) && s.MutexOf(m).holder.Some?
    ensures Flagged(Block(s, t, m))
  {
    hide System.TcbOf, System.MutexOf, System.PhaseOf, InsertByValue, Inv, Block;
    BlockParts(s, t, m);
    BlockView(s, t, m, s.MutexOf(m).holder.value);
  }

  lemma BlockBorrowed(s: System, t: Task, m: MutexId)
    requires Inv(s) && Borrowed(s) && Enabled(s, BlockStep(t, m)) && s.MutexOf(m).holder.Some?
    ensures Borrowed(Block(s, t, m))
  {
    hide System.TcbOf, System.MutexOf, System.PhaseOf, InsertByValue, Inv, Block, Borrowed;
    BlockParts(s, t, m);
    BlockView(s, t, m, s.MutexOf(m).holder.value);
    KeepsBorrowed(s, Block(s, t, m), s.MutexOf(m).holder.value, t);
  }

  lemma GiveFlags(s: System, t: Task, m: MutexId)
    requires Flagged(s) && Borrowed(s) && Protected(s)
    ensures Flagged(Give(s, t, m)) && Borrowed(Give(s, t, m))
  {
    hide Give, System.TcbOf, System.MutexOf, System.PhaseOf, Borrowed;
    GiveView(s, t, m);
    KeepsBorrowed(s, Give(s, t, m), t, t);
  }

  /** Steps that change neither holders, epochs nor control blocks, and set nobody waiting. */
  lemma QuietFlags(s: System, s': System)
    requires Flagged(s) && Borrowed(s)
    requires forall u :: s'.TcbOf(u) == s.TcbOf(u)
    requires forall k :: s'.MutexOf(k).holder == s.MutexOf(k).holder && s'.MutexOf(k).epoch == s.MutexOf(k).epoch
    requires forall u :: s'.PhaseOf(u).Waiting? ==> s'.PhaseOf(u) == s.PhaseOf(u)
    ensures Flagged(s') && Borrowed(s')
  {
    hide System.TcbOf, System.MutexOf, System.PhaseOf, Borrowed;
    KeepsBorrowed(s, s', 0, 0);
  }

  lemma LoweredFlags(s: System, m: MutexId, h: Task)
    requires Flagged(s) && Borrowed(s) && Ordered(s) && Priorities(s)
    ensures Flagged(Lowered(s, m, h)) && Borrowed(Lowered(s, m, h))
  {
    hide Lowered, HighestWaiting, System.TcbOf, System.MutexOf, System.PhaseOf, Ordered, Borrowed;
    HeadPriority(s, m);
    LoweredView(s, m, h);
    BaseAboveIdle(s, h);
    var w := s.MutexOf(m).waiters;
    KeepsBorrowed(s, Lowered(s, m, h), h, if w == [] then h else w[0]);
  }

  lemma BaseAboveIdle(s: System, h: Task)
    requires Priorities(s)
    ensures s.TcbOf(h).base >= IDLE_PRIORITY
  {
  }

  lemma GiveUpFlags(s: System, t: Task)
    requires Inv(s) && Flagged(s) && Borrowed(s) && s.PhaseOf(t).GivingUp?
    ensures Flagged(Apply(s, GiveUp(t))) && Borrowed(Apply(s, GiveUp(t)))
  {
    hide Apply, Lowered, System.TcbOf, System.MutexOf, System.PhaseOf, Flagged, Borrowed, Accounts, Counts, Priorities, Lists, Protected, Recursion;
    var s', p := Apply(s, GiveUp(t)), s.PhaseOf(t);
    GiveUpShape(s, t);
    if p.inherited && s.MutexOf(p.on).holder.Some? {
      var h := s.MutexOf(p.on).holder.value;
      ListsOrdered(s);
      LoweredFlags(s, p.on, h);
      LoweredView(s, p.on, h);
      QuietFlags(Lowered(s, p.on, h), s');
    } else {
      QuietFlags(s, s');
    }
  }

  lemma ListsOrdered(s: System)
    requires Lists(s)
    ensures Ordered(s)
  {
  }

  lemma StepFlags(s: System, a: Action)
    requires Inv(s) && Flagged(s) && Borrowed(s) && Enabled(s, a) && (a.BlockStep? ==> s.MutexOf(a.m).holder.Some?)
    ensures Flagged(Apply(s, a)) && Borrowed(Apply(s, a))
  {
    hide Inv, Protected, Flagged, Borrowed, Take, Block, Give, Recurse, RemoveWaiter, System.TcbOf, System.MutexOf, System.PhaseOf;
    InvProtected(s);
    match a
    case TakeStep(t, m) => TakeFlags(s, t, m);
    case BlockStep(t, m) =>
      BlockFlagged(s, t, m);
      BlockBorrowed(s, t, m);
    case GiveStep(t, m) => GiveFlags(s, t, m);
    case TakeRecursive(t, m) => TakeRecursiveFlags(s, t, m);
    case GiveRecursive(t, m) => GiveRecursiveFlags(s, t, m);
    case TickTimeOut(t) => TickFlags(s, t);
    case CheckAfterTimeOut(t) => CheckFlags(s, t);
    case GiveUp(t) => GiveUpFlags(s, t);
  }

  lemma TakeRecursiveFlags(s: System, t: Task, m: MutexId)
    requires Flagged(s) && Borrowed(s) && Protected(s) && Enabled(s, TakeRecursive(t, m))
    ensures Flagged(Apply(s, TakeRecursive(t, m))) && Borrowed(Apply(s, TakeRecursive(t, m)))
  {
    hide Protected, Flagged, Borrowed, Take, Recurse;
    if s.MutexOf(m).holder == Some(t) {
      RecurseFlags(s, m, 1, Took(t, m));
    } else {
      TakeFlags(s, t, m);
      RecurseFlags(Take(s, t, m), m, 1, Took(t, m));
    }
  }

  lemma GiveRecursiveFlags(s: System, t: Task, m: MutexId)
    requires Inv(s) && Flagged(s) && Borrowed(s) && Enabled(s, GiveRecursive(t, m))
    ensures Flagged(Apply(s, GiveRecursive(t, m))) && Borrowed(Apply(s, GiveRecursive(t, m)))
  {
    hide Inv, Flagged, Borrowed, Give, Recurse;
    RecurseFlags(s, m, -1, Gave(t, m));
    GiveFlagsAfter(s, t, m);
  }

  lemma TickFlags(s: System, t: Task)
    requires Flagged(s) && Borrowed(s) && s.PhaseOf(t).Waiting?
    ensures Flagged(Apply(s, TickTimeOut(t))) && Borrowed(Apply(s, TickTimeOut(t)))
  {
    hide Apply, Flagged, Borrowed, System.TcbOf, System.MutexOf, System.PhaseOf, RemoveWaiter;
    TickView(s, t);
    QuietFlags(s, Apply(s, TickTimeOut(t)));
  }

  lemma CheckFlags(s: System, t: Task)
    requires Flagged(s) && Borrowed(s) && s.PhaseOf(t).Awake?
    ensures Flagged(Apply(s, CheckAfterTimeOut(t))) && Borrowed(Apply(s, CheckAfterTimeOut(t)))
  {
    hide Apply, Flagged, Borrowed, System.TcbOf, System.MutexOf, System.PhaseOf;
    CheckDecides(s, t);
    QuietFlags(s, Apply(s, CheckAfterTimeOut(t)));
  }

  lemma RecurseFlags(s: System, m: MutexId, change: int, call: RecursiveCall)
    requires Flagged(s) && Borrowed(s)
    ensures Flagged(Recurse(s, m, change, call)) && Borrowed(Recurse(s, m, change, call))
  {
    hide Flagged, Borrowed;
    RecurseQuiet(s, m, change, call);
    QuietFlags(s, Recurse(s, m, change, call));
  }

  lemma RecurseQuiet(s: System, m: MutexId, change: int, call: RecursiveCall)
    ensures var s' := Recurse(s, m, change, call);
      && (forall u :: s'.TcbOf(u) == s.TcbOf(u) && s'.PhaseOf(u) == s.PhaseOf(u))
      && forall k :: s'.MutexOf(k).holder == s.MutexOf(k).holder && s'.MutexOf(k).epoch == s.MutexOf(k).epoch
  {
  }

  lemma GiveFlagsAfter(s: System, t: Task, m: MutexId)
    requires Inv(s) && Enabled(s, GiveRecursive(t, m))
    requires var s1 := Recurse(s, m, -1, Gave(t, m)); Flagged(s1) && Borrowed(s1)
    ensures Flagged(Apply(s, GiveRecursive(t, m))) && Borrowed(Apply(s, GiveRecursive(t, m)))
  {
    hide Flagged, Borrowed, Give, Inv;
    RecurseKeeps(s, t, m, -1, Gave(t, m));
    var s1 := Recurse(s, m, -1, Gave(t, m));
    InvProtected(s1);
    GiveFlags(s1, t, m);
  }

  lemma InvProtected(s: System)
    requires Inv(s)
    ensures Protected(s)
  {
  }

  lemma {:induction false} RunFlags(s: System, run: seq<Action>, s': System)
    requires Inv(s) && Flagged(s) && Borrowed(s) && Runs(s, run, s')
    ensures Inv(s') && Flagged(s') && Borrowed(s')
    decreases |run|
  {
    hide Inv, Flagged, Borrowed, Enabled, Apply;
    if run != [] {
      StepKeeps(s, run[0]);
      StepFlags(s, run[0]);
      RunFlags(Apply(s, run[0]), run[1..], s');
    }
  }

  /** In every reachable state a task that waits on the present holder has the flag exactly if it outranks its base. */
  lemma InheritanceIsRecorded(s0: System, run: seq<Action>, s: System, t: Task, h: Task)
    requires Initial(s0) && Runs(s0, run, s)
    requires s.PhaseOf(t).Waiting? && s.PhaseOf(t).since == s.MutexOf(s.PhaseOf(t).on).epoch && s.MutexOf(s.PhaseOf(t).on).holder == Some(h)
    ensures s.PhaseOf(t).inherited <==> s.TcbOf(h).base < s.TcbOf(t).base
  {
    hide Inv, Initial, Runs, Borrowed;
    InitialInv(s0);
    InitialBorrowed(s0);
    RunFlags(s0, run, s);
    FlaggedOne(s, t);
  }

  /** In every reachable state the priority of a task is the base priority of some task, itself included. */
  lemma PrioritiesAreBorrowed(s0: System, run: seq<Action>, s: System, t: Task)
    requires Initial(s0) && Runs(s0, run, s)
    ensures exists u :: s.TcbOf(t).priority == s.TcbOf(u).base
  {
    hide Inv, Initial, Runs, Borrowed;
    InitialInv(s0);
    InitialBorrowed(s0);
    RunFlags(s0, run, s);
    BorrowedOne(s, t);
  }

  lemma FlaggedOne(s: System, t: Task)
    requires Flagged(s) && s.PhaseOf(t).Waiting? && s.PhaseOf(t).since == s.MutexOf(s.PhaseOf(t).on).epoch
    ensures s.MutexOf(s.PhaseOf(t).on).holder.Some?
    ensures s.PhaseOf(t).inherited <==> s.TcbOf(s.MutexOf(s.PhaseOf(t).on).holder.value).base < s.TcbOf(t).base
  {
  }

  lemma BorrowedOne(s: System, t: Task)
    requires Borrowed(s)
    ensures exists u :: s.TcbOf(t).priority == s.TcbOf(u).base
  {
    assert IsBase(s, s.TcbOf(t).priority);
    var u :| s.TcbOf(u).base == s.TcbOf(t).priority;
  }

  lemma InitialBorrowed(s: System)
    requires Initial(s)
    ensures Flagged(s) && Borrowed(s)
  {
    forall t ensures IsBase(s, s.TcbOf(t).priority) {
      assert s.TcbOf(t).priority == s.TcbOf(t).base;
    }
  }

  // ---- The place on the wait list ----

  /** t is in w' behind everyone in w who is at least as high, and in front of everyone below it. */
  ghost predicate Queues(s: System, w: seq<Task>, t: Task, w': seq<Task>) {
    exists p :: 0 <= p <= |w| && QueuesAt(s, w, t, w', p)
  }

  ghost predicate QueuesAt(s: System, w: seq<Task>, t: Task, w': seq<Task>, p: int)
    requires 0 <= p <= |w|
  {
    && w' == w[..p] + [t] + w[p..]
    && (forall i :: 0 <= i < p ==> s.TcbOf(w[i]).priority >= s.TcbOf(t).priority)
    && (forall i :: p <= i < |w| ==> s.TcbOf(w[i]).priority < s.TcbOf(t).priority)
  }

  ghost predicate Falling(s: System, w: seq<Task>) {
    forall i, j :: 0 <= i < j < |w| ==> s.TcbOf(w[i]).priority >= s.TcbOf(w[j]).priority
  }

  lemma {:induction false} InsertPlace(s: System, w: seq<Task>, t: Task) returns (p: int)
    requires forall u :: s.TcbOf(u).eventValue == MAX_PRIORITIES - s.TcbOf(u).priority
    requires Falling(s, w)
    ensures 0 <= p <= |w| && QueuesAt(s, w, t, InsertByValue(w, t, s), p)
  {
    hide System.TcbOf;
    if w == [] || s.TcbOf(w[0]).priority < s.TcbOf(t).priority {
      p := 0;
    } else {
      p := InsertPlace(s, w[1..], t);
      p := p + 1;
      assert w[..p] == [w[0]] + w[1..][..p - 1] && w[p..] == w[1..][p - 1..];
      forall i | 0 <= i < p ensures s.TcbOf(w[i]).priority >= s.TcbOf(t).priority {
        assert i > 0 ==> w[i] == w[1..][i - 1];
      }
    }
  }

  /** A task that blocks joins the wait list behind those at least as high as itself: highest first, then first come. */
  lemma BlockJoins(s: System, t: Task, m: MutexId)
    requires Inv(s) && Enabled(s, BlockStep(t, m))
    ensures s.MutexOf(m).holder.Some?
    ensures var s' := Apply(s, BlockStep(t, m));
      Queues(s', s.MutexOf(m).waiters, t, s'.MutexOf(m).waiters) && s'.PhaseOf(t).Waiting? && s'.PhaseOf(t).on == m
  {
    hide Inv, Falling, QueuesAt, InsertByValue, Inherit;
    BlockParts(s, t, m);
    StepKeeps(s, BlockStep(t, m));
    var s', w := Apply(s, BlockStep(t, m)), s.MutexOf(m).waiters;
    BlockStays(s, t, m);
    InvValues(s');
    InvFalling(s, m);
    StillFalling(s, s', w);
    var p := InsertPlace(s', w, t);
    SameInsert(s, t, m);
  }

  lemma InvValues(s: System)
    requires Inv(s)
    ensures forall u :: s.TcbOf(u).eventValue == MAX_PRIORITIES - s.TcbOf(u).priority
  {
  }

  lemma InvFalling(s: System, m: MutexId)
    requires Inv(s)
    ensures Falling(s, s.MutexOf(m).waiters)
  {
    assert OrderedList(s.MutexOf(m).waiters, s);
  }

  /** The waiters keep their priorities: the holder is not one of them. */
  lemma BlockStays(s: System, t: Task, m: MutexId)
    requires Inv(s) && Enabled(s, BlockStep(t, m)) && s.MutexOf(m).holder.Some?
    ensures forall u :: u in s.MutexOf(m).waiters ==> Apply(s, BlockStep(t, m)).TcbOf(u).priority == s.TcbOf(u).priority
  {
    var h := s.MutexOf(m).holder.value;
    HolderWaitsNot(s, m, h);
    BlockRaisesHolder(s, t, m);
    hide Inv, Apply, System.TcbOf, System.MutexOf;
  }

  lemma HolderWaitsNot(s: System, m: MutexId, h: Task)
    requires Inv(s) && s.MutexOf(m).holder == Some(h)
    ensures h !in s.MutexOf(m).waiters
  {
    HolderHolds(s, m, h);
  }

  lemma StillFalling(s: System, s': System, w: seq<Task>)
    requires Falling(s, w) && forall u :: u in w ==> s'.TcbOf(u).priority == s.TcbOf(u).priority
    ensures Falling(s', w)
  {
    hide System.TcbOf;
    forall i, j | 0 <= i < j < |w| ensures s'.TcbOf(w[i]).priority >= s'.TcbOf(w[j]).priority {
      assert w[i] in w && w[j] in w;
    }
  }

  lemma SameInsert(s: System, t: Task, m: MutexId)
    requires s.MutexOf(m).holder.Some? && Enabled(s, BlockStep(t, m))
    ensures var s' := Apply(s, BlockStep(t, m)); s'.MutexOf(m).waiters == InsertByValue(s.MutexOf(m).waiters, t, s')
    ensures var s' := Apply(s, BlockStep(t, m)); s'.PhaseOf(t).Waiting? && s'.PhaseOf(t).on == m
  {
    var h := s.MutexOf(m).holder.value;
    var s1 := s.SetTcb(h, Inherit(s.TcbOf(h), s.TcbOf(t).priority));
    SameTcbs(s1, Apply(s, BlockStep(t, m)), s.MutexOf(m).waiters, t);
  }

  lemma {:induction false} SameTcbs(s: System, s': System, w: seq<Task>, t: Task)
    requires s'.tcbs == s.tcbs
    ensures InsertByValue(w, t, s') == InsertByValue(w, t, s)
  {
    if w != [] {
      SameTcbs(s, s', w[1..], t);
    }
  }

  // ---- Recursive mutexes ----

  lemma BalanceAppend(log: seq<RecursiveCall>, call: RecursiveCall)
    ensures Balance(log + [call], call.on, call.caller) == Balance(log, call.on, call.caller) + if call.Took? then 1 else -1
  {
    assert (log + [call])[..|log|] == log;
  }

  /** A recursive take raises the caller's balance by one and counts as held only the first time. */
  lemma RecursiveTake(s: System, t: Task, m: MutexId)
    requires Inv(s) && Enabled(s, TakeRecursive(t, m))
    ensures var s', first := Apply(s, TakeRecursive(t, m)), s.MutexOf(m).holder != Some(t);
      && Balance(s'.log, m, t) == Balance(s.log, m, t) + 1 && s'.MutexOf(m).holder == Some(t)
      && s'.MutexOf(m).count == 0 && s'.TcbOf(t).held == s.TcbOf(t).held + (if first then 1 else 0)
  {
    hide Balance, Inv;
    BalanceAppend(s.log, Took(t, m));
    HeldCount(s, m, t);
  }

  lemma HeldCount(s: System, m: MutexId, t: Task)
    requires Inv(s)
    ensures (s.MutexOf(m).holder.Some? <==> s.MutexOf(m).count == 0) && 0 <= s.MutexOf(m).count <= 1
    ensures s.MutexOf(m).holder == Some(t) ==> Balance(s.log, m, t) == s.MutexOf(m).recursion
  {
    hide Balance;
  }

  /** A recursive give lowers the balance by one, and frees the mutex exactly when that brings it to nought. */
  lemma RecursiveGive(s: System, t: Task, m: MutexId)
    requires Inv(s) && Enabled(s, GiveRecursive(t, m))
    ensures var s', last := Apply(s, GiveRecursive(t, m)), Balance(s.log, m, t) == 1;
      && Balance(s'.log, m, t) == Balance(s.log, m, t) - 1
      && s'.MutexOf(m).holder == (if last then None else Some(t)) && s'.MutexOf(m).count == (if last then 1 else 0)
      && s'.TcbOf(t).held == s.TcbOf(t).held - (if last then 1 else 0)
      && s'.MutexOf(m).waiters == if last && s.MutexOf(m).waiters != [] then s.MutexOf(m).waiters[1..] else s.MutexOf(m).waiters
  {
    hide Balance, Inv;
    BalanceAppend(s.log, Gave(t, m));
    HeldCount(s, m, t);
  }
}
