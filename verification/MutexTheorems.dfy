/**
  Over every run in which holders give and nobody waits for a mutex while holding one:
  the counts of held mutexes are exact, and a holder never runs below a task that has
  been waiting for it since it became the holder, even when other waiters time out.
 */
module MutexTheorems {
  import opened Options
  import opened Mutexes
  import opened Seqs

  function Held(s: System, t: Task): set<MutexId> {
    set m | m in s.mutexes && s.mutexes[m].holder == Some(t)
  }

  /** uxMutexesHeld is the number of mutexes that name the task as holder. */
  ghost predicate Accounts(s: System) {
    forall t :: s.TcbOf(t).held == |Held(s, t)|
  }

  ghost predicate Counts(s: System) {
    forall m :: 0 <= s.MutexOf(m).count <= 1 && (s.MutexOf(m).count == 0 <==> s.MutexOf(m).holder.Some?)
  }

  /** A task holding nothing runs at its base priority; event list items follow priorities. */
  ghost predicate Priorities(s: System) {
    forall t :: var tcb := s.TcbOf(t);
      && IDLE_PRIORITY <= tcb.base <= tcb.priority && tcb.eventValue == MAX_PRIORITIES - tcb.priority
      && (tcb.held == 0 ==> tcb.priority == tcb.base)
  }

  ghost predicate NoRepeats(s: System) {
    forall m :: NoDup(s.MutexOf(m).waiters)
  }

  /** The wait lists hold exactly the tasks that wait. */
  ghost predicate Members(s: System) {
    forall m, t :: t in s.MutexOf(m).waiters <==> s.PhaseOf(t).Waiting? && s.PhaseOf(t).on == m
  }

  ghost predicate WaitersHoldNothing(s: System) {
    forall t :: s.PhaseOf(t).Waiting? ==> s.TcbOf(t).held == 0
  }

  ghost predicate OrderedList(w: seq<Task>, s: System) {
    forall i, j :: 0 <= i < j < |w| ==> s.TcbOf(w[i]).eventValue <= s.TcbOf(w[j]).eventValue
  }

  ghost predicate Ordered(s: System) {
    forall m :: OrderedList(s.MutexOf(m).waiters, s)
  }

  /** Whoever has waited for m since its present holder took it does not outrank that holder. */
  ghost predicate Protected(s: System) {
    && (forall t :: s.PhaseOf(t).Waiting? ==> s.PhaseOf(t).since <= s.MutexOf(s.PhaseOf(t).on).epoch)
    && forall m, t :: t in s.MutexOf(m).waiters && s.PhaseOf(t).Waiting? && s.PhaseOf(t).on == m && s.PhaseOf(t).since == s.MutexOf(m).epoch ==>
      s.MutexOf(m).holder.Some? && s.TcbOf(s.MutexOf(m).holder.value).priority >= s.TcbOf(t).priority
  }

  /** The recursive takes of m by t that were accepted, minus its gives. */
  function Balance(log: seq<RecursiveCall>, m: MutexId, t: Task): int {
    if log == [] then 0
    else
      var call := log[|log| - 1];
      Balance(log[..|log| - 1], m, t) + if call.on != m || call.caller != t then 0 else if call.Took? then 1 else -1
  }

  /** uxRecursiveCallCount is the holder's takes minus gives; everyone else's have cancelled out. */
  ghost predicate Recursion(s: System) {
    && (forall m :: s.MutexOf(m).recursion >= 0 && (s.MutexOf(m).holder.None? ==> s.MutexOf(m).recursion == 0))
    && (forall m, t :: Balance(s.log, m, t) == if s.MutexOf(m).holder == Some(t) then s.MutexOf(m).recursion else 0)
  }

  ghost predicate Lists(s: System) {
    NoRepeats(s) && Members(s) && WaitersHoldNothing(s) && Ordered(s)
  }

  ghost predicate Inv(s: System) {
    Accounts(s) && Counts(s) && Priorities(s) && Lists(s) && Protected(s) && Recursion(s)
  }

  // ---- Taking ----

  lemma TakeView(s: System, t: Task, m: MutexId)
    ensures var s', mutex := Take(s, t, m), s.MutexOf(m);
      && (forall u :: s'.TcbOf(u) == if u == t then IncrementHeld(s.TcbOf(t)) else s.TcbOf(u))
      && (forall k :: s'.MutexOf(k) ==
           if k == m then mutex.(holder := Some(t), count := mutex.count - 1, epoch := mutex.epoch + 1) else s.MutexOf(k))
      && (forall u :: s'.PhaseOf(u) == if u == t then Running else s.PhaseOf(u))
      && s'.log == s.log
  {
  }

  lemma TakeHeld(s: System, t: Task, m: MutexId, u: Task)
    requires s.MutexOf(m).holder == None
    ensures Held(Take(s, t, m), u) == Held(s, u) + if u == t then {m} else {}
    ensures m !in Held(s, u)
  {
  }

  lemma TakeKeepsAccounts(s: System, t: Task, m: MutexId)
    requires Accounts(s) && Counts(s) && Priorities(s) && s.MutexOf(m).count > 0
    ensures Accounts(Take(s, t, m)) && Counts(Take(s, t, m)) && Priorities(Take(s, t, m))
  {
    hide Take, System.TcbOf, System.MutexOf, Held;
    TakeView(s, t, m);
    var s' := Take(s, t, m);
    forall u ensures s'.TcbOf(u).held == |Held(s', u)| {
      TakeHeld(s, t, m, u);
    }
  }

  lemma TakeKeepsLists(s: System, t: Task, m: MutexId)
    requires Lists(s) && !s.PhaseOf(t).Waiting?
    ensures Lists(Take(s, t, m))
  {
    hide Take, System.TcbOf, System.MutexOf, System.PhaseOf, NoDup;
    TakeView(s, t, m);
  }

  /** A new holder starts a new epoch, so nothing is owed to the earlier waiters of m. */
  lemma TakeKeepsProtected(s: System, t: Task, m: MutexId)
    requires Members(s) && Protected(s) && !s.PhaseOf(t).Waiting?
    ensures Protected(Take(s, t, m))
  {
    hide Take, System.TcbOf, System.MutexOf, System.PhaseOf;
    TakeView(s, t, m);
  }

  lemma TakeKeepsRecursion(s: System, t: Task, m: MutexId)
    requires Recursion(s) && s.MutexOf(m).holder == None
    ensures Recursion(Take(s, t, m))
  {
    hide Take, System.MutexOf, Balance;
    TakeView(s, t, m);
  }

  lemma TakeKeeps(s: System, t: Task, m: MutexId)
    requires Inv(s) && !s.PhaseOf(t).Waiting? && s.MutexOf(m).count > 0
    ensures Inv(Take(s, t, m))
  {
    assert s.MutexOf(m).holder == None;
    hide Accounts, Counts, Priorities, NoRepeats, Members, WaitersHoldNothing, Ordered, Protected, Recursion, Take;
    TakeKeepsAccounts(s, t, m);
    TakeKeepsLists(s, t, m);
    TakeKeepsProtected(s, t, m);
    TakeKeepsRecursion(s, t, m);
  }

  // ---- Blocking ----

  /** What blocking does, with the wait list named. */
  lemma BlockView(s: System, t: Task, m: MutexId, h: Task)
    requires s.MutexOf(m).holder == Some(h) && h != t
    ensures var s', mutex := Block(s, t, m), s.MutexOf(m);
      && (forall u :: s'.TcbOf(u) == if u == h then Inherit(s.TcbOf(h), s.TcbOf(t).priority) else s.TcbOf(u))
      && (forall k :: k != m ==> s'.MutexOf(k) == s.MutexOf(k))
      && s'.MutexOf(m) == mutex.(waiters := InsertByValue(mutex.waiters, t, s'))
      && (forall u :: s'.PhaseOf(u) ==
            if u == t then Waiting(m, Inherited(s.TcbOf(h), s.TcbOf(t).priority), mutex.epoch) else s.PhaseOf(u))
      && s'.log == s.log
  {
    var s1 := s.SetTcb(h, Inherit(s.TcbOf(h), s.TcbOf(t).priority));
    InsertDepends(s.MutexOf(m).waiters, t, s1, Block(s, t, m));
  }

  /** Insertion looks only at the event list items. */
  lemma {:induction false} InsertDepends(w: seq<Task>, t: Task, s1: System, s2: System)
    requires s1.tcbs == s2.tcbs
    ensures InsertByValue(w, t, s1) == InsertByValue(w, t, s2)
  {
    if w != [] {
      InsertDepends(w[1..], t, s1, s2);
    }
  }

  lemma {:induction false} InsertNoDup(w: seq<Task>, t: Task, s: System)
    requires NoDup(w) && t !in w
    ensures NoDup(InsertByValue(w, t, s))
  {
    if w != [] && !(s.TcbOf(w[0]).eventValue > s.TcbOf(t).eventValue) {
      InsertNoDup(w[1..], t, s);
      var rest := InsertByValue(w[1..], t, s);
      assert forall u :: u in rest ==> u != w[0];
      forall i, j | 0 <= i < j < |rest| + 1 ensures ([w[0]] + rest)[i] != ([w[0]] + rest)[j] {
        assert ([w[0]] + rest)[j] == rest[j - 1] && rest[j - 1] in rest;
      }
    }
  }

  lemma PrependOrdered(x: Task, rest: seq<Task>, s: System)
    requires OrderedList(rest, s) && forall u :: u in rest ==> s.TcbOf(x).eventValue <= s.TcbOf(u).eventValue
    ensures OrderedList([x] + rest, s)
  {
    hide System.TcbOf;
    var r := [x] + rest;
    forall i, j | 0 <= i < j < |r| ensures s.TcbOf(r[i]).eventValue <= s.TcbOf(r[j]).eventValue {
      assert r[j] == rest[j - 1] && rest[j - 1] in rest;
    }
  }

  lemma {:induction false} InsertOrdered(w: seq<Task>, t: Task, s: System)
    requires OrderedList(w, s)
    ensures OrderedList(InsertByValue(w, t, s), s)
  {
    hide System.TcbOf;
    if w != [] && !(s.TcbOf(w[0]).eventValue > s.TcbOf(t).eventValue) {
      InsertOrdered(w[1..], t, s);
      var rest := InsertByValue(w[1..], t, s);
      forall u | u in rest ensures s.TcbOf(w[0]).eventValue <= s.TcbOf(u).eventValue {
      }
      PrependOrdered(w[0], rest, s);
    }
  }

  lemma BlockKeepsAccounts(s: System, t: Task, m: MutexId, h: Task)
    requires Accounts(s) && Counts(s) && Priorities(s) && s.MutexOf(m).holder == Some(h) && h != t
    ensures Accounts(Block(s, t, m)) && Counts(Block(s, t, m)) && Priorities(Block(s, t, m))
  {
    BlockView(s, t, m, h);
    hide Block, System.TcbOf, System.MutexOf, Held, InsertByValue;
    HolderHolds(s, m, h);
    var s' := Block(s, t, m);
    forall u ensures s'.TcbOf(u).held == |Held(s', u)| {
      BlockHeld(s, t, m, u);
    }
  }

  lemma BlockHeld(s: System, t: Task, m: MutexId, u: Task)
    requires s.MutexOf(m).holder.Some?
    ensures Held(Block(s, t, m), u) == Held(s, u)
  {
  }

  lemma HolderHolds(s: System, m: MutexId, h: Task)
    requires Accounts(s) && s.MutexOf(m).holder == Some(h)
    ensures s.TcbOf(h).held > 0 && m in Held(s, h)
  {
    assert m in Held(s, h);
  }

  /** Holders do not wait, so a change to a holder's priority leaves every wait list in order. */
  lemma OrderedUnlessWaiting(w: seq<Task>, s: System, s': System, h: Task)
    requires OrderedList(w, s) && h !in w && forall u :: u != h ==> s'.TcbOf(u) == s.TcbOf(u)
    ensures OrderedList(w, s')
  {
    hide System.TcbOf;
  }

  lemma BlockKeepsOrdered(s: System, t: Task, m: MutexId, h: Task)
    requires Ordered(s) && Members(s) && s.MutexOf(m).holder == Some(h) && h != t && !s.PhaseOf(h).Waiting?
    ensures Ordered(Block(s, t, m))
  {
    BlockView(s, t, m, h);
    hide Block, System.TcbOf, System.MutexOf, System.PhaseOf, OrderedList, InsertByValue;
    var s', w := Block(s, t, m), s.MutexOf(m).waiters;
    forall k ensures OrderedList(s'.MutexOf(k).waiters, s') {
      assert OrderedList(s.MutexOf(k).waiters, s);
      OrderedUnlessWaiting(s.MutexOf(k).waiters, s, s', h);
      if k == m {
        InsertOrdered(w, t, s');
      }
    }
  }

  lemma BlockKeepsMembers(s: System, t: Task, m: MutexId, h: Task)
    requires Members(s) && WaitersHoldNothing(s) && s.MutexOf(m).holder == Some(h) && h != t
    requires !s.PhaseOf(t).Waiting? && s.TcbOf(t).held == 0
    ensures Members(Block(s, t, m)) && WaitersHoldNothing(Block(s, t, m))
  {
    BlockView(s, t, m, h);
    hide Block, System.TcbOf, System.MutexOf, System.PhaseOf, InsertByValue;
  }

  lemma BlockKeepsNoRepeats(s: System, t: Task, m: MutexId, h: Task)
    requires NoRepeats(s) && s.MutexOf(m).holder == Some(h) && h != t && t !in s.MutexOf(m).waiters
    ensures NoRepeats(Block(s, t, m))
  {
    BlockView(s, t, m, h);
    hide Block, System.TcbOf, System.MutexOf, System.PhaseOf, InsertByValue, NoDup;
    InsertNoDup(s.MutexOf(m).waiters, t, Block(s, t, m));
  }

  lemma BlockKeepsProtected(s: System, t: Task, m: MutexId, h: Task)
    requires Members(s) && Protected(s) && s.MutexOf(m).holder == Some(h) && h != t
    requires !s.PhaseOf(t).Waiting? && !s.PhaseOf(h).Waiting?
    ensures Protected(Block(s, t, m))
  {
    BlockView(s, t, m, h);
    hide Block, System.TcbOf, System.MutexOf, System.PhaseOf, InsertByValue;
  }

  lemma BlockKeepsRecursion(s: System, t: Task, m: MutexId, h: Task)
    requires Recursion(s) && s.MutexOf(m).holder == Some(h) && h != t
    ensures Recursion(Block(s, t, m))
  {
    BlockView(s, t, m, h);
    hide Block, System.TcbOf, System.MutexOf, System.PhaseOf, InsertByValue, Balance;
  }

  lemma BlockKeeps(s: System, t: Task, m: MutexId)
    requires Inv(s) && !s.PhaseOf(t).Waiting? && s.MutexOf(m).holder.Some? && s.TcbOf(t).held == 0
    ensures Inv(Block(s, t, m))
  {
    var h := s.MutexOf(m).holder.value;
    HolderHolds(s, m, h);
    assert t !in s.MutexOf(m).waiters;
    hide Accounts, Counts, Priorities, NoRepeats, Members, WaitersHoldNothing, Ordered, Protected, Recursion, Block;
    assert !s.PhaseOf(h).Waiting? by { WaiterHoldsNothing(s, h); }
    BlockKeepsAccounts(s, t, m, h);
    BlockKeepsOrdered(s, t, m, h);
    BlockKeepsMembers(s, t, m, h);
    BlockKeepsNoRepeats(s, t, m, h);
    BlockKeepsProtected(s, t, m, h);
    BlockKeepsRecursion(s, t, m, h);
  }

  lemma WaiterHoldsNothing(s: System, t: Task)
    requires WaitersHoldNothing(s)
    ensures s.PhaseOf(t).Waiting? ==> s.TcbOf(t).held == 0
  {
  }

  // ---- Giving ----

  lemma GiveView(s: System, t: Task, m: MutexId)
    ensures var s', mutex := Give(s, t, m), s.MutexOf(m);
      && (forall u :: s'.TcbOf(u) == if u == t then Disinherit(s.TcbOf(t)) else s.TcbOf(u))
      && (forall k :: k != m ==> s'.MutexOf(k) == s.MutexOf(k))
      && s'.MutexOf(m) == mutex.(holder := None, count := mutex.count + 1, epoch := mutex.epoch + 1,
                                  waiters := if mutex.waiters == [] then [] else mutex.waiters[1..])
      && (forall u :: s'.PhaseOf(u) ==
            if mutex.waiters != [] && u == mutex.waiters[0] then Awake(m, InheritedFlag(s.PhaseOf(u))) else s.PhaseOf(u))
      && s'.log == s.log
  {
  }

  lemma GiveHeld(s: System, t: Task, m: MutexId, u: Task)
    requires s.MutexOf(m).holder == Some(t)
    ensures Held(Give(s, t, m), u) == Held(s, u) - if u == t then {m} else {}
    ensures u == t ==> m in Held(s, u)
  {
  }

  lemma GiveKeepsAccounts(s: System, t: Task, m: MutexId)
    requires Accounts(s) && Counts(s) && Priorities(s) && s.MutexOf(m).holder == Some(t)
    ensures Accounts(Give(s, t, m)) && Counts(Give(s, t, m)) && Priorities(Give(s, t, m))
  {
    GiveView(s, t, m);
    HolderHolds(s, m, t);
    hide Give, System.TcbOf, System.MutexOf, Held;
    var s' := Give(s, t, m);
    forall u ensures s'.TcbOf(u).held == |Held(s', u)| {
      GiveHeld(s, t, m, u);
    }
  }

  lemma TailNoDup(w: seq<Task>)
    requires NoDup(w) && w != []
    ensures NoDup(w[1..]) && forall u :: u in w[1..] <==> u in w && u != w[0]
  {
    assert w == [w[0]] + w[1..];
  }

  lemma TailOrdered(w: seq<Task>, s: System)
    requires OrderedList(w, s) && w != []
    ensures OrderedList(w[1..], s)
  {
    hide System.TcbOf;
  }

  lemma GiveKeepsOrdered(s: System, t: Task, m: MutexId)
    requires Ordered(s) && Members(s) && !s.PhaseOf(t).Waiting?
    ensures Ordered(Give(s, t, m))
  {
    GiveView(s, t, m);
    hide Give, System.TcbOf, System.MutexOf, System.PhaseOf, OrderedList;
    var s', w := Give(s, t, m), s.MutexOf(m).waiters;
    forall k ensures OrderedList(s'.MutexOf(k).waiters, s') {
      assert OrderedList(s.MutexOf(k).waiters, s);
      OrderedUnlessWaiting(s.MutexOf(k).waiters, s, s', t);
      if k == m && w != [] {
        TailOrdered(w, s');
      }
    }
  }

  /** The waiters after m is given: one fewer on its list. */
  lemma GiveWaiters(s: System, t: Task, m: MutexId)
    requires NoRepeats(s)
    ensures var s', w := Give(s, t, m), s.MutexOf(m).waiters;
      && NoRepeats(s')
      && forall k, u :: u in s'.MutexOf(k).waiters <==> u in s.MutexOf(k).waiters && (k == m ==> u != w[0])
  {
    GiveView(s, t, m);
    hide Give, System.TcbOf, System.MutexOf, System.PhaseOf, NoDup;
    var w := s.MutexOf(m).waiters;
    if w != [] {
      TailNoDup(w);
    }
  }

  lemma GiveKeepsMembers(s: System, t: Task, m: MutexId)
    requires NoRepeats(s) && Members(s)
    ensures Members(Give(s, t, m))
  {
    GiveView(s, t, m);
    GiveWaiters(s, t, m);
    hide Give, System.TcbOf, System.MutexOf, System.PhaseOf, NoRepeats;
    var s', w := Give(s, t, m), s.MutexOf(m).waiters;
    if w != [] {
      assert s.PhaseOf(w[0]).Waiting? && s.PhaseOf(w[0]).on == m;
    }
  }

  lemma GiveKeepsHoldNothing(s: System, t: Task, m: MutexId)
    requires WaitersHoldNothing(s) && !s.PhaseOf(t).Waiting?
    ensures WaitersHoldNothing(Give(s, t, m))
  {
    GiveView(s, t, m);
    hide Give, System.TcbOf, System.MutexOf, System.PhaseOf;
  }

  /** The giver may drop to its base priority, but only when it holds nothing else. */
  lemma GiverKeepsPriority(s: System, t: Task, m: MutexId, k: MutexId)
    requires Accounts(s) && s.MutexOf(m).holder == Some(t) && s.MutexOf(k).holder == Some(t) && k != m
    ensures Give(s, t, m).TcbOf(t).priority == s.TcbOf(t).priority
  {
    HolderHolds(s, m, t);
    HolderHolds(s, k, t);
    TwoHeld(s, m, k, t);
    GiveView(s, t, m);
  }

  lemma GiveKeepsProtected(s: System, t: Task, m: MutexId)
    requires Accounts(s) && NoRepeats(s) && Members(s) && Protected(s) && s.MutexOf(m).holder == Some(t) && !s.PhaseOf(t).Waiting?
    ensures Protected(Give(s, t, m))
  {
    GiveView(s, t, m);
    GiveWaiters(s, t, m);
    var s' := Give(s, t, m);
    hide Give, System.TcbOf, System.MutexOf, System.PhaseOf, NoRepeats, Accounts;
    forall k, u | u in s'.MutexOf(k).waiters && s'.PhaseOf(u).Waiting? && s'.PhaseOf(u).on == k && s'.PhaseOf(u).since == s'.MutexOf(k).epoch
      ensures s'.MutexOf(k).holder.Some? && s'.TcbOf(s'.MutexOf(k).holder.value).priority >= s'.TcbOf(u).priority
    {
      if k != m && s.MutexOf(k).holder == Some(t) {
        GiverKeepsPriority(s, t, m, k);
      }
    }
  }

  lemma GiveKeepsRecursion(s: System, t: Task, m: MutexId)
    requires Recursion(s) && s.MutexOf(m).holder == Some(t) && s.MutexOf(m).recursion == 0
    ensures Recursion(Give(s, t, m))
  {
    GiveView(s, t, m);
    hide Give, System.TcbOf, System.MutexOf, System.PhaseOf, Balance;
  }

  lemma TwoHeld(s: System, m: MutexId, k: MutexId, t: Task)
    requires Accounts(s) && m in Held(s, t) && k in Held(s, t) && m != k
    ensures s.TcbOf(t).held >= 2
  {
    assert {m, k} <= Held(s, t);
    assert |Held(s, t) - {m, k}| == |Held(s, t)| - |{m, k}|;
  }

  lemma GiveKeeps(s: System, t: Task, m: MutexId)
    requires Inv(s) && s.MutexOf(m).holder == Some(t) && s.MutexOf(m).recursion == 0
    ensures Inv(Give(s, t, m))
  {
    HolderHolds(s, m, t);
    hide Accounts, Counts, Priorities, NoRepeats, Members, WaitersHoldNothing, Ordered, Protected, Recursion, Give;
    assert !s.PhaseOf(t).Waiting? by { WaiterHoldsNothing(s, t); }
    GiveKeepsAccounts(s, t, m);
    GiveKeepsOrdered(s, t, m);
    GiveWaiters(s, t, m);
    GiveKeepsMembers(s, t, m);
    GiveKeepsHoldNothing(s, t, m);
    GiveKeepsProtected(s, t, m);
    GiveKeepsRecursion(s, t, m);
  }

  // ---- Recursive calls ----

  /** Equal but for recursive call counts, the log and the phases of tasks that do not wait. */
  ghost predicate Alike(s: System, s': System) {
    && (forall u :: s'.TcbOf(u) == s.TcbOf(u) && Held(s', u) == Held(s, u))
    && (forall k :: var m, m' := s.MutexOf(k), s'.MutexOf(k);
          m'.holder == m.holder && m'.count == m.count && m'.waiters == m.waiters && m'.epoch == m.epoch)
    && (forall u :: s'.PhaseOf(u) == s.PhaseOf(u) || (!s'.PhaseOf(u).Waiting? && !s.PhaseOf(u).Waiting?))
  }

  lemma AlikeKeepsAccounts(s: System, s': System)
    requires Alike(s, s') && Accounts(s) && Counts(s) && Priorities(s)
    ensures Accounts(s') && Counts(s') && Priorities(s')
  {
    hide System.TcbOf, System.MutexOf, System.PhaseOf, Held;
  }

  lemma AlikeKeepsLists(s: System, s': System)
    requires Alike(s, s') && Lists(s)
    ensures Lists(s')
  {
    hide System.TcbOf, System.MutexOf, System.PhaseOf, Held, NoDup, OrderedList;
    forall k ensures OrderedList(s'.MutexOf(k).waiters, s') {
      assert OrderedList(s.MutexOf(k).waiters, s);
      SameTcbs(s.MutexOf(k).waiters, s, s');
    }
  }

  lemma AlikeKeepsProtected(s: System, s': System)
    requires Alike(s, s') && Members(s) && Protected(s)
    ensures Protected(s')
  {
    hide System.TcbOf, System.MutexOf, System.PhaseOf, Held;
  }

  lemma AlikeKeeps(s: System, s': System)
    requires Alike(s, s') && Inv(s) && Recursion(s')
    ensures Inv(s')
  {
    hide Alike, Accounts, Counts, Priorities, NoRepeats, Members, WaitersHoldNothing, Ordered, Protected, Recursion;
    AlikeKeepsAccounts(s, s');
    AlikeKeepsLists(s, s');
    AlikeKeepsProtected(s, s');
  }

  lemma RecurseAlike(s: System, m: MutexId, change: int, call: RecursiveCall)
    ensures Alike(s, Recurse(s, m, change, call))
  {
  }

  lemma RecurseCounts(s: System, t: Task, m: MutexId, change: int, call: RecursiveCall, k: MutexId, u: Task)
    requires Recursion(s) && s.MutexOf(m).holder == Some(t) && call.caller == t && call.on == m
    requires change == if call.Took? then 1 else -1
    ensures var s' := Recurse(s, m, change, call);
      Balance(s'.log, k, u) == if s'.MutexOf(k).holder == Some(u) then s'.MutexOf(k).recursion else 0
  {
    var s' := Recurse(s, m, change, call);
    assert s'.log[..|s'.log| - 1] == s.log;
    assert Balance(s.log, k, u) == if s.MutexOf(k).holder == Some(u) then s.MutexOf(k).recursion else 0;
  }

  lemma RecurseKeeps(s: System, t: Task, m: MutexId, change: int, call: RecursiveCall)
    requires Inv(s) && s.MutexOf(m).holder == Some(t) && call.caller == t && call.on == m
    requires change == if call.Took? then 1 else -1
    requires s.MutexOf(m).recursion + change >= 0
    ensures Inv(Recurse(s, m, change, call))
  {
    hide Alike, Accounts, Counts, Priorities, Lists, Protected, Balance;
    RecurseAlike(s, m, change, call);
    var s' := Recurse(s, m, change, call);
    assert Recursion(s') by {
      forall k, u ensures Balance(s'.log, k, u) == if s'.MutexOf(k).holder == Some(u) then s'.MutexOf(k).recursion else 0 {
        RecurseCounts(s, t, m, change, call, k, u);
      }
    }
    AlikeKeeps(s, s');
  }

  // ---- Timing out ----

  lemma {:induction false} RemoveExact(w: seq<Task>, t: Task)
    requires NoDup(w)
    ensures NoDup(RemoveWaiter(w, t)) && forall u :: u in RemoveWaiter(w, t) <==> u in w && u != t
  {
    if w != [] {
      TailNoDup(w);
      if w[0] != t {
        RemoveExact(w[1..], t);
        var rest := RemoveWaiter(w[1..], t);
        forall i, j | 0 <= i < j < |rest| + 1 ensures ([w[0]] + rest)[i] != ([w[0]] + rest)[j] {
          assert ([w[0]] + rest)[j] == rest[j - 1] && rest[j - 1] in rest;
        }
      }
    }
  }

  lemma {:induction false} RemoveOrdered(w: seq<Task>, t: Task, s: System)
    requires OrderedList(w, s)
    ensures OrderedList(RemoveWaiter(w, t), s)
  {
    hide System.TcbOf;
    if w != [] && w[0] != t {
      RemoveOrdered(w[1..], t, s);
      var rest := RemoveWaiter(w[1..], t);
      PrependOrdered(w[0], rest, s);
    }
  }

  function AfterTick(s: System, t: Task): System
    requires s.PhaseOf(t).Waiting?
  {
    Apply(s, TickTimeOut(t))
  }

  lemma TickView(s: System, t: Task)
    requires s.PhaseOf(t).Waiting?
    ensures var s', m := AfterTick(s, t), s.PhaseOf(t).on;
      && (forall u :: s'.TcbOf(u) == s.TcbOf(u))
      && (forall k :: k != m ==> s'.MutexOf(k) == s.MutexOf(k))
      && s'.MutexOf(m) == s.MutexOf(m).(waiters := RemoveWaiter(s.MutexOf(m).waiters, t))
      && (forall u :: s'.PhaseOf(u) == if u == t then Awake(m, s.PhaseOf(t).inherited) else s.PhaseOf(u))
      && s'.log == s.log
  {
  }

  lemma TickKeepsAccounts(s: System, t: Task)
    requires s.PhaseOf(t).Waiting? && Accounts(s) && Counts(s) && Priorities(s) && Recursion(s)
    ensures var s' := AfterTick(s, t); Accounts(s') && Counts(s') && Priorities(s') && Recursion(s')
  {
    TickView(s, t);
    var s' := AfterTick(s, t);
    forall u ensures Held(s', u) == Held(s, u) {
    }
    hide AfterTick, System.TcbOf, System.MutexOf, System.PhaseOf, Held, RemoveWaiter, Balance;
  }

  lemma TickKeepsOrdered(s: System, t: Task)
    requires s.PhaseOf(t).Waiting? && Ordered(s)
    ensures Ordered(AfterTick(s, t))
  {
    TickView(s, t);
    hide AfterTick, System.TcbOf, System.MutexOf, System.PhaseOf, OrderedList, RemoveWaiter;
    var s', m := AfterTick(s, t), s.PhaseOf(t).on;
    forall k ensures OrderedList(s'.MutexOf(k).waiters, s') {
      assert OrderedList(s.MutexOf(k).waiters, s);
      SameTcbs(s.MutexOf(k).waiters, s, s');
      if k == m {
        RemoveOrdered(s.MutexOf(m).waiters, t, s');
      }
    }
  }

  lemma SameTcbs(w: seq<Task>, s: System, s': System)
    requires OrderedList(w, s) && forall u :: s'.TcbOf(u) == s.TcbOf(u)
    ensures OrderedList(w, s')
  {
    hide System.TcbOf;
  }

  lemma TickKeepsLists(s: System, t: Task)
    requires s.PhaseOf(t).Waiting? && NoRepeats(s) && Members(s) && WaitersHoldNothing(s)
    ensures var s' := AfterTick(s, t); NoRepeats(s') && Members(s') && WaitersHoldNothing(s')
  {
    TickView(s, t);
    RemoveExact(s.MutexOf(s.PhaseOf(t).on).waiters, t);
    hide AfterTick, System.TcbOf, System.MutexOf, System.PhaseOf, NoDup, RemoveWaiter;
  }

  lemma TickKeepsProtected(s: System, t: Task)
    requires s.PhaseOf(t).Waiting? && Members(s) && Protected(s)
    ensures Protected(AfterTick(s, t))
  {
    TickView(s, t);
    hide AfterTick, System.TcbOf, System.MutexOf, System.PhaseOf, RemoveWaiter;
  }

  lemma TickKeeps(s: System, t: Task)
    requires Inv(s) && s.PhaseOf(t).Waiting?
    ensures Inv(AfterTick(s, t))
  {
    hide Accounts, Counts, Priorities, NoRepeats, Members, WaitersHoldNothing, Ordered, Protected, Recursion, AfterTick;
    TickKeepsAccounts(s, t);
    TickKeepsOrdered(s, t);
    TickKeepsLists(s, t);
    TickKeepsProtected(s, t);
  }

  /** Moving between phases that do not wait disturbs nothing. */
  lemma PhaseKeeps(s: System, t: Task, p: Phase)
    requires Inv(s) && !s.PhaseOf(t).Waiting? && !p.Waiting?
    ensures Inv(s.SetPhase(t, p))
  {
    var s' := s.SetPhase(t, p);
    hide Alike, Accounts, Counts, Priorities, Lists, Protected, Recursion, Balance;
    PhaseAlike(s, t, p);
    AlikeKeeps(s, s');
  }

  lemma PhaseAlike(s: System, t: Task, p: Phase)
    requires !s.PhaseOf(t).Waiting? && !p.Waiting?
    ensures Alike(s, s.SetPhase(t, p))
    ensures Recursion(s) ==> Recursion(s.SetPhase(t, p))
  {
    hide Balance;
    assert forall k :: s.SetPhase(t, p).MutexOf(k) == s.MutexOf(k);
  }

  // ---- Disinheriting after a timeout ----

  function Lowered(s: System, m: MutexId, h: Task): System {
    s.SetTcb(h, DisinheritAfterTimeout(s.TcbOf(h), HighestWaiting(s, m)))
  }

  lemma LoweredView(s: System, m: MutexId, h: Task)
    ensures var s' := Lowered(s, m, h);
      && (forall u :: s'.TcbOf(u) == if u == h then DisinheritAfterTimeout(s.TcbOf(h), HighestWaiting(s, m)) else s.TcbOf(u))
      && (forall k :: s'.MutexOf(k) == s.MutexOf(k))
      && (forall u :: s'.PhaseOf(u) == s.PhaseOf(u))
      && s'.log == s.log
  {
  }

  /** The head of an ordered wait list has the highest priority on it. */
  lemma HeadIsHighest(s: System, m: MutexId, t: Task)
    requires Ordered(s) && Priorities(s) && t in s.MutexOf(m).waiters
    ensures HighestWaiting(s, m) >= s.TcbOf(t).priority
  {
    var w := s.MutexOf(m).waiters;
    assert OrderedList(w, s);
    hide System.TcbOf, System.MutexOf;
    var i :| 0 <= i < |w| && w[i] == t;
  }

  lemma LoweredKeepsAccounts(s: System, m: MutexId, h: Task)
    requires Accounts(s) && Counts(s) && Priorities(s) && Recursion(s) && s.MutexOf(m).holder == Some(h)
    ensures var s' := Lowered(s, m, h); Accounts(s') && Counts(s') && Priorities(s') && Recursion(s')
  {
    LoweredView(s, m, h);
    HolderHolds(s, m, h);
    var s' := Lowered(s, m, h);
    forall u ensures Held(s', u) == Held(s, u) {
    }
    hide Lowered, System.TcbOf, System.MutexOf, System.PhaseOf, Held, Balance, HighestWaiting;
  }

  lemma LoweredKeepsLists(s: System, m: MutexId, h: Task)
    requires NoRepeats(s) && Members(s) && WaitersHoldNothing(s) && !s.PhaseOf(h).Waiting?
    ensures var s' := Lowered(s, m, h); NoRepeats(s') && Members(s') && WaitersHoldNothing(s')
  {
    LoweredView(s, m, h);
    hide Lowered, System.TcbOf, System.MutexOf, System.PhaseOf, NoDup, HighestWaiting;
  }

  lemma LoweredKeepsOrdered(s: System, m: MutexId, h: Task)
    requires Ordered(s) && Members(s) && !s.PhaseOf(h).Waiting?
    ensures Ordered(Lowered(s, m, h))
  {
    LoweredView(s, m, h);
    hide Lowered, System.TcbOf, System.MutexOf, System.PhaseOf, OrderedList, HighestWaiting;
    var s' := Lowered(s, m, h);
    forall k ensures OrderedList(s'.MutexOf(k).waiters, s') {
      assert OrderedList(s.MutexOf(k).waiters, s);
      OrderedUnlessWaiting(s.MutexOf(k).waiters, s, s', h);
    }
  }

  /** When the priority changes, m is the only mutex held, and its highest waiter is still covered. */
  lemma LoweredStillCovers(s: System, m: MutexId, h: Task, k: MutexId, t: Task)
    requires Accounts(s) && Priorities(s) && Ordered(s)
    requires s.MutexOf(m).holder == Some(h) && s.MutexOf(k).holder == Some(h)
    requires t in s.MutexOf(k).waiters && s.TcbOf(h).priority >= s.TcbOf(t).priority
    ensures Lowered(s, m, h).TcbOf(h).priority >= s.TcbOf(t).priority
  {
    LoweredView(s, m, h);
    if k != m {
      HolderHolds(s, m, h);
      HolderHolds(s, k, h);
      TwoHeld(s, m, k, h);
    } else {
      HeadIsHighest(s, m, t);
    }
  }

  lemma LoweredKeepsProtected(s: System, m: MutexId, h: Task)
    requires Accounts(s) && Priorities(s) && Ordered(s) && Members(s) && Protected(s)
    requires s.MutexOf(m).holder == Some(h) && !s.PhaseOf(h).Waiting?
    ensures Protected(Lowered(s, m, h))
  {
    LoweredView(s, m, h);
    var s' := Lowered(s, m, h);
    hide Lowered, System.TcbOf, System.MutexOf, System.PhaseOf, Accounts, Priorities, Ordered, HighestWaiting;
    forall k, u | u in s'.MutexOf(k).waiters && s'.PhaseOf(u).Waiting? && s'.PhaseOf(u).on == k && s'.PhaseOf(u).since == s'.MutexOf(k).epoch
      ensures s'.MutexOf(k).holder.Some? && s'.TcbOf(s'.MutexOf(k).holder.value).priority >= s'.TcbOf(u).priority
    {
      if s.MutexOf(k).holder == Some(h) {
        LoweredStillCovers(s, m, h, k, u);
      }
    }
  }

  lemma LoweredKeeps(s: System, m: MutexId, h: Task)
    requires Inv(s) && s.MutexOf(m).holder == Some(h)
    ensures Inv(Lowered(s, m, h))
  {
    HolderHolds(s, m, h);
    hide Accounts, Counts, Priorities, NoRepeats, Members, WaitersHoldNothing, Ordered, Protected, Recursion, Lowered;
    assert !s.PhaseOf(h).Waiting? by { WaiterHoldsNothing(s, h); }
    LoweredKeepsAccounts(s, m, h);
    LoweredKeepsLists(s, m, h);
    LoweredKeepsOrdered(s, m, h);
    LoweredKeepsProtected(s, m, h);
  }

  // ---- Steps and runs ----

  lemma Blockable(s: System, a: Action)
    requires Inv(s) && Enabled(s, a)
    ensures a.BlockStep? ==> s.MutexOf(a.m).holder.Some?
  {
  }

  lemma StepKeeps(s: System, a: Action)
    requires Inv(s) && Enabled(s, a) && (a.BlockStep? ==> s.MutexOf(a.m).holder.Some?)
    ensures Inv(Apply(s, a))
  {
    match a
    case TakeStep(t, m) => TakeKeeps(s, t, m);
    case BlockStep(t, m) => BlockKeeps(s, t, m);
    case GiveStep(t, m) => GiveKeeps(s, t, m);
    case TakeRecursive(t, m) => TakeRecursiveKeeps(s, t, m);
    case GiveRecursive(t, m) => GiveRecursiveKeeps(s, t, m);
    case TickTimeOut(t) => TickKeeps(s, t);
    case CheckAfterTimeOut(t) =>
      var p := s.PhaseOf(t);
      PhaseKeeps(s, t, if s.MutexOf(p.on).count == 0 then GivingUp(p.on, p.inherited) else p);
    case GiveUp(t) => GiveUpKeeps(s, t);
  }

  lemma TakeRecursiveKeeps(s: System, t: Task, m: MutexId)
    requires Inv(s) && Enabled(s, TakeRecursive(t, m))
    ensures Inv(Apply(s, TakeRecursive(t, m)))
  {
    assert s.MutexOf(m).recursion >= 0;
    if s.MutexOf(m).holder == Some(t) {
      hide Inv;
      RecurseKeeps(s, t, m, 1, Took(t, m));
    } else {
      TakeView(s, t, m);
      hide Inv, Take;
      TakeKeeps(s, t, m);
      RecurseKeeps(Take(s, t, m), t, m, 1, Took(t, m));
    }
  }

  lemma GiveRecursiveKeeps(s: System, t: Task, m: MutexId)
    requires Inv(s) && Enabled(s, GiveRecursive(t, m))
    ensures Inv(Apply(s, GiveRecursive(t, m)))
  {
    hide Inv, Give;
    RecurseKeeps(s, t, m, -1, Gave(t, m));
    var s1 := Recurse(s, m, -1, Gave(t, m));
    if s1.MutexOf(m).recursion == 0 {
      GiveKeeps(s1, t, m);
    }
  }

  lemma GiveUpKeeps(s: System, t: Task)
    requires Inv(s) && Enabled(s, GiveUp(t))
    ensures Inv(Apply(s, GiveUp(t)))
  {
    hide Inv;
    var p := s.PhaseOf(t);
    var s1 := s.SetPhase(t, Running);
    PhaseKeeps(s, t, Running);
    if p.inherited && s.MutexOf(p.on).holder.Some? {
      LoweredKeeps(s1, p.on, s.MutexOf(p.on).holder.value);
    }
  }

  /** Some order of critical sections, timeouts and calls takes s to s'. */
  ghost predicate Runs(s: System, run: seq<Action>, s': System)
    decreases |run|
  {
    if run == [] then s == s'
    else
      && Enabled(s, run[0])
      && (run[0].BlockStep? ==> s.MutexOf(run[0].m).holder.Some?)
      && Runs(Apply(s, run[0]), run[1..], s')
  }

  /** Tasks of any base priorities, all mutexes free. */
  ghost predicate Initial(s: System) {
    && s.mutexes == map[] && s.phases == map[] && s.log == []
    && forall t :: var tcb := s.TcbOf(t);
         tcb.held == 0 && IDLE_PRIORITY <= tcb.base == tcb.priority && tcb.eventValue == MAX_PRIORITIES - tcb.priority
  }

  lemma InitialInv(s: System)
    requires Initial(s)
    ensures Inv(s)
  {
    forall t ensures Held(s, t) == {} {
    }
  }

  lemma {:induction false} RunKeeps(s: System, run: seq<Action>, s': System)
    requires Inv(s) && Runs(s, run, s')
    ensures Inv(s')
    decreases |run|
  {
    hide Inv, Enabled, Apply;
    if run != [] {
      StepKeeps(s, run[0]);
      RunKeeps(Apply(s, run[0]), run[1..], s');
    }
  }

  // ---- Main results ----

  /** Mutex accounting, in every state any run reaches. */
  lemma MutexAccounting(s: System, run: seq<Action>, s': System, t: Task, m: MutexId)
    requires Initial(s) && Runs(s, run, s')
    ensures s'.TcbOf(t).held == |Held(s', t)|
    ensures s'.MutexOf(m).count == 0 <==> s'.MutexOf(m).holder.Some?
    ensures Held(s', t) == {} ==> s'.TcbOf(t).priority == s'.TcbOf(t).base
    ensures Balance(s'.log, m, t) == if s'.MutexOf(m).holder == Some(t) then s'.MutexOf(m).recursion else 0
  {
    InitialInv(s);
    RunKeeps(s, run, s');
  }

  /** The holder keeps up with everyone who blocked on m since it took m, whoever else times out. */
  lemma PriorityInheritanceHolds(s: System, run: seq<Action>, s': System, t: Task, m: MutexId)
    requires Initial(s) && Runs(s, run, s')
    requires t in s'.MutexOf(m).waiters && s'.PhaseOf(t).Waiting? && s'.PhaseOf(t).since == s'.MutexOf(m).epoch
    ensures s'.MutexOf(m).holder.Some?
    ensures s'.TcbOf(s'.MutexOf(m).holder.value).priority >= s'.TcbOf(t).priority
  {
    InitialInv(s);
    RunKeeps(s, run, s');
  }

  /** A new holder covers the tasks already waiting exactly when it is not below the head of their list. */
  lemma TakeCovers(s: System, t: Task, m: MutexId)
    requires Inv(s) && Enabled(s, TakeStep(t, m))
    ensures var s', w := Take(s, t, m), s.MutexOf(m).waiters;
      (forall u :: u in w ==> s'.TcbOf(t).priority >= s'.TcbOf(u).priority)
      <==> s.TcbOf(t).priority >= HighestWaiting(s, m) || w == []
  {
    TakeView(s, t, m);
    var w := s.MutexOf(m).waiters;
    hide Take, Accounts, Counts, Protected, Recursion, System.TcbOf, System.MutexOf;
    forall u | u in w ensures HighestWaiting(s, m) >= s.TcbOf(u).priority {
      HeadIsHighest(s, m, u);
    }
    if w != [] {
      assert w[0] in w;
    }
  }

  function Low(): Task { 1 }
  function Middle(): Task { 2 }
  function High(): Task { 3 }

  /** Low, Middle and High; then their mutex, and where they are in their calls. */
  function Trio(low: Tcb, mutex: Mutex, phases: map<Task, Phase>): System {
    System(map[Low() := low, Middle() := Tcb(5, 5, 0, 10), High() := Tcb(9, 9, 0, 6)], map[0 := mutex], phases, [])
  }

  function Outranked(): System { Trio(Tcb(1, 1, 0, 14), Mutex(None, 1, [], 0, 0), map[]).(mutexes := map[]) }

  function AfterLow(): System {
    Trio(Tcb(1, 1, 1, 14), Mutex(Some(Low()), 0, [], 0, 1), map[Low() := Running])
  }

  function AfterMiddle(): System {
    Trio(Tcb(1, 5, 1, 10), Mutex(Some(Low()), 0, [Middle()], 0, 1), map[Low() := Running, Middle() := Waiting(0, true, 1)])
  }

  function AfterHigh(): System {
    Trio(Tcb(1, 9, 1, 6), Mutex(Some(Low()), 0, [High(), Middle()], 0, 1),
         map[Low() := Running, Middle() := Waiting(0, true, 1), High() := Waiting(0, true, 1)])
  }

  lemma OutrankedStart()
    ensures Initial(Outranked())
    ensures var a := TakeStep(Low(), 0); Enabled(Outranked(), a) && Apply(Outranked(), a) == AfterLow()
  {
  }

  lemma MiddleBlocks()
    ensures var a := BlockStep(Middle(), 0); Enabled(AfterLow(), a) && Apply(AfterLow(), a) == AfterMiddle()
  {
    var s1 := AfterLow().SetTcb(Low(), Tcb(1, 5, 1, 10));
    assert InsertByValue([], Middle(), s1) == [Middle()];
    assert s1.tcbs == AfterMiddle().tcbs;
  }

  lemma HighBlocks()
    ensures var a := BlockStep(High(), 0); Enabled(AfterMiddle(), a) && Apply(AfterMiddle(), a) == AfterHigh()
  {
    var s1 := AfterMiddle().SetTcb(Low(), Tcb(1, 9, 1, 6));
    assert s1.TcbOf(Middle()).eventValue == 10 && s1.TcbOf(High()).eventValue == 6;
    assert InsertByValue([Middle()], High(), s1) == [High()] + [Middle()] == [High(), Middle()];
    var s2 := Apply(AfterMiddle(), BlockStep(High(), 0));
    assert s2.phases == AfterHigh().phases && s2.mutexes == AfterHigh().mutexes;
    assert s1.tcbs == AfterHigh().tcbs;
  }

  lemma LowRetakes() returns (s: System)
    ensures Runs(AfterHigh(), [GiveStep(Low(), 0), TakeStep(Low(), 0)], s)
    ensures s.MutexOf(0).holder == Some(Low()) && s.MutexOf(0).waiters == [Middle()]
    ensures s.TcbOf(Low()).priority < s.TcbOf(Middle()).priority
  {
    var run := [GiveStep(Low(), 0), TakeStep(Low(), 0)];
    var s4 := Apply(AfterHigh(), run[0]);
    s := Apply(s4, run[1]);
    assert run[1..][1..] == [];
    RunsStep(s4, run[1..], s);
    RunsStep(AfterHigh(), run, s);
  }

  /**
    Inheritance does not outlast a change of holder: a task that gives a mutex with the scheduler
    suspended and takes it again runs at its base priority below a task still on the list.
   */
  lemma RetakingLosesInheritance() returns (run: seq<Action>, s: System)
    ensures Initial(Outranked()) && Runs(Outranked(), run, s)
    ensures s.MutexOf(0).holder == Some(Low()) && s.MutexOf(0).waiters == [Middle()]
    ensures s.TcbOf(Low()).priority < s.TcbOf(Middle()).priority
  {
    OutrankedStart();
    MiddleBlocks();
    HighBlocks();
    s := LowRetakes();
    assert AfterLow().MutexOf(0).holder.Some? && AfterMiddle().MutexOf(0).holder.Some?;
    hide Apply, Enabled, Runs, Outranked, AfterLow, AfterMiddle, AfterHigh, Initial;
    var r3 := [GiveStep(Low(), 0), TakeStep(Low(), 0)];
    var r2 := [BlockStep(High(), 0)] + r3;
    assert r2[1..] == r3;
    RunsStep(AfterMiddle(), r2, s);
    var r1 := [BlockStep(Middle(), 0)] + r2;
    assert r1[1..] == r2;
    RunsStep(AfterLow(), r1, s);
    run := [TakeStep(Low(), 0)] + r1;
    assert run[1..] == r1;
    RunsStep(Outranked(), run, s);
  }

  lemma RunsStep(s: System, run: seq<Action>, s': System)
    requires run != [] && Enabled(s, run[0]) && (run[0].BlockStep? ==> s.MutexOf(run[0].m).holder.Some?)
    requires Runs(Apply(s, run[0]), run[1..], s')
    ensures Runs(s, run, s')
  {
  }
}
