/** What the loops of the scheduler need: taking tasks off the head of a list one at a time. */
module SchedulerLemmas {
  import opened Options
  import opened Seqs
  import opened Kernel
  import opened KernelLists
  import opened KernelTime
  import opened KernelRuns
  import opened KernelTheorems
  import Rings

  lemma {:induction false} WakeAllAppend(k: State, xs: seq<Item>, x: Item)
    ensures WakeAll(k, xs + [x]) == MakeReady(WakeAll(k, xs), x.t)
    decreases |xs|
  {
    hide MakeReady;
    if xs == [] {
      assert xs + [x] == [x] && [x][1..] == [];
      assert WakeAll(MakeReady(k, x.t), []) == MakeReady(k, x.t);
    } else {
      assert (xs + [x])[1..] == xs[1..] + [x];
      WakeAllAppend(MakeReady(k, xs[0].t), xs[1..], x);
    }
  }

  lemma WithoutHead(s: seq<Item>)
    requires s != []
    ensures Without(s, s[0]) == s[1..]
  {
    assert IndexOf(s, s[0]) == 0;
  }

  lemma UnlinkItems(k: State, x: Item, l: ListId)
    requires Linked(k)
    ensures Unlink(k, x).ItemsOf(l) == if x in k.ItemsOf(l) then Without(k.ItemsOf(l), x) else k.ItemsOf(l)
  {
    UnlinkView(k, x);
    hide Unlink, Rings.Valid, State.RingOf, State.ContainerOf;
    assert x in k.ItemsOf(l) <==> k.ContainerOf(x) == Some(l);
  }

  lemma DetachItems(k: State, x: Item, l: ListId)
    requires Lists(k) && k.ItemsOf(l) != [] && k.ItemsOf(l)[0] == x
    requires EventItem(x.t) !in k.ItemsOf(l) || StateItem(x.t) !in k.ItemsOf(l)
    ensures Unlink(Unlink(k, EventItem(x.t)), StateItem(x.t)).ItemsOf(l) == k.ItemsOf(l)[1..]
  {
    var s, k1 := k.ItemsOf(l), Unlink(k, EventItem(x.t));
    assert Rings.Valid(k.RingOf(l));
    assert x == EventItem(x.t) || x == StateItem(x.t);
    WithoutHead(s);
    UnlinkItems(k, EventItem(x.t), l);
    UnlinkLinked(k, EventItem(x.t));
    UnlinkItems(k1, StateItem(x.t), l);
    hide Unlink, State.RingOf, Linked;
  }

  /** Readying the task at the head of a list that is not a ready list takes that item off. */
  lemma HeadGone(k: State, l: ListId)
    requires Lists(k) && k.ItemsOf(l) != [] && !l.Ready?
    requires var t := k.ItemsOf(l)[0].t; EventItem(t) !in k.ItemsOf(l) || StateItem(t) !in k.ItemsOf(l)
    ensures MakeReady(k, k.ItemsOf(l)[0].t).ItemsOf(l) == k.ItemsOf(l)[1..]
  {
    hide Unlink, AddToReady, Lists, State.RingOf;
    var x := k.ItemsOf(l)[0];
    DetachItems(k, x, l);
    AddToReadyItems(Unlink(Unlink(k, EventItem(x.t)), StateItem(x.t)), x.t, l);
  }

  lemma AddToReadyItems(k: State, t: Task, l: ListId)
    requires !l.Ready?
    ensures AddToReady(k, t).ItemsOf(l) == k.ItemsOf(l)
  {
    hide Rings.Valid, Rings.InsertEnd;
  }

  /** One more expired item, read off the head of the rest. */
  lemma ExpiredStep(k: State, items: seq<Item>, i: nat)
    requires i < |items| && k.tick >= k.ValueOf(items[i]) && Expired(k, items) == items[..i] + Expired(k, items[i..])
    ensures Expired(k, items) == items[..i + 1] + Expired(k, items[i + 1..])
  {
    ExpiredHead(k, items, i);
    hide Expired, State.ValueOf;
    Regroup(items, i, Expired(k, items[i + 1..]));
  }

  lemma Regroup(items: seq<Item>, i: nat, rest: seq<Item>)
    requires i < |items|
    ensures items[..i] + ([items[i]] + rest) == items[..i + 1] + rest
  {
  }

  lemma ExpiredHead(k: State, items: seq<Item>, i: nat)
    requires i < |items| && k.tick >= k.ValueOf(items[i])
    ensures Expired(k, items[i..]) == [items[i]] + Expired(k, items[i + 1..])
  {
    assert items[i..][1..] == items[i + 1..];
  }

  lemma AnyAtLeastAppend(k: State, items: seq<Item>, x: Item)
    ensures AnyAtLeast(k, items + [x]) == (AnyAtLeast(k, items) || k.PriorityOf(x.t) >= k.PriorityOf(k.current))
  {
    hide State.PriorityOf;
    var all := items + [x];
    if AnyAtLeast(k, items) {
      var i :| 0 <= i < |items| && k.PriorityOf(items[i].t) >= k.PriorityOf(k.current);
      assert all[i] == items[i];
    }
    if k.PriorityOf(x.t) >= k.PriorityOf(k.current) {
      assert all[|items|] == x;
    }
  }

  /** The state while a list of sleeping tasks is being emptied from its head. */
  ghost predicate Emptying(k: State, k': State, l: ListId, items: seq<Item>, i: int) {
    && 0 <= i <= |items| && k' == WakeAll(k, items[..i]) && k'.ItemsOf(l) == items[i..]
    && Lists(k') && Rest(k') && OnlyReady(k, k')
  }

  lemma EmptyingStarts(k: State, l: ListId)
    requires Lists(k) && Rest(k)
    ensures Emptying(k, k, l, k.ItemsOf(l), 0)
  {
    assert k.ItemsOf(l)[..0] == [];
  }

  predicate SleepersOnly(l: ListId) { l.Delayed? || l.PendingReady? }

  lemma OnSleepers(k: State, l: ListId, x: Item)
    requires Lists(k) && Placed(k) && Waits(k) && SleepersOnly(l) && x in k.ItemsOf(l)
    ensures IsAsleep(k, x.t) && (EventItem(x.t) !in k.ItemsOf(l) || StateItem(x.t) !in k.ItemsOf(l))
  {
    if l.Delayed? {
      OnDelayed(k, x, l.second);
      assert EventItem(x.t) in k.ItemsOf(l) ==> k.EventList(x.t) == Some(l);
    } else {
      OnPending(k, x);
      assert StateItem(x.t) in k.ItemsOf(l) ==> k.StateList(x.t) == Some(l);
    }
  }

  lemma EmptyingStep(k: State, k': State, l: ListId, items: seq<Item>, i: int)
    requires Emptying(k, k', l, items, i) && i < |items| && SleepersOnly(l)
    ensures k'.ItemsOf(l) != [] && k'.ItemsOf(l)[0] == items[i]
    ensures Emptying(k, MakeReady(k', items[i].t), l, items, i + 1)
  {
    hide MakeReady, WakeAll, Lists, Rest, OnlyReady, State.RingOf;
    var x, k2 := items[i], MakeReady(k', items[i].t);
    assert k'.ItemsOf(l)[0] == x;
    EmptyingHead(k', l, x);
    OnlyReadyThen(k, k', k2);
    EmptyingSeqs(k, items, i);
  }

  lemma EmptyingSeqs(k: State, items: seq<Item>, i: int)
    requires 0 <= i < |items|
    ensures WakeAll(k, items[..i + 1]) == MakeReady(WakeAll(k, items[..i]), items[i].t)
    ensures items[i..][1..] == items[i + 1..]
  {
    hide MakeReady, WakeAll;
    WakeAllAppend(k, items[..i], items[i]);
    assert items[..i + 1] == items[..i] + [items[i]];
  }

  lemma EmptyingHead(k: State, l: ListId, x: Item)
    requires Lists(k) && Rest(k) && SleepersOnly(l) && k.ItemsOf(l) != [] && k.ItemsOf(l)[0] == x
    ensures var k2 := MakeReady(k, x.t); k2.ItemsOf(l) == k.ItemsOf(l)[1..] && Lists(k2) && Rest(k2) && OnlyReady(k, k2)
  {
    hide MakeReady, Lists, Rest, Placed, Waits, Woken, OnlyReady, State.RingOf, IsAsleep;
    RestParts(k);
    OnSleepers(k, l, x);
    HeadGone(k, l);
    MakeReadyWoken(k, x.t);
    WokenRest(k, MakeReady(k, x.t), {x.t});
    WokenOnly(k, MakeReady(k, x.t), {x.t});
  }

  lemma RestParts(k: State)
    requires Rest(k)
    ensures Placed(k) && Waits(k)
  {
  }

  lemma WokenOnly(k: State, k': State, ts: set<Task>)
    requires Woken(k, k', ts)
    ensures OnlyReady(k, k')
  {
  }

  /** Reading through OnlyReady. */
  lemma OnlyReadyReads(k: State, k': State)
    requires OnlyReady(k, k')
    ensures k'.values == k.values && k'.tick == k.tick && k'.second == k.second && k'.current == k.current
    ensures forall t :: k'.PriorityOf(t) == k.PriorityOf(t)
    ensures forall x :: k'.ValueOf(x) == k.ValueOf(x)
  {
  }

  /** The invariant of the unblocking loop: i tasks taken off the current delayed list, all of them expired. */
  ghost predicate Scanning(k: State, now: State, all: seq<Item>, i: int, flag: bool) {
    && all == k.ItemsOf(Delayed(k.second)) && Emptying(k, now, Delayed(k.second), all, i)
    && Expired(k, all) == all[..i] + Expired(k, all[i..]) && flag == AnyAtLeast(k, all[..i])
  }

  lemma ScanStarts(k: State)
    requires Lists(k) && Rest(k)
    ensures Scanning(k, k, k.ItemsOf(Delayed(k.second)), 0, false)
  {
    var all := k.ItemsOf(Delayed(k.second));
    EmptyingStarts(k, Delayed(k.second));
    hide Expired, Emptying, Lists, Rest, State.RingOf;
    assert all[..0] == [] && all[0..] == all && [] + Expired(k, all) == Expired(k, all);
  }

  lemma ScanReads(k: State, now: State, all: seq<Item>, i: int, flag: bool)
    requires Scanning(k, now, all, i, flag)
    ensures 0 <= i <= |all| && now.ItemsOf(Delayed(now.second)) == all[i..]
  {
    hide Expired, AnyAtLeast, WakeAll, Lists, Rest;
  }

  lemma ScanStep(k: State, now: State, all: seq<Item>, i: int, flag: bool)
    requires Scanning(k, now, all, i, flag) && i < |all| && now.ValueOf(all[i]) <= now.tick
    ensures Scanning(k, MakeReady(now, all[i].t), all, i + 1, flag || now.PriorityOf(all[i].t) >= now.PriorityOf(now.current))
  {
    hide Expired, AnyAtLeast, Emptying, MakeReady, State.ValueOf, State.PriorityOf, State.RingOf;
    EmptyingReads(k, now, Delayed(k.second), all, i);
    EmptyingStep(k, now, Delayed(k.second), all, i);
    ExpiredStep(k, all, i);
    AnyAtLeastAppend(k, all[..i], all[i]);
    assert all[..i + 1] == all[..i] + [all[i]];
  }

  lemma ScanEnds(k: State, now: State, all: seq<Item>, i: int, flag: bool)
    requires Scanning(k, now, all, i, flag) && (i < |all| ==> now.tick < now.ValueOf(all[i]))
    ensures var expired := Expired(k, k.ItemsOf(Delayed(k.second)));
      now == WakeAll(k, expired) && flag == AnyAtLeast(k, expired)
  {
    hide Expired, AnyAtLeast, WakeAll, State.ValueOf, State.PriorityOf, State.RingOf, Emptying;
    EmptyingReads(k, now, Delayed(k.second), all, i);
    NoneExpired(k, all, i);
    assert all[..i] + [] == all[..i];
  }

  lemma NoneExpired(k: State, all: seq<Item>, i: int)
    requires 0 <= i <= |all| && (i < |all| ==> k.tick < k.ValueOf(all[i]))
    ensures Expired(k, all[i..]) == []
  {
  }

  lemma EmptyingReads(k: State, now: State, l: ListId, items: seq<Item>, i: int)
    requires Emptying(k, now, l, items, i)
    ensures 0 <= i <= |items| && now == WakeAll(k, items[..i]) && now.tick == k.tick && now.second == k.second && now.current == k.current
    ensures forall t :: now.PriorityOf(t) == k.PriorityOf(t)
    ensures forall x :: now.ValueOf(x) == k.ValueOf(x)
  {
    hide WakeAll, Lists, Rest, State.RingOf, State.PriorityOf, State.ValueOf;
    OnlyReadyReads(k, now);
  }

  lemma MakeReadyYield(k: State, t: Task, b: bool)
    ensures MakeReady(k.(yieldPending := b), t) == MakeReady(k, t).(yieldPending := b)
  {
    UnlinkYield(k, EventItem(t), b);
    UnlinkYield(Unlink(k, EventItem(t)), StateItem(t), b);
    AddYield(Unlink(Unlink(k, EventItem(t)), StateItem(t)), t, b);
    hide Unlink, AddToReady;
  }

  lemma UnlinkYield(k: State, x: Item, b: bool)
    ensures Unlink(k.(yieldPending := b), x) == Unlink(k, x).(yieldPending := b)
  {
    hide Rings.Valid, Rings.Remove;
    assert k.(yieldPending := b).ContainerOf(x) == k.ContainerOf(x);
    assert forall l :: k.(yieldPending := b).RingOf(l) == k.RingOf(l);
  }

  lemma AddYield(k: State, t: Task, b: bool)
    ensures AddToReady(k.(yieldPending := b), t) == AddToReady(k, t).(yieldPending := b)
  {
    hide Rings.Valid, Rings.InsertEnd;
  }

  /** The invariant of the loop that empties the pending ready list. */
  ghost predicate Draining(k: State, now: State, all: seq<Item>, i: int) {
    && all == k.ItemsOf(PendingReady) && Emptying(k, now.(yieldPending := k.yieldPending), PendingReady, all, i)
    && now.yieldPending == (k.yieldPending || AnyAtLeast(k, all[..i]))
  }

  lemma DrainStarts(k: State)
    requires Lists(k) && Rest(k)
    ensures Draining(k, k, k.ItemsOf(PendingReady), 0)
  {
    hide Emptying, Lists, Rest, State.RingOf;
    EmptyingStarts(k, PendingReady);
    assert k.(yieldPending := k.yieldPending) == k;
    assert !AnyAtLeast(k, k.ItemsOf(PendingReady)[..0]);
  }

  lemma DrainReads(k: State, now: State, all: seq<Item>, i: int)
    requires Draining(k, now, all, i)
    ensures 0 <= i <= |all| && now.ItemsOf(PendingReady) == all[i..]
    ensures now == WakeAll(k, all[..i]).(yieldPending := k.yieldPending || AnyAtLeast(k, all[..i]))
  {
    hide AnyAtLeast, WakeAll, Lists, Rest;
    assert now.ItemsOf(PendingReady) == now.(yieldPending := k.yieldPending).ItemsOf(PendingReady);
  }

  lemma DrainStep(k: State, now: State, all: seq<Item>, i: int)
    requires Draining(k, now, all, i) && i < |all|
    ensures var k2 := MakeReady(now, all[i].t);
      Draining(k, if now.PriorityOf(all[i].t) >= now.PriorityOf(now.current) then k2.(yieldPending := true) else k2, all, i + 1)
  {
    hide AnyAtLeast, Emptying, MakeReady, State.PriorityOf, State.RingOf;
    var was := now.(yieldPending := k.yieldPending);
    EmptyingReads(k, was, PendingReady, all, i);
    EmptyingStep(k, was, PendingReady, all, i);
    AnyAtLeastAppend(k, all[..i], all[i]);
    assert all[..i + 1] == all[..i] + [all[i]];
    MakeReadyYield(was, all[i].t, now.yieldPending);
    assert was.(yieldPending := now.yieldPending) == now;
    MakeReadyYield(was, all[i].t, k.yieldPending);
    assert was.(yieldPending := k.yieldPending) == was;
    YieldPriority(now, k.yieldPending);
  }

  lemma YieldPriority(k: State, b: bool)
    ensures forall t :: k.(yieldPending := b).PriorityOf(t) == k.PriorityOf(t)
  {
  }

  lemma AdvanceSame(k: State)
    ensures Advance(k).yieldPending == k.yieldPending && Advance(k).current == k.current && Advance(k).priorities == k.priorities
  {
    hide State.RingOf, State.ValueOf;
  }

  lemma NothingAtLeast(k: State)
    ensures !AnyAtLeast(k, [])
  {
  }

  lemma DrainMoved(k: State)
    requires k.ItemsOf(PendingReady) != []
    ensures var items := k.ItemsOf(PendingReady);
      DrainPending(k) == ResetNextUnblock(WakeAll(k, items)).(yieldPending := k.yieldPending || AnyAtLeast(k, items))
      && DrainPending(k) == ResetNextUnblock(WakeAll(k, items).(yieldPending := k.yieldPending || AnyAtLeast(k, items)))
  {
    hide WakeAll, AnyAtLeast;
  }

  lemma DrainUnmoved(k: State)
    requires k.ItemsOf(PendingReady) == []
    ensures DrainPending(k) == k && WakeAll(k, []) == k && !AnyAtLeast(k, [])
  {
  }

  lemma ReplayedSuspended(k: State)
    requires Core(k)
    ensures Replayed(k).suspended == k.suspended && (TickSwitches(k) || !k.yieldPending)
  {
    hide Core, Replayed, ProcessTick;
    ReplayedFields(k);
  }

  lemma ReplayZero(k: State)
    ensures ReplayTicks(k, 0) == k
  {
  }

  lemma ResumeStart(k: State)
    requires Core(k)
    ensures Core(k.(suspended := k.suspended - 1))
  {
    hide Core;
    SameKeeps(k, k.(suspended := k.suspended - 1));
  }

  lemma CoreParts2(k: State)
    requires Core(k)
    ensures Lists(k) && Rest(k)
  {
  }

  lemma ScanHighest(k: State)
    requires Core(k) && IsReady(k, IDLE)
    ensures 0 <= k.topReady && k.ItemsOf(Ready(ScanDown(k, k.topReady))) != [] && forall l :: Rings.Valid(k.RingOf(l))
  {
    assert Linked(k);
    ScanFindsHighest(k, k.topReady);
  }

  /** Joining the stages of an outermost xTaskResumeAll. */
  lemma ResumeJoins(k: State, k2: State, k3: State)
    requires k.suspended == 1 && k.pended >= 0 && k2 == ReplayTicks(DrainPending(k.(suspended := 0)), k.pended) && k3 == k2.(pended := 0)
    ensures Kernel.ResumeAll(k, false) == k3.(switchRequested := k3.switchRequested || k3.yieldPending)
  {
    hide DrainPending, ReplayTicks;
  }

  lemma ReplayFields(k: State, n: nat)
    requires Core(k) && NonePending(k)
    ensures ReplayTicks(k, n).suspended == k.suspended
  {
    hide Core, NonePending, ReplayTicks, Calm, ReadyGrows, ReplayView;
    ReplayKeeps(k, n);
  }

  lemma FlagsCore(k: State, k': State)
    requires Core(k) && IsReady(k, IDLE) && k' == k.(yieldPending := k'.yieldPending, switchRequested := k'.switchRequested)
    ensures Core(k') && IsReady(k', IDLE) && ScanDown(k', k.topReady) == ScanDown(k, k.topReady)
  {
    hide Core;
    SameKeeps(k, k');
    ScanSame(k, k', k.topReady);
  }

  lemma {:induction false} ScanSame(k: State, k': State, p: int)
    requires k'.lists == k.lists
    ensures ScanDown(k', p) == ScanDown(k, p)
    decreases p
  {
    assert k'.ItemsOf(Ready(p)) == k.ItemsOf(Ready(p));
    if p > 0 {
      ScanSame(k, k', p - 1);
    }
  }

  lemma DelayForever(k: State)
    ensures DelayCurrent(k, 0xFFFF_FFFF, true) == LinkEnd(Unlink(k, StateItem(k.current)), Suspended, StateItem(k.current))
  {
    hide Unlink, LinkEnd, LinkAt, Place;
  }

  lemma WakeRange(k: State, n: int)
    requires 0 <= n < 0x1_0000_0000 && 0 <= k.tick < 0x1_0000_0000
    ensures WakeValue(k, n) < k.tick <==> k.tick + n >= 0x1_0000_0000
  {
  }

  lemma StampedReads(k: State, t: Task, wake: int, due: int)
    ensures var k2 := Stamped(k, t, wake, due);
      && k2.ValueOf(StateItem(t)) == wake && k2.tick == k.tick && k2.second == k.second && k2.nextUnblock == k.nextUnblock
      && k2.current == k.current
  {
    hide Rings.Valid, Rings.Remove;
  }
}
