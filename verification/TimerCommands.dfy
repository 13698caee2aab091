/**
  What the commands do to one timer: it is on at most one list in every state, a stop takes it off
  and silences it, and a new period is recorded and runs from the moment of the command.
 */
module TimerCommands {
  import opened Ticks
  import opened Timers
  import opened TimerTheorems
  import opened TimerOneShots

  // ---- A timer is on one list at most ----

  predicate AtMostOnce(d: Daemon, x: TimerId) { |Active(d, x)| <= 1 }

  lemma {:induction false} MineInserted(s: seq<Entry>, e: Entry, x: TimerId)
    ensures |Mine(InsertByValue(s, e), x)| == |Mine(s, x)| + if e.id == x then 1 else 0
  {
    if s == [] || s[0].value > e.value {
      assert ([e] + s)[1..] == s;
    } else {
      MineInserted(s[1..], e, x);
      assert ([s[0]] + InsertByValue(s[1..], e))[1..] == InsertByValue(s[1..], e);
    }
  }

  lemma {:induction false} MineRemoved(s: seq<Entry>, x: TimerId)
    requires |Mine(s, x)| <= 1
    ensures Mine(RemoveTimer(s, x), x) == []
  {
    if s != [] && s[0].id != x {
      MineRemoved(s[1..], x);
      assert ([s[0]] + RemoveTimer(s[1..], x))[1..] == RemoveTimer(s[1..], x);
    }
  }

  lemma InsertedOnce(d: Daemon, e: Entry, placement: Placement, x: TimerId)
    requires AtMostOnce(d, x) && (e.id == x ==> Active(d, x) == [])
    ensures AtMostOnce(InsertActive(d, e, placement), x)
  {
    hide Mine;
    MineInserted(d.current, e, x);
    MineInserted(d.overflow, e, x);
  }

  lemma HeadGone(d: Daemon, x: TimerId)
    requires d.current != [] && AtMostOnce(d, x)
    ensures var d1 := d.(current := d.current[1..]);
      AtMostOnce(d1, x) && (d.current[0].id == x ==> Active(d1, x) == [])
  {
    var d1 := d.(current := d.current[1..]);
    assert |Active(d, x)| == (if d.current[0].id == x then 1 else 0) + |Active(d1, x)|;
  }

  /** Calls and commands do not touch the lists. */
  lemma SameLists(d: Daemon, d': Daemon, x: TimerId)
    requires d'.current == d.current && d'.overflow == d.overflow
    ensures Active(d', x) == Active(d, x) && AtMostOnce(d', x) == AtMostOnce(d, x)
  {
    hide Mine;
  }

  lemma SwitchOneKeepsOne(d: Daemon, at: nat, x: TimerId)
    requires Known(d) && d.current != [] && AtMostOnce(d, x)
    ensures AtMostOnce(SwitchOne(d, at), x)
  {
    hide AtMostOnce, Active, InsertByValue;
    var e, d0, d' := d.current[0], d.(current := d.current[1..]), SwitchOne(d, at);
    var next := Entry(e.id, Plus(e.value, d.timers[e.id].period), e.due + d.timers[e.id].period);
    HeadGone(d, x);
    InsertedOnce(d0, next, InCurrent, x);
    if d.timers[e.id].autoReload && next.value > e.value {
      SameLists(InsertActive(d0, next, InCurrent), d', x);
    } else {
      SameLists(d0, d', x);
    }
  }

  lemma {:induction false} SwitchKeepsOne(d: Daemon, at: nat, x: TimerId)
    requires Known(d) && AtMostOnce(d, x)
    ensures AtMostOnce(SwitchLists(d, at), x)
    decreases Headroom(d.current)
  {
    hide SwitchOne, AtMostOnce;
    if d.current != [] {
      SwitchOneUsesHeadroom(d, at);
      SwitchOneKeepsOne(d, at, x);
      SwitchKeepsOne(SwitchOne(d, at), at, x);
    } else {
      TurnedOver(d, x);
    }
  }

  lemma TurnedOver(d: Daemon, x: TimerId)
    requires d.current == [] && AtMostOnce(d, x)
    ensures AtMostOnce(d.(current := d.overflow, overflow := []), x)
  {
  }

  lemma SampleKeepsOne(d: Daemon, t: nat, x: TimerId)
    requires Known(d) && AtMostOnce(d, x)
    ensures AtMostOnce(Sample(d, t), x)
  {
    hide Mine, SwitchLists, Wrap;
    SwitchKeepsOne(d, t, x);
  }

  lemma ProcessExpiredKeepsOne(d: Daemon, t: nat, x: TimerId)
    requires Known(d) && d.current != [] && AtMostOnce(d, x)
    ensures AtMostOnce(ProcessExpired(d, t), x)
  {
    hide AtMostOnce, Active, InsertByValue, Place, InsertActive;
    var e, d0, d' := d.current[0], d.(current := d.current[1..]), ProcessExpired(d, t);
    var timer := d.timers[e.id];
    var next := Entry(e.id, Plus(e.value, timer.period), e.due + timer.period);
    var placement := Place(next.value, Wrap(t), e.value, timer.period);
    HeadGone(d, x);
    InsertedOnce(d0, next, placement, x);
    if timer.autoReload && !placement.ExpiredAlready? {
      SameLists(InsertActive(d0, next, placement), d', x);
    } else {
      SameLists(d0, d', x);
    }
  }

  lemma FetchClears(d: Daemon, x: TimerId)
    requires d.queue != [] && AtMostOnce(d, x)
    ensures AtMostOnce(Fetch(d), x) && (d.queue[0].id == x ==> Active(Fetch(d), x) == [])
  {
    hide Mine, RemoveTimer;
    if d.queue[0].id == x {
      MineRemoved(d.current, x);
      MineRemoved(d.overflow, x);
    } else {
      MineRemove(d.current, d.queue[0].id, x);
      MineRemove(d.overflow, d.queue[0].id, x);
    }
  }

  lemma NoneStaysNone(d: Daemon, t: nat, x: TimerId)
    requires Known(d) && Active(d, x) == []
    ensures Active(Sample(d, t), x) == [] && Calls(Sample(d, t).log, x) == Calls(d.log, x)
    ensures Orders(Sample(d, t).queue, x) == Orders(d.queue, x)
  {
    NoneActive(d, x);
    hide Mine, Orders, Calls, Sample;
    SampleOthers(d, t, x);
  }

  lemma ApplyKeepsOne(d: Daemon, c: Command, t: nat, x: TimerId)
    requires AtMostOnce(d, x) && c.id in d.timers && (c.id == x ==> Active(d, x) == [])
    ensures c.Start? ==> AtMostOnce(ApplyStart(d, c, t), x)
    ensures c.ChangePeriod? ==> AtMostOnce(ApplyChangePeriod(d, c, t), x)
  {
    hide AtMostOnce, Active, InsertByValue, Place, InsertActive;
    if c.Start? {
      var timer := d.timers[c.id];
      var next := Entry(c.id, Plus(c.value, timer.period), c.issued + timer.period);
      var placement := Place(next.value, Wrap(t), c.value, timer.period);
      InsertedOnce(d, next, placement, x);
      if placement.ExpiredAlready? {
        SameLists(d, ApplyStart(d, c, t), x);
      }
    } else if c.ChangePeriod? {
      var d1 := d.(timers := d.timers[c.id := d.timers[c.id].(period := c.period)]);
      var next := Entry(c.id, Plus(Wrap(t), c.period), t + c.period);
      SameLists(d, d1, x);
      InsertedOnce(d1, next, Place(next.value, Wrap(t), Wrap(t), c.period), x);
    }
  }

  lemma CommandKeepsOne(d: Daemon, t: nat, x: TimerId)
    requires Known(d) && d.queue != [] && AtMostOnce(d, x)
    ensures AtMostOnce(ProcessCommand(d, t), x)
  {
    hide Known, AtMostOnce, Active, Sample, Fetch, ApplyStart, ApplyChangePeriod;
    FetchKnown(d);
    FetchClears(d, x);
    SampleKeepsTimers(Fetch(d), t);
    SampleKeepsOne(Fetch(d), t, x);
    if d.queue[0].id == x {
      NoneStaysNone(Fetch(d), t, x);
    }
    ApplyKeepsOne(Sample(Fetch(d), t), d.queue[0], t, x);
  }

  /** Whatever the daemon is asked to do, with any timer, each timer is on one list at most. */
  lemma OneListEach(d: Daemon, a: Action, x: TimerId)
    requires Known(d) && (a.ServeQueue? ==> d.queue != []) && AtMostOnce(d, x)
    ensures AtMostOnce(Step(d, a), x)
  {
    hide Known, AtMostOnce, Sample, ProcessExpired, ProcessCommand, Wrap;
    match a
    case RunTimers(at) =>
      SampleKeepsTimers(d, at);
      SampleKeepsOne(d, at, x);
      if !(Wrap(at) < d.lastTime || d.current == [] || d.current[0].value > Wrap(at)) {
        SampleQuiet(d, at);
        ProcessExpiredKeepsOne(Sample(d, at), at, x);
      }
    case ServeQueue(at) => CommandKeepsOne(d, at, x);
    case Request(_, _) => SameLists(d, Step(d, a), x);
  }

  lemma SampleQuiet(d: Daemon, t: nat)
    requires Known(d) && !(Wrap(t) < d.lastTime)
    ensures Sample(d, t).current == d.current && Sample(d, t).overflow == d.overflow
    ensures Sample(d, t).log == d.log && Sample(d, t).queue == d.queue
  {
    hide Wrap;
  }

  // ---- Stopping ----

  lemma OrdersTail(q: seq<Command>, x: TimerId)
    requires q != []
    ensures Orders(q, x) == (if q[0].id == x then [q[0]] else []) + Orders(q[1..], x)
  {
  }

  /** A stop takes the timer off its list, without a callback. */
  lemma StopExact(d: Daemon, t: nat, x: TimerId)
    requires Known(d) && d.queue != [] && d.queue[0] == Stop(x) && AtMostOnce(d, x)
    ensures var d' := ProcessCommand(d, t);
      && Active(d', x) == [] && Calls(d'.log, x) == Calls(d.log, x) && d'.timers == d.timers
      && Orders(d.queue, x) == [Stop(x)] + Orders(d'.queue, x)
  {
    hide Known, AtMostOnce, Active, Sample, Orders, Calls, RemoveTimer;
    FetchKnown(d);
    FetchClears(d, x);
    OrdersTail(d.queue, x);
    SampleKeepsTimers(Fetch(d), t);
    NoneStaysNone(Fetch(d), t, x);
  }

  /** It leaves the other timers alone; only a wrap of the tick count makes callbacks. */
  lemma StopLeavesOthers(d: Daemon, t: nat, x: TimerId, y: TimerId)
    requires Known(d) && d.queue != [] && d.queue[0] == Stop(x) && y != x && Wrap(t) >= d.lastTime
    ensures var d' := ProcessCommand(d, t);
      Active(d', y) == Active(d, y) && Calls(d'.log, y) == Calls(d.log, y) && Orders(d'.queue, y) == Orders(d.queue, y)
  {
    hide Known, Active, Sample, Fetch, Orders, Calls, Wrap, RemoveTimer;
    FetchKnown(d);
    FetchOther(d, y);
    FetchTime(d);
    SampleQuiet(Fetch(d), t);
    SameLists(Fetch(d), Sample(Fetch(d), t), y);
  }

  lemma FetchTime(d: Daemon)
    requires d.queue != []
    ensures Fetch(d).lastTime == d.lastTime
  {
  }

  /** x is on no list and no command for it is queued. */
  predicate Silent(d: Daemon, x: TimerId) { x in d.timers && Active(d, x) == [] && Orders(d.queue, x) == [] }

  lemma SilentSwitch(d: Daemon, t: nat, x: TimerId)
    requires Known(d) && Silent(d, x)
    ensures Silent(Sample(d, t), x) && Calls(Sample(d, t).log, x) == Calls(d.log, x)
  {
    hide Active, Sample, Orders, Calls, Known;
    SampleKeepsTimers(d, t);
    NoneStaysNone(d, t, x);
  }

  lemma SilentHead(d: Daemon, x: TimerId)
    requires d.current != [] && Silent(d, x)
    ensures d.current[0].id != x
  {
    NoneActive(d, x);
    MineHead(d.current, x);
  }

  lemma MineHead(s: seq<Entry>, x: TimerId)
    requires s != []
    ensures s[0].id == x ==> |Mine(s, x)| >= 1
  {
  }

  lemma SilentCommand(d: Daemon, t: nat, x: TimerId)
    requires Known(d) && Silent(d, x) && d.queue != []
    ensures Silent(ProcessCommand(d, t), x) && Calls(ProcessCommand(d, t).log, x) == Calls(d.log, x)
  {
    hide Known, Active, Sample, Orders, Calls, Fetch, ApplyStart, ApplyChangePeriod;
    var c := d.queue[0];
    OrdersTail(d.queue, x);
    FetchKnown(d);
    var d1 := Sample(Fetch(d), t);
    FetchOther(d, x);
    SilentSwitch(Fetch(d), t, x);
    SampleKeepsTimers(Fetch(d), t);
    if c.Start? {
      ApplyStartOther(d1, c, t, x);
    } else if c.ChangePeriod? {
      ChangePeriodOther(d1, c, t, x);
    }
  }

  lemma SilentStep(d: Daemon, clock: nat, a: Action, x: TimerId)
    requires Known(d) && Legal(d, clock, a, x) && Silent(d, x)
    ensures Silent(Step(d, a), x) && Calls(Step(d, a).log, x) == Calls(d.log, x)
  {
    hide Known, Active, Sample, Orders, Calls, ProcessExpired, ProcessCommand, Wrap, InTime;
    match a
    case RunTimers(at) =>
      SilentSwitch(d, at, x);
      SampleKeepsTimers(d, at);
      if !(Wrap(at) < d.lastTime || d.current == [] || d.current[0].value > Wrap(at)) {
        SampleQuiet(d, at);
        SilentHead(d, x);
        HeadKnown(Sample(d, at));
        ProcessExpiredOther(Sample(d, at), at, x);
      }
    case ServeQueue(at) => SilentCommand(d, at, x);
    case Request(_, c) => RequestOther(d, c, x);
  }

  lemma HeadKnown(d: Daemon)
    requires Known(d) && d.current != []
    ensures d.current[0].id in d.timers
  {
    assert d.current[0] in d.current;
  }

  lemma RequestOther(d: Daemon, c: Command, x: TimerId)
    requires c.id != x
    ensures Orders(d.queue + [c], x) == Orders(d.queue, x)
    ensures Active(d.(queue := d.queue + [c]), x) == Active(d, x)
  {
    OrdersAppend(d.queue, c, x);
  }

  /** A stopped timer makes no callback over any run in which nobody starts it again. */
  lemma {:induction false} StoppedIsSilent(d: Daemon, clock: nat, run: seq<Action>, x: TimerId)
    requires GoodRun(d, clock, run, x) && x in d.timers && Active(d, x) == [] && Orders(d.queue, x) == []
    ensures var d' := Execute(d, clock, run, x);
      Calls(d'.log, x) == Calls(d.log, x) && Active(d', x) == [] && Orders(d'.queue, x) == []
    decreases |run|
  {
    hide Known, Legal, Step, Active, Orders, Calls;
    if run != [] {
      LegalServes(d, clock, run[0], x);
      SilentStep(d, clock, run[0], x);
      StoppedIsSilent(Step(d, run[0]), run[0].at, run[1..], x);
    }
  }

  // ---- A new period ----

  /** The new period is recorded, and the timer is due that long after the command is seen, in the list of that epoch. */
  lemma ChangePeriodExact(d: Daemon, t: nat, x: TimerId, period: Period)
    requires Known(d) && d.queue != [] && d.queue[0] == ChangePeriod(x, period) && AtMostOnce(d, x)
    ensures var d', e := ProcessCommand(d, t), Entry(x, Wrap(t + period), t + period);
      && d'.timers == d.timers[x := Timer(period, d.timers[x].autoReload)]
      && Mine(d'.current, x) == (if Epoch(t + period) == Epoch(t) then [e] else [])
      && Mine(d'.overflow, x) == (if Epoch(t + period) == Epoch(t) then [] else [e])
      && Calls(d'.log, x) == Calls(d.log, x) && Orders(d.queue, x) == [ChangePeriod(x, period)] + Orders(d'.queue, x)
  {
    hide Known, AtMostOnce, Active, Sample, Orders, Calls, RemoveTimer, Mine, ApplyChangePeriod;
    FetchKnown(d);
    FetchClears(d, x);
    OrdersTail(d.queue, x);
    SampleKeepsTimers(Fetch(d), t);
    NoneStaysNone(Fetch(d), t, x);
    ApplyPeriod(Sample(Fetch(d), t), t, x, period);
  }

  lemma ApplyPeriod(d: Daemon, t: nat, x: TimerId, period: Period)
    requires x in d.timers && Active(d, x) == []
    ensures var d', e := ApplyChangePeriod(d, ChangePeriod(x, period), t), Entry(x, Wrap(t + period), t + period);
      && d'.timers == d.timers[x := Timer(period, d.timers[x].autoReload)]
      && Mine(d'.current, x) == (if Epoch(t + period) == Epoch(t) then [e] else [])
      && Mine(d'.overflow, x) == (if Epoch(t + period) == Epoch(t) then [] else [e])
      && d'.log == d.log && d'.queue == d.queue
  {
    NoneActive(d, x);
    hide Mine, InsertByValue, Place, Wrap, Epoch, Plus;
    var e := Entry(x, Wrap(t + period), t + period);
    PlusWraps(t, period);
    PlaceExact(t, t, period);
    MineInsert(d.current, e, x);
    MineInsert(d.overflow, e, x);
  }

  // ---- Progress ----

  predicate Listed(d: Daemon, e: Entry) { e in d.current || e in d.overflow }

  lemma HeadIsEarliest(d: Daemon, clock: nat, e: Entry)
    requires Timed(d, clock) && BothOrdered(d) && d.current != [] && Listed(d, e)
    ensures d.current[0].due <= e.due
  {
    assert d.current[0] in d.current;
    if e in d.current {
      assert d.current[0].value <= e.value;
    }
  }

  lemma OverflowIsLater(d: Daemon, clock: nat, e: Entry, t: nat)
    requires Timed(d, clock) && Epoch(t) == Epoch(d.last) && Listed(d, e) && e.due <= t
    ensures e in d.current
  {
  }

  lemma HeadDue(d: Daemon, clock: nat, t: nat)
    requires Timed(d, clock) && Epoch(t) == Epoch(d.last) && d.current != []
    ensures d.current[0].value <= Wrap(t) <==> d.current[0].due <= t
  {
    assert d.current[0] in d.current;
  }

  lemma LogGrows(d: Daemon, t: nat)
    requires d.current != [] && d.current[0].id in d.timers
    ensures ProcessExpired(d, t).log == d.log + [Callback(d.current[0].id, d.current[0].due, t)]
  {
    hide Place, Plus, Wrap, InsertByValue;
  }

  /** Short of a wrap, the daemon makes a callback exactly when some timer is due, and for the one due first. */
  lemma ServesWhatIsDue(d: Daemon, t: nat)
    requires Timed(d, t) && BothOrdered(d) && Epoch(t) == Epoch(d.last)
    ensures var d' := ProcessTimerOrBlock(d, t);
      if exists e :: Listed(d, e) && e.due <= t then
        exists e :: Listed(d, e) && (forall f :: Listed(d, f) ==> e.due <= f.due) && d'.log == d.log + [Callback(e.id, e.due, t)]
      else d'.log == d.log
  {
    hide ProcessExpired, SwitchLists, EntriesIn, BothOrdered, StartsBy, NeverEarly, Listed;
    SameEpoch(d, t);
    SampleQuiet(d, t);
    if d.current != [] {
      HeadDue(d, t, t);
      HeadKnown(d);
      SampleKeepsTimers(d, t);
      LogGrows(Sample(d, t), t);
      HeadListed(d);
      forall f | Listed(d, f) ensures d.current[0].due <= f.due {
        HeadIsEarliest(d, t, f);
      }
    } else if e :| Listed(d, e) && e.due <= t {
      OverflowIsLater(d, t, e, t);
      assert false;
    }
  }

  lemma HeadListed(d: Daemon)
    requires d.current != []
    ensures Listed(d, d.current[0])
  {
  }

  lemma SameEpoch(d: Daemon, t: nat)
    requires Timed(d, t) && Epoch(t) == Epoch(d.last)
    ensures Known(d) && !(Wrap(t) < d.lastTime)
  {
    hide EntriesIn, StartsBy, NeverEarly;
  }

  // ---- The command queue ----

  /** Commands join at the back, and one is lost only to a full queue. */
  predicate Queued(d: Daemon, d': Daemon) {
    && d.queue <= d'.queue && (d'.lost == d.lost || |d'.queue| >= 10) && (|d.queue| <= 10 ==> |d'.queue| <= 10)
  }

  lemma QueuedThen(d: Daemon, d1: Daemon, d2: Daemon)
    requires Queued(d, d1) && Queued(d1, d2)
    ensures Queued(d, d2)
  {
  }

  lemma SendQueues(d: Daemon, c: Command)
    ensures Queued(d, SendCommand(d, c))
  {
  }

  lemma SameQueue(d: Daemon, d': Daemon)
    requires d'.queue == d.queue && d'.lost == d.lost
    ensures Queued(d, d')
  {
  }

  lemma SwitchOneQueues(d: Daemon, at: nat)
    requires Known(d) && d.current != []
    ensures Queued(d, SwitchOne(d, at))
  {
    hide InsertByValue, Plus, Queued, SendCommand;
    var e, d' := d.current[0], SwitchOne(d, at);
    var timer := d.timers[e.id];
    var d1 := Call(d.(current := d.current[1..]), e.id, e.due, at);
    SameQueue(d, d1);
    SendQueues(d1, Start(e.id, e.value, e.due));
    if timer.autoReload && !(Plus(e.value, timer.period) > e.value) {
      QueuedThen(d, d1, d');
    } else {
      SameQueue(d, d');
    }
  }

  lemma {:induction false} SwitchQueues(d: Daemon, at: nat)
    requires Known(d)
    ensures Queued(d, SwitchLists(d, at))
    decreases Headroom(d.current)
  {
    hide SwitchOne, Queued;
    if d.current != [] {
      SwitchOneUsesHeadroom(d, at);
      SwitchOneQueues(d, at);
      SwitchQueues(SwitchOne(d, at), at);
      QueuedThen(d, SwitchOne(d, at), SwitchLists(d, at));
    } else {
      SameQueue(d, SwitchLists(d, at));
    }
  }

  lemma SampleQueues(d: Daemon, t: nat)
    requires Known(d)
    ensures Queued(d, Sample(d, t))
  {
    hide SwitchLists, Wrap;
    SwitchQueues(d, t);
  }

  lemma ProcessExpiredQueues(d: Daemon, t: nat)
    requires Known(d) && d.current != []
    ensures Queued(d, ProcessExpired(d, t))
  {
    hide Place, Plus, Wrap, InsertByValue;
  }

  lemma ApplyQueues(d: Daemon, c: Command, t: nat)
    requires c.id in d.timers
    ensures c.Start? ==> Queued(d, ApplyStart(d, c, t))
    ensures c.ChangePeriod? ==> Queued(d, ApplyChangePeriod(d, c, t))
  {
    hide Place, Plus, Wrap, InsertByValue;
  }

  lemma CommandQueues(d: Daemon, t: nat)
    requires Known(d) && d.queue != []
    ensures Queued(Fetch(d), ProcessCommand(d, t)) && Fetch(d).queue == d.queue[1..] && Fetch(d).lost == d.lost
  {
    hide Known, Sample, ApplyStart, ApplyChangePeriod, RemoveTimer, Queued;
    var c := d.queue[0];
    FetchKnown(d);
    SampleKeepsTimers(Fetch(d), t);
    SampleQueues(Fetch(d), t);
    var d1 := Sample(Fetch(d), t);
    ApplyQueues(d1, c, t);
    if c.Start? {
      QueuedThen(Fetch(d), d1, ApplyStart(d1, c, t));
    } else if c.ChangePeriod? {
      QueuedThen(Fetch(d), d1, ApplyChangePeriod(d1, c, t));
    }
  }

  lemma RunTimersQueues(d: Daemon, t: nat)
    requires Known(d)
    ensures Queued(d, ProcessTimerOrBlock(d, t))
  {
    hide Known, Sample, ProcessExpired, Queued, Wrap;
    SampleKeepsTimers(d, t);
    SampleQueues(d, t);
    if !(Wrap(t) < d.lastTime || d.current == [] || d.current[0].value > Wrap(t)) {
      SampleQuiet(d, t);
      ProcessExpiredQueues(Sample(d, t), t);
      QueuedThen(d, Sample(d, t), ProcessTimerOrBlock(d, t));
    }
  }

  /** Whatever the daemon does, commands are served first in, first out; one is lost only when ten are waiting. */
  lemma CommandsAreServedInOrder(d: Daemon, a: Action)
    requires Known(d) && (a.ServeQueue? ==> d.queue != [])
    ensures var d', rest := Step(d, a), if a.ServeQueue? then d.queue[1..] else d.queue;
      && rest <= d'.queue && (d'.lost == d.lost || |d'.queue| >= 10) && (|d.queue| <= 10 ==> |d'.queue| <= 10)
      && (a.Request? ==> d'.queue == if |d.queue| < 10 then d.queue + [a.command] else d.queue)
  {
    hide Known, ProcessTimerOrBlock, ProcessCommand, Fetch;
    match a
    case RunTimers(at) => RunTimersQueues(d, at);
    case ServeQueue(at) => CommandQueues(d, at);
    case Request(_, _) =>
  }
}
