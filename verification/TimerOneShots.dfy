/**
  One-shot timers fire once, at the end of their period, whichever path serves them; a stopped
  timer is silent; and a new period runs from the moment the daemon sees the command.
 */
module TimerOneShots {
  import opened Ticks
  import opened Timers
  import opened TimerTheorems

  // ---- One one-shot timer, followed through everything else ----

  /** Not started yet, armed, or done. */
  predicate Once(d: Daemon, x: TimerId, start: nat, period: Period) {
    var calls, active, orders := Calls(d.log, x), Active(d, x), Orders(d.queue, x);
    || (calls == [] && active == [] && orders == [Start(x, Wrap(start), start)])
    || (calls == [] && active == [Entry(x, Wrap(start + period), start + period)] && orders == [])
    || (calls == [start + period] && active == [] && orders == [])
  }

  predicate OneShot(d: Daemon, x: TimerId, start: nat, period: Period) {
    x in d.timers && d.timers[x] == Timer(period, false) && Once(d, x, start, period)
  }

  /** The timer has been taken off its list, or its start command out of the queue. */
  predicate Firing(d: Daemon, x: TimerId, period: Period) {
    && x in d.timers && d.timers[x] == Timer(period, false)
    && Calls(d.log, x) == [] && Active(d, x) == [] && Orders(d.queue, x) == []
  }

  lemma SameOnce(d: Daemon, d': Daemon, x: TimerId, start: nat, period: Period)
    requires OneShot(d, x, start, period) && SameFor(x, d, d') && Active(d', x) == Active(d, x)
    ensures OneShot(d', x, start, period)
  {
    hide Mine, Orders, Calls;
  }

  lemma Fire(d: Daemon, x: TimerId, start: nat, period: Period, at: nat)
    requires Firing(d, x, period)
    ensures OneShot(Call(d, x, start + period, at), x, start, period)
  {
    hide Mine, Orders, Calls;
    CallsAppend(d.log, Callback(x, start + period, at), x);
  }

  lemma Arm(d: Daemon, x: TimerId, start: nat, period: Period, placement: Placement)
    requires Firing(d, x, period) && !placement.ExpiredAlready?
    ensures OneShot(InsertActive(d, Entry(x, Wrap(start + period), start + period), placement), x, start, period)
  {
    var e := Entry(x, Wrap(start + period), start + period);
    MineInsert(d.current, e, x);
    MineInsert(d.overflow, e, x);
  }

  /** If x heads the current list, that entry is all there is of it. */
  lemma HeadIsIt(d: Daemon, x: TimerId, start: nat, period: Period)
    requires d.current != [] && d.current[0].id == x && OneShot(d, x, start, period)
    ensures d.current[0] == Entry(x, Wrap(start + period), start + period)
    ensures Firing(d.(current := d.current[1..]), x, period)
  {
    assert Mine(d.current, x) == [d.current[0]] + Mine(d.current[1..], x);
    assert |Active(d, x)| == 1 + |Active(d.(current := d.current[1..]), x)|;
    assert Active(d, x)[0] == d.current[0];
  }

  lemma OnceKnown(d: Daemon, x: TimerId, start: nat, period: Period)
    requires OneShot(d, x, start, period)
    ensures x in d.timers && d.timers[x] == Timer(period, false)
  {
  }

  /** The wrap loop makes the callback and does not re-arm. */
  lemma SwitchOneOnce(d: Daemon, at: nat, x: TimerId, start: nat, period: Period)
    requires Known(d) && d.current != [] && OneShot(d, x, start, period)
    ensures OneShot(SwitchOne(d, at), x, start, period)
  {
    hide OneShot, Firing, Mine, Orders, Calls, InsertByValue;
    var e, d0 := d.current[0], d.(current := d.current[1..]);
    OnceKnown(d, x, start, period);
    if e.id == x {
      HeadIsIt(d, x, start, period);
      Fire(d0, x, start, period, at);
    } else {
      SwitchOneOther(d, at, x);
      SameOnce(d, SwitchOne(d, at), x, start, period);
    }
  }

  lemma {:induction false} SwitchOnce(d: Daemon, at: nat, x: TimerId, start: nat, period: Period)
    requires Known(d) && OneShot(d, x, start, period)
    ensures OneShot(SwitchLists(d, at), x, start, period)
    decreases Headroom(d.current)
  {
    hide OneShot, SwitchOne;
    if d.current != [] {
      SwitchOneUsesHeadroom(d, at);
      SwitchOneOnce(d, at, x, start, period);
      SwitchOnce(SwitchOne(d, at), at, x, start, period);
    } else {
      EndOnce(d, x, start, period);
    }
  }

  lemma EndOnce(d: Daemon, x: TimerId, start: nat, period: Period)
    requires d.current == [] && OneShot(d, x, start, period)
    ensures OneShot(d.(current := d.overflow, overflow := []), x, start, period)
  {
    var d' := d.(current := d.overflow, overflow := []);
    assert Active(d', x) == Active(d, x);
    hide Mine, Orders, Calls;
  }

  lemma SampleOnce(d: Daemon, t: nat, x: TimerId, start: nat, period: Period)
    requires Known(d) && OneShot(d, x, start, period)
    ensures OneShot(Sample(d, t), x, start, period)
  {
    hide Mine, Orders, Calls, SwitchLists, Wrap;
    SwitchOnce(d, t, x, start, period);
  }

  /** The expired list makes the callback and does not re-arm. */
  lemma ProcessExpiredOnce(d: Daemon, t: nat, x: TimerId, start: nat, period: Period)
    requires Known(d) && d.current != [] && OneShot(d, x, start, period)
    ensures OneShot(ProcessExpired(d, t), x, start, period)
  {
    hide OneShot, Firing, Mine, Orders, Calls, InsertByValue, Place;
    var e, d0 := d.current[0], d.(current := d.current[1..]);
    OnceKnown(d, x, start, period);
    if e.id == x {
      HeadIsIt(d, x, start, period);
      Fire(d0, x, start, period, t);
    } else {
      ProcessExpiredOther(d, t, x);
      SameOnce(d, ProcessExpired(d, t), x, start, period);
    }
  }

  /** A start that is seen too late makes the callback at once; another arms the timer. */
  lemma ApplyStartOnce(d: Daemon, t: nat, x: TimerId, start: nat, period: Period)
    requires Firing(d, x, period)
    ensures OneShot(ApplyStart(d, Start(x, Wrap(start), start), t), x, start, period)
  {
    hide OneShot, Mine, Orders, Calls, InsertByValue, Place, Wrap, Plus;
    var c := Start(x, Wrap(start), start);
    var placement := Place(Plus(c.value, period), Wrap(t), c.value, period);
    PlusWraps(start, period);
    if placement.ExpiredAlready? {
      Fire(d, x, start, period, t);
    } else {
      Arm(d, x, start, period, placement);
    }
  }

  lemma FetchIt(d: Daemon, x: TimerId, start: nat, period: Period)
    requires d.queue != [] && d.queue[0].id == x && OneShot(d, x, start, period)
    ensures d.queue[0] == Start(x, Wrap(start), start) && Firing(Fetch(d), x, period)
  {
    assert Orders(d.queue, x) == [d.queue[0]] + Orders(d.queue[1..], x);
    assert Orders(d.queue, x)[0] == d.queue[0];
    MineRemove(d.current, x, x);
    MineRemove(d.overflow, x, x);
  }

  lemma FiringSampled(d: Daemon, t: nat, x: TimerId, period: Period)
    requires Known(d) && Firing(d, x, period)
    ensures Firing(Sample(d, t), x, period)
  {
    NoneActive(d, x);
    hide Mine, Orders, Calls, Sample;
    SampleOthers(d, t, x);
  }

  lemma NoneActive(d: Daemon, x: TimerId)
    requires Active(d, x) == []
    ensures Mine(d.current, x) == [] && Mine(d.overflow, x) == []
  {
    hide Mine;
  }

  lemma FetchKnown(d: Daemon)
    requires Known(d) && d.queue != []
    ensures Known(Fetch(d)) && d.queue[0].id in d.timers && d.queue[0].id in Fetch(d).timers
  {
    assert d.queue[0] in d.queue;
  }

  lemma CommandOnce(d: Daemon, t: nat, x: TimerId, start: nat, period: Period)
    requires Known(d) && d.queue != [] && OneShot(d, x, start, period)
    ensures OneShot(ProcessCommand(d, t), x, start, period)
  {
    hide Known, OneShot, Firing, Sample, Fetch, ApplyStart, ApplyChangePeriod, SameFor, Active;
    var c := d.queue[0];
    FetchKnown(d);
    SampleKeepsTimers(Fetch(d), t);
    if c.id == x {
      FetchIt(d, x, start, period);
      FiringSampled(Fetch(d), t, x, period);
      ApplyStartOnce(Sample(Fetch(d), t), t, x, start, period);
    } else {
      var d1 := Sample(Fetch(d), t);
      FetchOther(d, x);
      SameOnce(d, Fetch(d), x, start, period);
      SampleOnce(Fetch(d), t, x, start, period);
      OnceKnown(d1, x, start, period);
      OtherCommandOnce(d1, c, t, x, start, period);
    }
  }

  lemma OtherCommandOnce(d: Daemon, c: Command, t: nat, x: TimerId, start: nat, period: Period)
    requires OneShot(d, x, start, period) && c.id in d.timers && c.id != x
    ensures c.Start? ==> OneShot(ApplyStart(d, c, t), x, start, period)
    ensures c.ChangePeriod? ==> OneShot(ApplyChangePeriod(d, c, t), x, start, period)
  {
    hide Mine, Orders, Calls, ApplyStart, ApplyChangePeriod;
    if c.Start? {
      ApplyStartOther(d, c, t, x);
    } else if c.ChangePeriod? {
      ChangePeriodOther(d, c, t, x);
    }
  }

  lemma RunTimersOnce(d: Daemon, t: nat, x: TimerId, start: nat, period: Period)
    requires Known(d) && OneShot(d, x, start, period)
    ensures OneShot(ProcessTimerOrBlock(d, t), x, start, period)
  {
    hide OneShot, SwitchLists, ProcessExpired, Wrap, Known;
    SampleOnce(d, t, x, start, period);
    SampleKeepsTimers(d, t);
    if !(Wrap(t) < d.lastTime || d.current == [] || d.current[0].value > Wrap(t)) {
      ProcessExpiredOnce(Sample(d, t), t, x, start, period);
    }
  }

  lemma StepOnce(d: Daemon, clock: nat, a: Action, x: TimerId, start: nat, period: Period)
    requires Known(d) && Legal(d, clock, a, x) && OneShot(d, x, start, period)
    ensures OneShot(Step(d, a), x, start, period)
  {
    hide Mine, Orders, Calls, ProcessTimerOrBlock, ProcessCommand, Known, InTime;
    match a
    case RunTimers(at) => RunTimersOnce(d, at, x, start, period);
    case ServeQueue(at) => CommandOnce(d, at, x, start, period);
    case Request(_, c) => OrdersAppend(d.queue, c, x);
  }

  lemma LegalServes(d: Daemon, clock: nat, a: Action, x: TimerId)
    requires Legal(d, clock, a, x)
    ensures a.ServeQueue? ==> d.queue != []
  {
  }

  lemma {:induction false} RunOnce(d: Daemon, clock: nat, run: seq<Action>, x: TimerId, start: nat, period: Period)
    requires GoodRun(d, clock, run, x) && OneShot(d, x, start, period)
    ensures OneShot(Execute(d, clock, run, x), x, start, period)
    decreases |run|
  {
    hide Known, Legal, Step, OneShot;
    if run != [] {
      LegalServes(d, clock, run[0], x);
      StepOnce(d, clock, run[0], x, start, period);
      RunOnce(Step(d, run[0]), run[0].at, run[1..], x, start, period);
    }
  }

  lemma OnceCalls(d: Daemon, x: TimerId, start: nat, period: Period)
    requires OneShot(d, x, start, period)
    ensures Calls(d.log, x) == [] || Calls(d.log, x) == [start + period]
  {
    hide Mine, Orders, Calls;
  }

  /** With no command pending and nothing expired, an armed timer is due in the future. */
  lemma ArmedIsFuture(d: Daemon, clock: nat, x: TimerId, start: nat, period: Period)
    requires Timed(d, clock) && BothOrdered(d) && OneShot(d, x, start, period) && Orders(d.queue, x) == []
    requires d.current == [] || d.current[0].value > d.lastTime
    ensures Active(d, x) != [] ==> d.last < start + period
    ensures Active(d, x) == [] ==> Calls(d.log, x) == [start + period]
  {
    if Active(d, x) != [] {
      var e := Active(d, x)[0];
      assert e == Entry(x, Wrap(start + period), start + period);
      if Mine(d.current, x) != [] {
        assert e in Mine(d.current, x);
        MineIsIn(d.current, x, e);
        assert d.current[0].value <= e.value;
      } else {
        assert e in Mine(d.overflow, x);
        MineIsIn(d.overflow, x, e);
      }
    }
  }

  lemma FiredInThePast(d: Daemon, clock: nat, x: TimerId, start: nat, period: Period)
    requires Timed(d, clock) && Calls(d.log, x) == [start + period]
    ensures start + period <= d.last
  {
    CallIsLogged(d.log, x, start + period);
  }

  /** Over every run a one-shot timer fires at most once, for the end of its period, and not early. */
  lemma OneShotFiresOnce(d: Daemon, start: nat, run: seq<Action>, x: TimerId, period: Period)
    requires Timed(d, start) && GoodRun(d, start, run, x)
    requires x in d.timers && d.timers[x] == Timer(period, false) && Calls(d.log, x) == []
    requires Active(d, x) == [] && Orders(d.queue, x) == [Start(x, Wrap(start), start)]
    ensures var d' := Execute(d, start, run, x);
      && (Calls(d'.log, x) == [] || Calls(d'.log, x) == [start + period])
      && (forall c :: c in d'.log ==> c.due <= c.at)
  {
    hide Mine, Orders, Calls, Known, Legal, Step, EntriesIn, StartsBy, Wrap, GoodRun, Execute;
    RunOnce(d, start, run, x, start, period);
    OnceCalls(Execute(d, start, run, x), x, start, period);
    RunOnTime(d, start, run, x);
  }

  lemma {:induction false} RunOnTime(d: Daemon, clock: nat, run: seq<Action>, x: TimerId)
    requires GoodRun(d, clock, run, x) && Timed(d, clock)
    ensures Timed(Execute(d, clock, run, x), EndTime(clock, run))
    decreases |run|
  {
    hide Known, Legal, Step, Timed;
    if run != [] {
      LegalServes(d, clock, run[0], x);
      StepTimed(d, clock, run[0], x);
      RunOnTime(Step(d, run[0]), run[0].at, run[1..], x);
    }
  }

  /**
    Once its start command has been served and the daemon sees nothing expired, a one-shot timer has
    fired exactly if its time has come; having fired it is on no list and has no command queued.
   */
  lemma OneShotFires(d: Daemon, start: nat, run: seq<Action>, x: TimerId, period: Period)
    requires Timed(d, start) && BothOrdered(d) && GoodRun(d, start, run, x)
    requires x in d.timers && d.timers[x] == Timer(period, false) && Calls(d.log, x) == []
    requires Active(d, x) == [] && Orders(d.queue, x) == [Start(x, Wrap(start), start)]
    requires var d' := Execute(d, start, run, x);
      Orders(d'.queue, x) == [] && (d'.current == [] || d'.current[0].value > d'.lastTime)
    ensures var d' := Execute(d, start, run, x);
      && Calls(d'.log, x) == (if d'.last >= start + period then [start + period] else [])
      && (d'.last >= start + period <==> Active(d', x) == [])
  {
    hide Mine, Orders, Calls, Active, Known, Legal, Step, Wrap, GoodRun, Execute, Timed, BothOrdered;
    RunOnce(d, start, run, x, start, period);
    RunOnTime(d, start, run, x);
    RunOrdered(d, start, run, x);
    var d' := Execute(d, start, run, x);
    ArmedIsFuture(d', EndTime(start, run), x, start, period);
    if Calls(d'.log, x) == [start + period] {
      FiredInThePast(d', EndTime(start, run), x, start, period);
    }
  }
}
