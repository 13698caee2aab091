/**
  The timer service task of timers.c as it updates its static variables in place.
  `t` is the unbounded time; xTaskGetTickCount returns its low half.
 */
module TimerTask {
  import opened Ticks
  import opened Timers

  /** What the daemon does next: another turn of its loop, or wait for a command that long. */
  datatype Wait = Busy | BlockFor(ticks: Tick, forever: bool)

  class TimerTask {
    var timers: map<TimerId, Timer>
    var current: seq<Entry>
    var overflow: seq<Entry>
    var lastTime: Tick
    var queue: seq<Command>
    ghost var last: nat  // the unbounded clock at the latest sample
    ghost var lost: set<TimerId>
    ghost var log: seq<Callback>

    ghost function State(): Daemon
      reads this
    {
      Daemon(timers, current, overflow, lastTime, last, queue, lost, log)
    }

    constructor (timers: map<TimerId, Timer>)
      ensures State() == Daemon(timers, [], [], 0, 0, [], {}, [])
    {
      this.timers, current, overflow := timers, [], [];
      lastTime, queue, last, lost, log := 0, [], 0, {}, [];
    }

    /** xTimerGenericCommand with no block time. */
    method SendCommand(c: Command) returns (sent: bool)
      modifies this
      ensures State() == Timers.SendCommand(old(State()), c)
      ensures sent == (old(|queue|) < TIMER_QUEUE_LENGTH)
    {
      sent := |queue| < TIMER_QUEUE_LENGTH;
      if sent {
        queue := queue + [c];
      } else {
        lost := lost + {c.id};
      }
    }

    /** The search loop of vListInsert: past every entry whose value is not larger. */
    method InsertByValue(s: seq<Entry>, e: Entry) returns (r: seq<Entry>)
      ensures r == Timers.InsertByValue(s, e)
    {
      hide Timers.InsertByValue;
      var i := 0;
      assert s[..0] == [] && s[0..] == s;
      while i < |s| && s[i].value <= e.value
        invariant i <= |s|
        invariant Timers.InsertByValue(s, e) == s[..i] + Timers.InsertByValue(s[i..], e)
      {
        PassOver(s, i, e);
        i := i + 1;
      }
      StopHere(s, i, e);
      r := s[..i] + [e] + s[i..];
    }

    static lemma PassOver(s: seq<Entry>, i: nat, e: Entry)
      requires i < |s| && s[i].value <= e.value
      ensures s[..i] + Timers.InsertByValue(s[i..], e) == s[..i + 1] + Timers.InsertByValue(s[i + 1..], e)
    {
      assert s[i..][1..] == s[i + 1..] && s[i..][0] == s[i];
      assert Timers.InsertByValue(s[i..], e) == [s[i]] + Timers.InsertByValue(s[i + 1..], e);
      hide Timers.InsertByValue;
      Shift(s, i, Timers.InsertByValue(s[i + 1..], e));
    }

    static lemma Shift(s: seq<Entry>, i: nat, rest: seq<Entry>)
      requires i < |s|
      ensures s[..i] + ([s[i]] + rest) == s[..i + 1] + rest
    {
    }

    static lemma StopHere(s: seq<Entry>, i: nat, e: Entry)
      requires i <= |s| && (i < |s| ==> s[i].value > e.value)
      ensures s[..i] + Timers.InsertByValue(s[i..], e) == s[..i] + [e] + s[i..]
    {
    }

    /** prvInsertTimerInActiveList; the result says the timer must be processed now. */
    method InsertTimerInActiveList(e: Entry, now: Tick, command: Tick, period: Period) returns (processNow: bool)
      modifies this`current, this`overflow
      ensures State() == InsertActive(old(State()), e, Place(e.value, now, command, period))
      ensures processNow == Place(e.value, now, command, period).ExpiredAlready?
    {
      processNow := false;
      if e.value <= now {
        if Elapsed(now, command) >= period {
          processNow := true;
        } else {
          overflow := InsertByValue(overflow, e);
        }
      } else if now < command && e.value >= command {
        processNow := true;
      } else {
        current := InsertByValue(current, e);
      }
    }

    /** One turn of the loop in prvSwitchTimerLists. */
    method ServeHead(ghost at: nat)
      requires current != [] && current[0].id in timers
      modifies this
      ensures State() == SwitchOne(old(State()), at)
    {
      var e := current[0];
      var timer := timers[e.id];
      current := current[1..];
      log := log + [Callback(e.id, e.due, at)];
      if timer.autoReload {
        var reload := Plus(e.value, timer.period);
        if reload > e.value {
          current := InsertByValue(current, Entry(e.id, reload, e.due + timer.period));
        } else {
          var _ := SendCommand(Start(e.id, e.value, e.due));
        }
      }
    }

    /** prvSwitchTimerLists. */
    method SwitchTimerLists(ghost at: nat)
      requires Known(State())
      modifies this
      ensures State() == SwitchLists(old(State()), at)
    {
      while current != []
        invariant Known(State())
        invariant SwitchLists(State(), at) == SwitchLists(old(State()), at)
        decreases Headroom(current)
      {
        SwitchOneUsesHeadroom(State(), at);
        ServeHead(at);
      }
      current, overflow := overflow, current;
    }

    /** prvSampleTimeNow. */
    method SampleTimeNow(t: nat) returns (switched: bool)
      requires Known(State())
      modifies this
      ensures State() == Sample(old(State()), t)
      ensures switched == (Wrap(t) < old(lastTime))
    {
      var tickCount := Wrap(t);
      switched := tickCount < lastTime;
      if switched {
        SwitchTimerLists(t);
      }
      lastTime, last := tickCount, t;
    }

    /** prvProcessExpiredTimer. */
    method ProcessExpiredTimer(t: nat)
      requires current != [] && current[0].id in timers
      modifies this
      ensures State() == ProcessExpired(old(State()), t)
    {
      var e := current[0];
      var timer := timers[e.id];
      current := current[1..];
      if timer.autoReload {
        var next := Entry(e.id, Plus(e.value, timer.period), e.due + timer.period);
        var processNow := InsertTimerInActiveList(next, Wrap(t), e.value, timer.period);
        if processNow {
          var _ := SendCommand(Start(e.id, e.value, e.due));
        }
      }
      log := log + [Callback(e.id, e.due, t)];
    }

    /** prvGetNextExpireTime followed by prvProcessTimerOrBlockTask. */
    method ProcessTimerOrBlockTask(t: nat) returns (wait: Wait)
      requires Known(State())
      modifies this
      ensures State() == ProcessTimerOrBlock(old(State()), t)
      ensures wait.Busy? <==> Wrap(t) < old(lastTime) || (old(current) != [] && old(current[0].value) <= Wrap(t))
      ensures wait.BlockFor? ==>
        (wait.forever <==> old(current) == [] && old(overflow) == []) && (wait.ticks == 0 <==> old(current) == [] && Wrap(t) == 0)
      ensures wait.BlockFor? && old(current) != [] ==> Wrap(t) + wait.ticks == old(current[0].value)
    {
      var listWasEmpty := current == [];
      var nextExpireTime := if listWasEmpty then 0 else current[0].value;
      SampleKeepsTimers(State(), t);
      var switched := SampleTimeNow(t);
      wait := Busy;
      if !switched {
        if !listWasEmpty && nextExpireTime <= Wrap(t) {
          ProcessExpiredTimer(t);
        } else {
          wait := BlockFor(Elapsed(nextExpireTime, Wrap(t)), listWasEmpty && overflow == []);
        }
      }
    }

    /** The start, reset and reload cases of prvProcessReceivedCommands. */
    method StartTimer(id: TimerId, value: Tick, issued: nat, t: nat)
      requires id in timers
      modifies this
      ensures State() == ApplyStart(old(State()), Start(id, value, issued), t)
    {
      var timer := timers[id];
      var next := Entry(id, Plus(value, timer.period), issued + timer.period);
      var processNow := InsertTimerInActiveList(next, Wrap(t), value, timer.period);
      if processNow {
        log := log + [Callback(id, next.due, t)];
        if timer.autoReload {
          var _ := SendCommand(Start(id, next.value, next.due));
        }
      }
    }

    method ChangeTimerPeriod(id: TimerId, period: Period, t: nat)
      requires id in timers
      modifies this
      ensures State() == ApplyChangePeriod(old(State()), ChangePeriod(id, period), t)
    {
      timers := timers[id := timers[id].(period := period)];
      var next := Entry(id, Plus(Wrap(t), period), t + period);
      var _ := InsertTimerInActiveList(next, Wrap(t), Wrap(t), period);
    }

    /** One turn of the loop in prvProcessReceivedCommands. */
    method ProcessReceivedCommand(t: nat)
      requires Known(State()) && queue != []
      modifies this
      ensures State() == ProcessCommand(old(State()), t)
    {
      var c := queue[0];
      queue := queue[1..];
      current, overflow := RemoveTimer(current, c.id), RemoveTimer(overflow, c.id);
      SampleKeepsTimers(State(), t);
      var _ := SampleTimeNow(t);
      match c {
        case Start(id, value, issued) => StartTimer(id, value, issued, t);
        case Stop(_) =>
        case ChangePeriod(id, period) => ChangeTimerPeriod(id, period, t);
      }
    }
  }
}
