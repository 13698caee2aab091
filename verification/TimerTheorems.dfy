/**
  What the timer daemon guarantees: every decision about a list is exact in unbounded
  time, and an auto-reload timer neither drops, repeats nor drifts, whatever else the
  daemon is asked to do and however late it runs.
 */
module TimerTheorems {
  import opened Ticks
  import opened Timers

  // ---- The placement decision ----

  /** A command at most one full turn old is placed exactly: expired, this epoch, or the next. */
  lemma PlaceExact(issued: nat, now: nat, period: Period)
    requires issued <= now < issued + 0x1_0000_0000
    ensures var placement := Place(Plus(Wrap(issued), period), Wrap(now), Wrap(issued), period);
      && (placement.ExpiredAlready? <==> issued + period <= now)
      && (placement.InCurrent? <==> now < issued + period && Epoch(issued + period) == Epoch(now))
      && (placement.InOverflow? <==> now < issued + period && Epoch(issued + period) == Epoch(now) + 1)
  {
    PlusWraps(issued, period);
    ElapsedExact(now, issued);
  }

  /** The exact limit: a command that is a full turn late is recognised only when its residue has run out too. */
  lemma PlaceLimit(issued: nat, now: nat, period: Period)
    requires issued <= now
    ensures
      (Place(Plus(Wrap(issued), period), Wrap(now), Wrap(issued), period).ExpiredAlready? <==> issued + period <= now)
      <==> (now < issued + 0x1_0000_0000 || Elapsed(Wrap(now), Wrap(issued)) >= period)
  {
    if now < issued + 0x1_0000_0000 {
      PlaceExact(issued, now, period);
    } else {
      var near := issued + Elapsed(Wrap(now), Wrap(issued));
      assert Wrap(near) == Wrap(now);
      PlaceExact(issued, near, period);
    }
  }

  /** A command a full turn late is filed as if it had still to expire. */
  lemma LateCommandIsFiled()
    ensures Place(Plus(Wrap(0), 10), Wrap(0x1_0000_0005), Wrap(0), 10).InCurrent? && 0 + 10 <= 0x1_0000_0005
  {
  }

  // ---- The parts of the state that concern one timer ----

  function Mine(s: seq<Entry>, x: TimerId): seq<Entry> {
    if s == [] then [] else (if s[0].id == x then [s[0]] else []) + Mine(s[1..], x)
  }

  function Orders(q: seq<Command>, x: TimerId): seq<Command> {
    if q == [] then [] else (if q[0].id == x then [q[0]] else []) + Orders(q[1..], x)
  }

  function Calls(log: seq<Callback>, x: TimerId): seq<nat> {
    if log == [] then []
    else
      var c := log[|log| - 1];
      Calls(log[..|log| - 1], x) + if c.id == x then [c.due] else []
  }

  lemma {:induction false} MineInsert(s: seq<Entry>, e: Entry, x: TimerId)
    ensures e.id != x ==> Mine(InsertByValue(s, e), x) == Mine(s, x)
    ensures e.id == x && Mine(s, x) == [] ==> Mine(InsertByValue(s, e), x) == [e]
  {
    if s == [] || s[0].value > e.value {
      assert ([e] + s)[1..] == s;
    } else {
      MineInsert(s[1..], e, x);
      assert ([s[0]] + InsertByValue(s[1..], e))[1..] == InsertByValue(s[1..], e);
    }
  }

  lemma {:induction false} MineRemove(s: seq<Entry>, id: TimerId, x: TimerId)
    ensures id != x ==> Mine(RemoveTimer(s, id), x) == Mine(s, x)
    ensures Mine(s, x) == [] ==> Mine(RemoveTimer(s, id), x) == []
  {
    if s != [] && s[0].id != id {
      MineRemove(s[1..], id, x);
      assert ([s[0]] + RemoveTimer(s[1..], id))[1..] == RemoveTimer(s[1..], id);
    }
  }

  lemma {:induction false} OrdersAppend(q: seq<Command>, c: Command, x: TimerId)
    ensures Orders(q + [c], x) == Orders(q, x) + if c.id == x then [c] else []
  {
    if q == [] {
      assert (q + [c])[1..] == [];
    } else {
      var head := if q[0].id == x then [q[0]] else [];
      var tail := if c.id == x then [c] else [];
      assert (q + [c])[1..] == q[1..] + [c];
      OrdersAppend(q[1..], c, x);
      assert Orders(q + [c], x) == head + (Orders(q[1..], x) + tail) == (head + Orders(q[1..], x)) + tail;
    }
  }

  lemma CallsAppend(log: seq<Callback>, c: Callback, x: TimerId)
    ensures Calls(log + [c], x) == Calls(log, x) + if c.id == x then [c.due] else []
  {
    assert (log + [c])[..|log|] == log;
  }

  // ---- Times agree with the 32-bit values ----

  predicate EntriesIn(s: seq<Entry>, epoch: nat) {
    forall e :: e in s ==> e.value == Wrap(e.due) && Epoch(e.due) == epoch
  }

  predicate StartsBy(q: seq<Command>, clock: nat) {
    forall c :: c in q && c.Start? ==> c.value == Wrap(c.issued) && c.issued <= clock
  }

  /** No callback comes before its expiry, and none from the future. */
  predicate NeverEarly(log: seq<Callback>, clock: nat) {
    forall c :: c in log ==> c.due <= c.at <= clock
  }

  predicate Timed(d: Daemon, clock: nat) {
    && Known(d) && d.lastTime == Wrap(d.last) && d.last <= clock && NeverEarly(d.log, d.last)
    && EntriesIn(d.current, Epoch(d.last)) && EntriesIn(d.overflow, Epoch(d.last) + 1)
    && StartsBy(d.queue, clock)
  }

  /** The daemon is never a full turn of the counter behind anything it still has to do. */
  predicate InTime(d: Daemon, now: nat) {
    && now < d.last + 0x1_0000_0000
    && (forall c :: c in d.queue && c.Start? ==> now < c.issued + 0x1_0000_0000)
    && (forall e :: e in d.current ==> now < e.due + 0x1_0000_0000)
  }

  lemma SwitchOneTimed(d: Daemon, at: nat, epoch: nat)
    requires Known(d) && d.current != [] && EntriesIn(d.current, epoch) && StartsBy(d.queue, at)
    requires epoch < Epoch(at) && NeverEarly(d.log, at)
    ensures var d' := SwitchOne(d, at);
      && NeverEarly(d'.log, at)
      && EntriesIn(d'.current, epoch) && StartsBy(d'.queue, at) && d'.overflow == d.overflow
      && d'.lastTime == d.lastTime && d'.last == d.last
  {
    var e := d.current[0];
    PlusWraps(e.due, d.timers[e.id].period);
  }

  lemma {:induction false} SwitchListsTimed(d: Daemon, at: nat, epoch: nat)
    requires Known(d) && EntriesIn(d.current, epoch) && StartsBy(d.queue, at) && epoch < Epoch(at)
    requires NeverEarly(d.log, at)
    ensures var d' := SwitchLists(d, at);
      && NeverEarly(d'.log, at)
      && d'.current == d.overflow && d'.overflow == [] && StartsBy(d'.queue, at)
      && d'.lastTime == d.lastTime && d'.last == d.last
    decreases Headroom(d.current)
  {
    if d.current != [] {
      SwitchOneUsesHeadroom(d, at);
      SwitchOneTimed(d, at, epoch);
      SwitchListsTimed(SwitchOne(d, at), at, epoch);
    }
  }

  /** Sampling keeps the lists aligned with the epochs across a wrap. */
  lemma SampleTimed(d: Daemon, t: nat)
    requires Timed(d, t) && t < d.last + 0x1_0000_0000
    ensures Timed(Sample(d, t), t) && Sample(d, t).last == t
  {
    SampleKeepsTimers(d, t);
    ElapsedExact(t, d.last);
    if Wrap(t) < d.lastTime {
      SwitchListsTimed(d, t, Epoch(d.last));
    }
  }

  lemma InsertTimed(d: Daemon, e: Entry, placement: Placement, t: nat)
    requires Timed(d, t) && d.last == t && e.id in d.timers && e.value == Wrap(e.due)
    requires placement.InCurrent? ==> Epoch(e.due) == Epoch(t)
    requires placement.InOverflow? ==> Epoch(e.due) == Epoch(t) + 1
    ensures Timed(InsertActive(d, e, placement), t)
  {
  }

  lemma HeadHasExpired(e: Entry, t: nat)
    requires e.value == Wrap(e.due) && Epoch(e.due) == Epoch(t) && e.value <= Wrap(t)
    ensures e.due <= t
  {
  }

  lemma ProcessExpiredTimed(d: Daemon, t: nat)
    requires Timed(d, t) && d.last == t && d.current != [] && d.current[0].value <= Wrap(t)
    requires t < d.current[0].due + 0x1_0000_0000
    ensures d.current[0].due <= t
    ensures Timed(ProcessExpired(d, t), t) && ProcessExpired(d, t).last == t
  {
    hide Wrap, Epoch, Plus, Place, Elapsed;
    var e := d.current[0];
    var timer := d.timers[e.id];
    HeadHasExpired(e, t);
    PlaceExact(e.due, t, timer.period);
    PlusWraps(e.due, timer.period);
    var d1 := d.(current := d.current[1..]);
    var next := Entry(e.id, Plus(e.value, timer.period), e.due + timer.period);
    assert Timed(d1, t);
    InsertTimed(d1, next, Place(next.value, Wrap(t), e.value, timer.period), t);
  }

  lemma ApplyStartTimed(d: Daemon, c: Command, t: nat)
    requires Timed(d, t) && d.last == t && c.Start? && c.id in d.timers
    requires c.value == Wrap(c.issued) && c.issued <= t < c.issued + 0x1_0000_0000
    ensures Timed(ApplyStart(d, c, t), t)
  {
    hide Wrap, Epoch, Plus, Place, Elapsed;
    var timer := d.timers[c.id];
    PlaceExact(c.issued, t, timer.period);
    PlusWraps(c.issued, timer.period);
    var next := Entry(c.id, Plus(c.value, timer.period), c.issued + timer.period);
    InsertTimed(d, next, Place(next.value, Wrap(t), c.value, timer.period), t);
  }

  lemma ChangePeriodTimed(d: Daemon, c: Command, t: nat)
    requires Timed(d, t) && d.last == t && c.ChangePeriod? && c.id in d.timers
    ensures Timed(ApplyChangePeriod(d, c, t), t)
  {
    hide Wrap, Epoch, Plus, Place, Elapsed;
    PlaceExact(t, t, c.period);
    PlusWraps(t, c.period);
    var d1 := d.(timers := d.timers[c.id := d.timers[c.id].(period := c.period)]);
    var next := Entry(c.id, Plus(Wrap(t), c.period), t + c.period);
    InsertTimed(d1, next, Place(next.value, Wrap(t), Wrap(t), c.period), t);
  }

  lemma ProcessCommandTimed(d: Daemon, t: nat)
    requires Timed(d, t) && InTime(d, t) && d.queue != []
    ensures Timed(ProcessCommand(d, t), t)
  {
    var c := d.queue[0];
    assert c in d.queue;
    assert Timed(Fetch(d), t);
    SampleTimed(Fetch(d), t);
    SampleKeepsTimers(Fetch(d), t);
    match c
    case Start(_, _, _) => ApplyStartTimed(Sample(Fetch(d), t), c, t);
    case Stop(_) =>
    case ChangePeriod(_, _) => ChangePeriodTimed(Sample(Fetch(d), t), c, t);
  }

  lemma ProcessTimerTimed(d: Daemon, t: nat)
    requires Timed(d, t) && InTime(d, t)
    ensures Timed(ProcessTimerOrBlock(d, t), t)
  {
    SampleTimed(d, t);
    if !(Wrap(t) < d.lastTime || d.current == [] || d.current[0].value > Wrap(t)) {
      assert d.current[0] in d.current;
      ProcessExpiredTimed(Sample(d, t), t);
    }
  }

  // ---- One auto-reload timer, followed through everything else ----

  /** The last expiry that has been served, or the start time before the first. */
  function Served(calls: seq<nat>, start: nat): nat {
    if calls == [] then start else calls[|calls| - 1]
  }

  /** Each callback is for the expiry one period after the one before it. */
  predicate Drumbeat(calls: seq<nat>, start: nat, period: nat) {
    forall i :: 0 <= i < |calls| ==> calls[i] == Served(calls[..i], start) + period
  }

  function Active(d: Daemon, x: TimerId): seq<Entry> { Mine(d.current, x) + Mine(d.overflow, x) }

  /** The timer is due once, one period after the last served expiry, in a list or as a command. */
  predicate InFlight(d: Daemon, x: TimerId, served: nat, period: Period) {
    || (Active(d, x) == [Entry(x, Wrap(served + period), served + period)] && Orders(d.queue, x) == [])
    || (Active(d, x) == [] && Orders(d.queue, x) == [Start(x, Wrap(served), served)])
  }

  predicate Tracked(d: Daemon, x: TimerId, start: nat, period: Period) {
    && x in d.timers && d.timers[x] == Timer(period, true)
    && Drumbeat(Calls(d.log, x), start, period)
    && InFlight(d, x, Served(Calls(d.log, x), start), period)
  }

  lemma DrumbeatGrows(calls: seq<nat>, start: nat, period: nat)
    requires Drumbeat(calls, start, period)
    ensures Drumbeat(calls + [Served(calls, start) + period], start, period)
    ensures Served(calls + [Served(calls, start) + period], start) == Served(calls, start) + period
  {
    var grown := calls + [Served(calls, start) + period];
    forall i | 0 <= i < |grown| ensures grown[i] == Served(grown[..i], start) + period {
      assert grown[..i] == calls[..i];
      assert i == |calls| ==> calls[..i] == calls;
    }
  }

  /** What concerns x, apart from the active lists, is the same in both states. */
  predicate SameFor(x: TimerId, d: Daemon, d': Daemon) {
    && Calls(d'.log, x) == Calls(d.log, x) && Orders(d'.queue, x) == Orders(d.queue, x)
    && d'.timers == d.timers && (x in d'.lost <==> x in d.lost)
  }

  lemma SendOther(d: Daemon, c: Command, x: TimerId)
    requires c.id != x
    ensures SameFor(x, d, SendCommand(d, c))
  {
    OrdersAppend(d.queue, c, x);
  }

  lemma CallOther(d: Daemon, id: TimerId, due: nat, at: nat, x: TimerId)
    requires id != x
    ensures SameFor(x, d, Call(d, id, due, at))
  {
    CallsAppend(d.log, Callback(id, due, at), x);
  }

  lemma SwitchOneOther(d: Daemon, at: nat, x: TimerId)
    requires Known(d) && d.current != [] && d.current[0].id != x
    ensures SameFor(x, d, SwitchOne(d, at))
    ensures Mine(SwitchOne(d, at).current, x) == Mine(d.current, x) && SwitchOne(d, at).overflow == d.overflow
  {
    hide Orders, Calls, InsertByValue;
    var e := d.current[0];
    var d1 := Call(d.(current := d.current[1..]), e.id, e.due, at);
    CallOther(d.(current := d.current[1..]), e.id, e.due, at, x);
    MineInsert(d.current[1..], Entry(e.id, Plus(e.value, d.timers[e.id].period), e.due + d.timers[e.id].period), x);
    SendOther(d1, Start(e.id, e.value, e.due), x);
  }

  lemma {:induction false} SwitchOthers(d: Daemon, at: nat, x: TimerId)
    requires Known(d) && Mine(d.current, x) == []
    ensures SameFor(x, d, SwitchLists(d, at))
    ensures Active(SwitchLists(d, at), x) == Active(d, x)
    decreases Headroom(d.current)
  {
    if d.current != [] {
      SwitchOneUsesHeadroom(d, at);
      SwitchOneOther(d, at, x);
      SwitchOthers(SwitchOne(d, at), at, x);
    }
  }

  /** The callback for x that is due now has been made, and x is in neither list nor queue. */
  predicate BetweenBeats(d: Daemon, x: TimerId, start: nat, period: Period) {
    && x in d.timers && d.timers[x] == Timer(period, true)
    && Drumbeat(Calls(d.log, x), start, period)
    && Active(d, x) == [] && Orders(d.queue, x) == []
  }

  /** Serving the expiry of x that is due. */
  lemma ServeMine(d: Daemon, x: TimerId, start: nat, period: Period, due: nat, at: nat)
    requires BetweenBeats(d, x, start, period) && due == Served(Calls(d.log, x), start) + period
    ensures BetweenBeats(Call(d, x, due, at), x, start, period)
    ensures Served(Calls(Call(d, x, due, at).log, x), start) == due
  {
    hide Drumbeat, Mine, Orders, Calls;
    DrumbeatGrows(Calls(d.log, x), start, period);
    CallsAppend(d.log, Callback(x, due, at), x);
  }

  /** Re-arming x in a list, one period after what was served. */
  lemma RearmInList(d: Daemon, x: TimerId, start: nat, period: Period, placement: Placement)
    requires BetweenBeats(d, x, start, period) && !placement.ExpiredAlready?
    ensures var served := Served(Calls(d.log, x), start);
      Tracked(InsertActive(d, Entry(x, Wrap(served + period), served + period), placement), x, start, period)
  {
    var served := Served(Calls(d.log, x), start);
    var e := Entry(x, Wrap(served + period), served + period);
    MineInsert(d.current, e, x);
    MineInsert(d.overflow, e, x);
  }

  /** Re-arming x through the command queue. */
  lemma RearmByCommand(d: Daemon, x: TimerId, start: nat, period: Period)
    requires BetweenBeats(d, x, start, period)
    ensures var served := Served(Calls(d.log, x), start);
      var d' := SendCommand(d, Start(x, Wrap(served), served));
      x !in d'.lost ==> Tracked(d', x, start, period)
  {
    OrdersAppend(d.queue, Start(x, Wrap(Served(Calls(d.log, x), start)), Served(Calls(d.log, x), start)), x);
  }

  /** Serve, then re-arm: the two ways a beat of x completes. */
  lemma BeatInList(d: Daemon, x: TimerId, start: nat, period: Period, due: nat, at: nat, placement: Placement)
    requires BetweenBeats(d, x, start, period) && due == Served(Calls(d.log, x), start) + period
    requires !placement.ExpiredAlready?
    ensures Tracked(InsertActive(Call(d, x, due, at), Entry(x, Wrap(due + period), due + period), placement), x, start, period)
  {
    hide Mine, Orders, Calls, Drumbeat;
    ServeMine(d, x, start, period, due, at);
    RearmInList(Call(d, x, due, at), x, start, period, placement);
  }

  lemma BeatByCommand(d: Daemon, x: TimerId, start: nat, period: Period, due: nat, at: nat)
    requires BetweenBeats(d, x, start, period) && due == Served(Calls(d.log, x), start) + period
    ensures var d' := SendCommand(Call(d, x, due, at), Start(x, Wrap(due), due));
      x !in d'.lost ==> Tracked(d', x, start, period)
  {
    hide Mine, Orders, Calls, Drumbeat;
    ServeMine(d, x, start, period, due, at);
    RearmByCommand(Call(d, x, due, at), x, start, period);
  }

  /** If x heads the current list, that entry is all there is of it. */
  lemma HeadIsMine(d: Daemon, x: TimerId, start: nat, period: Period)
    requires d.current != [] && d.current[0].id == x && Tracked(d, x, start, period)
    ensures d.current[0].due == Served(Calls(d.log, x), start) + period
    ensures BetweenBeats(d.(current := d.current[1..]), x, start, period)
  {
    assert Mine(d.current, x) == [d.current[0]] + Mine(d.current[1..], x);
    assert |Active(d, x)| == 1 + |Active(d.(current := d.current[1..]), x)|;
    assert Active(d, x)[0] == d.current[0];
  }

  /** The turn of the switching loop that serves x, as a call followed by a re-arm. */
  lemma SwitchOneShape(d: Daemon, at: nat, period: Period)
    requires Known(d) && d.current != [] && d.timers[d.current[0].id] == Timer(period, true)
    requires d.current[0].value == Wrap(d.current[0].due)
    ensures var e := d.current[0];
      var d1 := Call(d.(current := d.current[1..]), e.id, e.due, at);
      SwitchOne(d, at) ==
        if Plus(e.value, period) > e.value
        then InsertActive(d1, Entry(e.id, Wrap(e.due + period), e.due + period), InCurrent)
        else SendCommand(d1, Start(e.id, Wrap(e.due), e.due))
  {
    PlusWraps(d.current[0].due, period);
  }

  lemma SwitchOneMine(d: Daemon, at: nat, x: TimerId, start: nat, period: Period)
    requires Known(d) && d.current != [] && d.current[0].id == x && Tracked(d, x, start, period)
    requires d.current[0].value == Wrap(d.current[0].due)
    ensures x !in SwitchOne(d, at).lost ==> Tracked(SwitchOne(d, at), x, start, period)
  {
    hide Drumbeat, Mine, Orders, Calls;
    var e, d0 := d.current[0], d.(current := d.current[1..]);
    HeadIsMine(d, x, start, period);
    SwitchOneShape(d, at, period);
    BeatInList(d0, x, start, period, e.due, at, InCurrent);
    BeatByCommand(d0, x, start, period, e.due, at);
  }

  lemma SwitchLosesOnly(d: Daemon, at: nat, x: TimerId)
    requires Known(d) && x in d.lost
    ensures x in SwitchLists(d, at).lost
    decreases Headroom(d.current)
  {
    if d.current != [] {
      SwitchOneUsesHeadroom(d, at);
      SwitchLosesOnly(SwitchOne(d, at), at, x);
    }
  }

  /** Through the whole switching loop, x keeps its beat. */
  lemma {:induction false} SwitchTracks(d: Daemon, at: nat, x: TimerId, start: nat, period: Period, epoch: nat)
    requires Known(d) && EntriesIn(d.current, epoch) && StartsBy(d.queue, at) && epoch < Epoch(at)
    requires NeverEarly(d.log, at) && Tracked(d, x, start, period)
    ensures x !in SwitchLists(d, at).lost ==> Tracked(SwitchLists(d, at), x, start, period)
    decreases Headroom(d.current)
  {
    if d.current != [] {
      SwitchOneUsesHeadroom(d, at);
      SwitchOneTimed(d, at, epoch);
      var d1 := SwitchOne(d, at);
      if d.current[0].id == x {
        SwitchOneMine(d, at, x, start, period);
      } else {
        SwitchOneOther(d, at, x);
      }
      if x in d1.lost {
        SwitchLosesOnly(d1, at, x);
      } else {
        SwitchTracks(d1, at, x, start, period, epoch);
      }
    }
  }

  lemma SampleTracks(d: Daemon, t: nat, x: TimerId, start: nat, period: Period)
    requires Timed(d, t) && t < d.last + 0x1_0000_0000 && Tracked(d, x, start, period)
    ensures x !in Sample(d, t).lost ==> Tracked(Sample(d, t), x, start, period)
  {
    ElapsedExact(t, d.last);
    if Wrap(t) < d.lastTime {
      SwitchTracks(d, t, x, start, period, Epoch(d.last));
    }
  }

  lemma SampleOthers(d: Daemon, t: nat, x: TimerId)
    requires Known(d) && Mine(d.current, x) == []
    ensures SameFor(x, d, Sample(d, t)) && Active(Sample(d, t), x) == Active(d, x)
  {
    SwitchOthers(d, t, x);
  }

  lemma ProcessExpiredTracks(d: Daemon, t: nat, x: TimerId, start: nat, period: Period)
    requires Timed(d, t) && d.last == t && d.current != [] && d.current[0].value <= Wrap(t)
    requires t < d.current[0].due + 0x1_0000_0000
    requires Tracked(d, x, start, period)
    ensures x !in ProcessExpired(d, t).lost ==> Tracked(ProcessExpired(d, t), x, start, period)
  {
    var e := d.current[0];
    if e.id == x {
      ProcessExpiredMine(d, t, x, start, period);
    } else {
      ProcessExpiredOther(d, t, x);
    }
  }

  /** Serving x from the head of the list, as a call and a re-arm; the code makes the call last, with the same effect. */
  lemma ProcessExpiredShape(d: Daemon, t: nat, period: Period)
    requires d.current != [] && d.current[0].id in d.timers && d.timers[d.current[0].id] == Timer(period, true)
    requires d.current[0].value == Wrap(d.current[0].due)
    ensures var e := d.current[0];
      var d1 := Call(d.(current := d.current[1..]), e.id, e.due, t);
      var placement := Place(Plus(e.value, period), Wrap(t), e.value, period);
      ProcessExpired(d, t) ==
        if placement.ExpiredAlready? then SendCommand(d1, Start(e.id, Wrap(e.due), e.due))
        else InsertActive(d1, Entry(e.id, Wrap(e.due + period), e.due + period), placement)
  {
    PlusWraps(d.current[0].due, period);
  }

  lemma ProcessExpiredMine(d: Daemon, t: nat, x: TimerId, start: nat, period: Period)
    requires d.current != [] && d.current[0].id == x && Tracked(d, x, start, period)
    requires d.current[0].value == Wrap(d.current[0].due)
    ensures x !in ProcessExpired(d, t).lost ==> Tracked(ProcessExpired(d, t), x, start, period)
  {
    hide Drumbeat, Mine, Orders, Calls;
    var e, d0 := d.current[0], d.(current := d.current[1..]);
    var placement := Place(Plus(e.value, period), Wrap(t), e.value, period);
    HeadIsMine(d, x, start, period);
    ProcessExpiredShape(d, t, period);
    if placement.ExpiredAlready? {
      BeatByCommand(d0, x, start, period, e.due, t);
    } else {
      BeatInList(d0, x, start, period, e.due, t, placement);
    }
  }

  lemma InsertOther(d: Daemon, e: Entry, placement: Placement, x: TimerId)
    requires e.id != x
    ensures SameFor(x, d, InsertActive(d, e, placement)) && Active(InsertActive(d, e, placement), x) == Active(d, x)
  {
    MineInsert(d.current, e, x);
    MineInsert(d.overflow, e, x);
  }

  lemma ProcessExpiredOther(d: Daemon, t: nat, x: TimerId)
    requires d.current != [] && d.current[0].id in d.timers && d.current[0].id != x
    ensures SameFor(x, d, ProcessExpired(d, t)) && Active(ProcessExpired(d, t), x) == Active(d, x)
  {
    hide Orders, Calls, InsertByValue;
    var e := d.current[0];
    var timer := d.timers[e.id];
    var d1 := d.(current := d.current[1..]);
    var next := Entry(e.id, Plus(e.value, timer.period), e.due + timer.period);
    var placement := Place(next.value, Wrap(t), e.value, timer.period);
    assert Active(d1, x) == Active(d, x);
    InsertOther(d1, next, placement, x);
    SendOther(d1, Start(e.id, e.value, e.due), x);
    CallOther(d1, e.id, e.due, t, x);
    CallOther(InsertActive(d1, next, placement), e.id, e.due, t, x);
    CallOther(SendCommand(d1, Start(e.id, e.value, e.due)), e.id, e.due, t, x);
  }

  /** A reload command for x: either it is still in time and goes to a list, or the expiry it led to is served at once. */
  lemma ApplyStartMine(d: Daemon, c: Command, t: nat, x: TimerId, start: nat, period: Period)
    requires BetweenBeats(d, x, start, period)
    requires var served := Served(Calls(d.log, x), start); c == Start(x, Wrap(served), served)
    ensures x !in ApplyStart(d, c, t).lost ==> Tracked(ApplyStart(d, c, t), x, start, period)
  {
    hide Drumbeat, Mine, Orders, Calls;
    var served := Served(Calls(d.log, x), start);
    var placement := Place(Plus(c.value, period), Wrap(t), c.value, period);
    PlusWraps(served, period);
    if placement.ExpiredAlready? {
      BeatByCommand(d, x, start, period, served + period, t);
    } else {
      RearmInList(d, x, start, period, placement);
    }
  }

  lemma ApplyStartOther(d: Daemon, c: Command, t: nat, x: TimerId)
    requires c.Start? && c.id in d.timers && c.id != x
    ensures SameFor(x, d, ApplyStart(d, c, t)) && Active(ApplyStart(d, c, t), x) == Active(d, x)
  {
    hide Mine, Orders, Calls, InsertByValue;
    var timer := d.timers[c.id];
    var next := Entry(c.id, Plus(c.value, timer.period), c.issued + timer.period);
    var placement := Place(next.value, Wrap(t), c.value, timer.period);
    InsertOther(d, next, placement, x);
    CallOther(d, c.id, next.due, t, x);
    SendOther(Call(d, c.id, next.due, t), Start(c.id, next.value, next.due), x);
  }

  lemma ChangePeriodOther(d: Daemon, c: Command, t: nat, x: TimerId)
    requires c.ChangePeriod? && c.id in d.timers && c.id != x && x in d.timers
    ensures var d' := ApplyChangePeriod(d, c, t);
      && Calls(d'.log, x) == Calls(d.log, x) && Orders(d'.queue, x) == Orders(d.queue, x)
      && x in d'.timers && d'.timers[x] == d.timers[x] && d'.lost == d.lost && Active(d', x) == Active(d, x)
  {
    hide Mine, Orders, Calls, InsertByValue;
    var d1 := d.(timers := d.timers[c.id := d.timers[c.id].(period := c.period)]);
    var next := Entry(c.id, Plus(Wrap(t), c.period), t + c.period);
    InsertOther(d1, next, Place(next.value, Wrap(t), Wrap(t), c.period), x);
  }

  lemma FetchOther(d: Daemon, x: TimerId)
    requires d.queue != [] && d.queue[0].id != x
    ensures SameFor(x, d, Fetch(d)) && Active(Fetch(d), x) == Active(d, x)
  {
    MineRemove(d.current, d.queue[0].id, x);
    MineRemove(d.overflow, d.queue[0].id, x);
  }

  lemma FetchMine(d: Daemon, x: TimerId, start: nat, period: Period)
    requires d.queue != [] && d.queue[0].id == x && Tracked(d, x, start, period)
    ensures var served := Served(Calls(d.log, x), start);
      d.queue[0] == Start(x, Wrap(served), served) && Fetch(d).log == d.log
    ensures BetweenBeats(Fetch(d), x, start, period)
  {
    assert Orders(d.queue, x) == [d.queue[0]] + Orders(d.queue[1..], x);
    assert Orders(d.queue, x)[0] == d.queue[0];
    MineRemove(d.current, x, x);
    MineRemove(d.overflow, x, x);
  }

  lemma ProcessCommandMine(d: Daemon, t: nat, x: TimerId, start: nat, period: Period)
    requires Timed(d, t) && d.queue != [] && d.queue[0].id == x && Tracked(d, x, start, period)
    ensures x !in ProcessCommand(d, t).lost ==> Tracked(ProcessCommand(d, t), x, start, period)
  {
    hide Drumbeat, Mine, Orders, Calls, Timed;
    assert Known(d) by { TimedKnown(d, t); }
    FetchMine(d, x, start, period);
    var d1 := Sample(Fetch(d), t);
    assert Mine(Fetch(d).current, x) == [];
    SampleOthers(Fetch(d), t, x);
    SampleKeepsTimers(Fetch(d), t);
    assert BetweenBeats(d1, x, start, period);
    ApplyStartMine(d1, d.queue[0], t, x, start, period);
  }

  lemma TimedKnown(d: Daemon, t: nat)
    requires Timed(d, t)
    ensures Known(d)
  {
  }

  lemma ProcessCommandOther(d: Daemon, t: nat, x: TimerId, start: nat, period: Period)
    requires Timed(d, t) && InTime(d, t) && d.queue != [] && d.queue[0].id != x && Tracked(d, x, start, period)
    ensures x !in ProcessCommand(d, t).lost ==> Tracked(ProcessCommand(d, t), x, start, period)
  {
    hide Drumbeat, Mine, Orders, Calls;
    var c := d.queue[0];
    assert c in d.queue;
    FetchOther(d, x);
    assert Timed(Fetch(d), t) && Tracked(Fetch(d), x, start, period);
    SampleTracks(Fetch(d), t, x, start, period);
    SampleKeepsTimers(Fetch(d), t);
    var d1 := Sample(Fetch(d), t);
    match c
    case Start(_, _, _) => ApplyStartOther(d1, c, t, x);
    case Stop(_) =>
    case ChangePeriod(_, _) => ChangePeriodOther(d1, c, t, x);
  }

  lemma ProcessTimerTracks(d: Daemon, t: nat, x: TimerId, start: nat, period: Period)
    requires Timed(d, t) && InTime(d, t) && Tracked(d, x, start, period)
    ensures x !in ProcessTimerOrBlock(d, t).lost ==> Tracked(ProcessTimerOrBlock(d, t), x, start, period)
  {
    hide Drumbeat, Mine, Orders, Calls;
    SampleTimed(d, t);
    SampleTracks(d, t, x, start, period);
    if !(Wrap(t) < d.lastTime || d.current == [] || d.current[0].value > Wrap(t)) {
      assert d.current[0] in d.current;
      ProcessExpiredTracks(Sample(d, t), t, x, start, period);
    }
  }

  // ---- Runs of the daemon ----

  datatype Action =
    | RunTimers(at: nat)                 // prvProcessTimerOrBlockTask
    | ServeQueue(at: nat)                // one turn of prvProcessReceivedCommands
    | Request(at: nat, command: Command) // xTimerGenericCommand from a task or interrupt

  /** Requests name known timers, carry the time they are made, and leave timer x alone. */
  predicate Legal(d: Daemon, clock: nat, a: Action, x: TimerId) {
    && clock <= a.at
    && match a
       case RunTimers(at) => InTime(d, at)
       case ServeQueue(at) => InTime(d, at) && d.queue != []
       case Request(at, c) =>
         c.id in d.timers && c.id != x && (c.Start? ==> c.issued == at && c.value == Wrap(at))
  }

  function Step(d: Daemon, a: Action): Daemon
    requires Known(d) && (a.ServeQueue? ==> d.queue != [])
  {
    match a
    case RunTimers(at) => ProcessTimerOrBlock(d, at)
    case ServeQueue(at) => ProcessCommand(d, at)
    case Request(at, c) => if |d.queue| < TIMER_QUEUE_LENGTH then d.(queue := d.queue + [c]) else d
  }

  lemma StepTimed(d: Daemon, clock: nat, a: Action, x: TimerId)
    requires Timed(d, clock) && Legal(d, clock, a, x)
    ensures Timed(Step(d, a), a.at)
  {
    assert Timed(d, a.at);
    match a
    case RunTimers(at) => ProcessTimerTimed(d, at);
    case ServeQueue(at) => ProcessCommandTimed(d, at);
    case Request(_, _) =>
  }

  lemma StepTracks(d: Daemon, clock: nat, a: Action, x: TimerId, start: nat, period: Period)
    requires Timed(d, clock) && Legal(d, clock, a, x) && Tracked(d, x, start, period)
    ensures x !in Step(d, a).lost ==> Tracked(Step(d, a), x, start, period)
  {
    hide Drumbeat, Mine, Orders, Calls;
    assert Timed(d, a.at);
    match a
    case RunTimers(at) => ProcessTimerTracks(d, at, x, start, period);
    case ServeQueue(at) =>
      if d.queue[0].id == x {
        ProcessCommandMine(d, at, x, start, period);
      } else {
        ProcessCommandOther(d, at, x, start, period);
      }
    case Request(_, c) => OrdersAppend(d.queue, c, x);
  }

  /** Every step is legal and no reload of x is lost to a full queue. */
  predicate GoodRun(d: Daemon, clock: nat, run: seq<Action>, x: TimerId)
    decreases |run|
  {
    Known(d) && x !in d.lost &&
    (run != [] ==> Legal(d, clock, run[0], x) && GoodRun(Step(d, run[0]), run[0].at, run[1..], x))
  }

  function Execute(d: Daemon, clock: nat, run: seq<Action>, x: TimerId): Daemon
    requires GoodRun(d, clock, run, x)
    decreases |run|
  {
    if run == [] then d else Execute(Step(d, run[0]), run[0].at, run[1..], x)
  }

  function EndTime(clock: nat, run: seq<Action>): nat {
    if run == [] then clock else run[|run| - 1].at
  }

  lemma {:induction false} RunTracks(d: Daemon, clock: nat, run: seq<Action>, x: TimerId, start: nat, period: Period)
    requires GoodRun(d, clock, run, x) && Timed(d, clock) && Tracked(d, x, start, period)
    ensures Tracked(Execute(d, clock, run, x), x, start, period)
    ensures Timed(Execute(d, clock, run, x), EndTime(clock, run))
    decreases |run|
  {
    if run != [] {
      StepTimed(d, clock, run[0], x);
      StepTracks(d, clock, run[0], x, start, period);
      RunTracks(Step(d, run[0]), run[0].at, run[1..], x, start, period);
    }
  }

  /** The beat in closed form: the k-th callback is for start + k * period. */
  lemma {:induction false} BeatTimes(calls: seq<nat>, start: nat, period: nat, k: nat)
    requires Drumbeat(calls, start, period) && k < |calls|
    ensures calls[k] == start + (k + 1) * period
  {
    if k > 0 {
      BeatTimes(calls, start, period, k - 1);
      assert calls[..k][k - 1] == calls[k - 1];
    }
  }

  /**
    An auto-reload timer whose start command, sent at time `start`, is in the queue: after
    any run, the callbacks made for it are for start + period, start + 2 * period, ... in
    that order with none missing or repeated, and none was made early.
   */
  lemma AutoReloadNeverDrifts(d: Daemon, start: nat, run: seq<Action>, x: TimerId, period: Period)
    requires Timed(d, start) && GoodRun(d, start, run, x)
    requires x in d.timers && d.timers[x] == Timer(period, true) && Calls(d.log, x) == []
    requires Active(d, x) == [] && Orders(d.queue, x) == [Start(x, Wrap(start), start)]
    ensures var d' := Execute(d, start, run, x);
      && (forall k :: 0 <= k < |Calls(d'.log, x)| ==> Calls(d'.log, x)[k] == start + (k + 1) * period)
      && (forall c :: c in d'.log ==> c.due <= c.at)
  {
    RunTracks(d, start, run, x, start, period);
    var calls := Calls(Execute(d, start, run, x).log, x);
    forall k | 0 <= k < |calls| ensures calls[k] == start + (k + 1) * period {
      BeatTimes(calls, start, period, k);
    }
  }

  // ---- How many callbacks ----

  predicate Ordered(s: seq<Entry>) {
    forall i, j :: 0 <= i < j < |s| ==> s[i].value <= s[j].value
  }

  lemma {:induction false} InsertOrdered(s: seq<Entry>, e: Entry)
    requires Ordered(s)
    ensures Ordered(InsertByValue(s, e))
  {
    if !(s == [] || s[0].value > e.value) {
      var rest := InsertByValue(s[1..], e);
      InsertOrdered(s[1..], e);
      forall x | x in rest ensures s[0].value <= x.value {
      }
      forall i, j | 0 <= i < j < |rest| + 1 ensures ([s[0]] + rest)[i].value <= ([s[0]] + rest)[j].value {
        assert ([s[0]] + rest)[j] == rest[j - 1] && rest[j - 1] in rest;
      }
    }
  }

  lemma {:induction false} RemoveOrdered(s: seq<Entry>, id: TimerId)
    requires Ordered(s)
    ensures Ordered(RemoveTimer(s, id))
  {
    if s != [] && s[0].id != id {
      var rest := RemoveTimer(s[1..], id);
      RemoveOrdered(s[1..], id);
      forall i, j | 0 <= i < j < |rest| + 1 ensures ([s[0]] + rest)[i].value <= ([s[0]] + rest)[j].value {
        assert ([s[0]] + rest)[j] == rest[j - 1] && rest[j - 1] in rest;
      }
    }
  }

  predicate BothOrdered(d: Daemon) { Ordered(d.current) && Ordered(d.overflow) }

  lemma SampleOrdered(d: Daemon, t: nat)
    requires Timed(d, t) && t < d.last + 0x1_0000_0000 && BothOrdered(d)
    ensures BothOrdered(Sample(d, t))
  {
    hide Ordered;
    ElapsedExact(t, d.last);
    assert Ordered([]) by { EmptyOrdered(); }
    if Wrap(t) < d.lastTime {
      SwitchListsTimed(d, t, Epoch(d.last));
    }
  }

  lemma EmptyOrdered()
    ensures Ordered([])
  {
  }

  lemma InsertActiveOrdered(d: Daemon, e: Entry, placement: Placement)
    requires BothOrdered(d)
    ensures BothOrdered(InsertActive(d, e, placement))
  {
    InsertOrdered(d.current, e);
    InsertOrdered(d.overflow, e);
  }

  lemma ProcessExpiredOrdered(d: Daemon, t: nat)
    requires BothOrdered(d) && d.current != [] && d.current[0].id in d.timers
    ensures BothOrdered(ProcessExpired(d, t))
  {
    var e, d1 := d.current[0], d.(current := d.current[1..]);
    var timer := d.timers[e.id];
    var next := Entry(e.id, Plus(e.value, timer.period), e.due + timer.period);
    assert BothOrdered(d1);
    InsertActiveOrdered(d1, next, Place(next.value, Wrap(t), e.value, timer.period));
  }

  lemma ApplyOrdered(d: Daemon, c: Command, t: nat)
    requires BothOrdered(d) && c.id in d.timers
    ensures c.Start? ==> BothOrdered(ApplyStart(d, c, t))
    ensures c.ChangePeriod? ==> BothOrdered(ApplyChangePeriod(d, c, t))
  {
    hide Ordered, InsertByValue;
    if c.Start? {
      var timer := d.timers[c.id];
      var next := Entry(c.id, Plus(c.value, timer.period), c.issued + timer.period);
      InsertActiveOrdered(d, next, Place(next.value, Wrap(t), c.value, timer.period));
    } else if c.ChangePeriod? {
      var d1 := d.(timers := d.timers[c.id := d.timers[c.id].(period := c.period)]);
      var next := Entry(c.id, Plus(Wrap(t), c.period), t + c.period);
      InsertActiveOrdered(d1, next, Place(next.value, Wrap(t), Wrap(t), c.period));
    }
  }

  lemma ProcessCommandOrdered(d: Daemon, t: nat)
    requires Timed(d, t) && InTime(d, t) && BothOrdered(d) && d.queue != []
    ensures BothOrdered(ProcessCommand(d, t))
  {
    hide Ordered, RemoveTimer, ApplyStart, ApplyChangePeriod;
    RemoveOrdered(d.current, d.queue[0].id);
    RemoveOrdered(d.overflow, d.queue[0].id);
    assert Timed(Fetch(d), t);
    SampleOrdered(Fetch(d), t);
    SampleKeepsTimers(Fetch(d), t);
    ApplyOrdered(Sample(Fetch(d), t), d.queue[0], t);
  }

  lemma StepOrdered(d: Daemon, clock: nat, a: Action, x: TimerId)
    requires Timed(d, clock) && Legal(d, clock, a, x) && BothOrdered(d)
    ensures BothOrdered(Step(d, a))
  {
    hide Ordered;
    assert Timed(d, a.at);
    match a
    case RunTimers(at) =>
      SampleOrdered(d, at);
      SampleKeepsTimers(d, at);
      if !(Wrap(at) < d.lastTime || d.current == [] || d.current[0].value > Wrap(at)) {
        ProcessExpiredOrdered(Sample(d, at), at);
      }
    case ServeQueue(at) => ProcessCommandOrdered(d, at);
    case Request(_, _) =>
  }

  lemma {:induction false} RunOrdered(d: Daemon, clock: nat, run: seq<Action>, x: TimerId)
    requires GoodRun(d, clock, run, x) && Timed(d, clock) && BothOrdered(d)
    ensures BothOrdered(Execute(d, clock, run, x))
    decreases |run|
  {
    if run != [] {
      StepTimed(d, clock, run[0], x);
      StepOrdered(d, clock, run[0], x);
      RunOrdered(Step(d, run[0]), run[0].at, run[1..], x);
    }
  }

  lemma {:induction false} MineIsIn(s: seq<Entry>, x: TimerId, e: Entry)
    requires e in Mine(s, x)
    ensures e in s
  {
    if s[0] != e {
      MineIsIn(s[1..], x, e);
    }
  }

  lemma {:induction false} CallIsLogged(log: seq<Callback>, x: TimerId, due: nat)
    requires due in Calls(log, x)
    ensures exists c :: c in log && c.due == due
  {
    var c := log[|log| - 1];
    if c.due != due || c.id != x {
      CallIsLogged(log[..|log| - 1], x, due);
    }
  }

  /** With no command pending and the head of the list in the future, what is in flight is in the future. */
  lemma NothingOverdue(d: Daemon, clock: nat, x: TimerId, start: nat, period: Period)
    requires Timed(d, clock) && BothOrdered(d) && Tracked(d, x, start, period) && Orders(d.queue, x) == []
    requires d.current == [] || d.current[0].value > d.lastTime
    ensures d.last < Served(Calls(d.log, x), start) + period
  {
    var e := Active(d, x)[0];
    if Mine(d.current, x) != [] {
      assert e in Mine(d.current, x);
      MineIsIn(d.current, x, e);
      assert d.current[0].value <= e.value;
    } else {
      assert e in Mine(d.overflow, x);
      MineIsIn(d.overflow, x, e);
    }
  }

  lemma ServedInThePast(d: Daemon, clock: nat, x: TimerId, start: nat)
    requires Timed(d, clock) && start <= d.last
    ensures Served(Calls(d.log, x), start) <= d.last
  {
    var calls := Calls(d.log, x);
    if calls != [] {
      assert calls[|calls| - 1] in calls;
      CallIsLogged(d.log, x, calls[|calls| - 1]);
    }
  }

  lemma ProductMonotone(a: nat, b: nat, c: nat)
    requires a <= b
    ensures a * c <= b * c
  {
  }

  lemma QuotientUnique(n: nat, elapsed: nat, period: nat)
    requires period > 0 && n * period <= elapsed < (n + 1) * period
    ensures elapsed / period == n
  {
    var q := elapsed / period;
    assert q * period <= elapsed < (q + 1) * period;
    if q < n {
      ProductMonotone(q + 1, n, period);
    } else if q > n {
      ProductMonotone(n + 1, q, period);
    }
  }

  lemma BeatCount(calls: seq<nat>, start: nat, period: nat, now: nat)
    requires Drumbeat(calls, start, period) && period > 0 && start <= now
    requires Served(calls, start) <= now < Served(calls, start) + period
    ensures |calls| == (now - start) / period
  {
    if calls != [] {
      BeatTimes(calls, start, period, |calls| - 1);
    }
    assert (|calls| + 1) * period == |calls| * period + period;
    QuotientUnique(|calls|, now - start, period);
  }

  /**
    Whenever the daemon has drained its commands and sees nothing expired, exactly one
    callback has been made for each period elapsed since the start: none was dropped,
    however late the daemon ran and however often the tick count wrapped.
   */
  lemma NoBeatIsDropped(d: Daemon, start: nat, run: seq<Action>, x: TimerId, period: Period)
    requires Timed(d, start) && BothOrdered(d) && GoodRun(d, start, run, x)
    requires x in d.timers && d.timers[x] == Timer(period, true) && Calls(d.log, x) == []
    requires Active(d, x) == [] && Orders(d.queue, x) == [Start(x, Wrap(start), start)]
    requires var d' := Execute(d, start, run, x);
      start <= d'.last && Orders(d'.queue, x) == [] && (d'.current == [] || d'.current[0].value > d'.lastTime)
    ensures var d' := Execute(d, start, run, x); |Calls(d'.log, x)| == (d'.last - start) / period
  {
    hide Mine, Orders, Calls, Ordered, EntriesIn, StartsBy, NeverEarly, Drumbeat, GoodRun, Execute, Known;
    assert Tracked(d, x, start, period) by { NoCallsYet(start, period); }
    RunTracks(d, start, run, x, start, period);
    RunOrdered(d, start, run, x);
    var d' := Execute(d, start, run, x);
    NothingOverdue(d', EndTime(start, run), x, start, period);
    ServedInThePast(d', EndTime(start, run), x, start);
    BeatCount(Calls(d'.log, x), start, period, d'.last);
  }

  lemma NoCallsYet(start: nat, period: nat)
    ensures Drumbeat([], start, period)
  {
  }

  lemma BeatsStep(v: Tick, period: Period)
    ensures (0xffff_ffff - v) / period + 1 ==
            if v + period < 0x1_0000_0000 then 1 + ((0xffff_ffff - (v + period)) / period + 1) else 1
  {
    if v + period < 0x1_0000_0000 {
      var n := (0xffff_ffff - (v + period)) / period;
      assert n * period <= 0xffff_ffff - (v + period) < n * period + period;
      assert (n + 1) * period == n * period + period && (n + 2) * period == n * period + 2 * period;
      QuotientUnique(n + 1, 0xffff_ffff - v, period);
    } else {
      QuotientUnique(0, 0xffff_ffff - v, period);
    }
  }

  /** The switching loop calls a timer at value v exactly floor((2^32 - 1 - v) / period) + 1 times. */
  lemma {:induction false} SwitchCalls(d: Daemon, at: nat, x: TimerId, e: Entry)
    requires Known(d) && Mine(d.current, x) == [e] && x in d.timers && d.timers[x].autoReload
    ensures |Calls(SwitchLists(d, at).log, x)|
         == |Calls(d.log, x)| + (0xffff_ffff - e.value) / d.timers[x].period + 1
    decreases Headroom(d.current)
  {
    hide Calls, Orders;
    var d1 := SwitchOne(d, at);
    SwitchOneUsesHeadroom(d, at);
    if d.current[0].id != x {
      SwitchOneOther(d, at, x);
      SwitchCalls(d1, at, x, e);
    } else {
      SwitchCallsMine(d, at, x, e);
      var period := d.timers[x].period;
      BeatsStep(e.value, period);
      if e.value + period < 0x1_0000_0000 {
        SwitchCalls(d1, at, x, Entry(x, e.value + period, e.due + period));
      } else {
        SwitchOthers(d1, at, x);
      }
    }
  }

  lemma OnlyHead(s: seq<Entry>, x: TimerId, e: Entry)
    requires s != [] && s[0].id == x && Mine(s, x) == [e]
    ensures s[0] == e && Mine(s[1..], x) == []
  {
    assert Mine(s, x)[0] == s[0] && |Mine(s, x)| == 1 + |Mine(s[1..], x)|;
  }

  lemma SwitchCallsMine(d: Daemon, at: nat, x: TimerId, e: Entry)
    requires Known(d) && d.current != [] && d.current[0].id == x && Mine(d.current, x) == [e]
    requires x in d.timers && d.timers[x].autoReload
    ensures var d1, period := SwitchOne(d, at), d.timers[x].period;
      && |Calls(d1.log, x)| == |Calls(d.log, x)| + 1 && d1.timers == d.timers
      && Mine(d1.current, x) ==
         if e.value + period < 0x1_0000_0000 then [Entry(x, e.value + period, e.due + period)] else []
  {
    hide InsertByValue, Orders, Calls;
    var period := d.timers[x].period;
    OnlyHead(d.current, x, e);
    CallsAppend(d.log, Callback(x, e.due, at), x);
    MineInsert(d.current[1..], Entry(x, Plus(e.value, period), e.due + period), x);
  }
}
