/**
  The timer daemon (timers.c): two lists of active timers, one per epoch of the tick
  counter, and a command queue through which the daemon also restarts late timers.

  `due` and `issued` are unbounded times.  They are there for the specification: no
  branch of the daemon reads them, only the 32-bit `value` beside them.
 */
module Timers {
  import opened Ticks

  type TimerId = int

  const TIMER_QUEUE_LENGTH: nat := 10

  type Period = p: Tick | p > 0 witness 1

  datatype Timer = Timer(period: Period, autoReload: bool)

  datatype Entry = Entry(id: TimerId, value: Tick, due: nat)

  datatype Command =
    | Start(id: TimerId, value: Tick, issued: nat)
    | Stop(id: TimerId)
    | ChangePeriod(id: TimerId, period: Period)

  datatype Callback = Callback(id: TimerId, due: nat, at: nat)

  /** `last` is the unwrapped time of the latest sample; xLastTime is its low half. */
  datatype Daemon = Daemon(
    timers: map<TimerId, Timer>,
    current: seq<Entry>, overflow: seq<Entry>,
    lastTime: Tick, last: nat,
    queue: seq<Command>, lost: set<TimerId>,
    log: seq<Callback>)

  // ---- The code, as functions of the daemon's state ----

  /** vListInsert: after every entry whose value is not larger. */
  function InsertByValue(s: seq<Entry>, e: Entry): (r: seq<Entry>)
    ensures forall x :: x in r <==> x == e || x in s
    ensures |r| == |s| + 1
  {
    if s == [] || s[0].value > e.value then [e] + s else [s[0]] + InsertByValue(s[1..], e)
  }

  /** uxListRemove of the timer's list item, if it is in this list. */
  function RemoveTimer(s: seq<Entry>, id: TimerId): (r: seq<Entry>)
    ensures forall x :: x in r ==> x in s
  {
    if s == [] then [] else if s[0].id == id then s[1..] else [s[0]] + RemoveTimer(s[1..], id)
  }

  /** xTimerGenericCommand without blocking: a full queue loses the command, and `lost` remembers whose. */
  function SendCommand(d: Daemon, c: Command): Daemon {
    if |d.queue| < TIMER_QUEUE_LENGTH then d.(queue := d.queue + [c]) else d.(lost := d.lost + {c.id})
  }

  /** Runs the callback of timer `id` for the expiry at `due`. */
  function Call(d: Daemon, id: TimerId, due: nat, at: nat): Daemon {
    d.(log := d.log + [Callback(id, due, at)])
  }

  /** The decision of prvInsertTimerInActiveList: expired already, overflow list, or current list. */
  datatype Placement = ExpiredAlready | InOverflow | InCurrent

  function Place(expiry: Tick, now: Tick, command: Tick, period: Period): Placement {
    if expiry <= now then
      if Elapsed(now, command) >= period then ExpiredAlready else InOverflow
    else if now < command && expiry >= command then ExpiredAlready
    else InCurrent
  }

  function InsertActive(d: Daemon, e: Entry, placement: Placement): Daemon {
    match placement
    case ExpiredAlready => d
    case InOverflow => d.(overflow := InsertByValue(d.overflow, e))
    case InCurrent => d.(current := InsertByValue(d.current, e))
  }

  /** One turn of the loop in prvSwitchTimerLists. */
  function SwitchOne(d: Daemon, at: nat): Daemon
    requires d.current != [] && d.current[0].id in d.timers
  {
    var e := d.current[0];
    var timer := d.timers[e.id];
    var d1 := Call(d.(current := d.current[1..]), e.id, e.due, at);
    if !timer.autoReload then d1
    else
      var reload := Plus(e.value, timer.period);
      if reload > e.value then d1.(current := InsertByValue(d1.current, Entry(e.id, reload, e.due + timer.period)))
      else SendCommand(d1, Start(e.id, e.value, e.due))
  }

  /** The sum of (2^32 - value) over a list: what the loop in prvSwitchTimerLists uses up. */
  function Headroom(s: seq<Entry>): nat {
    if s == [] then 0 else 0x1_0000_0000 - s[0].value + Headroom(s[1..])
  }

  lemma {:induction false} InsertHeadroom(s: seq<Entry>, e: Entry)
    ensures Headroom(InsertByValue(s, e)) == Headroom(s) + 0x1_0000_0000 - e.value
  {
    if s == [] || s[0].value > e.value {
      assert ([e] + s)[1..] == s;
    } else {
      InsertHeadroom(s[1..], e);
      assert ([s[0]] + InsertByValue(s[1..], e))[1..] == InsertByValue(s[1..], e);
    }
  }

  predicate Known(d: Daemon) {
    && (forall e :: e in d.current ==> e.id in d.timers)
    && (forall e :: e in d.overflow ==> e.id in d.timers)
    && (forall c :: c in d.queue ==> c.id in d.timers)
  }

  /** Every turn of the switching loop uses up headroom, so the loop ends. */
  lemma SwitchOneUsesHeadroom(d: Daemon, at: nat)
    requires Known(d) && d.current != []
    ensures Headroom(SwitchOne(d, at).current) < Headroom(d.current)
    ensures Known(SwitchOne(d, at))
  {
    var e := d.current[0];
    var timer := d.timers[e.id];
    InsertHeadroom(d.current[1..], Entry(e.id, Plus(e.value, timer.period), e.due + timer.period));
  }

  function SwitchLists(d: Daemon, at: nat): Daemon
    requires Known(d)
    decreases Headroom(d.current)
  {
    if d.current == [] then d.(current := d.overflow, overflow := [])
    else
      SwitchOneUsesHeadroom(d, at);
      SwitchLists(SwitchOne(d, at), at)
  }

  /** prvSampleTimeNow at unwrapped time t. */
  function Sample(d: Daemon, t: nat): Daemon
    requires Known(d)
  {
    var d1 := if Wrap(t) < d.lastTime then SwitchLists(d, t) else d;
    d1.(lastTime := Wrap(t), last := t)
  }

  /** prvProcessExpiredTimer for the head of the current list. */
  function ProcessExpired(d: Daemon, t: nat): Daemon
    requires d.current != [] && d.current[0].id in d.timers
  {
    var e := d.current[0];
    var timer := d.timers[e.id];
    var d1 := d.(current := d.current[1..]);
    var d2 :=
      if !timer.autoReload then d1
      else
        var next := Entry(e.id, Plus(e.value, timer.period), e.due + timer.period);
        var placement := Place(next.value, Wrap(t), e.value, timer.period);
        if placement.ExpiredAlready? then SendCommand(d1, Start(e.id, e.value, e.due))
        else InsertActive(d1, next, placement);
    Call(d2, e.id, e.due, t)
  }

  /** prvProcessTimerOrBlockTask at unwrapped time t; blocking changes nothing here. */
  function ProcessTimerOrBlock(d: Daemon, t: nat): Daemon
    requires Known(d)
  {
    var d1 := Sample(d, t);
    if Wrap(t) < d.lastTime || d.current == [] || d.current[0].value > Wrap(t) then d1
    else ProcessExpired(d1, t)
  }

  /** A start, reset or reload command, after its timer left the lists and the time was sampled. */
  function ApplyStart(d: Daemon, c: Command, t: nat): Daemon
    requires c.Start? && c.id in d.timers
  {
    var timer := d.timers[c.id];
    var next := Entry(c.id, Plus(c.value, timer.period), c.issued + timer.period);
    var placement := Place(next.value, Wrap(t), c.value, timer.period);
    if !placement.ExpiredAlready? then InsertActive(d, next, placement)
    else
      var d1 := Call(d, c.id, next.due, t);
      if timer.autoReload then SendCommand(d1, Start(c.id, next.value, next.due)) else d1
  }

  function ApplyChangePeriod(d: Daemon, c: Command, t: nat): Daemon
    requires c.ChangePeriod?
  {
    var d1 := if c.id in d.timers then d.(timers := d.timers[c.id := d.timers[c.id].(period := c.period)]) else d;
    var next := Entry(c.id, Plus(Wrap(t), c.period), t + c.period);
    InsertActive(d1, next, Place(next.value, Wrap(t), Wrap(t), c.period))
  }

  /** Takes the command at the front of the queue and its timer out of the active lists. */
  function Fetch(d: Daemon): Daemon
    requires d.queue != []
  {
    var id := d.queue[0].id;
    d.(queue := d.queue[1..], current := RemoveTimer(d.current, id), overflow := RemoveTimer(d.overflow, id))
  }

  /** One turn of the loop in prvProcessReceivedCommands. */
  function ProcessCommand(d: Daemon, t: nat): Daemon
    requires Known(d) && d.queue != []
  {
    var c := d.queue[0];
    var d1 := Sample(Fetch(d), t);
    match c
    case Start(_, _, _) => SampleKeepsTimers(Fetch(d), t); ApplyStart(d1, c, t)
    case Stop(_) => d1
    case ChangePeriod(_, _) => ApplyChangePeriod(d1, c, t)
  }

  lemma {:induction false} SwitchKeepsTimers(d: Daemon, at: nat)
    requires Known(d)
    ensures SwitchLists(d, at).timers == d.timers && Known(SwitchLists(d, at))
    decreases Headroom(d.current)
  {
    if d.current != [] {
      SwitchOneUsesHeadroom(d, at);
      SwitchKeepsTimers(SwitchOne(d, at), at);
    }
  }

  lemma SampleKeepsTimers(d: Daemon, t: nat)
    requires Known(d)
    ensures Sample(d, t).timers == d.timers && Known(Sample(d, t))
  {
    SwitchKeepsTimers(d, t);
  }
}
