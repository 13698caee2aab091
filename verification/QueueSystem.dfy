/**
  Every interleaving of tasks and interrupts over one queue, and the theorem that no
  wake-up is ever lost.

  A blocking call (xQueueReceive, xQueuePeek, xQueueSemaphoreTake, xQueueGenericSend) is
  a loop of several critical sections; `Pc` says which one a task executes next.  While
  a task holds the scheduler suspended only that task and interrupts step.
 */
module QueueSystem {
  import opened Options
  import opened Seqs
  import opened QueueProtocol

  /** The calls; taking a semaphore or mutex is `Receive`, giving one is `Send(false)`. */
  datatype Call = Receive | Peek | Send(overwrite: bool) {
    predicate Reads() { !Send? }
  }

  /** What follows prvUnlockQueue and xTaskResumeAll. */
  datatype After = Blocked | Retry | GiveUp

  datatype Pc =
    | Outside
    | AtTry(call: Call)
    | AtSuspendAll(call: Call)
    | AtLock(call: Call)
    | AtCheckTimeOut(call: Call)
    | AtTest(call: Call)
    | AtPlace(call: Call)
    | AtUnlockTx(call: Call, after: After)
    | AtUnlockRx(call: Call, after: After)
    | AtResumeAll(call: Call, after: After)
    | AtGiveUp(call: Call)
  {
    /** Between vTaskSuspendAll and xTaskResumeAll. */
    predicate HoldsScheduler() {
      AtLock? || AtCheckTimeOut? || AtTest? || AtPlace? || AtUnlockTx? || AtUnlockRx? || AtResumeAll?
    }

    /** Points at which a task may be on an event list, or just taken off one. */
    predicate MayWait() {
      AtTry? || ((AtUnlockTx? || AtUnlockRx? || AtResumeAll?) && after == Blocked)
    }
  }

  /**
    `wokenRecv` and `wokenSend` are the tasks an event removed from a waiting list that
    have not executed their next attempt yet; `scheduler` is the task, if any, that has
    the scheduler suspended.
   */
  datatype System = System(
    q: QueueState, pc: map<Task, Pc>,
    wokenRecv: set<Task>, wokenSend: set<Task>, scheduler: Option<Task>)

  function At(s: System, t: Task): Pc {
    if t in s.pc then s.pc[t] else Outside
  }

  datatype Action =
    | IsrSend(overwrite: bool)
    | IsrReceive
    | Begin(t: Task, call: Call)
    | Attempt(t: Task, mayBlock: bool)
    | SuspendAll(t: Task)
    | LockQueue(t: Task)
    | CheckTimeOut(t: Task, expired: bool)
    | TestQueue(t: Task)
    | PlaceOnEventList(t: Task, position: nat)
    | UnlockTxStep(t: Task)
    | UnlockRxStep(t: Task)
    | ResumeAll(t: Task)
    | GiveUpStep(t: Task)
    | TickTimeOut(t: Task)
    | ResetQueue(t: Task)

  predicate MayRun(s: System, t: Task) {
    s.scheduler == None || s.scheduler == Some(t)
  }

  predicate Waiting(s: System, t: Task) {
    t in s.q.waitRecv || t in s.q.waitSend
  }

  predicate Enabled(s: System, a: Action) {
    match a
    case IsrSend(overwrite) => overwrite ==> s.q.length == 1
    case IsrReceive => true
    case Begin(t, call) =>
      MayRun(s, t) && At(s, t) == Outside && (call == Send(true) ==> s.q.length == 1)
    case Attempt(t, _) => MayRun(s, t) && At(s, t).AtTry? && !Waiting(s, t)
    case SuspendAll(t) => s.scheduler == None && At(s, t).AtSuspendAll?
    case LockQueue(t) => MayRun(s, t) && At(s, t).AtLock?
    case CheckTimeOut(t, _) => MayRun(s, t) && At(s, t).AtCheckTimeOut?
    case TestQueue(t) => MayRun(s, t) && At(s, t).AtTest?
    case PlaceOnEventList(t, i) =>
      MayRun(s, t) && At(s, t).AtPlace? &&
      i <= if At(s, t).call.Reads() then |s.q.waitRecv| else |s.q.waitSend|
    case UnlockTxStep(t) => MayRun(s, t) && At(s, t).AtUnlockTx?
    case UnlockRxStep(t) => MayRun(s, t) && At(s, t).AtUnlockRx?
    case ResumeAll(t) => MayRun(s, t) && At(s, t).AtResumeAll?
    case GiveUpStep(t) => MayRun(s, t) && At(s, t).AtGiveUp?
    case TickTimeOut(t) => s.scheduler == None && Waiting(s, t)
    case ResetQueue(t) => MayRun(s, t) && At(s, t) == Outside && s.scheduler == None
  }

  /** Event lists lose waiters from the front only; whoever left is credited as woken. */
  function Credit(woken: set<Task>, before: seq<Task>, after: seq<Task>): set<Task> {
    if |after| >= |before| then woken else woken + Elements(before[..|before| - |after|])
  }

  function Wake(s: System, q: QueueState): System {
    s.(q := q, wokenRecv := Credit(s.wokenRecv, s.q.waitRecv, q.waitRecv),
               wokenSend := Credit(s.wokenSend, s.q.waitSend, q.waitSend))
  }

  function Goto(s: System, t: Task, pc: Pc): System {
    s.(pc := s.pc[t := pc])
  }

  /** The task runs again, so it no longer counts as woken. */
  function RetireTask(s: System, t: Task): System
    requires At(s, t).AtTry?
  {
    if At(s, t).call.Reads() then s.(wokenRecv := s.wokenRecv - {t}) else s.(wokenSend := s.wokenSend - {t})
  }

  /** The critical section at the top of each blocking loop. */
  function AttemptStep(s: System, t: Task, mayBlock: bool): System
    requires At(s, t).AtTry?
  {
    var call := At(s, t).call;
    var s1 := RetireTask(s, t);
    var q := s.q;
    match call
    case Receive =>
      if q.count > 0 then Goto(Wake(s1, q.Receive()), t, Outside)
      else Goto(s1, t, if mayBlock then AtSuspendAll(call) else Outside)
    case Peek =>
      if q.count > 0 then Goto(Wake(s1, q.Peek()), t, Outside)
      else Goto(s1, t, if mayBlock then AtSuspendAll(call) else Outside)
    case Send(overwrite) =>
      if q.HasRoom(overwrite) then Goto(Wake(s1, q.Send(overwrite)), t, Outside)
      else Goto(s1, t, if mayBlock then AtSuspendAll(call) else Outside)
  }

  /** prvIsQueueEmpty for a reader, prvIsQueueFull for a writer. */
  predicate MustWait(q: QueueState, call: Call) {
    if call.Reads() then q.count == 0 else q.count == q.length
  }

  function Apply(s: System, a: Action): System
    requires Enabled(s, a)
  {
    match a
    case IsrSend(overwrite) => Wake(s, s.q.SendFromIsr(overwrite))
    case IsrReceive => Wake(s, s.q.ReceiveFromIsr())
    case Begin(t, call) => Goto(s, t, AtTry(call))
    case Attempt(t, mayBlock) => AttemptStep(s, t, mayBlock)
    case SuspendAll(t) => Goto(s, t, AtLock(At(s, t).call)).(scheduler := Some(t))
    case LockQueue(t) => Goto(s.(q := s.q.Lock()), t, AtCheckTimeOut(At(s, t).call))
    case CheckTimeOut(t, expired) =>
      Goto(s, t, if expired then AtUnlockTx(At(s, t).call, GiveUp) else AtTest(At(s, t).call))
    case TestQueue(t) =>
      var call := At(s, t).call;
      Goto(s, t, if MustWait(s.q, call) then AtPlace(call) else AtUnlockTx(call, Retry))
    case PlaceOnEventList(t, i) => PlaceStep(s, t, i, At(s, t).call)
    case UnlockTxStep(t) =>
      Goto(Wake(s, s.q.UnlockTx()), t, AtUnlockRx(At(s, t).call, At(s, t).after))
    case UnlockRxStep(t) =>
      Goto(Wake(s, s.q.UnlockRx()), t, AtResumeAll(At(s, t).call, At(s, t).after))
    case ResumeAll(t) =>
      var pc := At(s, t);
      Goto(s, t, if pc.after == GiveUp then AtGiveUp(pc.call) else AtTry(pc.call)).(scheduler := None)
    case GiveUpStep(t) =>
      var call := At(s, t).call;
      Goto(s, t, if call.Reads() && s.q.count > 0 then AtTry(call) else Outside)
    case TickTimeOut(t) =>
      s.(q := s.q.(waitRecv := Without(s.q.waitRecv, t), waitSend := Without(s.q.waitSend, t)))
    case ResetQueue(t) => Wake(s, s.q.Reset())
  }

  // ---- One side of the queue ----

  /**
    Receivers and senders are handled alike: a list of waiting tasks, the tasks woken
    but not yet run, a lock count, and a supply (items for receivers, free slots for
    senders).
   */
  datatype Side = Side(wait: seq<Task>, woken: set<Task>, lock: int, supply: int)

  function RecvSide(s: System): Side { Side(s.q.waitRecv, s.wokenRecv, s.q.txLock, s.q.count) }
  function SendSide(s: System): Side { Side(s.q.waitSend, s.wokenSend, s.q.rxLock, s.q.Free()) }

  function Members(d: Side): set<Task> { Elements(d.wait) + d.woken }

  ghost predicate Disjoint(d: Side) { NoDup(d.wait) && Elements(d.wait) !! d.woken }

  /** While anyone waits, the whole supply is promised: to a woken task or to the lock count. */
  ghost predicate Promised(d: Side) {
    d.wait != [] ==> d.supply <= |d.woken| + Positive(d.lock)
  }

  /** Sound without the promise (`p` false) is all that survives a queue reset on the senders' side. */
  ghost predicate Sound(d: Side, p: bool) { Disjoint(d) && (p ==> Promised(d)) }

  function Release(d: Side, k: nat): Side
    requires k <= |d.wait|
  {
    d.(wait := d.wait[k..], woken := Credit(d.woken, d.wait, d.wait[k..]))
  }

  lemma SplitElements(w: seq<Task>, k: nat)
    requires NoDup(w) && k <= |w|
    ensures NoDup(w[k..]) && |Elements(w[..k])| == k
    ensures Elements(w) == Elements(w[..k]) + Elements(w[k..]) && Elements(w[..k]) !! Elements(w[k..])
  {
    assert w == w[..k] + w[k..];
    ElementsSize(w[..k]);
  }

  /** Taking the first k waiters off a list adds exactly k tasks to the woken set. */
  lemma ReleaseCounts(d: Side, k: nat)
    requires Disjoint(d) && k <= |d.wait|
    ensures Disjoint(Release(d, k))
    ensures |Release(d, k).woken| == |d.woken| + k
    ensures Members(Release(d, k)) == Members(d)
  {
    hide NoDup, Elements;
    SplitElements(d.wait, k);
    assert Release(d, k).woken == d.woken + Elements(d.wait[..k]);
  }

  function Retire(d: Side, t: Task): Side { d.(woken := d.woken - {t}) }

  lemma RetireCounts(d: Side, t: Task)
    requires Disjoint(d)
    ensures Disjoint(Retire(d, t)) && Members(Retire(d, t)) <= Members(d)
    ensures |Retire(d, t).woken| >= |d.woken| - 1
    ensures t !in d.wait ==> t !in Members(Retire(d, t))
  {
    if t in d.woken {
      assert d.woken == (d.woken - {t}) + {t};
    } else {
      assert d.woken - {t} == d.woken;
    }
  }

  function Enter(d: Side, i: nat, t: Task): Side
    requires i <= |d.wait|
  {
    d.(wait := InsertAt(d.wait, i, t))
  }

  lemma EnterCounts(d: Side, i: nat, t: Task)
    requires Disjoint(d) && i <= |d.wait| && t !in Members(d)
    ensures Disjoint(Enter(d, i, t)) && Members(Enter(d, i, t)) == Members(d) + {t}
  {
    InsertAtNoDup(d.wait, i, t);
  }

  function Leave(d: Side, t: Task): Side { d.(wait := Without(d.wait, t)) }

  lemma LeaveCounts(d: Side, t: Task)
    requires Disjoint(d)
    ensures Disjoint(Leave(d, t)) && Members(Leave(d, t)) <= Members(d)
    ensures Promised(d) ==> Promised(Leave(d, t))
  {
    WithoutNoDup(d.wait, t);
  }

  // ---- How each action moves the two sides ----

  /** An item or slot appears while the queue is unlocked: one waiter is woken for it. */
  function Arrive(d: Side, added: int): Side {
    var d' := d.(supply := d.supply + added);
    if d.wait == [] then d' else Release(d', 1)
  }

  lemma ArriveSound(d: Side, added: int, p: bool)
    requires Sound(d, p) && 0 <= added <= 1
    ensures Sound(Arrive(d, added), p) && Members(Arrive(d, added)) == Members(d)
  {
    if d.wait != [] {
      ReleaseCounts(d.(supply := d.supply + added), 1);
    }
  }

  /** A task that was perhaps woken runs and uses up one unit, or finds nothing. */
  lemma UseSound(d: Side, t: Task, used: int, p: bool)
    requires Sound(d, p) && (used == 1 || (used == 0 && d.supply == 0))
    ensures Sound(Retire(d, t).(supply := d.supply - used), p)
  {
    RetireCounts(d, t);
  }

  /** A task that was perhaps woken runs, leaves the supply, and wakes the next one. */
  lemma PassOnSound(d: Side, t: Task, p: bool)
    requires Sound(d, p)
    ensures Sound(Arrive(Retire(d, t), 0), p)
    ensures Members(Arrive(Retire(d, t), 0)) == Members(Retire(d, t))
  {
    RetireCounts(d, t);
    if d.wait != [] {
      ReleaseCounts(Retire(d, t), 1);
    }
  }

  function UnlockSide(d: Side): Side {
    Release(d, Min(Positive(d.lock), |d.wait|)).(lock := QUEUE_UNLOCKED)
  }

  /** Unlocking turns the promise held by the lock count into woken tasks. */
  lemma UnlockSound(d: Side, p: bool)
    requires Sound(d, p)
    ensures Sound(UnlockSide(d), p) && Members(UnlockSide(d)) == Members(d)
  {
    ReleaseCounts(d, Min(Positive(d.lock), |d.wait|));
  }

  // ---- How each critical section moves the two sides ----

  lemma SendSides(s: System, overwrite: bool)
    requires s.q.count <= s.q.length && (overwrite ==> s.q.length == 1) && s.q.HasRoom(overwrite)
    ensures var s' := Wake(s, s.q.Send(overwrite));
      var added := s.q.CountAfterSend(overwrite) - s.q.count;
      && 0 <= added <= 1 && (added == 0 ==> s.q.Free() == 0)
      && RecvSide(s') == Arrive(RecvSide(s), added)
      && SendSide(s') == SendSide(s).(supply := s.q.Free() - added)
  {
  }

  /** An interrupt that finds the queue locked leaves the event lists alone and counts instead. */
  function IsrArrive(d: Side, happened: bool, added: int): Side {
    if !happened then d
    else if d.lock == QUEUE_UNLOCKED then Arrive(d, added)
    else d.(supply := d.supply + added, lock := d.lock + 1)
  }

  lemma IsrArriveSound(d: Side, happened: bool, added: int, p: bool)
    requires Sound(d, p) && d.lock >= -1 && 0 <= added <= 1
    ensures Sound(IsrArrive(d, happened, added), p) && Members(IsrArrive(d, happened, added)) == Members(d)
  {
    ArriveSound(d, added, p);
  }

  function ItemsAdded(q: QueueState, overwrite: bool): int {
    if q.HasRoom(overwrite) then q.CountAfterSend(overwrite) - q.count else 0
  }

  lemma IsrSendSides(s: System, overwrite: bool)
    requires s.q.count <= s.q.length && (overwrite ==> s.q.length == 1) && -1 <= s.q.txLock
    requires s.q.HasRoom(overwrite) ==> s.q.txLock < 127
    ensures var s' := Wake(s, s.q.SendFromIsr(overwrite));
      && 0 <= ItemsAdded(s.q, overwrite) <= 1
      && SendSide(s') == SendSide(s).(supply := s.q.Free() - ItemsAdded(s.q, overwrite))
      && RecvSide(s') == IsrArrive(RecvSide(s), s.q.HasRoom(overwrite), ItemsAdded(s.q, overwrite))
  {
  }

  lemma IsrReceiveSides(s: System)
    requires -1 <= s.q.rxLock && (s.q.count > 0 ==> s.q.rxLock < 127)
    ensures var s' := Wake(s, s.q.ReceiveFromIsr());
      && RecvSide(s') == RecvSide(s).(supply := s.q.count - if s.q.count > 0 then 1 else 0)
      && SendSide(s') == IsrArrive(SendSide(s), s.q.count > 0, 1)
  {
  }

  lemma ReceiveSides(s: System)
    requires s.q.count > 0
    ensures var s' := Wake(s, s.q.Receive());
      && RecvSide(s') == RecvSide(s).(supply := s.q.count - 1)
      && SendSide(s') == Arrive(SendSide(s), 1)
  {
  }

  lemma PeekSides(s: System)
    ensures var s' := Wake(s, s.q.Peek());
      RecvSide(s') == Arrive(RecvSide(s), 0) && SendSide(s') == SendSide(s)
  {
  }

  lemma UnlockSides(s: System)
    ensures var s' := Wake(s, s.q.UnlockTx());
      RecvSide(s') == UnlockSide(RecvSide(s)) && SendSide(s') == SendSide(s)
    ensures var s' := Wake(s, s.q.UnlockRx());
      RecvSide(s') == RecvSide(s) && SendSide(s') == UnlockSide(SendSide(s))
  {
  }

  // ---- Where tasks may be ----

  ghost predicate WaitingAt(s: System) {
    && (forall t :: t in Members(RecvSide(s)) ==> At(s, t).MayWait() && At(s, t).call.Reads())
    && (forall t :: t in Members(SendSide(s)) ==> At(s, t).MayWait() && !At(s, t).call.Reads())
  }

  ghost predicate SchedulerOwner(s: System) {
    forall t :: At(s, t).HoldsScheduler() <==> s.scheduler == Some(t)
  }

  predicate LocksAgree(pc: Pc, q: QueueState) {
    if pc.AtUnlockRx? then q.rxLock >= 0 && q.txLock == QUEUE_UNLOCKED
    else if pc.AtCheckTimeOut? || pc.AtTest? || pc.AtPlace? || pc.AtUnlockTx? then q.rxLock >= 0 && q.txLock >= 0
    else q.rxLock == QUEUE_UNLOCKED && q.txLock == QUEUE_UNLOCKED
  }

  /** A task that saw an empty (full) queue is owed every item (slot) that arrived since. */
  predicate Owed(pc: Pc, q: QueueState) {
    pc.AtPlace? ==> if pc.call.Reads() then q.count <= q.txLock else q.Free() <= q.rxLock
  }

  function HolderPc(s: System): Pc {
    if s.scheduler.Some? then At(s, s.scheduler.value) else Outside
  }

  ghost predicate Bounded(s: System) {
    && s.q.count <= s.q.length
    && (forall t :: At(s, t) != Outside && At(s, t).call == Send(true) ==> s.q.length == 1)
  }

  ghost predicate Control(s: System) {
    && SchedulerOwner(s) && Bounded(s) && LocksAgree(HolderPc(s), s.q) && Owed(HolderPc(s), s.q)
  }

  /** The lock counts are int8_t: a 128th interrupt inside one lock window wraps them. */
  predicate CountsFit(s: System, a: Action) {
    && (a.IsrSend? && s.q.HasRoom(a.overwrite) ==> s.q.txLock < 127)
    && (a.IsrReceive? && s.q.count > 0 ==> s.q.rxLock < 127)
  }

  ghost predicate BothSound(s: System, p: bool) { Sound(RecvSide(s), true) && Sound(SendSide(s), p) }

  /** A reader waits only when every item is promised; likewise for writers and free slots. */
  ghost predicate NoLostReceiver(s: System) { Promised(RecvSide(s)) }
  ghost predicate NoLostSender(s: System) { Promised(SendSide(s)) }

  ghost predicate Inv(s: System, p: bool) {
    Control(s) && WaitingAt(s) && BothSound(s, p)
  }

  /** Tasks that still wait stay where they were, so long as the task that moved does not wait. */
  lemma WaitingFollows(s: System, s': System, t: Task, pc: Pc)
    requires WaitingAt(s) && (s'.pc == s.pc || s'.pc == s.pc[t := pc])
    requires Members(RecvSide(s')) <= Members(RecvSide(s)) && Members(SendSide(s')) <= Members(SendSide(s))
    requires s'.pc == s.pc || (t !in Members(RecvSide(s')) && t !in Members(SendSide(s')))
    ensures WaitingAt(s')
  {
  }

  ghost predicate SameMembers(s: System, s': System) {
    Members(RecvSide(s')) == Members(RecvSide(s)) && Members(SendSide(s')) == Members(SendSide(s))
  }

  lemma SupplyFallsSound(d: Side, supply: int, p: bool)
    requires Sound(d, p) && supply <= d.supply
    ensures Sound(d.(supply := supply), p) && Members(d.(supply := supply)) == Members(d)
  {
  }

  lemma IsrSendSound(s: System, overwrite: bool, p: bool)
    requires BothSound(s, p) && s.q.count <= s.q.length && (overwrite ==> s.q.length == 1) && -1 <= s.q.txLock
    requires s.q.HasRoom(overwrite) ==> s.q.txLock < 127
    ensures BothSound(Wake(s, s.q.SendFromIsr(overwrite)), p) && SameMembers(s, Wake(s, s.q.SendFromIsr(overwrite)))
  {
    IsrSendSides(s, overwrite);
    IsrArriveSound(RecvSide(s), s.q.HasRoom(overwrite), ItemsAdded(s.q, overwrite), true);
    SupplyFallsSound(SendSide(s), s.q.Free() - ItemsAdded(s.q, overwrite), p);
  }

  lemma IsrReceiveSound(s: System, p: bool)
    requires BothSound(s, p) && -1 <= s.q.rxLock && (s.q.count > 0 ==> s.q.rxLock < 127)
    ensures BothSound(Wake(s, s.q.ReceiveFromIsr()), p) && SameMembers(s, Wake(s, s.q.ReceiveFromIsr()))
  {
    IsrReceiveSides(s);
    IsrArriveSound(SendSide(s), s.q.count > 0, 1, p);
    SupplyFallsSound(RecvSide(s), s.q.count - if s.q.count > 0 then 1 else 0, true);
  }

  lemma IsrWaiting(s: System, a: Action, p: bool)
    requires Inv(s, p) && (a.IsrSend? || a.IsrReceive?) && Enabled(s, a) && CountsFit(s, a)
    ensures WaitingAt(Apply(s, a)) && BothSound(Apply(s, a), p)
  {
    if a.IsrSend? {
      IsrSendSound(s, a.overwrite, p);
    } else {
      IsrReceiveSound(s, p);
    }
    WaitingFollows(s, Apply(s, a), 0, Outside);
  }

  lemma IsrControl(s: System, a: Action)
    requires Control(s) && (a.IsrSend? || a.IsrReceive?) && Enabled(s, a) && CountsFit(s, a)
    ensures Control(Apply(s, a))
  {
  }

  /** What an attempt does to the control state, whatever it finds. */
  lemma AttemptMoves(s: System, t: Task, mayBlock: bool)
    requires At(s, t).AtTry?
    ensures var s' := AttemptStep(s, t, mayBlock);
      && s'.pc == s.pc[t := At(s', t)] && !At(s', t).MayWait() && !At(s', t).HoldsScheduler()
      && s'.scheduler == s.scheduler && s'.q.rxLock == s.q.rxLock && s'.q.txLock == s.q.txLock
      && s'.q.length == s.q.length
      && (At(s', t) != Outside ==> At(s', t).call == At(s, t).call)
  {
  }

  lemma AttemptEmpty(s: System, t: Task, mayBlock: bool, p: bool)
    requires Sound(RecvSide(s), true) && At(s, t).AtTry? && At(s, t).call.Reads() && s.q.count == 0
    ensures var s' := AttemptStep(s, t, mayBlock);
      && RecvSide(s') == Retire(RecvSide(s), t) && SendSide(s') == SendSide(s)
      && Sound(RecvSide(s'), true)
  {
    UseSound(RecvSide(s), t, 0, true);
  }

  lemma AttemptReceive(s: System, t: Task, mayBlock: bool, p: bool)
    requires At(s, t) == AtTry(Receive) && s.q.count > 0
    requires Sound(RecvSide(s), true) && Sound(SendSide(s), p)
    ensures var s' := AttemptStep(s, t, mayBlock);
      && RecvSide(s') == Retire(RecvSide(s), t).(supply := s.q.count - 1)
      && SendSide(s') == Arrive(SendSide(s), 1)
      && Sound(RecvSide(s'), true)
  {
    var s1 := RetireTask(s, t);
    assert RecvSide(s1) == Retire(RecvSide(s), t) && SendSide(s1) == SendSide(s);
    ReceiveSides(s1);
    UseSound(RecvSide(s), t, 1, true);
  }

  lemma AttemptPeek(s: System, t: Task, mayBlock: bool)
    requires At(s, t) == AtTry(Peek) && s.q.count > 0
    ensures var s' := AttemptStep(s, t, mayBlock);
      RecvSide(s') == Arrive(Retire(RecvSide(s), t), 0) && SendSide(s') == SendSide(s)
  {
    PeekSides(RetireTask(s, t));
    assert RecvSide(RetireTask(s, t)) == Retire(RecvSide(s), t);
  }

  lemma AttemptReadSound(s: System, t: Task, mayBlock: bool, p: bool)
    requires BothSound(s, p) && At(s, t).AtTry? && At(s, t).call.Reads() && t !in s.q.waitRecv
    ensures var s' := AttemptStep(s, t, mayBlock);
      && BothSound(s', p)
      && Members(RecvSide(s')) <= Members(RecvSide(s)) - {t} && Members(SendSide(s')) == Members(SendSide(s))
  {
    RetireCounts(RecvSide(s), t);
    if s.q.count == 0 {
      AttemptEmpty(s, t, mayBlock, p);
    } else if At(s, t).call.Receive? {
      AttemptReceive(s, t, mayBlock, p);
      ArriveSound(SendSide(s), 1, p);
    } else {
      AttemptPeek(s, t, mayBlock);
      PassOnSound(RecvSide(s), t, true);
    }
  }

  lemma AttemptSend(s: System, t: Task, mayBlock: bool, p: bool)
    requires At(s, t).AtTry? && At(s, t).call.Send? && Sound(SendSide(s), p)
    requires s.q.count <= s.q.length && (At(s, t).call == Send(true) ==> s.q.length == 1)
    ensures var s' := AttemptStep(s, t, mayBlock);
      var overwrite := At(s, t).call.overwrite;
      && 0 <= ItemsAdded(s.q, overwrite) <= 1
      && SendSide(s') == Retire(SendSide(s), t).(supply := s.q.Free() - ItemsAdded(s.q, overwrite))
      && Sound(SendSide(s'), p)
      && RecvSide(s') == if s.q.HasRoom(overwrite) then Arrive(RecvSide(s), ItemsAdded(s.q, overwrite)) else RecvSide(s)
  {
    var s1, overwrite := RetireTask(s, t), At(s, t).call.overwrite;
    assert SendSide(s1) == Retire(SendSide(s), t) && RecvSide(s1) == RecvSide(s);
    if s.q.HasRoom(overwrite) {
      SendSides(s1, overwrite);
    }
    UseSound(SendSide(s), t, ItemsAdded(s.q, overwrite), p);
  }

  lemma AttemptWriteSound(s: System, t: Task, mayBlock: bool, p: bool)
    requires BothSound(s, p) && At(s, t).AtTry? && !At(s, t).call.Reads() && t !in s.q.waitSend
    requires s.q.count <= s.q.length && (At(s, t).call == Send(true) ==> s.q.length == 1)
    ensures var s' := AttemptStep(s, t, mayBlock);
      && BothSound(s', p)
      && Members(SendSide(s')) <= Members(SendSide(s)) - {t} && Members(RecvSide(s')) == Members(RecvSide(s))
  {
    RetireCounts(SendSide(s), t);
    AttemptSend(s, t, mayBlock, p);
    ArriveSound(RecvSide(s), ItemsAdded(s.q, At(s, t).call.overwrite), true);
  }

  lemma AttemptControl(s: System, t: Task, mayBlock: bool)
    requires Control(s) && Enabled(s, Attempt(t, mayBlock))
    ensures Control(AttemptStep(s, t, mayBlock))
  {
    AttemptMoves(s, t, mayBlock);
  }

  lemma AttemptWaiting(s: System, t: Task, mayBlock: bool, p: bool)
    requires WaitingAt(s) && BothSound(s, p) && Control(s) && Enabled(s, Attempt(t, mayBlock))
    ensures WaitingAt(AttemptStep(s, t, mayBlock)) && BothSound(AttemptStep(s, t, mayBlock), p)
  {
    AttemptMoves(s, t, mayBlock);
    if At(s, t).call.Reads() {
      AttemptReadSound(s, t, mayBlock, p);
    } else {
      AttemptWriteSound(s, t, mayBlock, p);
    }
    var s' := AttemptStep(s, t, mayBlock);
    WaitingFollows(s, s', t, At(s', t));
  }

  function PlaceStep(s: System, t: Task, i: nat, call: Call): System
    requires i <= if call.Reads() then |s.q.waitRecv| else |s.q.waitSend|
  {
    var q := if call.Reads() then s.q.(waitRecv := InsertAt(s.q.waitRecv, i, t))
             else s.q.(waitSend := InsertAt(s.q.waitSend, i, t));
    Goto(s.(q := q), t, AtUnlockTx(call, Blocked))
  }

  lemma PlaceReadSound(s: System, t: Task, i: nat, call: Call)
    requires call.Reads() && i <= |s.q.waitRecv| && s.q.count <= s.q.txLock
    requires Sound(RecvSide(s), true) && t !in Members(RecvSide(s))
    ensures var s' := PlaceStep(s, t, i, call);
      && Sound(RecvSide(s'), true) && Members(RecvSide(s')) == Members(RecvSide(s)) + {t}
      && SendSide(s') == SendSide(s)
  {
    hide NoDup, Elements, InsertAt;
    EnterCounts(RecvSide(s), i, t);
    assert RecvSide(PlaceStep(s, t, i, call)) == Enter(RecvSide(s), i, t);
  }

  lemma PlaceWriteSound(s: System, t: Task, i: nat, call: Call, p: bool)
    requires !call.Reads() && i <= |s.q.waitSend| && s.q.Free() <= s.q.rxLock
    requires Sound(SendSide(s), p) && t !in Members(SendSide(s))
    ensures var s' := PlaceStep(s, t, i, call);
      && Sound(SendSide(s'), p) && Members(SendSide(s')) == Members(SendSide(s)) + {t}
      && RecvSide(s') == RecvSide(s)
  {
    hide NoDup, Elements, InsertAt;
    EnterCounts(SendSide(s), i, t);
    assert SendSide(PlaceStep(s, t, i, call)) == Enter(SendSide(s), i, t);
  }

  lemma PlaceWaiting(s: System, s': System, t: Task, call: Call)
    requires WaitingAt(s) && s'.pc == s.pc[t := AtUnlockTx(call, Blocked)]
    requires Members(RecvSide(s')) == Members(RecvSide(s)) + (if call.Reads() then {t} else {})
    requires Members(SendSide(s')) == Members(SendSide(s)) + (if call.Reads() then {} else {t})
    requires t !in Members(RecvSide(s)) && t !in Members(SendSide(s))
    ensures WaitingAt(s')
  {
  }

  /** The holder of the scheduler is the task that is about to place itself. */
  lemma PlaceReady(s: System, t: Task, i: nat)
    requires Control(s) && WaitingAt(s) && Enabled(s, PlaceOnEventList(t, i))
    ensures t !in Members(RecvSide(s)) && t !in Members(SendSide(s))
    ensures if At(s, t).call.Reads() then s.q.count <= s.q.txLock else s.q.Free() <= s.q.rxLock
  {
    assert At(s, t).HoldsScheduler();
  }

  lemma PlaceReadKeeps(s: System, t: Task, i: nat, p: bool)
    requires Control(s) && WaitingAt(s) && BothSound(s, p) && Enabled(s, PlaceOnEventList(t, i))
    requires At(s, t).call.Reads()
    ensures var s' := PlaceStep(s, t, i, At(s, t).call); WaitingAt(s') && BothSound(s', p)
  {
    hide NoDup, Elements, Disjoint, Promised, SchedulerOwner, Bounded;
    PlaceReady(s, t, i);
    PlaceReadSound(s, t, i, At(s, t).call);
    PlaceWaiting(s, PlaceStep(s, t, i, At(s, t).call), t, At(s, t).call);
  }

  lemma PlaceWriteKeeps(s: System, t: Task, i: nat, p: bool)
    requires Control(s) && WaitingAt(s) && BothSound(s, p) && Enabled(s, PlaceOnEventList(t, i))
    requires !At(s, t).call.Reads()
    ensures var s' := PlaceStep(s, t, i, At(s, t).call); WaitingAt(s') && BothSound(s', p)
  {
    hide NoDup, Elements, Disjoint, Promised, SchedulerOwner, Bounded;
    PlaceReady(s, t, i);
    PlaceWriteSound(s, t, i, At(s, t).call, p);
    PlaceWaiting(s, PlaceStep(s, t, i, At(s, t).call), t, At(s, t).call);
  }

  lemma UnlockTxKeeps(s: System, t: Task, p: bool)
    requires WaitingAt(s) && BothSound(s, p) && Enabled(s, UnlockTxStep(t))
    ensures WaitingAt(Apply(s, UnlockTxStep(t))) && BothSound(Apply(s, UnlockTxStep(t)), p)
  {
    hide NoDup, Elements, Disjoint, Promised;
    UnlockSides(s);
    UnlockSound(RecvSide(s), true);
  }

  lemma UnlockRxKeeps(s: System, t: Task, p: bool)
    requires WaitingAt(s) && BothSound(s, p) && Enabled(s, UnlockRxStep(t))
    ensures WaitingAt(Apply(s, UnlockRxStep(t))) && BothSound(Apply(s, UnlockRxStep(t)), p)
  {
    hide NoDup, Elements, Disjoint, Promised;
    UnlockSides(s);
    UnlockSound(SendSide(s), p);
  }

  lemma TimeOutSides(s: System, t: Task)
    requires Enabled(s, TickTimeOut(t))
    ensures var s' := Apply(s, TickTimeOut(t));
      RecvSide(s') == Leave(RecvSide(s), t) && SendSide(s') == Leave(SendSide(s), t) && s'.pc == s.pc
  {
  }

  lemma TimeOutKeeps(s: System, t: Task, p: bool)
    requires WaitingAt(s) && BothSound(s, p) && Enabled(s, TickTimeOut(t))
    ensures WaitingAt(Apply(s, TickTimeOut(t))) && BothSound(Apply(s, TickTimeOut(t)), p)
  {
    hide NoDup, Elements, Promised, Disjoint, Members, Leave, Apply, WaitingAt;
    TimeOutSides(s, t);
    LeaveCounts(RecvSide(s), t);
    LeaveCounts(SendSide(s), t);
    WaitingFollows(s, Apply(s, TickTimeOut(t)), t, Outside);
  }

  lemma ResetSides(s: System)
    ensures var s', d := Wake(s, s.q.Reset()), SendSide(s);
      && RecvSide(s') == RecvSide(s).(supply := 0, lock := QUEUE_UNLOCKED)
      && SendSide(s') == (if d.wait == [] then d else Release(d, 1)).(supply := s.q.length, lock := QUEUE_UNLOCKED)
  {
  }

  /** A reset keeps everything except the promise to senders. */
  lemma ResetKeeps(s: System)
    requires WaitingAt(s) && BothSound(s, false)
    ensures WaitingAt(Wake(s, s.q.Reset())) && BothSound(Wake(s, s.q.Reset()), false)
  {
    ResetSides(s);
    if s.q.waitSend != [] {
      ReleaseCounts(SendSide(s), 1);
    }
    WaitingFollows(s, Wake(s, s.q.Reset()), 0, Outside);
  }

  /** The actions that move one task and, at most, take the lock. */
  predicate Local(a: Action) {
    a.Begin? || a.SuspendAll? || a.LockQueue? || a.CheckTimeOut? || a.TestQueue? || a.ResumeAll? || a.GiveUpStep?
  }

  lemma LockKeeps(s: System, t: Task, p: bool)
    requires Enabled(s, LockQueue(t)) && Control(s) && WaitingAt(s) && BothSound(s, p)
    ensures WaitingAt(Apply(s, LockQueue(t))) && BothSound(Apply(s, LockQueue(t)), p)
  {
    hide NoDup, Elements, Bounded;
    var s' := Apply(s, LockQueue(t));
    assert At(s, t).HoldsScheduler();
    assert RecvSide(s') == RecvSide(s).(lock := 0) && SendSide(s') == SendSide(s).(lock := 0);
    WaitingFollows(s, s', t, AtCheckTimeOut(At(s, t).call));
  }

  lemma LocalKeeps(s: System, a: Action, p: bool)
    requires Local(a) && !a.LockQueue? && Enabled(s, a) && WaitingAt(s) && BothSound(s, p)
    ensures WaitingAt(Apply(s, a)) && BothSound(Apply(s, a), p)
  {
    hide NoDup, Elements, Disjoint, Members, Promised;
    assert RecvSide(Apply(s, a)) == RecvSide(s) && SendSide(Apply(s, a)) == SendSide(s);
  }

  lemma LocalControl(s: System, a: Action)
    requires Local(a) && Enabled(s, a) && Control(s)
    ensures Control(Apply(s, a))
  {
  }

  lemma ListControl(s: System, a: Action)
    requires a.PlaceOnEventList? || a.UnlockTxStep? || a.UnlockRxStep? || a.TickTimeOut? || a.ResetQueue?
    requires Enabled(s, a) && Control(s)
    ensures Control(Apply(s, a))
  {
  }

  lemma StepKeeps(s: System, a: Action, p: bool)
    requires Inv(s, p) && Enabled(s, a) && CountsFit(s, a) && (a.ResetQueue? ==> !p)
    ensures Inv(Apply(s, a), p)
  {
    hide Control, WaitingAt, BothSound;
    match a
    case IsrSend(_) => IsrControl(s, a); IsrWaiting(s, a, p);
    case IsrReceive => IsrControl(s, a); IsrWaiting(s, a, p);
    case Attempt(t, mayBlock) => AttemptControl(s, t, mayBlock); AttemptWaiting(s, t, mayBlock, p);
    case PlaceOnEventList(t, i) =>
      ListControl(s, a);
      if At(s, t).call.Reads() { PlaceReadKeeps(s, t, i, p); } else { PlaceWriteKeeps(s, t, i, p); }
    case UnlockTxStep(t) => ListControl(s, a); UnlockTxKeeps(s, t, p);
    case UnlockRxStep(t) => ListControl(s, a); UnlockRxKeeps(s, t, p);
    case TickTimeOut(t) => ListControl(s, a); TimeOutKeeps(s, t, p);
    case ResetQueue(t) => ListControl(s, a); ResetKeeps(s);
    case LockQueue(t) => LocalControl(s, a); LockKeeps(s, t, p);
    case _ => LocalControl(s, a); LocalKeeps(s, a, p);
  }

  // ---- Runs ----

  predicate Runnable(s: System, run: seq<Action>)
    decreases |run|
  {
    run == [] || (Enabled(s, run[0]) && CountsFit(s, run[0]) && Runnable(Apply(s, run[0]), run[1..]))
  }

  function Execute(s: System, run: seq<Action>): System
    requires Runnable(s, run)
    decreases |run|
  {
    if run == [] then s else Execute(Apply(s, run[0]), run[1..])
  }

  function Initial(length: nat): System {
    System(QueueState(length, 0, QUEUE_UNLOCKED, QUEUE_UNLOCKED, [], []), map[], {}, {}, None)
  }

  lemma InitialInv(length: nat)
    ensures Inv(Initial(length), true)
  {
  }

  lemma {:induction false} RunKeeps(s: System, run: seq<Action>, p: bool)
    requires Inv(s, p) && Runnable(s, run) && (p ==> forall i :: 0 <= i < |run| ==> !run[i].ResetQueue?)
    ensures Inv(Execute(s, run), p)
    decreases |run|
  {
    if run != [] {
      StepKeeps(s, run[0], p);
      RunKeeps(Apply(s, run[0]), run[1..], p);
    }
  }

  /**
    In every state reachable by any interleaving, a receiver on the waiting list means
    that every item in the queue is already promised to a woken receiver or recorded in
    the lock count.  Queue resets are allowed.
   */
  lemma NoReceiverIsForgotten(length: nat, run: seq<Action>)
    requires Runnable(Initial(length), run)
    ensures NoLostReceiver(Execute(Initial(length), run))
  {
    hide NoDup, Elements, WaitingAt, SchedulerOwner, Disjoint;
    InitialInv(length);
    RunKeeps(Initial(length), run, false);
  }

  /** The same for senders and free slots, in every run without a queue reset. */
  lemma NoSenderIsForgotten(length: nat, run: seq<Action>)
    requires Runnable(Initial(length), run)
    requires forall i :: 0 <= i < |run| ==> !run[i].ResetQueue?
    ensures NoLostSender(Execute(Initial(length), run))
  {
    hide NoDup, Elements, WaitingAt, SchedulerOwner, Disjoint;
    InitialInv(length);
    RunKeeps(Initial(length), run, true);
  }

  predicate Quiescent(s: System) {
    s.scheduler == None && s.wokenRecv == {} && s.wokenSend == {}
  }

  /** When nobody holds the scheduler and nobody woken is still to run, a waiting receiver means an empty queue. */
  lemma QuiescentMeansEmpty(length: nat, run: seq<Action>)
    requires Runnable(Initial(length), run) && Quiescent(Execute(Initial(length), run))
    ensures var q := Execute(Initial(length), run).q; q.waitRecv != [] ==> q.count == 0
  {
    hide NoDup, Elements, WaitingAt, SchedulerOwner, Disjoint;
    InitialInv(length);
    RunKeeps(Initial(length), run, false);
  }

  /** And, when the queue was never reset, a waiting sender means a full one. */
  lemma QuiescentMeansFull(length: nat, run: seq<Action>)
    requires Runnable(Initial(length), run) && Quiescent(Execute(Initial(length), run))
    requires forall i :: 0 <= i < |run| ==> !run[i].ResetQueue?
    ensures var q := Execute(Initial(length), run).q; q.waitSend != [] ==> q.count == q.length
  {
    hide NoDup, Elements, WaitingAt, SchedulerOwner, Disjoint;
    InitialInv(length);
    RunKeeps(Initial(length), run, true);
  }

  // ---- The limits of the protocol ----

  /** An interrupt that sends to a locked queue keeps the promise to a waiting receiver exactly on this condition. */
  lemma LockCountLimit(s: System)
    requires Inv(s, true) && 0 <= s.q.txLock <= 127 && s.q.waitRecv != [] && s.q.count < s.q.length
    ensures NoLostReceiver(Apply(s, IsrSend(false))) <==> s.q.txLock < 127 || s.q.count + 1 <= |s.wokenRecv|
  {
  }

  /** The same for an interrupt that receives from a locked queue, and a waiting sender. */
  lemma ReceiveLockCountLimit(s: System)
    requires Inv(s, true) && 0 <= s.q.rxLock <= 127 && s.q.waitSend != [] && s.q.count > 0
    ensures NoLostSender(Apply(s, IsrReceive)) <==> s.q.rxLock < 127 || s.q.Free() + 1 <= |s.wokenSend|
  {
  }

  /** One task, in the given place, on a queue of 200 with n items, locked or not. */
  function Lone(pc: Pc, n: nat, lock: int, waiting: seq<Task>, scheduler: Option<Task>): System {
    System(QueueState(200, n, if lock < 0 then lock else 0, lock, waiting, []), map[1 := pc], {}, {}, scheduler)
  }

  /** The task has placed itself on the waiting list, and n interrupts have sent since. */
  function Flooded(n: nat): System { Lone(AtUnlockTx(Receive, Blocked), n, n, [1], Some(1)) }

  lemma RunPrefix(s: System, a: Action, s1: System, run: seq<Action>)
    requires Enabled(s, a) && CountsFit(s, a) && Apply(s, a) == s1 && Runnable(s1, run)
    ensures Runnable(s, [a] + run) && Execute(s, [a] + run) == Execute(s1, run)
  {
    assert ([a] + run)[1..] == run;
  }

  lemma {:induction false} Flood(k: nat, n: nat) returns (run: seq<Action>)
    requires k <= n <= 127
    ensures Runnable(Flooded(k), run) && Execute(Flooded(k), run) == Flooded(n)
    decreases n - k
  {
    if k == n {
      run := [];
    } else {
      var rest := Flood(k + 1, n);
      RunPrefix(Flooded(k), IsrSend(false), Flooded(k + 1), rest);
      run := [IsrSend(false)] + rest;
    }
  }

  /** A receiver on its way to the waiting list of an empty queue. */
  lemma Approach(rest: seq<Action>) returns (run: seq<Action>)
    requires Runnable(Flooded(0), rest)
    ensures Runnable(Initial(200), run) && Execute(Initial(200), run) == Execute(Flooded(0), rest)
  {
    var r6 := [PlaceOnEventList(1, 0)] + rest;
    PlaceFirst();
    RunPrefix(Lone(AtPlace(Receive), 0, 0, [], Some(1)), PlaceOnEventList(1, 0), Flooded(0), rest);
    var r5 := [TestQueue(1)] + r6;
    RunPrefix(Lone(AtTest(Receive), 0, 0, [], Some(1)), TestQueue(1), Lone(AtPlace(Receive), 0, 0, [], Some(1)), r6);
    var r4 := [CheckTimeOut(1, false)] + r5;
    RunPrefix(Lone(AtCheckTimeOut(Receive), 0, 0, [], Some(1)), CheckTimeOut(1, false), Lone(AtTest(Receive), 0, 0, [], Some(1)), r5);
    run := ApproachLock(r4);
  }

  lemma PlaceFirst()
    ensures var s := Lone(AtPlace(Receive), 0, 0, [], Some(1)); Enabled(s, PlaceOnEventList(1, 0)) && Apply(s, PlaceOnEventList(1, 0)) == Flooded(0)
  {
    assert InsertAt([], 0, 1) == [1];
  }

  lemma ApproachLock(rest: seq<Action>) returns (run: seq<Action>)
    requires Runnable(Lone(AtCheckTimeOut(Receive), 0, 0, [], Some(1)), rest)
    ensures Runnable(Initial(200), run) && Execute(Initial(200), run) == Execute(Lone(AtCheckTimeOut(Receive), 0, 0, [], Some(1)), rest)
  {
    var r3 := [LockQueue(1)] + rest;
    RunPrefix(Lone(AtLock(Receive), 0, -1, [], Some(1)), LockQueue(1), Lone(AtCheckTimeOut(Receive), 0, 0, [], Some(1)), rest);
    var r2 := [SuspendAll(1)] + r3;
    RunPrefix(Lone(AtSuspendAll(Receive), 0, -1, [], None), SuspendAll(1), Lone(AtLock(Receive), 0, -1, [], Some(1)), r3);
    var r1 := [Attempt(1, true)] + r2;
    RunPrefix(Lone(AtTry(Receive), 0, -1, [], None), Attempt(1, true), Lone(AtSuspendAll(Receive), 0, -1, [], None), r2);
    RunPrefix(Initial(200), Begin(1, Receive), Lone(AtTry(Receive), 0, -1, [], None), r1);
    run := [Begin(1, Receive)] + r1;
  }

  /** A run, and then the 128th interrupt of a lock window and the unlock: a receiver waits beside 128 items. */
  lemma WrappedLockCountStrandsReceiver() returns (run: seq<Action>)
    ensures Runnable(Initial(200), run)
    ensures var s := Execute(Initial(200), run);
      && Enabled(s, IsrSend(false)) && Enabled(Apply(s, IsrSend(false)), UnlockTxStep(1))
      && var q := Apply(Apply(s, IsrSend(false)), UnlockTxStep(1)).q;
         q.waitRecv == [1] && q.count == 128 && q.txLock == QUEUE_UNLOCKED
  {
    hide Runnable, Execute;
    var rest := Flood(0, 127);
    run := Approach(rest);
  }

  /** A reset empties the queue but wakes one sender: exactly when the promise to senders survives it. */
  lemma ResetLimit(s: System, t: Task)
    requires Inv(s, true) && Enabled(s, ResetQueue(t))
    ensures NoLostSender(Apply(s, ResetQueue(t))) <==> |s.q.waitSend| <= 1 || s.q.length <= |s.wokenSend| + 1
  {
    hide NoDup, Elements, WaitingAt, Control, Members;
    ResetSides(s);
    if s.q.waitSend != [] {
      ReleaseCounts(SendSide(s), 1);
    }
  }

  /** A full queue of two, its lock counts, waiting senders, and where the tasks are. */
  function FullPair(lock: int, waiting: seq<Task>, pc: map<Task, Pc>, scheduler: Option<Task>): System {
    System(QueueState(2, 2, lock, lock, [], waiting), pc, {}, {}, scheduler)
  }

  /** The second half of a send that blocks: onto the list, unlock, resume. */
  lemma SenderParks(waiting: seq<Task>, pc: map<Task, Pc>, t: Task, rest: seq<Action>) returns (run: seq<Action>)
    requires t !in waiting && Runnable(FullPair(-1, waiting + [t], pc[t := AtTry(Send(false))], None), rest)
    ensures var s := FullPair(0, waiting, pc[t := AtPlace(Send(false))], Some(t));
      && Runnable(s, run)
      && Execute(s, run) == Execute(FullPair(-1, waiting + [t], pc[t := AtTry(Send(false))], None), rest)
  {
    var call, after := Send(false), waiting + [t];
    var s1 := FullPair(0, after, pc[t := AtUnlockTx(call, Blocked)], Some(t));
    var s2 := s1.(q := s1.q.(txLock := -1), pc := pc[t := AtUnlockRx(call, Blocked)]);
    var s3 := FullPair(-1, after, pc[t := AtResumeAll(call, Blocked)], Some(t));
    RunPrefix(s3, ResumeAll(t), FullPair(-1, after, pc[t := AtTry(call)], None), rest);
    SenderUnlocks(after, pc, t);
    RunPrefix(s2, UnlockRxStep(t), s3, [ResumeAll(t)] + rest);
    RunPrefix(s1, UnlockTxStep(t), s2, [UnlockRxStep(t)] + ([ResumeAll(t)] + rest));
    run := [UnlockTxStep(t)] + ([UnlockRxStep(t)] + ([ResumeAll(t)] + rest));
    var s0 := FullPair(0, waiting, pc[t := AtPlace(call)], Some(t));
    SenderPlaces(waiting, pc, t);
    RunPrefix(s0, PlaceOnEventList(t, |waiting|), s1, run);
    run := [PlaceOnEventList(t, |waiting|)] + run;
  }

  lemma SenderUnlocks(after: seq<Task>, pc: map<Task, Pc>, t: Task)
    ensures var s1 := FullPair(0, after, pc[t := AtUnlockTx(Send(false), Blocked)], Some(t));
      var s2 := s1.(q := s1.q.(txLock := -1), pc := pc[t := AtUnlockRx(Send(false), Blocked)]);
      && Enabled(s1, UnlockTxStep(t)) && Apply(s1, UnlockTxStep(t)) == s2
      && Enabled(s2, UnlockRxStep(t)) && Apply(s2, UnlockRxStep(t)) == FullPair(-1, after, pc[t := AtResumeAll(Send(false), Blocked)], Some(t))
  {
  }

  lemma SenderPlaces(waiting: seq<Task>, pc: map<Task, Pc>, t: Task)
    ensures var s := FullPair(0, waiting, pc[t := AtPlace(Send(false))], Some(t));
      && Enabled(s, PlaceOnEventList(t, |waiting|))
      && Apply(s, PlaceOnEventList(t, |waiting|)) == FullPair(0, waiting + [t], pc[t := AtUnlockTx(Send(false), Blocked)], Some(t))
  {
    assert InsertAt(waiting, |waiting|, t) == waiting + [t];
  }

  /** The first half: find no room, suspend the scheduler, lock, and decide to wait. */
  lemma SenderBlocks(waiting: seq<Task>, pc: map<Task, Pc>, t: Task, rest: seq<Action>) returns (run: seq<Action>)
    requires t !in pc && t !in waiting && Runnable(FullPair(-1, waiting + [t], pc[t := AtTry(Send(false))], None), rest)
    ensures var s := FullPair(-1, waiting, pc, None);
      Runnable(s, run) && Execute(s, run) == Execute(FullPair(-1, waiting + [t], pc[t := AtTry(Send(false))], None), rest)
  {
    var call := Send(false);
    run := SenderParks(waiting, pc, t, rest);
    RunPrefix(FullPair(0, waiting, pc[t := AtTest(call)], Some(t)), TestQueue(t), FullPair(0, waiting, pc[t := AtPlace(call)], Some(t)), run);
    run := [TestQueue(t)] + run;
    RunPrefix(FullPair(0, waiting, pc[t := AtCheckTimeOut(call)], Some(t)), CheckTimeOut(t, false), FullPair(0, waiting, pc[t := AtTest(call)], Some(t)), run);
    run := [CheckTimeOut(t, false)] + run;
    RunPrefix(FullPair(-1, waiting, pc[t := AtLock(call)], Some(t)), LockQueue(t), FullPair(0, waiting, pc[t := AtCheckTimeOut(call)], Some(t)), run);
    run := [LockQueue(t)] + run;
    run := SenderTries(waiting, pc, t, run);
  }

  lemma SenderTries(waiting: seq<Task>, pc: map<Task, Pc>, t: Task, rest: seq<Action>) returns (run: seq<Action>)
    requires t !in pc && t !in waiting && Runnable(FullPair(-1, waiting, pc[t := AtLock(Send(false))], Some(t)), rest)
    ensures var s := FullPair(-1, waiting, pc, None);
      Runnable(s, run) && Execute(s, run) == Execute(FullPair(-1, waiting, pc[t := AtLock(Send(false))], Some(t)), rest)
  {
    var call := Send(false);
    RunPrefix(FullPair(-1, waiting, pc[t := AtSuspendAll(call)], None), SuspendAll(t), FullPair(-1, waiting, pc[t := AtLock(call)], Some(t)), rest);
    var r1 := [SuspendAll(t)] + rest;
    RunPrefix(FullPair(-1, waiting, pc[t := AtTry(call)], None), Attempt(t, true), FullPair(-1, waiting, pc[t := AtSuspendAll(call)], None), r1);
    var r2 := [Attempt(t, true)] + r1;
    RunPrefix(FullPair(-1, waiting, pc, None), Begin(t, call), FullPair(-1, waiting, pc[t := AtTry(call)], None), r2);
    run := [Begin(t, call)] + r2;
  }

  /** Two senders block on a full queue of two; a reset then leaves one of them waiting beside two free slots. */
  lemma ResetStrandsSender() returns (run: seq<Action>)
    ensures Runnable(Initial(2), run)
    ensures var s := Execute(Initial(2), run);
      && Enabled(s, ResetQueue(3))
      && var s' := Apply(s, ResetQueue(3)); s'.q.waitSend == [2] && s'.q.count == 0 && s'.q.length == 2 && !NoLostSender(s')
  {
    hide Runnable, Execute, Enabled, Apply, NoLostSender, FullPair;
    var both := FullPair(-1, [1, 2], map[1 := AtTry(Send(false)), 2 := AtTry(Send(false))], None);
    ResetLeavesOne(both);
    NoSteps(both);
    run := BothBlock();
    run := FillPair(run);
  }

  lemma NoSteps(s: System)
    ensures Runnable(s, []) && Execute(s, []) == s
  {
  }

  lemma BothBlock() returns (run: seq<Action>)
    ensures var s := FullPair(-1, [], map[], None);
      Runnable(s, run) && Execute(s, run) == FullPair(-1, [1, 2], map[1 := AtTry(Send(false)), 2 := AtTry(Send(false))], None)
  {
    var pc1: map<Task, Pc> := map[1 := AtTry(Send(false))];
    assert [1] + [2] == [1, 2] && [] + [1] == [1];
    assert pc1[2 := AtTry(Send(false))] == map[1 := AtTry(Send(false)), 2 := AtTry(Send(false))];
    hide Runnable, Execute, FullPair;
    NoSteps(FullPair(-1, [1, 2], pc1[2 := AtTry(Send(false))], None));
    run := SenderBlocks([1], pc1, 2, []);
    run := SenderBlocks([], map[], 1, run);
  }

  lemma ResetLeavesOne(both: System)
    requires both == FullPair(-1, [1, 2], map[1 := AtTry(Send(false)), 2 := AtTry(Send(false))], None)
    ensures Enabled(both, ResetQueue(3))
    ensures var s' := Apply(both, ResetQueue(3)); s'.q.waitSend == [2] && s'.q.count == 0 && s'.q.length == 2 && !NoLostSender(s')
  {
    var s' := Apply(both, ResetQueue(3));
    assert s'.q.waitSend == [1, 2][1..] == [2];
    assert [1, 2][..1] == [1] && Elements([1]) == {1};
    assert s'.wokenSend == {1};
    assert SendSide(s') == Side([2], {1}, -1, 2);
  }

  /** Two interrupts fill the queue. */
  lemma FillPair(rest: seq<Action>) returns (run: seq<Action>)
    requires Runnable(FullPair(-1, [], map[], None), rest)
    ensures Runnable(Initial(2), run) && Execute(Initial(2), run) == Execute(FullPair(-1, [], map[], None), rest)
  {
    var one := System(QueueState(2, 1, -1, -1, [], []), map[], {}, {}, None);
    RunPrefix(one, IsrSend(false), FullPair(-1, [], map[], None), rest);
    RunPrefix(Initial(2), IsrSend(false), one, [IsrSend(false)] + rest);
    run := [IsrSend(false)] + ([IsrSend(false)] + rest);
  }
}
