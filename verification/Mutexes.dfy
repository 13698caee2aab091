/**
  Mutexes and priority inheritance: the mutex paths of queue.c with xTaskPriorityInherit,
  xTaskPriorityDisinherit and vTaskPriorityDisinheritAfterTimeout of tasks.c.

  `epoch` counts the changes of a mutex's holder and `log` records accepted recursive
  takes and gives; both serve the specification and no branch reads them.
 */
module Mutexes {
  import opened Options

  type Task = int
  type MutexId = int

  const MAX_PRIORITIES: nat := 15
  const IDLE_PRIORITY: nat := 0

  /** The mutex-related fields of TCB_t; eventValue is the value of xEventListItem. */
  datatype Tcb = Tcb(base: int, priority: int, held: int, eventValue: int)

  datatype Mutex = Mutex(holder: Option<Task>, count: int, waiters: seq<Task>, recursion: int, epoch: int)

  /**
    Where a task is in a call to take a mutex: blocked, back in the loop after being woken or
    timing out, or about to return empty-handed. `inherited` is xInheritanceOccurred.
   */
  datatype Phase =
    | Running
    | Waiting(on: MutexId, inherited: bool, since: int)
    | Awake(on: MutexId, inherited: bool)
    | GivingUp(on: MutexId, inherited: bool)

  datatype RecursiveCall = Took(caller: Task, on: MutexId) | Gave(caller: Task, on: MutexId)

  /** Tasks and mutexes not yet mentioned are as they are created. */
  datatype System = System(
    tcbs: map<Task, Tcb>, mutexes: map<MutexId, Mutex>, phases: map<Task, Phase>, log: seq<RecursiveCall>)
  {
    function TcbOf(t: Task): Tcb {
      if t in tcbs then tcbs[t] else Tcb(IDLE_PRIORITY, IDLE_PRIORITY, 0, MAX_PRIORITIES - IDLE_PRIORITY)
    }
    function MutexOf(m: MutexId): Mutex {
      if m in mutexes then mutexes[m] else Mutex(None, 1, [], 0, 0)
    }
    function PhaseOf(t: Task): Phase { if t in phases then phases[t] else Running }

    function SetTcb(t: Task, tcb: Tcb): System { this.(tcbs := tcbs[t := tcb]) }
    function SetMutex(m: MutexId, mutex: Mutex): System { this.(mutexes := mutexes[m := mutex]) }
    function SetPhase(t: Task, phase: Phase): System { this.(phases := phases[t := phase]) }
  }

  // ---- tasks.c ----

  function SetPriority(tcb: Tcb, priority: int): Tcb {
    tcb.(priority := priority, eventValue := MAX_PRIORITIES - priority)
  }

  /** pvTaskIncrementMutexHeldCount */
  function IncrementHeld(tcb: Tcb): Tcb { tcb.(held := tcb.held + 1) }

  /** xTaskPriorityInherit on the holder, for a caller of the given priority. */
  function Inherit(holder: Tcb, caller: int): Tcb {
    if holder.priority < caller then SetPriority(holder, caller) else holder
  }

  /** Its return value: the holder now runs, or already ran, on a borrowed priority. */
  predicate Inherited(holder: Tcb, caller: int) {
    holder.priority < caller || holder.base < caller
  }

  /** xTaskPriorityDisinherit */
  function Disinherit(tcb: Tcb): Tcb {
    var tcb1 := tcb.(held := tcb.held - 1);
    if tcb1.priority != tcb1.base && tcb1.held == 0 then SetPriority(tcb1, tcb1.base) else tcb1
  }

  /** vTaskPriorityDisinheritAfterTimeout */
  function DisinheritAfterTimeout(tcb: Tcb, highestWaiting: int): Tcb {
    var priorityToUse := if tcb.base < highestWaiting then highestWaiting else tcb.base;
    if tcb.priority != priorityToUse && tcb.held == 1 then SetPriority(tcb, priorityToUse) else tcb
  }

  // ---- queue.c ----

  /** prvGetDisinheritPriorityAfterTimeout: read off the item at the head of the list. */
  function HighestWaiting(s: System, m: MutexId): int {
    var waiters := s.MutexOf(m).waiters;
    if waiters == [] then IDLE_PRIORITY else MAX_PRIORITIES - s.TcbOf(waiters[0]).eventValue
  }

  /** vListInsert on a list of tasks ordered by their event list items. */
  function InsertByValue(w: seq<Task>, t: Task, s: System): (r: seq<Task>)
    ensures forall u :: u in r <==> u == t || u in w
    ensures |r| == |w| + 1
  {
    if w == [] || s.TcbOf(w[0]).eventValue > s.TcbOf(t).eventValue then [t] + w
    else [w[0]] + InsertByValue(w[1..], t, s)
  }

  /** uxListRemove */
  function RemoveWaiter(w: seq<Task>, t: Task): (r: seq<Task>)
    ensures forall u :: u in r ==> u in w
  {
    if w == [] then [] else if w[0] == t then w[1..] else [w[0]] + RemoveWaiter(w[1..], t)
  }

  /** The accepting branch of xQueueSemaphoreTake. */
  function Take(s: System, t: Task, m: MutexId): System {
    var mutex := s.MutexOf(m);
    s.SetTcb(t, IncrementHeld(s.TcbOf(t)))
     .SetMutex(m, mutex.(holder := Some(t), count := mutex.count - 1, epoch := mutex.epoch + 1))
     .SetPhase(t, Running)
  }

  /** The blocking branch: inherit, then wait, with the scheduler suspended throughout. */
  function Block(s: System, t: Task, m: MutexId): System
    requires s.MutexOf(m).holder.Some?
  {
    var mutex := s.MutexOf(m);
    var h := mutex.holder.value;
    var s1 := s.SetTcb(h, Inherit(s.TcbOf(h), s.TcbOf(t).priority));
    s1.SetMutex(m, mutex.(waiters := InsertByValue(mutex.waiters, t, s1)))
      .SetPhase(t, Waiting(m, Inherited(s.TcbOf(h), s.TcbOf(t).priority), mutex.epoch))
  }

  function InheritedFlag(p: Phase): bool { p.Waiting? && p.inherited }

  /** xQueueGenericSend on a mutex, by its holder: disinherit, free it, wake the head waiter. */
  function Give(s: System, t: Task, m: MutexId): System {
    var mutex := s.MutexOf(m);
    var freed := mutex.(holder := None, count := mutex.count + 1, epoch := mutex.epoch + 1);
    var s1 := s.SetTcb(t, Disinherit(s.TcbOf(t)));
    if mutex.waiters == [] then s1.SetMutex(m, freed)
    else s1.SetMutex(m, freed.(waiters := mutex.waiters[1..]))
           .SetPhase(mutex.waiters[0], Awake(m, InheritedFlag(s.PhaseOf(mutex.waiters[0]))))
  }

  function Recurse(s: System, m: MutexId, change: int, call: RecursiveCall): System {
    s.SetMutex(m, s.MutexOf(m).(recursion := s.MutexOf(m).recursion + change)).(log := s.log + [call])
  }

  datatype Action =
    | TakeStep(t: Task, m: MutexId)
    | BlockStep(t: Task, m: MutexId)
    | GiveStep(t: Task, m: MutexId)
    | TakeRecursive(t: Task, m: MutexId)
    | GiveRecursive(t: Task, m: MutexId)
    | TickTimeOut(t: Task)
    | CheckAfterTimeOut(t: Task)
    | GiveUp(t: Task)

  predicate Asking(s: System, t: Task, m: MutexId) {
    s.PhaseOf(t) == Running || (s.PhaseOf(t).Awake? && s.PhaseOf(t).on == m)
  }

  /** Holders give, and nobody waits for a mutex while holding one. */
  predicate Enabled(s: System, a: Action) {
    match a
    case TakeStep(t, m) => Asking(s, t, m) && s.MutexOf(m).count > 0
    case BlockStep(t, m) => Asking(s, t, m) && s.MutexOf(m).count == 0 && s.TcbOf(t).held == 0
    case GiveStep(t, m) => s.PhaseOf(t) == Running && s.MutexOf(m).holder == Some(t) && s.MutexOf(m).recursion == 0
    case TakeRecursive(t, m) => Asking(s, t, m) && (s.MutexOf(m).holder == Some(t) || s.MutexOf(m).count > 0)
    case GiveRecursive(t, m) => s.PhaseOf(t) == Running && s.MutexOf(m).holder == Some(t) && s.MutexOf(m).recursion > 0
    case TickTimeOut(t) => s.PhaseOf(t).Waiting?
    case CheckAfterTimeOut(t) => s.PhaseOf(t).Awake?
    case GiveUp(t) => s.PhaseOf(t).GivingUp?
  }

  function Apply(s: System, a: Action): System
    requires Enabled(s, a)
    requires a.BlockStep? ==> s.MutexOf(a.m).holder.Some?
  {
    match a
    case TakeStep(t, m) => Take(s, t, m)
    case BlockStep(t, m) => Block(s, t, m)
    case GiveStep(t, m) => Give(s, t, m)
    case TakeRecursive(t, m) =>
      if s.MutexOf(m).holder == Some(t) then Recurse(s, m, 1, Took(t, m)) else Recurse(Take(s, t, m), m, 1, Took(t, m))
    case GiveRecursive(t, m) =>
      var s1 := Recurse(s, m, -1, Gave(t, m));
      if s1.MutexOf(m).recursion == 0 then Give(s1, t, m) else s1
    case TickTimeOut(t) =>
      var m := s.PhaseOf(t).on;
      s.SetMutex(m, s.MutexOf(m).(waiters := RemoveWaiter(s.MutexOf(m).waiters, t)))
       .SetPhase(t, Awake(m, s.PhaseOf(t).inherited))
    case CheckAfterTimeOut(t) =>
      var p := s.PhaseOf(t);
      s.SetPhase(t, if s.MutexOf(p.on).count == 0 then GivingUp(p.on, p.inherited) else p)
    case GiveUp(t) =>
      var p := s.PhaseOf(t);
      var s1 := s.SetPhase(t, Running);
      if p.inherited && s.MutexOf(p.on).holder.Some? then
        var h := s.MutexOf(p.on).holder.value;
        s1.SetTcb(h, DisinheritAfterTimeout(s.TcbOf(h), HighestWaiting(s, p.on)))
      else s1
  }
}
