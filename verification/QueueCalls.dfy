/**
  What one call does, whatever other tasks and interrupts do between its steps: when it is
  served, how the number of items moves, and how it returns after a timeout.
 */
module QueueCalls {
  import opened Options
  import opened QueueProtocol
  import opened QueueSystem

  // ---- When a call is served ----

  /** There is an item to read, or room to write; an overwrite needs none. */
  predicate CanServe(q: QueueState, call: Call) {
    match call
    case Receive => q.count > 0
    case Peek => q.count > 0
    case Send(overwrite) => overwrite || q.count < q.length
  }

  /** What serving it adds to the number of items. */
  function Gain(q: QueueState, call: Call): int {
    match call
    case Receive => -1
    case Peek => 0
    case Send(overwrite) => if overwrite && q.count > 0 then 0 else 1
  }

  function Tail(w: seq<Task>): seq<Task> { if w == [] then [] else w[1..] }

  /** An attempt is served exactly when it can be, and then wakes the head of one list; else it changes nothing. */
  lemma AttemptExact(s: System, t: Task, mayBlock: bool)
    requires Enabled(s, Attempt(t, mayBlock))
    ensures var call, q, s' := At(s, t).call, s.q, Apply(s, Attempt(t, mayBlock));
      if CanServe(q, call) then
        && At(s', t) == Outside && s'.q.count == q.count + Gain(q, call)
        && s'.q.waitRecv == (if call.Receive? then q.waitRecv else Tail(q.waitRecv))
        && s'.q.waitSend == (if call.Receive? then Tail(q.waitSend) else q.waitSend)
        && s'.q.rxLock == q.rxLock && s'.q.txLock == q.txLock
      else s'.q == q && At(s', t) == if mayBlock then AtSuspendAll(call) else Outside
  {
  }

  /** How the number of items moves at any step. */
  function Change(s: System, a: Action): int {
    var q := s.q;
    match a
    case IsrSend(overwrite) => if CanServe(q, Send(overwrite)) then Gain(q, Send(overwrite)) else 0
    case IsrReceive => if CanServe(q, Receive) then Gain(q, Receive) else 0
    case Attempt(t, _) => if At(s, t).AtTry? && CanServe(q, At(s, t).call) then Gain(q, At(s, t).call) else 0
    case ResetQueue(_) => 0 - q.count
    case _ => 0
  }

  lemma ChangeExact(s: System, a: Action)
    requires Enabled(s, a)
    ensures Apply(s, a).q.count == s.q.count + Change(s, a) && Apply(s, a).q.length == s.q.length
  {
    match a
    case Attempt(t, mayBlock) => AttemptExact(s, t, mayBlock);
    case PlaceOnEventList(t, i) =>
    case _ =>
  }

  function Changes(s: System, run: seq<Action>): int
    requires Runnable(s, run)
    decreases |run|
  {
    if run == [] then 0 else Change(s, run[0]) + Changes(Apply(s, run[0]), run[1..])
  }

  lemma {:induction false} CountMoves(s: System, run: seq<Action>)
    requires Runnable(s, run)
    ensures var q := Execute(s, run).q; q.count == s.q.count + Changes(s, run) && q.length == s.q.length
    decreases |run|
  {
    hide Change, Enabled, CountsFit, Apply;
    if run != [] {
      ChangeExact(s, run[0]);
      CountMoves(Apply(s, run[0]), run[1..]);
    }
  }

  /** Over every run the queue holds what was put in less what was taken out or dropped by a reset, and never more than its length. */
  lemma ItemsBalance(length: nat, run: seq<Action>)
    requires Runnable(Initial(length), run)
    ensures var q := Execute(Initial(length), run).q; q.count == Changes(Initial(length), run) && q.count <= q.length == length
  {
    hide Runnable, Execute, Changes, Inv, Bounded;
    CountMoves(Initial(length), run);
    InitialInv(length);
    InvWeaker(Initial(length));
    RunKeeps(Initial(length), run, false);
    NeverOverfull(Execute(Initial(length), run));
  }

  lemma InvWeaker(s: System)
    requires Inv(s, true)
    ensures Inv(s, false)
  {
    hide Disjoint, Promised, Control;
  }

  lemma NeverOverfull(s: System)
    requires Inv(s, false)
    ensures s.q.count <= s.q.length
  {
  }

  // ---- A call that times out ----

  /** The action is a step of t's own call. */
  predicate Own(a: Action, t: Task) {
    match a
    case IsrSend(_) => false
    case IsrReceive => false
    case TickTimeOut(_) => false
    case _ => a.t == t
  }

  /** Nobody else moves a task on in its call. */
  lemma OthersLeave(s: System, a: Action, t: Task)
    requires Enabled(s, a) && !Own(a, t)
    ensures At(Apply(s, a), t) == At(s, t)
  {
  }

  /** How many steps a task that gives up has left before it returns. */
  function StepsLeft(pc: Pc): nat {
    match pc
    case AtUnlockTx(_, GiveUp) => 4
    case AtUnlockRx(_, GiveUp) => 3
    case AtResumeAll(_, GiveUp) => 2
    case AtGiveUp(_) => 1
    case _ => 0
  }

  lemma OwnStep(s: System, a: Action, t: Task)
    requires Enabled(s, a) && Own(a, t) && StepsLeft(At(s, t)) > 1
    ensures var pc, pc' := At(s, t), At(Apply(s, a), t); StepsLeft(pc') == StepsLeft(pc) - 1 && pc'.call == pc.call
  {
  }

  function OwnSteps(run: seq<Action>, t: Task): nat {
    if run == [] then 0 else (if Own(run[0], t) then 1 else 0) + OwnSteps(run[1..], t)
  }

  lemma {:induction false} GivingUpAdvances(s: System, run: seq<Action>, t: Task)
    requires Runnable(s, run) && OwnSteps(run, t) < StepsLeft(At(s, t))
    ensures var pc, pc' := At(s, t), At(Execute(s, run), t); StepsLeft(pc') == StepsLeft(pc) - OwnSteps(run, t) && pc'.call == pc.call
    decreases |run|
  {
    hide Enabled, CountsFit, Apply, Own;
    if run != [] {
      if Own(run[0], t) {
        OwnStep(s, run[0], t);
      } else {
        OthersLeave(s, run[0], t);
      }
      GivingUpAdvances(Apply(s, run[0]), run[1..], t);
    }
  }

  /** The last step: a reader returns empty-handed exactly when the queue is empty, and else tries again. */
  lemma GivesUpExactly(s: System, t: Task)
    requires Enabled(s, GiveUpStep(t))
    ensures var call, s' := At(s, t).call, Apply(s, GiveUpStep(t));
      && At(s', t) == (if call.Reads() && CanServe(s.q, call) then AtTry(call) else Outside) && s'.q == s.q && s'.scheduler == s.scheduler
  {
  }

  lemma CheckedTimeOut(s: System, t: Task, expired: bool)
    requires Enabled(s, CheckTimeOut(t, expired))
    ensures var pc' := At(Apply(s, CheckTimeOut(t, expired)), t);
      pc'.call == At(s, t).call && StepsLeft(pc') == (if expired then 4 else 0) && (!expired ==> pc'.AtTest?)
  {
  }

  /**
    A call whose timeout has expired returns at its fifth step, whatever others do in between:
    a writer for good, a reader unless an item has arrived, for which it tries once more.
   */
  lemma TimedOutReturns(s: System, run: seq<Action>, t: Task)
    requires Enabled(s, CheckTimeOut(t, true)) && Runnable(Apply(s, CheckTimeOut(t, true)), run) && OwnSteps(run, t) == 3
    ensures var s1 := Execute(Apply(s, CheckTimeOut(t, true)), run);
      && At(s1, t) == AtGiveUp(At(s, t).call)
      && (MayRun(s1, t) ==>
            At(Apply(s1, GiveUpStep(t)), t) == if At(s, t).call.Reads() && s1.q.count > 0 then AtTry(At(s, t).call) else Outside)
  {
    hide CountsFit, Runnable, Execute;
    var s0 := Apply(s, CheckTimeOut(t, true));
    CheckedTimeOut(s, t, true);
    GivingUpAdvances(s0, run, t);
  }
}
