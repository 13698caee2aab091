/**
  The in-place form of the mutex paths: a task control block and a mutex as mutable objects.
  `Represents` says that a mutex object and the control blocks it refers to hold what a `System`
  of the theorems says of that mutex; each method takes a represented state to the represented
  result of the corresponding function.
 */
module MutexObjects {
  import opened Options
  import opened Mutexes
  import opened MutexTheorems

  class TaskControlBlock {
    const id: Task  // its address
    var base: int
    var priority: int
    var held: int
    var eventValue: int

    constructor (id: Task, initial: int)
      ensures this.id == id && State() == Tcb(initial, initial, 0, MAX_PRIORITIES - initial)
    {
      this.id := id;
      base, priority, held, eventValue := initial, initial, 0, MAX_PRIORITIES - initial;
    }

    function State(): Tcb
      reads this
    {
      Tcb(base, priority, held, eventValue)
    }

    /** xTaskPriorityInherit for a holder that exists, called by a task of the given priority. */
    method PriorityInherit(caller: int) returns (occurred: bool)
      modifies this
      ensures State() == Inherit(old(State()), caller)
      ensures occurred == Inherited(old(State()), caller)
    {
      occurred := false;
      if priority < caller {
        eventValue := MAX_PRIORITIES - caller;
        priority := caller;
        occurred := true;
      } else if base < caller {
        occurred := true;
      }
    }

    /** xTaskPriorityDisinherit; the result asks for a context switch. */
    method PriorityDisinherit() returns (yieldRequired: bool)
      modifies this
      ensures State() == Disinherit(old(State()))
      ensures yieldRequired <==> State().priority != old(State()).priority
    {
      yieldRequired := false;
      held := held - 1;
      if priority != base {
        if held == 0 {
          priority := base;
          eventValue := MAX_PRIORITIES - priority;
          yieldRequired := true;
        }
      }
    }

    /** vTaskPriorityDisinheritAfterTimeout for a holder that exists. */
    method PriorityDisinheritAfterTimeout(highestWaiting: int)
      modifies this
      ensures State() == DisinheritAfterTimeout(old(State()), highestWaiting)
    {
      var priorityToUse := base;
      if base < highestWaiting {
        priorityToUse := highestWaiting;
      }
      if priority != priorityToUse {
        if held == 1 {
          priority := priorityToUse;
          eventValue := MAX_PRIORITIES - priorityToUse;
        }
      }
    }
  }

  function Ids(ws: seq<TaskControlBlock>): (r: seq<Task>)
    ensures |r| == |ws| && forall i :: 0 <= i < |ws| ==> r[i] == ws[i].id
  {
    seq(|ws|, i requires 0 <= i < |ws| => ws[i].id)
  }

  lemma IdsTail(ws: seq<TaskControlBlock>)
    ensures ws != [] ==> Ids(ws[1..]) == Ids(ws)[1..] && Ids(ws) != []
    ensures ws == [] ==> Ids(ws) == []
  {
  }

  /** The block holds what the system says of the task. */
  ghost predicate Agrees(s: System, x: TaskControlBlock)
    reads x
  {
    s.TcbOf(x.id) == x.State()
  }

  ghost predicate AllAgree(s: System, ws: seq<TaskControlBlock>)
    reads ws
  {
    forall w :: w in ws ==> Agrees(s, w)
  }

  /** No other block in sight has x's address. */
  predicate Alone(x: TaskControlBlock, ws: seq<TaskControlBlock>) {
    forall w :: w in ws && w.id == x.id ==> w == x
  }

  /** The search of vListInsert ends where InsertByValue inserts. */
  lemma {:induction false} PlaceIsInsertByValue(w: seq<Task>, t: Task, s: System, position: nat)
    requires position <= |w| && forall i :: 0 <= i < position ==> s.TcbOf(w[i]).eventValue <= s.TcbOf(t).eventValue
    requires position < |w| ==> s.TcbOf(t).eventValue < s.TcbOf(w[position]).eventValue
    ensures InsertByValue(w, t, s) == w[..position] + [t] + w[position..]
  {
    hide System.TcbOf;
    if position > 0 {
      PlaceIsInsertByValue(w[1..], t, s, position - 1);
      assert w[..position] == [w[0]] + w[1..][..position - 1] && w[position..] == w[1..][position - 1..];
    }
  }

  /** The fields of a Queue_t of type mutex, with its wait list. */
  class MutexQueue {
    var holder: TaskControlBlock?
    var messagesWaiting: int
    var recursiveCallCount: int
    var waitingToReceive: seq<TaskControlBlock>

    /** prvInitialiseMutex: created free, through one initial send. */
    constructor ()
      ensures holder == null && messagesWaiting == 1 && recursiveCallCount == 0 && waitingToReceive == []
    {
      holder, messagesWaiting, recursiveCallCount, waitingToReceive := null, 1, 0, [];
    }

    /** The blocks that the mutex refers to. */
    ghost function InSight(): seq<TaskControlBlock>
      reads this
    {
      waitingToReceive + if holder == null then [] else [holder]
    }

    /** The fields of the mutex, in the theorems' terms. */
    ghost predicate SameFields(mutex: Mutex)
      reads this
    {
      && mutex.holder == (if holder == null then None else Some(holder.id)) && mutex.count == messagesWaiting
      && mutex.recursion == recursiveCallCount && mutex.waiters == Ids(waitingToReceive)
    }

    ghost predicate Represents(s: System, m: MutexId)
      reads this, waitingToReceive, holder
    {
      SameFields(s.MutexOf(m)) && AllAgree(s, InSight())
    }

    /** The first critical section of xQueueSemaphoreTake. */
    method TryTake(current: TaskControlBlock, ghost s: System, ghost m: MutexId) returns (taken: bool)
      requires Represents(s, m) && Agrees(s, current) && Alone(current, InSight())
      modifies this, current
      ensures taken == (old(messagesWaiting) > 0) && waitingToReceive == old(waitingToReceive)
      ensures taken ==> holder == current && Represents(Take(s, current.id, m), m)
      ensures !taken ==> holder == old(holder) && Represents(s, m) && Agrees(s, current)
    {
      TakeView(s, current.id, m);
      hide Take, System.TcbOf, System.MutexOf, Ids;
      ghost var all := InSight();
      taken := messagesWaiting > 0;
      if taken {
        messagesWaiting := messagesWaiting - 1;
        current.held := current.held + 1;
        assert forall w :: w in all + [current] ==> Agrees(Take(s, current.id, m), w);
        assert forall w :: w in waitingToReceive ==> w in all;
        holder := current;
      }
    }

    /** Inherit, then vTaskPlaceOnEventList: walk past every waiter whose value is not greater. */
    method BlockOn(current: TaskControlBlock, ghost s: System, ghost m: MutexId) returns (occurred: bool)
      requires Represents(s, m) && Agrees(s, current)
      requires Alone(current, InSight()) && (holder != null ==> Alone(holder, waitingToReceive + [current]))
      modifies this, holder
      ensures occurred == old(holder != null && Inherited(holder.State(), current.priority))
      ensures holder == old(holder)
      ensures holder != null ==> Represents(Block(s, current.id, m), m)
      ensures |waitingToReceive| == |old(waitingToReceive)| + 1 && current in waitingToReceive
    {
      ghost var s1 := if holder == null then s else AfterInherit(s, m, current.priority);
      hide Block, System.TcbOf, System.MutexOf, Ids, SameFields, AllAgree, Agrees;
      occurred := Inherit(current, s, m);
      var position := FindPlace(current);
      if holder != null {
        BlockRepresented(current, s, s1, m, position);
      }
      LinkWaiter(current, position, if holder == null then s1 else Block(s, current.id, m), m);
    }

    /** The pointer surgery of the insertion, given the system that names the result. */
    method LinkWaiter(current: TaskControlBlock, position: nat, ghost s: System, ghost m: MutexId)
      requires position <= |waitingToReceive| && AllAgree(s, InSight()) && Agrees(s, current)
      modifies this`waitingToReceive
      ensures waitingToReceive == old(waitingToReceive)[..position] + [current] + old(waitingToReceive)[position..]
      ensures AllAgree(s, InSight())
      ensures Ids(waitingToReceive) == Ids(old(waitingToReceive))[..position] + [current.id] + Ids(old(waitingToReceive))[position..]
    {
      var before := waitingToReceive;
      assert before == before[..position] + before[position..];
      waitingToReceive := before[..position] + [current] + before[position..];
    }

    /** What the search found, in the theorems' terms. */
    lemma BlockRepresented(current: TaskControlBlock, s: System, s1: System, m: MutexId, position: nat)
      requires holder != null && s.MutexOf(m).holder == Some(holder.id) && Represents(s1, m) && Agrees(s1, current)
      requires s1 == s.SetTcb(holder.id, Mutexes.Inherit(s.TcbOf(holder.id), s.TcbOf(current.id).priority))
      requires position <= |waitingToReceive|
      requires forall i :: 0 <= i < position ==> waitingToReceive[i].eventValue <= current.eventValue
      requires position < |waitingToReceive| ==> current.eventValue < waitingToReceive[position].eventValue
      ensures var s', ids := Block(s, current.id, m), Ids(waitingToReceive);
        && AllAgree(s', InSight()) && Agrees(s', current)
        && s'.MutexOf(m) == s1.MutexOf(m).(waiters := ids[..position] + [current.id] + ids[position..])
    {
      assert s1.MutexOf(m) == s.MutexOf(m);
      forall i | 0 <= i < |waitingToReceive| ensures s1.TcbOf(waitingToReceive[i].id) == waitingToReceive[i].State() {
        assert waitingToReceive[i] in InSight() && Agrees(s1, waitingToReceive[i]);
      }
      hide System.TcbOf, System.MutexOf, Block, Ids;
      BlockIsInsertion(s, s1, current, m, position);
    }

    ghost function AfterInherit(s: System, m: MutexId, caller: int): System
      requires holder != null
      reads this
    {
      s.SetTcb(holder.id, Mutexes.Inherit(s.TcbOf(holder.id), caller))
    }

    /** The call of xTaskPriorityInherit, whose holder may be NULL. */
    method Inherit(current: TaskControlBlock, ghost s: System, ghost m: MutexId) returns (occurred: bool)
      requires Represents(s, m) && Agrees(s, current) && (holder != null ==> Alone(holder, waitingToReceive + [current]))
      modifies holder
      ensures occurred == (holder != null && Inherited(old(holder.State()), old(current.priority)))
      ensures var s1 := if holder == null then s else AfterInherit(s, m, old(current.priority));
        Represents(s1, m) && Agrees(s1, current)
    {
      occurred := false;
      if holder != null {
        assert current in waitingToReceive + [current];
        occurred := holder.PriorityInherit(current.priority);
      }
    }

    /** The search of vListInsert. */
    method FindPlace(current: TaskControlBlock) returns (position: nat)
      ensures position <= |waitingToReceive|
      ensures forall i :: 0 <= i < position ==> waitingToReceive[i].eventValue <= current.eventValue
      ensures position < |waitingToReceive| ==> current.eventValue < waitingToReceive[position].eventValue
    {
      position := 0;
      while position < |waitingToReceive| && waitingToReceive[position].eventValue <= current.eventValue
        invariant 0 <= position <= |waitingToReceive|
        invariant forall i :: 0 <= i < position ==> waitingToReceive[i].eventValue <= current.eventValue
      {
        position := position + 1;
      }
    }

    /** xQueueGenericSend by the holder: prvCopyDataToQueue disinherits and frees, then the head is woken. */
    method Return(current: TaskControlBlock, ghost s: System, ghost m: MutexId) returns (woken: TaskControlBlock?)
      requires holder == current && Represents(s, m) && Alone(current, InSight())
      modifies this, current
      ensures Represents(Give(s, current.id, m), m) && holder == null && Agrees(Give(s, current.id, m), current)
      ensures if old(waitingToReceive) == [] then woken == null else woken == old(waitingToReceive)[0]
    {
      GiveView(s, current.id, m);
      hide Give, System.TcbOf, System.MutexOf, System.PhaseOf, Ids;
      assert current in InSight();
      IdsTail(waitingToReceive);
      ghost var all := InSight();
      var _ := current.PriorityDisinherit();
      assert forall w :: w in all ==> Agrees(Give(s, current.id, m), w);
      holder := null;
      messagesWaiting := messagesWaiting + 1;
      woken := null;
      if waitingToReceive != [] {
        woken := waitingToReceive[0];
        waitingToReceive := waitingToReceive[1..];
      }
    }

    /** The last critical section of a take that timed out. */
    method AfterTimeout(ghost s: System, ghost m: MutexId)
      requires Represents(s, m) && (holder != null ==> Alone(holder, waitingToReceive))
      modifies holder
      ensures if holder == null then Represents(s, m) else Represents(Lowered(s, m, holder.id), m)
    {
      var highestWaiting := IDLE_PRIORITY as int;
      if |waitingToReceive| > 0 {
        highestWaiting := MAX_PRIORITIES - waitingToReceive[0].eventValue;
        assert waitingToReceive[0] in InSight();
      }
      assert highestWaiting == HighestWaiting(s, m);
      if holder != null {
        LoweredView(s, m, holder.id);
        assert holder in InSight();
        hide Lowered, HighestWaiting, System.TcbOf, System.MutexOf;
        holder.PriorityDisinheritAfterTimeout(highestWaiting);
      }
    }

    /** xQueueTakeMutexRecursive, up to the point where it would block. */
    method TryTakeRecursive(current: TaskControlBlock, ghost s: System, ghost m: MutexId) returns (pass: bool)
      requires Represents(s, m) && Agrees(s, current) && Alone(current, InSight())
      modifies this, current
      ensures pass <==> old(holder) == current || old(messagesWaiting) > 0
      ensures pass ==>
        Represents(Recurse(if old(holder) == current then s else Take(s, current.id, m), m, 1, Took(current.id, m)), m)
      ensures !pass ==> Represents(s, m)
    {
      hide Take, Recurse, System.TcbOf, System.MutexOf;
      ghost var s1 := if holder == current then s else Take(s, current.id, m);
      pass := holder == current;
      if !pass {
        pass := TryTake(current, s, m);
      }
      if pass {
        Count(s1, m, 1, Took(current.id, m));
      }
    }

    /** The change of uxRecursiveCallCount. */
    method Count(ghost s: System, ghost m: MutexId, change: int, ghost call: RecursiveCall)
      requires Represents(s, m)
      modifies this`recursiveCallCount
      ensures Represents(Recurse(s, m, change, call), m) && recursiveCallCount == old(recursiveCallCount) + change
    {
      assert forall u :: Recurse(s, m, change, call).TcbOf(u) == s.TcbOf(u);
      recursiveCallCount := recursiveCallCount + change;
    }

    /** xQueueGiveMutexRecursive */
    method GiveRecursive(current: TaskControlBlock, ghost s: System, ghost m: MutexId) returns (pass: bool, woken: TaskControlBlock?)
      requires Represents(s, m) && Alone(current, InSight())
      modifies this, current
      ensures pass <==> old(holder) == current
      ensures !pass ==> Represents(s, m)
      ensures pass ==>
        var s1 := Recurse(s, m, -1, Gave(current.id, m));
        Represents(if old(recursiveCallCount) == 1 then Give(s1, current.id, m) else s1, m)
    {
      hide Give, Recurse, System.TcbOf, System.MutexOf;
      woken := null;
      pass := holder == current;
      if pass {
        Count(s, m, -1, Gave(current.id, m));
        if recursiveCallCount == 0 {
          woken := Return(current, Recurse(s, m, -1, Gave(current.id, m)), m);
        }
      }
    }
  }

  /** The wait list after blocking, as the theorems have it. */
  lemma BlockIsInsertion(s: System, s1: System, current: TaskControlBlock, m: MutexId, position: nat)
    requires s.MutexOf(m).holder.Some?
    requires var h := s.MutexOf(m).holder.value; s1 == s.SetTcb(h, Inherit(s.TcbOf(h), s.TcbOf(current.id).priority))
    requires position <= |s.MutexOf(m).waiters|
    requires var w := s.MutexOf(m).waiters;
      && (forall i :: 0 <= i < position ==> s1.TcbOf(w[i]).eventValue <= s1.TcbOf(current.id).eventValue)
      && (position < |w| ==> s1.TcbOf(current.id).eventValue < s1.TcbOf(w[position]).eventValue)
    ensures var s', mutex := Block(s, current.id, m), s.MutexOf(m);
      && s'.MutexOf(m) == mutex.(waiters := mutex.waiters[..position] + [current.id] + mutex.waiters[position..])
      && forall u :: s'.TcbOf(u) == s1.TcbOf(u)
  {
    PlaceIsInsertByValue(s.MutexOf(m).waiters, current.id, s1, position);
  }
}
