/**
  The lock protocol of a queue (queue.c) and the blocking calls built on it.

  `QueueState` holds the fields of `Queue_t` that decide who waits and who is
  woken.  Each function on it is one critical section of queue.c.  `Queue` is the
  same code as it stands in the source, updating fields in place.  `System` is a
  whole machine: any number of tasks, each at some point inside a blocking call,
  interleaved with interrupts between any two critical sections.
 */
module QueueProtocol {

  type Task = int

  const QUEUE_UNLOCKED := -1
  const QUEUE_LOCKED_UNMODIFIED := 0

  /** The cast back to `int8_t` that follows every increment of a lock count. */
  function Int8(x: int): int {
    if x > 127 then x - 256 else x
  }

  function Positive(x: int): nat {
    if x > 0 then x else 0
  }

  function Min(a: nat, b: nat): nat {
    if a <= b then a else b
  }

  datatype QueueState = QueueState(
    length: nat, count: nat, rxLock: int, txLock: int,
    waitRecv: seq<Task>, waitSend: seq<Task>)
  {
    function Free(): int { length - count }

    function WakeReceiver(): QueueState {
      if waitRecv == [] then this else this.(waitRecv := waitRecv[1..])
    }

    function WakeSender(): QueueState {
      if waitSend == [] then this else this.(waitSend := waitSend[1..])
    }

    predicate HasRoom(overwrite: bool) { count < length || overwrite }

    /** The count after prvCopyDataToQueue: an overwrite of a full queue adds nothing. */
    function CountAfterSend(overwrite: bool): nat {
      if overwrite && count > 0 then count else count + 1
    }

    /** Accepting part of xQueueGenericSend. */
    function Send(overwrite: bool): QueueState {
      this.(count := CountAfterSend(overwrite)).WakeReceiver()
    }

    /** Accepting part of xQueueReceive and of xQueueSemaphoreTake. */
    function Receive(): QueueState
      requires count > 0
    {
      this.(count := count - 1).WakeSender()
    }

    /** Accepting part of xQueuePeek: the item stays, so the next reader is woken. */
    function Peek(): QueueState {
      WakeReceiver()
    }

    function SendFromIsr(overwrite: bool): QueueState {
      if !HasRoom(overwrite) then this
      else if txLock == QUEUE_UNLOCKED then Send(overwrite)
      else this.(count := CountAfterSend(overwrite), txLock := Int8(txLock + 1))
    }

    function ReceiveFromIsr(): QueueState {
      if count == 0 then this
      else if rxLock == QUEUE_UNLOCKED then Receive()
      else this.(count := count - 1, rxLock := Int8(rxLock + 1))
    }

    function Lock(): QueueState {
      this.(rxLock := if rxLock == QUEUE_UNLOCKED then QUEUE_LOCKED_UNMODIFIED else rxLock,
            txLock := if txLock == QUEUE_UNLOCKED then QUEUE_LOCKED_UNMODIFIED else txLock)
    }

    /** How many receivers prvUnlockQueue releases: one per locked send, while any wait. */
    function ReceiversReleased(): nat { Min(Positive(txLock), |waitRecv|) }
    function SendersReleased(): nat { Min(Positive(rxLock), |waitSend|) }

    function UnlockTx(): QueueState {
      this.(txLock := QUEUE_UNLOCKED, waitRecv := waitRecv[ReceiversReleased()..])
    }

    function UnlockRx(): QueueState {
      this.(rxLock := QUEUE_UNLOCKED, waitSend := waitSend[SendersReleased()..])
    }

    /** xQueueGenericReset on a queue in use: it unblocks at most one sender. */
    function Reset(): QueueState {
      this.(count := 0, rxLock := QUEUE_UNLOCKED, txLock := QUEUE_UNLOCKED).WakeSender()
    }
  }

  /** Queue_t as it is updated in place. */
  class Queue {
    const length: nat
    var count: nat
    var rxLock: int
    var txLock: int
    var waitRecv: seq<Task>
    var waitSend: seq<Task>

    ghost function State(): QueueState
      reads this
    {
      QueueState(length, count, rxLock, txLock, waitRecv, waitSend)
    }

    constructor (length: nat)
      ensures State() == QueueState(length, 0, QUEUE_UNLOCKED, QUEUE_UNLOCKED, [], [])
    {
      this.length := length;
      count, rxLock, txLock := 0, QUEUE_UNLOCKED, QUEUE_UNLOCKED;
      waitRecv, waitSend := [], [];
    }

    /** xTaskRemoveFromEventList on the list of waiting receivers. */
    method RemoveFromWaitingToReceive() returns (woken: Task)
      requires waitRecv != []
      modifies this`waitRecv
      ensures [woken] + waitRecv == old(waitRecv)
    {
      woken := waitRecv[0];
      waitRecv := waitRecv[1..];
    }

    method RemoveFromWaitingToSend() returns (woken: Task)
      requires waitSend != []
      modifies this`waitSend
      ensures [woken] + waitSend == old(waitSend)
    {
      woken := waitSend[0];
      waitSend := waitSend[1..];
    }

    /** The accepting critical section of xQueueGenericSend. */
    method TrySend(overwrite: bool) returns (sent: bool)
      modifies this
      ensures sent == old(State()).HasRoom(overwrite)
      ensures State() == if sent then old(State()).Send(overwrite) else old(State())
    {
      sent := count < length || overwrite;
      if sent {
        if !(overwrite && count > 0) {
          count := count + 1;
        }
        if waitRecv != [] {
          var _ := RemoveFromWaitingToReceive();
        }
      }
    }

    /** The accepting critical section of xQueueReceive. */
    method TryReceive() returns (received: bool)
      modifies this
      ensures received == (old(count) > 0)
      ensures State() == if received then old(State()).Receive() else old(State())
    {
      received := count > 0;
      if received {
        count := count - 1;
        if waitSend != [] {
          var _ := RemoveFromWaitingToSend();
        }
      }
    }

    /** The accepting critical section of xQueuePeek. */
    method TryPeek() returns (peeked: bool)
      modifies this
      ensures peeked == (old(count) > 0)
      ensures State() == if peeked then old(State()).Peek() else old(State())
    {
      peeked := count > 0;
      if peeked {
        if waitRecv != [] {
          var _ := RemoveFromWaitingToReceive();
        }
      }
    }

    method SendFromIsr(overwrite: bool) returns (sent: bool)
      modifies this
      ensures State() == old(State()).SendFromIsr(overwrite)
      ensures sent == old(State()).HasRoom(overwrite)
    {
      sent := count < length || overwrite;
      if sent {
        var lockCount := txLock;
        if !(overwrite && count > 0) {
          count := count + 1;
        }
        if lockCount == QUEUE_UNLOCKED {
          if waitRecv != [] {
            var _ := RemoveFromWaitingToReceive();
          }
        } else {
          txLock := Int8(lockCount + 1);
        }
      }
    }

    method ReceiveFromIsr() returns (received: bool)
      modifies this
      ensures State() == old(State()).ReceiveFromIsr()
      ensures received == (old(count) > 0)
    {
      received := count > 0;
      if received {
        var lockCount := rxLock;
        count := count - 1;
        if lockCount == QUEUE_UNLOCKED {
          if waitSend != [] {
            var _ := RemoveFromWaitingToSend();
          }
        } else {
          rxLock := Int8(lockCount + 1);
        }
      }
    }

    method Lock()
      modifies this`rxLock, this`txLock
      ensures State() == old(State()).Lock()
    {
      if rxLock == QUEUE_UNLOCKED {
        rxLock := QUEUE_LOCKED_UNMODIFIED;
      }
      if txLock == QUEUE_UNLOCKED {
        txLock := QUEUE_LOCKED_UNMODIFIED;
      }
    }

    /** First critical section of prvUnlockQueue; `woken` lists whom it released. */
    method UnlockTx() returns (woken: seq<Task>)
      modifies this`txLock, this`waitRecv
      ensures State() == old(State()).UnlockTx()
      ensures woken + waitRecv == old(waitRecv)
      ensures |woken| == old(State()).ReceiversReleased()
    {
      var lockCount := txLock;
      woken := [];
      while lockCount > QUEUE_LOCKED_UNMODIFIED
        invariant woken + waitRecv == old(waitRecv)
        invariant |woken| <= Positive(txLock)
        invariant txLock == old(txLock) && lockCount == txLock - |woken|
      {
        if waitRecv == [] {
          break;
        }
        var t := RemoveFromWaitingToReceive();
        woken := woken + [t];
        lockCount := lockCount - 1;
      }
      assert |woken| == old(State()).ReceiversReleased();
      assert waitRecv == old(waitRecv)[|woken|..];
      txLock := QUEUE_UNLOCKED;
    }

    /** Second critical section of prvUnlockQueue. */
    method UnlockRx() returns (woken: seq<Task>)
      modifies this`rxLock, this`waitSend
      ensures State() == old(State()).UnlockRx()
      ensures woken + waitSend == old(waitSend)
      ensures |woken| == old(State()).SendersReleased()
    {
      var lockCount := rxLock;
      woken := [];
      while lockCount > QUEUE_LOCKED_UNMODIFIED
        invariant woken + waitSend == old(waitSend)
        invariant |woken| <= Positive(rxLock)
        invariant rxLock == old(rxLock) && lockCount == rxLock - |woken|
      {
        if waitSend == [] {
          break;
        }
        var t := RemoveFromWaitingToSend();
        woken := woken + [t];
        lockCount := lockCount - 1;
      }
      assert |woken| == old(State()).SendersReleased();
      assert waitSend == old(waitSend)[|woken|..];
      rxLock := QUEUE_UNLOCKED;
    }

    method Reset()
      modifies this
      ensures State() == old(State()).Reset()
    {
      count, rxLock, txLock := 0, QUEUE_UNLOCKED, QUEUE_UNLOCKED;
      if waitSend != [] {
        var _ := RemoveFromWaitingToSend();
      }
    }
  }
}
