/**
  The storage area of a queue (queue.c): bytes copied to and from slots around two pointers that
  wrap, pcWriteTo and pcReadFrom. The contents are the slots after pcReadFrom, so the storage is a
  bounded deque; with back-sends only it is a first-in first-out queue.
 */
module QueueStorage {
  import opened ByteSlots

  // ---- Slots in a ring ----

  function Before(r: int, length: int): int { if r == 0 then length - 1 else r - 1 }

  function After(r: int, length: int): int { Turn(r + 1, length) }

  /** The items, oldest first: they start one slot after r. */
  function Contents(slots: seq<Bytes>, r: int, count: int): (s: seq<Bytes>)
    requires 0 <= r < |slots| && 0 <= count <= |slots|
    ensures |s| == count && forall k :: 0 <= k < count ==> s[k] == slots[Turn(After(r, |slots|) + k, |slots|)]
  {
    seq(count, k requires 0 <= k < count => slots[Turn(After(r, |slots|) + k, |slots|)])
  }

  lemma PushBack(slots: seq<Bytes>, r: int, count: int, x: Bytes)
    requires 0 <= r < |slots| && 0 <= count < |slots|
    ensures var w := Turn(After(r, |slots|) + count, |slots|);
      Contents(slots[w := x], r, count + 1) == Contents(slots, r, count) + [x]
  {
  }

  lemma PushFront(slots: seq<Bytes>, r: int, count: int, x: Bytes)
    requires 0 <= r < |slots| && 0 <= count < |slots|
    ensures Contents(slots[r := x], Before(r, |slots|), count + 1) == [x] + Contents(slots, r, count)
  {
    var n := |slots|;
    assert After(Before(r, n), n) == r;
    var a, b := Contents(slots[r := x], Before(r, n), count + 1), [x] + Contents(slots, r, count);
    forall k | 0 <= k < count + 1 ensures a[k] == b[k] {
      if k > 0 {
        assert Turn(r + k, n) == Turn(After(r, n) + (k - 1), n);
      }
    }
  }

  lemma PopFront(slots: seq<Bytes>, r: int, count: int)
    requires 0 <= r < |slots| && 0 < count <= |slots|
    ensures Contents(slots, r, count)[0] == slots[After(r, |slots|)]
    ensures Contents(slots, After(r, |slots|), count - 1) == Contents(slots, r, count)[1..]
  {
    var n := |slots|;
    var a, b := Contents(slots, After(r, n), count - 1), Contents(slots, r, count)[1..];
    forall k | 0 <= k < count - 1 ensures a[k] == b[k] {
      assert Turn(After(After(r, n), n) + k, n) == Turn(After(r, n) + (k + 1), n);
    }
  }

  // ---- Slots in bytes ----

  lemma {:induction false} Multiple(i: int, size: int)
    requires 0 <= i && size > 0
    ensures 0 <= i * size
    decreases i
  {
    if i > 0 {
      Multiple(i - 1, size);
      assert i * size == (i - 1) * size + size;
    }
  }

  lemma SlotBounds(i: int, j: int, size: int)
    requires 0 <= i < j && size > 0
    ensures 0 <= i * size && i * size + size <= j * size
  {
    Multiple(i, size);
    Multiple(j - i - 1, size);
    assert j * size == i * size + size + (j - i - 1) * size;
  }

  function Slot(bytes: Bytes, i: int, length: int, size: int): (s: Bytes)
    requires 0 <= i < length && size > 0 && |bytes| == length * size
    ensures |s| == size
  {
    SlotBounds(i, length, size);
    bytes[i * size..i * size + size]
  }

  function Slots(bytes: Bytes, length: int, size: int): (s: seq<Bytes>)
    requires length >= 0 && size > 0 && |bytes| == length * size
    ensures |s| == length && forall i :: 0 <= i < length ==> s[i] == Slot(bytes, i, length, size)
  {
    seq(length, i requires 0 <= i < length => Slot(bytes, i, length, size))
  }

  /** Overwriting one slot changes that slot only. */
  lemma WriteSlot(bytes: Bytes, i: int, length: int, size: int, x: Bytes)
    requires 0 <= i < length && size > 0 && |bytes| == length * size && |x| == size
    ensures 0 <= i * size && i * size + size <= |bytes|
    ensures var after := bytes[..i * size] + x + bytes[i * size + size..];
      |after| == |bytes| && Slots(after, length, size) == Slots(bytes, length, size)[i := x]
  {
    SlotBounds(i, length, size);
    var after := bytes[..i * size] + x + bytes[i * size + size..];
    forall j | 0 <= j < length ensures Slot(after, j, length, size) == if j == i then x else Slot(bytes, j, length, size) {
      SlotBounds(j, length, size);
      if j < i {
        SlotBounds(j, i, size);
        Spliced(bytes, i * size, x, j * size);
      } else if j > i {
        SlotBounds(i, j, size);
        Spliced(bytes, i * size, x, j * size);
      } else {
        Spliced(bytes, i * size, x, i * size);
      }
    }
  }

  /** Pieces of a sequence into which x was copied. */
  lemma Spliced(bytes: Bytes, at: int, x: Bytes, from: int)
    requires 0 <= at && at + |x| <= |bytes| && 0 <= from && from + |x| <= |bytes|
    requires from == at || from + |x| <= at || at + |x| <= from
    ensures var after := bytes[..at] + x + bytes[at + |x|..];
      |after| == |bytes| && after[from..from + |x|] == if from == at then x else bytes[from..from + |x|]
  {
  }

  datatype Position = Back | Front | Overwrite

  class Storage {
    const length: int
    const itemSize: int
    const storage: array<byte>
    var messagesWaiting: int
    var writeTo: int   // byte offsets from pcHead
    var readFrom: int
    ghost var w: int   // the slots they point at
    ghost var r: int

    ghost predicate Valid()
      reads this
    {
      && length > 0 && itemSize > 0 && storage.Length == length * itemSize
      && 0 <= messagesWaiting <= length && 0 <= r < length
      && w == Turn(After(r, length) + messagesWaiting, length)
      && writeTo == w * itemSize && readFrom == r * itemSize
    }

    ghost function Items(): seq<Bytes>
      requires Valid()
      reads this, storage
    {
      Contents(Slots(storage[..], length, itemSize), r, messagesWaiting)
    }

    /** The storage of a new queue, as xQueueGenericReset sets it up. */
    constructor (length: int, itemSize: int)
      requires length > 0 && itemSize > 0
      ensures Valid() && fresh(storage) && this.length == length && this.itemSize == itemSize && Items() == []
    {
      SlotBounds(0, length, itemSize);
      this.length, this.itemSize := length, itemSize;
      storage := new byte[length * itemSize];
      messagesWaiting, writeTo, readFrom := 0, 0, (length - 1) * itemSize;
      w, r := 0, length - 1;
    }

    /** memcpy into the storage area. */
    method CopyIn(at: int, item: Bytes)
      requires 0 <= at && at + |item| <= storage.Length
      modifies storage
      ensures storage[..] == old(storage[..at]) + item + old(storage[at + |item|..])
    {
      var i := 0;
      while i < |item|
        invariant 0 <= i <= |item|
        invariant forall k :: 0 <= k < storage.Length ==> storage[k] == if at <= k < at + i then item[k - at] else old(storage[k])
      {
        storage[at + i] := item[i];
        i := i + 1;
      }
    }

    /** The pointer one item further, wrapped at pcTail. */
    method Forward(at: int, ghost slot: int) returns (next: int)
      requires Valid() && 0 <= slot < length && at == slot * itemSize
      ensures next == After(slot, length) * itemSize
    {
      next := at + itemSize;
      assert next == (slot + 1) * itemSize;
      if slot + 1 < length {
        SlotBounds(slot + 1, length, itemSize);
      }
      if next >= length * itemSize {
        next := 0;
      }
    }

    method Backward(at: int, ghost slot: int) returns (next: int)
      requires Valid() && 0 <= slot < length && at == slot * itemSize
      ensures next == Before(slot, length) * itemSize
    {
      next := at - itemSize;
      assert next == (slot - 1) * itemSize;
      if slot > 0 {
        SlotBounds(slot - 1, slot, itemSize);
      }
      if next < 0 {
        next := length * itemSize - itemSize;
        assert next == (length - 1) * itemSize;
      }
    }

    /** prvCopyDataToQueue for queues that hold items. */
    method CopyDataToQueue(item: Bytes, position: Position)
      requires Valid() && |item| == itemSize
      requires if position.Overwrite? then length == 1 else messagesWaiting < length
      modifies this, storage
      ensures Valid()
      ensures Items() == match position
                         case Back => old(Items()) + [item]
                         case Front => [item] + old(Items())
                         case Overwrite => [item]
    {
      hide Contents, Slots, After, Before, Turn;
      match position
      case Back => WriteBack(item);
      case Front => WriteFront(item);
      case Overwrite => WriteOver(item);
    }

    /** The bytes of one slot are replaced. */
    method CopyItem(item: Bytes, at: int, ghost slot: int)
      requires length > 0 && itemSize > 0 && storage.Length == length * itemSize
      requires |item| == itemSize && 0 <= slot < length && at == slot * itemSize
      modifies storage
      ensures Slots(storage[..], length, itemSize) == old(Slots(storage[..], length, itemSize))[slot := item]
    {
      WriteSlot(storage[..], slot, length, itemSize, item);
      CopyIn(at, item);
    }

    method WriteBack(item: Bytes)
      requires Valid() && |item| == itemSize && messagesWaiting < length
      modifies this, storage
      ensures Valid() && Items() == old(Items()) + [item]
    {
      hide Contents, Slots;
      PushBack(Slots(storage[..], length, itemSize), r, messagesWaiting, item);
      CopyItem(item, writeTo, w);
      writeTo := Forward(writeTo, w);
      w := After(w, length);
      messagesWaiting := messagesWaiting + 1;
    }

    method WriteFront(item: Bytes)
      requires Valid() && |item| == itemSize && messagesWaiting < length
      modifies this, storage
      ensures Valid() && Items() == [item] + old(Items())
    {
      hide Contents, Slots;
      PushFront(Slots(storage[..], length, itemSize), r, messagesWaiting, item);
      CopyItem(item, readFrom, r);
      readFrom := Backward(readFrom, r);
      r := Before(r, length);
      messagesWaiting := messagesWaiting + 1;
    }

    method WriteOver(item: Bytes)
      requires Valid() && |item| == itemSize && length == 1
      modifies this, storage
      ensures Valid() && Items() == [item]
    {
      CopyItem(item, readFrom, r);
      readFrom := Backward(readFrom, r);
      var waiting := messagesWaiting;
      if waiting > 0 {
        waiting := waiting - 1;
      }
      messagesWaiting := waiting + 1;
    }

    /** prvCopyDataFromQueue */
    method CopyDataFromQueue() returns (item: Bytes)
      requires Valid() && messagesWaiting > 0
      modifies this`readFrom, this`r
      ensures r == After(old(r), length) && readFrom == r * itemSize
      ensures item == old(Items())[0]
    {
      PopFront(Slots(storage[..], length, itemSize), r, messagesWaiting);
      readFrom := Forward(readFrom, r);
      r := After(r, length);
      SlotBounds(r, length, itemSize);
      item := storage[readFrom..readFrom + itemSize];
    }

    /** The accepting part of xQueueReceive. */
    method Receive() returns (item: Bytes)
      requires Valid() && messagesWaiting > 0
      modifies this
      ensures Valid() && [item] + Items() == old(Items())
    {
      PopFront(Slots(storage[..], length, itemSize), r, messagesWaiting);
      item := CopyDataFromQueue();
      messagesWaiting := messagesWaiting - 1;
    }

    /** The accepting part of xQueuePeek: the read pointer is put back. */
    method Peek() returns (item: Bytes)
      requires Valid() && messagesWaiting > 0
      modifies this
      ensures Valid() && item == old(Items())[0] && Items() == old(Items())
    {
      var original := readFrom;
      ghost var slot := r;
      item := CopyDataFromQueue();
      readFrom := original;
      r := slot;
    }

    /** One operation, refused when the queue is full or empty. */
    method Perform(op: Op) returns (out: seq<Bytes>)
      requires Valid() && (op.Send? ==> |op.item| == itemSize)
      modifies this, storage
      ensures Valid() && (Items(), out) == Step(old(Items()), op, length)
    {
      hide Contents, Slots, After, Before, Turn;
      out := [];
      match op
      case Send(item, position) =>
        if (!position.Overwrite? && messagesWaiting < length) || (position.Overwrite? && length == 1) {
          CopyDataToQueue(item, position);
        }
      case Take =>
        if messagesWaiting > 0 {
          var item := Receive();
          out := [item];
        }
      case Look =>
        if messagesWaiting > 0 {
          var _ := Peek();
        }
    }
  }

  // ---- Runs ----

  datatype Op = Send(item: Bytes, position: Position) | Take | Look

  /** One operation on the abstract deque: what it leaves, and what it hands out. */
  function Step(s: seq<Bytes>, op: Op, length: int): (seq<Bytes>, seq<Bytes>) {
    match op
    case Send(x, Back) => if |s| < length then (s + [x], []) else (s, [])
    case Send(x, Front) => if |s| < length then ([x] + s, []) else (s, [])
    case Send(x, Overwrite) => if length == 1 then ([x], []) else (s, [])
    case Take => if s == [] then (s, []) else (s[1..], [s[0]])
    case Look => (s, [])
  }

  predicate Accepted(s: seq<Bytes>, op: Op, length: int) { op.Send? && |s| < length }

  /** A run with back-sends only: the items accepted, the items received, and the contents at the end. */
  function Sent(s: seq<Bytes>, ops: seq<Op>, length: int): seq<Bytes>
    decreases |ops|
  {
    if ops == [] then []
    else (if Accepted(s, ops[0], length) then [ops[0].item] else []) + Sent(Step(s, ops[0], length).0, ops[1..], length)
  }

  function Received(s: seq<Bytes>, ops: seq<Op>, length: int): seq<Bytes>
    decreases |ops|
  {
    if ops == [] then [] else Step(s, ops[0], length).1 + Received(Step(s, ops[0], length).0, ops[1..], length)
  }

  function Left(s: seq<Bytes>, ops: seq<Op>, length: int): seq<Bytes>
    decreases |ops|
  {
    if ops == [] then s else Left(Step(s, ops[0], length).0, ops[1..], length)
  }

  predicate BackOnly(ops: seq<Op>) { forall i :: 0 <= i < |ops| && ops[i].Send? ==> ops[i].position.Back? }

  lemma StepBalances(s: seq<Bytes>, op: Op, length: int)
    requires op.Send? ==> op.position.Back?
    ensures s + (if Accepted(s, op, length) then [op.item] else []) == Step(s, op, length).1 + Step(s, op, length).0
  {
  }

  lemma Regroup(s: seq<Bytes>, first: seq<Bytes>, sent: seq<Bytes>, out: seq<Bytes>, next: seq<Bytes>, received: seq<Bytes>, left: seq<Bytes>)
    requires s + first == out + next && next + sent == received + left
    ensures s + (first + sent) == (out + received) + left
  {
    assert s + (first + sent) == (s + first) + sent;
    assert (out + next) + sent == out + (next + sent);
    assert out + (received + left) == (out + received) + left;
  }

  /** First in, first out: what was there and what was accepted is what was received and what is left. */
  lemma {:induction false} FirstInFirstOut(s: seq<Bytes>, ops: seq<Op>, length: int)
    requires BackOnly(ops)
    ensures s + Sent(s, ops, length) == Received(s, ops, length) + Left(s, ops, length)
    decreases |ops|
  {
    if ops != [] {
      var op, next := ops[0], Step(s, ops[0], length);
      FirstInFirstOut(next.0, ops[1..], length);
      var sent, received, left := Sent(next.0, ops[1..], length), Received(next.0, ops[1..], length), Left(next.0, ops[1..], length);
      var first := if Accepted(s, op, length) then [op.item] else [];
      StepBalances(s, op, length);
      Regroup(s, first, sent, next.1, next.0, received, left);
    }
  }

  // ---- Sending to the front, and overwriting ----

  /** An item sent to the front of a queue with room is received next; an overwritten one is the only one left. */
  lemma UrgentIsNext(s: seq<Bytes>, x: Bytes, length: int)
    ensures |s| < length ==> Step(Step(s, Send(x, Front), length).0, Take, length) == (s, [x])
    ensures |s| >= length ==> Step(s, Send(x, Front), length) == (s, [])
    ensures length == 1 ==> Step(Step(s, Send(x, Overwrite), length).0, Take, length) == ([], [x])
    ensures Step(s, Look, length) == (s, [])
  {
    assert ([x] + s)[1..] == s && [x][1..] == [];
  }

  predicate NoOverwrite(ops: seq<Op>) { forall i :: 0 <= i < |ops| && ops[i].Send? ==> !ops[i].position.Overwrite? }

  lemma StepConserves(s: seq<Bytes>, op: Op, length: int)
    requires op.Send? ==> !op.position.Overwrite?
    ensures multiset(s) + multiset(if Accepted(s, op, length) then [op.item] else []) == multiset(Step(s, op, length).1) + multiset(Step(s, op, length).0)
  {
    if op.Take? && s != [] {
      assert s == [s[0]] + s[1..];
    }
  }

  lemma Recount(s: multiset<Bytes>, first: multiset<Bytes>, sent: multiset<Bytes>, out: multiset<Bytes>, next: multiset<Bytes>, received: multiset<Bytes>, left: multiset<Bytes>)
    requires s + first == out + next && next + sent == received + left
    ensures s + (first + sent) == (out + received) + left
  {
    assert s + (first + sent) == (out + next) + sent == out + (received + left);
  }

  /** Whatever the positions, what was there and what was accepted is what was received and what is left. */
  lemma {:induction false} NothingIsLost(s: seq<Bytes>, ops: seq<Op>, length: int)
    requires NoOverwrite(ops)
    ensures multiset(s) + multiset(Sent(s, ops, length)) == multiset(Received(s, ops, length)) + multiset(Left(s, ops, length))
    decreases |ops|
  {
    hide Step;
    if ops != [] {
      StepConserves(s, ops[0], length);
      var op, next := ops[0], Step(s, ops[0], length);
      var first := if Accepted(s, op, length) then [op.item] else [];
      var sent, received, left := Sent(next.0, ops[1..], length), Received(next.0, ops[1..], length), Left(next.0, ops[1..], length);
      NothingIsLost(next.0, ops[1..], length);
      assert Sent(s, ops, length) == first + sent && Received(s, ops, length) == next.1 + received;
      Recount(multiset(s), multiset(first), multiset(sent), multiset(next.1), multiset(next.0), multiset(received), multiset(left));
    }
  }
}
