/**
  The byte ring of stream_buffer.c: one slot is always left free, so head == tail means empty.
  Writes and reads copy in up to two pieces and then publish by updating one index.
 */
module StreamBuffers {
  import opened ByteSlots

  function Min(a: int, b: int): int { if a <= b then a else b }

  /** prvBytesInBuffer */
  function BytesBetween(tail: int, head: int, length: int): (n: int)
    requires 0 <= tail < length && 0 <= head < length
    ensures 0 <= n < length && Turn(tail + n, length) == head
  {
    var count := length + head - tail;
    if count >= length then count - length else count
  }

  /** xStreamBufferSpacesAvailable */
  function SpaceBetween(tail: int, head: int, length: int): (n: int)
    requires 0 <= tail < length && 0 <= head < length
    ensures n == length - 1 - BytesBetween(tail, head, length)
  {
    var space := length + tail - head - 1;
    if space >= length then space - length else space
  }

  /** count bytes from the tail on. */
  function RingBytes(ring: Bytes, tail: int, count: int): (s: Bytes)
    requires 0 <= tail < |ring| && 0 <= count <= |ring|
    ensures |s| == count && forall k :: 0 <= k < count ==> s[k] == ring[Turn(tail + k, |ring|)]
  {
    seq(count, k requires 0 <= k < count => ring[Turn(tail + k, |ring|)])
  }

  /** How far index i lies past `at`, going round. */
  function Offset(at: int, i: int, length: int): int { if i >= at then i - at else i + length - at }

  /** The ring after data was laid down from `at` on, going round. */
  function Overlaid(ring: Bytes, at: int, data: Bytes): (r: Bytes)
    requires 0 <= at < |ring|
    ensures |r| == |ring|
    ensures forall i :: 0 <= i < |ring| ==> r[i] == var k := Offset(at, i, |ring|); if k < |data| then data[k] else ring[i]
  {
    seq(|ring|, i requires 0 <= i < |ring| =>
      var k := Offset(at, i, |ring|); if 0 <= k < |data| then data[k] else ring[i])
  }

  /** Bytes laid down just past the contents extend them. */
  lemma WriteExtends(ring: Bytes, tail: int, count: int, data: Bytes)
    requires 0 <= tail < |ring| && 0 <= count && count + |data| < |ring|
    ensures RingBytes(Overlaid(ring, Turn(tail + count, |ring|), data), tail, count + |data|) == RingBytes(ring, tail, count) + data
  {
    var n, head := |ring|, Turn(tail + count, |ring|);
    var a, b := RingBytes(Overlaid(ring, head, data), tail, count + |data|), RingBytes(ring, tail, count) + data;
    forall k | 0 <= k < count + |data| ensures a[k] == b[k] {
      var i := Turn(tail + k, n);
      assert Offset(head, i, n) == if k >= count then k - count else n - count + k;
    }
  }

  /** Reading goes round in two pieces. */
  lemma ReadWraps(ring: Bytes, tail: int, count: int)
    requires 0 <= tail < |ring| && 0 <= count <= |ring|
    ensures tail + count <= |ring| ==> RingBytes(ring, tail, count) == ring[tail..tail + count]
    ensures tail + count > |ring| ==> RingBytes(ring, tail, count) == ring[tail..] + ring[..tail + count - |ring|]
  {
  }

  lemma ReadDrops(ring: Bytes, tail: int, count: int, taken: int)
    requires 0 <= tail < |ring| && 0 <= taken <= count < |ring|
    ensures RingBytes(ring, tail, taken) == RingBytes(ring, tail, count)[..taken]
    ensures RingBytes(ring, Turn(tail + taken, |ring|), count - taken) == RingBytes(ring, tail, count)[taken..]
  {
    var n := |ring|;
    var a, b := RingBytes(ring, Turn(tail + taken, n), count - taken), RingBytes(ring, tail, count)[taken..];
    forall k | 0 <= k < count - taken ensures a[k] == b[k] {
      assert Turn(Turn(tail + taken, n) + k, n) == Turn(tail + (taken + k), n);
    }
  }

  // ---- Message lengths ----

  /** sbBYTES_TO_STORE_MESSAGE_LENGTH */
  const HEADER: int := 4

  /** A size_t as memcpy sees it on a little-endian machine. */
  function Encode(n: int): (s: Bytes)
    requires 0 <= n < 0x1_0000_0000
    ensures |s| == HEADER
  {
    [(n % 0x100) as byte, (n / 0x100 % 0x100) as byte, (n / 0x1_0000 % 0x100) as byte, (n / 0x100_0000) as byte]
  }

  function Decode(s: Bytes): (n: int)
    requires |s| == HEADER
    ensures 0 <= n < 0x1_0000_0000
  {
    s[0] as int + s[1] as int * 0x100 + s[2] as int * 0x1_0000 + s[3] as int * 0x100_0000
  }

  lemma Halves(n: int)
    requires 0 <= n
    ensures n / 0x100 / 0x100 == n / 0x1_0000 && n / 0x1_0000 / 0x100 == n / 0x100_0000
  {
  }

  lemma Digits(n: int)
    requires 0 <= n
    ensures n % 0x100 + n / 0x100 % 0x100 * 0x100 + n / 0x1_0000 % 0x100 * 0x1_0000 + n / 0x100_0000 * 0x100_0000 == n
  {
    var a, b, c := n / 0x100, n / 0x1_0000, n / 0x100_0000;
    Halves(n);
    assert n == n % 0x100 + a * 0x100;
    assert a == a % 0x100 + b * 0x100;
    assert b == b % 0x100 + c * 0x100;
  }

  lemma LengthRoundTrip(n: int)
    requires 0 <= n < 0x1_0000_0000
    ensures Decode(Encode(n)) == n
  {
    Digits(n);
  }

  function Frame(message: Bytes): (s: Bytes)
    requires |message| < 0x1_0000_0000
    ensures |s| == HEADER + |message| && s[..HEADER] == Encode(|message|) && s[HEADER..] == message
  {
    Encode(|message|) + message
  }

  class StreamBuffer {
    const length: int
    const buffer: array<byte>
    const isMessageBuffer: bool
    var head: int
    var tail: int

    ghost predicate Valid()
      reads this
    {
      length > 1 && buffer.Length == length && 0 <= head < length && 0 <= tail < length
    }

    function BytesInBuffer(): int
      requires Valid()
      reads this
    {
      BytesBetween(tail, head, length)
    }

    function SpacesAvailable(): int
      requires Valid()
      reads this
    {
      SpaceBetween(tail, head, length)
    }

    ghost function Contents(): (s: Bytes)
      requires Valid()
      reads this, buffer
      ensures |s| == BytesInBuffer()
    {
      RingBytes(buffer[..], tail, BytesInBuffer())
    }

    /** Created with one byte more than asked for, so that all of them can be used. */
    constructor (size: int, isMessageBuffer: bool)
      requires size > 0
      ensures Valid() && fresh(buffer) && length == size + 1 && this.isMessageBuffer == isMessageBuffer
      ensures Contents() == [] && SpacesAvailable() == size
    {
      length, this.isMessageBuffer := size + 1, isMessageBuffer;
      buffer := new byte[size + 1];
      head, tail := 0, 0;
    }

    /** memcpy into the storage area. */
    method CopyIn(at: int, data: Bytes)
      requires 0 <= at && at + |data| <= buffer.Length
      modifies buffer
      ensures forall k :: 0 <= k < buffer.Length ==> buffer[k] == if at <= k < at + |data| then data[k - at] else old(buffer[k])
    {
      var i := 0;
      while i < |data|
        invariant 0 <= i <= |data|
        invariant forall k :: 0 <= k < buffer.Length ==> buffer[k] == if at <= k < at + i then data[k - at] else old(buffer[k])
      {
        buffer[at + i] := data[i];
        i := i + 1;
      }
    }

    /** The two copies of prvWriteBytesToBuffer. */
    method CopyWrapped(at: int, data: Bytes)
      requires length > 1 && buffer.Length == length && 0 <= at < length && |data| < length
      modifies buffer
      ensures buffer[..] == Overlaid(old(buffer[..]), at, data)
    {
      ghost var ring := buffer[..];
      var firstLength := Min(length - at, |data|);
      CopyIn(at, data[..firstLength]);
      if |data| > firstLength {
        CopyIn(0, data[firstLength..]);
      }
      forall i | 0 <= i < length ensures buffer[i] == Overlaid(ring, at, data)[i] {
      }
    }

    /** prvWriteBytesToBuffer */
    method WriteBytes(data: Bytes)
      requires Valid() && |data| <= SpacesAvailable()
      modifies buffer, this`head
      ensures Valid() && Contents() == old(Contents()) + data
    {
      hide Overlaid, RingBytes;
      WriteExtends(buffer[..], tail, BytesInBuffer(), data);
      var nextHead := head;
      CopyWrapped(nextHead, data);
      nextHead := nextHead + |data|;
      if nextHead >= length {
        nextHead := nextHead - length;
      }
      head := nextHead;
    }

    /** The two copies of prvReadBytesFromBuffer. */
    method CopyOut(at: int, count: int) returns (data: Bytes)
      requires buffer.Length == length && 0 <= at < length && 0 <= count <= length
      ensures data == RingBytes(buffer[..], at, count)
    {
      hide RingBytes;
      ReadWraps(buffer[..], at, count);
      var firstLength := Min(length - at, count);
      data := buffer[at..at + firstLength];
      if count > firstLength {
        data := data + buffer[..count - firstLength];
      }
    }

    /** prvReadBytesFromBuffer, given how many bytes were seen to be available. */
    method ReadBytes(maxCount: int, bytesAvailable: int) returns (data: Bytes)
      requires Valid() && 0 <= maxCount && 0 <= bytesAvailable <= BytesInBuffer()
      modifies this`tail
      ensures Valid() && |data| == Min(bytesAvailable, maxCount) && data + Contents() == old(Contents())
    {
      hide RingBytes;
      var count := Min(bytesAvailable, maxCount);
      ReadDrops(buffer[..], tail, BytesInBuffer(), count);
      ghost var all := Contents();
      assert all == all[..count] + all[count..];
      data := [];
      if count > 0 {
        var nextTail := tail;
        data := CopyOut(nextTail, count);
        nextTail := nextTail + count;
        if nextTail >= length {
          nextTail := nextTail - length;
        }
        tail := nextTail;
      }
    }

    /** prvWriteMessageToBuffer, given the space seen to be available. */
    method WriteMessage(data: Bytes, space: int) returns (written: int)
      requires Valid() && 0 < |data| < 0x1_0000_0000 && 0 <= space <= SpacesAvailable()
      modifies buffer, this`head
      ensures Valid()
      ensures isMessageBuffer ==>
        if space >= |data| + HEADER then written == |data| && Contents() == old(Contents()) + Frame(data)
        else written == 0 && Contents() == old(Contents())
      ensures !isMessageBuffer ==> written == Min(|data|, space) && Contents() == old(Contents()) + data[..written]
    {
      written := 0;
      if space == 0 {
      } else if !isMessageBuffer {
        written := Min(|data|, space);
        WriteBytes(data[..written]);
      } else if space >= |data| + HEADER {
        ghost var before := Contents();
        WriteBytes(Encode(|data|));
        WriteBytes(data);
        assert (before + Encode(|data|)) + data == before + Frame(data);
        written := |data|;
      }
    }

    /** prvReadMessageFromBuffer: a message too long for the caller's buffer is put back. */
    method ReadMessage(bufferLength: int, bytesAvailable: int) returns (data: Bytes)
      requires Valid() && 0 <= bufferLength && (if isMessageBuffer then HEADER else 0) < bytesAvailable <= BytesInBuffer()
      modifies this`tail
      ensures Valid()
      ensures !isMessageBuffer ==> |data| == Min(bytesAvailable, bufferLength) && data + Contents() == old(Contents())
      ensures isMessageBuffer ==>
        var length := Decode(old(Contents())[..HEADER]);
        if length > bufferLength then data == [] && Contents() == old(Contents())
        else |data| == Min(bytesAvailable - HEADER, length) && data + Contents() == old(Contents())[HEADER..]
    {
      if isMessageBuffer {
        var originalTail := tail;
        ghost var all := Contents();
        var header := ReadBytes(HEADER, bytesAvailable);
        assert header == all[..HEADER] && Contents() == all[HEADER..] by {
          assert (header + Contents())[..HEADER] == header && (header + Contents())[HEADER..] == Contents();
        }
        var nextMessageLength := Decode(header);
        if nextMessageLength > bufferLength {
          tail := originalTail;
          data := [];
        } else {
          data := ReadBytes(nextMessageLength, bytesAvailable - HEADER);
        }
      } else {
        data := ReadBytes(bufferLength, bytesAvailable);
      }
    }
  }
}
