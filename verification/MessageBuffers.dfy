/**
  A message buffer with one writer and one reader, interleaved between any two index updates.
  The writer publishes a length and then the message; the reader looks at how many bytes there
  are, takes a length and then that many bytes. `pending` and `current` say which messages are in
  the buffer and being read; no branch reads them.
 */
module MessageBuffers {
  import opened ByteSlots
  import opened StreamBuffers

  type Message = Bytes

  /** Between the steps of prvWriteMessageToBuffer. */
  datatype Writer = Idle | Checked(message: Message, space: int) | Announced(message: Message)

  /** Between the steps of xStreamBufferReceive and prvReadMessageFromBuffer. */
  datatype Reader = Ready | Looked(available: int) | Reading(available: int, length: int)

  datatype Machine = Machine(
    capacity: int, bytes: Bytes, writer: Writer, reader: Reader, sent: seq<Message>, received: seq<Message>,
    pending: seq<Message>, current: Message)

  predicate Sendable(m: Message) { 0 < |m| < 0x1_0000_0000 }

  datatype Action =
    | CheckSpace(m: Message)
    | WriteLength
    | WriteData
    | Look
    | ReadLength(bufferLength: int)
    | ReadData

  predicate Enabled(s: Machine, a: Action) {
    match a
    case CheckSpace(m) => s.writer.Idle? && Sendable(m)
    case WriteLength => s.writer.Checked?
    case WriteData => s.writer.Announced?
    case Look => s.reader.Ready?
    case ReadLength(bufferLength) => s.reader.Looked? && bufferLength >= 0
    case ReadData => s.reader.Reading?
  }

  /** A message too long for the reader's buffer is left where it is, in one step. */
  function ReadLengthStep(s: Machine, bufferLength: int): Machine
    requires s.reader.Looked?
  {
    if s.reader.available <= HEADER || |s.bytes| < HEADER then s.(reader := Ready)
    else
      var length := Decode(s.bytes[..HEADER]);
      if length > bufferLength then s.(reader := Ready)
      else
        s.(bytes := s.bytes[HEADER..], reader := Reading(s.reader.available - HEADER, length),
           current := if s.pending == [] then [] else s.pending[0], pending := if s.pending == [] then [] else s.pending[1..])
  }

  function ReadDataStep(s: Machine): Machine
    requires s.reader.Reading?
  {
    var count := Min(Min(s.reader.available, s.reader.length), |s.bytes|);
    if count < 0 then s
    else s.(bytes := s.bytes[count..], reader := Ready, received := s.received + [s.bytes[..count]], current := [])
  }

  function Apply(s: Machine, a: Action): Machine
    requires Enabled(s, a)
  {
    match a
    case CheckSpace(m) => s.(writer := Checked(m, s.capacity - |s.bytes|))
    case WriteLength =>
      var m := s.writer.message;
      if s.writer.space >= |m| + HEADER && Sendable(m) then s.(bytes := s.bytes + Encode(|m|), writer := Announced(m))
      else s.(writer := Idle)
    case WriteData =>
      var m := s.writer.message;
      s.(bytes := s.bytes + m, writer := Idle, sent := s.sent + [m], pending := s.pending + [m])
    case Look => s.(reader := Looked(|s.bytes|))
    case ReadLength(bufferLength) => ReadLengthStep(s, bufferLength)
    case ReadData => ReadDataStep(s)
  }

  // ---- What the bytes are ----

  predicate AllSendable(ms: seq<Message>) { forall i :: 0 <= i < |ms| ==> Sendable(ms[i]) }

  function Frames(ms: seq<Message>): Bytes
    requires AllSendable(ms)
  {
    if ms == [] then [] else Frame(ms[0]) + Frames(ms[1..])
  }

  lemma {:induction false} FramesAppend(ms: seq<Message>, m: Message)
    requires AllSendable(ms) && Sendable(m)
    ensures AllSendable(ms + [m]) && Frames(ms + [m]) == Frames(ms) + Frame(m)
  {
    if ms == [] {
      assert ms + [m] == [m] && [m][1..] == [] && Frames([]) == [];
      assert Frames([m]) == Frame(m) + [];
    } else {
      assert (ms + [m])[1..] == ms[1..] + [m] && (ms + [m])[0] == ms[0];
      FramesAppend(ms[1..], m);
      assert Frame(ms[0]) + (Frames(ms[1..]) + Frame(m)) == (Frame(ms[0]) + Frames(ms[1..])) + Frame(m);
    }
  }

  /** The message being read, and the length the writer has announced. */
  function Rest(s: Machine): Bytes { if s.reader.Reading? then s.current else [] }

  function Announcement(s: Machine): Bytes {
    if s.writer.Announced? && Sendable(s.writer.message) then Encode(|s.writer.message|) else []
  }

  function InHand(s: Machine): seq<Message> { if s.reader.Reading? then [s.current] else [] }

  /** The rest of one message, then whole frames, then at most a bare length. */
  ghost predicate Framed(s: Machine) {
    AllSendable(s.pending) && s.bytes == Rest(s) + Frames(s.pending) + Announcement(s)
  }

  /** The reader has seen no more than a whole number of frames and perhaps a length. */
  predicate ReaderOk(s: Machine) {
    match s.reader
    case Ready => true
    case Looked(available) => available > HEADER ==> s.pending != [] && available >= HEADER + |s.pending[0]|
    case Reading(available, length) => length == |s.current| && available >= length
  }

  predicate WriterOk(s: Machine) {
    && |s.bytes| <= s.capacity
    && match s.writer
       case Idle => true
       case Checked(m, space) => Sendable(m) && space <= s.capacity - |s.bytes|
       case Announced(m) => Sendable(m) && |s.bytes| + |m| <= s.capacity
  }

  ghost predicate Inv(s: Machine) {
    Framed(s) && ReaderOk(s) && WriterOk(s) && s.sent == s.received + InHand(s) + s.pending
  }

  // ---- Steps ----

  lemma WriteLengthKeeps(s: Machine)
    requires Inv(s) && s.writer.Checked?
    ensures Inv(Apply(s, WriteLength))
  {
    hide Frames, Encode;
    var s', m := Apply(s, WriteLength), s.writer.message;
    if s'.writer.Announced? {
      assert (Rest(s) + Frames(s.pending) + []) + Encode(|m|) == Rest(s) + Frames(s.pending) + Encode(|m|);
    }
  }

  lemma WriteDataKeeps(s: Machine)
    requires Inv(s) && s.writer.Announced?
    ensures Inv(Apply(s, WriteData))
  {
    hide Frames, Encode;
    var s', m := Apply(s, WriteData), s.writer.message;
    FramesAppend(s.pending, m);
    FrameParts(m);
    AppendData(Rest(s), Frames(s.pending), Encode(|m|), m);
    assert (s.received + InHand(s) + s.pending) + [m] == s.received + InHand(s) + (s.pending + [m]);
  }

  lemma FrameParts(m: Message)
    requires |m| < 0x1_0000_0000
    ensures Frame(m) == Encode(|m|) + m
  {
    hide Encode;
  }

  lemma AppendData(rest: Bytes, frames: Bytes, header: Bytes, m: Bytes)
    ensures (rest + frames + header) + m == rest + (frames + (header + m)) + []
  {
  }

  lemma LookKeeps(s: Machine)
    requires Inv(s) && s.reader.Ready?
    ensures Inv(Apply(s, Look))
  {
    var s' := Apply(s, Look);
    if |s.bytes| > HEADER {
      assert s.pending != [] by {
        assert |Announcement(s)| <= HEADER;
        assert s.pending == [] ==> |s.bytes| == |Announcement(s)|;
      }
      assert |Frames(s.pending)| >= HEADER + |s.pending[0]|;
    }
  }

  /** The bytes at the front are the first frame. */
  lemma FirstFrame(s: Machine)
    requires Framed(s) && !s.reader.Reading? && s.pending != []
    ensures |s.bytes| >= HEADER + |s.pending[0]| && s.bytes[..HEADER] == Encode(|s.pending[0]|)
    ensures Decode(s.bytes[..HEADER]) == |s.pending[0]|
    ensures s.bytes[HEADER..] == s.pending[0] + Frames(s.pending[1..]) + Announcement(s)
  {
    hide Encode, Decode, Frame, Announcement, Frames;
    var m := s.pending[0];
    LengthRoundTrip(|m|);
    FrameParts(m);
    FramesSplit(s.pending);
    HeaderFirst(s.bytes, Encode(|m|), m, Frames(s.pending[1..]), Announcement(s));
  }

  lemma FramesSplit(ms: seq<Message>)
    requires AllSendable(ms) && ms != []
    ensures AllSendable(ms[1..]) && Frames(ms) == Frame(ms[0]) + Frames(ms[1..])
  {
  }

  lemma HeaderFirst(bytes: Bytes, header: Bytes, m: Bytes, more: Bytes, tail: Bytes)
    requires |header| == HEADER && bytes == [] + ((header + m) + more) + tail
    ensures |bytes| >= HEADER + |m| && bytes[..HEADER] == header && bytes[HEADER..] == m + more + tail
  {
    RegroupHeader(header, m, more, tail);
    TakeHeader(header, m + more + tail);
  }

  lemma RegroupHeader(header: Bytes, m: Bytes, more: Bytes, tail: Bytes)
    ensures [] + ((header + m) + more) + tail == header + (m + more + tail)
  {
  }

  lemma TakeHeader(header: Bytes, rest: Bytes)
    ensures (header + rest)[..|header|] == header && (header + rest)[|header|..] == rest
  {
  }

  lemma ReadLengthKeeps(s: Machine, bufferLength: int)
    requires Inv(s) && s.reader.Looked? && bufferLength >= 0
    ensures Inv(ReadLengthStep(s, bufferLength))
  {
    hide Frames, Encode, Decode;
    if s.reader.available > HEADER {
      FirstFrame(s);
      var s' := ReadLengthStep(s, bufferLength);
      if s'.reader.Reading? {
        assert s.pending == [s.pending[0]] + s.pending[1..];
        assert s.received + [] + ([s.pending[0]] + s.pending[1..]) == s.received + [s.pending[0]] + s.pending[1..];
      }
    }
  }

  lemma ReadDataKeeps(s: Machine)
    requires Inv(s) && s.reader.Reading?
    ensures Inv(ReadDataStep(s)) && ReadDataStep(s).received == s.received + [s.current]
  {
    hide Frames, Encode;
    var m := s.current;
    assert s.bytes == m + (Frames(s.pending) + Announcement(s));
    assert s.bytes[..|m|] == m && s.bytes[|m|..] == Frames(s.pending) + Announcement(s);
    assert [] + Frames(s.pending) + Announcement(s) == Frames(s.pending) + Announcement(s);
    assert s.received + [m] + s.pending == (s.received + [m]) + [] + s.pending;
  }

  lemma StepKeeps(s: Machine, a: Action)
    requires Inv(s) && Enabled(s, a)
    ensures Inv(Apply(s, a))
  {
    match a
    case CheckSpace(m) => hide Frames, Encode;
    case WriteLength => WriteLengthKeeps(s);
    case WriteData => WriteDataKeeps(s);
    case Look => LookKeeps(s);
    case ReadLength(bufferLength) => ReadLengthKeeps(s, bufferLength);
    case ReadData => ReadDataKeeps(s);
  }

  // ---- Runs ----

  ghost predicate Runs(s: Machine, run: seq<Action>, s': Machine)
    decreases |run|
  {
    if run == [] then s == s' else Enabled(s, run[0]) && Runs(Apply(s, run[0]), run[1..], s')
  }

  lemma {:induction false} RunKeeps(s: Machine, run: seq<Action>, s': Machine)
    requires Inv(s) && Runs(s, run, s')
    ensures Inv(s')
    decreases |run|
  {
    hide Inv, Enabled, Apply;
    if run != [] {
      StepKeeps(s, run[0]);
      RunKeeps(Apply(s, run[0]), run[1..], s');
    }
  }

  function Empty(capacity: nat): Machine { Machine(capacity, [], Idle, Ready, [], [], [], []) }

  /**
    In every interleaving the reader has received exactly the first messages sent, whole and in
    order; what it has not received is in its hands or in the buffer as whole frames.
   */
  lemma MessagesArriveWhole(capacity: nat, run: seq<Action>, s: Machine)
    requires Runs(Empty(capacity), run, s)
    ensures s.received <= s.sent
    ensures s.sent == s.received + InHand(s) + s.pending
    ensures Framed(s) && |s.bytes| <= capacity
    ensures s.bytes == [] && s.reader.Ready? ==> s.received == s.sent
  {
    RunKeeps(Empty(capacity), run, s);
    CapacityFixed(Empty(capacity), run, s);
    assert (s.received + InHand(s) + s.pending)[..|s.received|] == s.received;
    assert s.pending != [] ==> |Frames(s.pending)| >= HEADER;
  }

  lemma {:induction false} CapacityFixed(s: Machine, run: seq<Action>, s': Machine)
    requires Runs(s, run, s')
    ensures s'.capacity == s.capacity
    decreases |run|
  {
    hide Encode, Decode;
    if run != [] {
      CapacityFixed(Apply(s, run[0]), run[1..], s');
    }
  }

  // ---- Nothing is held back ----

  lemma Reached(capacity: nat, run: seq<Action>, s: Machine)
    requires Runs(Empty(capacity), run, s)
    ensures Inv(s) && s.capacity == capacity
  {
    RunKeeps(Empty(capacity), run, s);
    CapacityFixed(Empty(capacity), run, s);
  }

  /** A reader that looks while a whole message is there sees it. */
  lemma LookFinds(capacity: nat, run: seq<Action>, s: Machine)
    requires Runs(Empty(capacity), run, s) && s.reader.Ready?
    ensures Apply(s, Look).reader.Looked? && (Apply(s, Look).reader.available > HEADER <==> s.pending != [])
  {
    Reached(capacity, run, s);
    if s.pending != [] {
      FramesSplit(s.pending);
    } else {
      assert [] + Frames([]) + Announcement(s) == Announcement(s);
    }
  }

  /** It takes the first message if that fits its buffer, and otherwise leaves everything as it was. */
  lemma ReadTakesFirst(capacity: nat, run: seq<Action>, s: Machine, bufferLength: nat)
    requires Runs(Empty(capacity), run, s) && s.reader.Looked?
    ensures var s' := Apply(s, ReadLength(bufferLength));
      && s'.received == s.received && s'.sent == s.sent && s'.writer == s.writer
      && if s.reader.available > HEADER && s.pending != [] && |s.pending[0]| <= bufferLength then
           s'.reader.Reading? && [s'.current] + s'.pending == s.pending
         else s'.reader.Ready? && s'.pending == s.pending && s'.bytes == s.bytes
  {
    hide Frames, Encode, Decode;
    Reached(capacity, run, s);
    if s.reader.available > HEADER {
      FirstFrame(s);
    }
  }

  /** Then it hands over exactly that message. */
  lemma ReadDelivers(capacity: nat, run: seq<Action>, s: Machine)
    requires Runs(Empty(capacity), run, s) && s.reader.Reading?
    ensures var s' := Apply(s, ReadData); s'.received == s.received + [s.current] && s'.pending == s.pending && s'.reader.Ready?
  {
    Reached(capacity, run, s);
    ReadDataKeeps(s);
  }

  /** A message is sent exactly when it fits the space seen, and once announced it is completed. */
  lemma WriterSends(capacity: nat, run: seq<Action>, s: Machine, m: Message)
    requires Runs(Empty(capacity), run, s) && Sendable(m)
    ensures s.writer.Idle? ==> Apply(s, CheckSpace(m)) == s.(writer := Checked(m, capacity - |s.bytes|))
    ensures s.writer.Checked? && s.writer.message == m ==>
      Apply(s, WriteLength).writer == if |m| + HEADER <= s.writer.space then Announced(m) else Idle
    ensures s.writer == Announced(m) ==>
      var s' := Apply(s, WriteData); s'.writer.Idle? && s'.sent == s.sent + [m] && s'.pending == s.pending + [m] && s'.received == s.received
  {
    hide Encode;
    Reached(capacity, run, s);
  }
}
