/**
  The message buffer at the level of its ring. The writer lays bytes down one at a time in the
  free part and then publishes them by moving the head; the reader takes bytes one at a time from
  the occupied part and then frees them by moving the tail; either may act between any two steps of
  the other. Every step is a step of `MessageBuffers`, or none, so its result holds here too.
 */
module MessageRings {
  import opened ByteSlots
  import opened StreamBuffers
  import M = MessageBuffers

  datatype Writer =
    | Idle
    | Checked(message: M.Message, space: int)
    | LayingLength(message: M.Message, space: int, done: int)
    | LayingData(message: M.Message, done: int)

  datatype Reader =
    | Ready
    | Looked(available: int)
    | TakingLength(available: int, got: Bytes)
    | TakingData(available: int, length: int, got: Bytes)

  datatype Machine = Machine(
    ring: Bytes, head: int, tail: int, writer: Writer, reader: Reader,
    sent: seq<M.Message>, received: seq<M.Message>, pending: seq<M.Message>, current: M.Message)

  predicate InRing(s: Machine) { |s.ring| > 1 && 0 <= s.head < |s.ring| && 0 <= s.tail < |s.ring| }

  /** prvBytesInBuffer */
  function Count(s: Machine): (n: int)
    requires InRing(s)
    ensures 0 <= n < |s.ring| && Turn(s.tail + n, |s.ring|) == s.head
  {
    BytesBetween(s.tail, s.head, |s.ring|)
  }

  function Contents(s: Machine): Bytes
    requires InRing(s)
  {
    RingBytes(s.ring, s.tail, Count(s))
  }

  /** What the writer is laying down. */
  function Laying(s: Machine): Bytes {
    match s.writer
    case LayingLength(m, _, _) => if M.Sendable(m) then Encode(|m|) else []
    case LayingData(m, _) => m
    case _ => []
  }

  function Done(s: Machine): int {
    match s.writer
    case LayingLength(_, _, done) => done
    case LayingData(_, done) => done
    case _ => 0
  }

  function Got(s: Machine): Bytes {
    match s.reader
    case TakingLength(_, got) => got
    case TakingData(_, _, got) => got
    case _ => []
  }

  /** How many bytes the reader means to take. */
  function Wanted(s: Machine): int {
    match s.reader
    case TakingLength(_, _) => HEADER
    case TakingData(available, length, _) => Min(available, length)
    case _ => 0
  }

  // ---- Steps ----

  datatype Action =
    | CheckSpace(m: M.Message)
    | StartLength
    | LayByte
    | MoveHead
    | Look
    | StartTaking(bufferLength: int)
    | TakeByte
    | MoveTail(bufferLength: int)

  predicate Enabled(s: Machine, a: Action) {
    InRing(s) && match a
      case CheckSpace(m) => s.writer.Idle? && M.Sendable(m)
      case StartLength => s.writer.Checked?
      case LayByte => 0 <= Done(s) < |Laying(s)| && Done(s) < |s.ring|
      case MoveHead => (s.writer.LayingLength? || s.writer.LayingData?) && Done(s) == |Laying(s)| && |Laying(s)| <= |s.ring|
      case Look => s.reader.Ready?
      case StartTaking(bufferLength) => s.reader.Looked? && bufferLength >= 0
      case TakeByte => |Got(s)| < Wanted(s) && |Got(s)| < |s.ring|
      case MoveTail(bufferLength) =>
        (s.reader.TakingLength? || s.reader.TakingData?) && |Got(s)| == Wanted(s) && |Got(s)| <= |s.ring| && bufferLength >= 0
  }

  function MoveHeadStep(s: Machine): Machine {
    var s1 := s.(head := Turn(s.head + |Laying(s)|, |s.ring|));
    match s.writer
    case LayingLength(m, _, _) => s1.(writer := LayingData(m, 0))
    case LayingData(m, _) => s1.(writer := Idle, sent := s.sent + [m], pending := s.pending + [m])
    case _ => s
  }

  /** A length too large for the caller's buffer leaves the tail where it is, in one step. */
  function MoveTailStep(s: Machine, bufferLength: int): Machine {
    var s1 := s.(tail := Turn(s.tail + |Got(s)|, |s.ring|));
    match s.reader
    case TakingLength(available, got) =>
      if |got| != HEADER then s
      else if Decode(got) > bufferLength then s.(reader := Ready)
      else
        s1.(reader := TakingData(available - HEADER, Decode(got), []),
            current := if s.pending == [] then [] else s.pending[0], pending := if s.pending == [] then [] else s.pending[1..])
    case TakingData(_, _, got) => s1.(reader := Ready, received := s.received + [got], current := [])
    case _ => s
  }

  function Apply(s: Machine, a: Action): Machine
    requires Enabled(s, a)
  {
    match a
    case CheckSpace(m) => s.(writer := Checked(m, SpaceBetween(s.tail, s.head, |s.ring|)))
    case StartLength =>
      var m, space := s.writer.message, s.writer.space;
      s.(writer := if space >= |m| + HEADER && M.Sendable(m) then LayingLength(m, space, 0) else Idle)
    case LayByte =>
      var s1 := s.(ring := s.ring[Turn(s.head + Done(s), |s.ring|) := Laying(s)[Done(s)]]);
      s1.(writer := s.writer.(done := Done(s) + 1))
    case MoveHead => MoveHeadStep(s)
    case Look => s.(reader := Looked(Count(s)))
    case StartTaking(bufferLength) =>
      s.(reader := if s.reader.available > HEADER then TakingLength(s.reader.available, []) else Ready)
    case TakeByte => s.(reader := s.reader.(got := Got(s) + [s.ring[Turn(s.tail + |Got(s)|, |s.ring|)]]))
    case MoveTail(bufferLength) => MoveTailStep(s, bufferLength)
  }

  // ---- What the ring means ----

  function AbsWriter(w: Writer): M.Writer {
    match w
    case Idle => M.Idle
    case Checked(m, space) => M.Checked(m, space)
    case LayingLength(m, space, _) => M.Checked(m, space)
    case LayingData(m, _) => M.Announced(m)
  }

  function AbsReader(r: Reader): M.Reader {
    match r
    case Ready => M.Ready
    case Looked(available) => M.Looked(available)
    case TakingLength(available, _) => M.Looked(available)
    case TakingData(available, length, _) => M.Reading(available, length)
  }

  function Abs(s: Machine): M.Machine
    requires InRing(s)
  {
    M.Machine(|s.ring| - 1, Contents(s), AbsWriter(s.writer), AbsReader(s.reader), s.sent, s.received, s.pending, s.current)
  }

  /** The first `done` bytes of data lie in the ring from the head on. */
  ghost predicate Laid(ring: Bytes, head: int, data: Bytes, done: int)
    requires 0 <= head < |ring|
  {
    done <= |data| < |ring| && forall k :: 0 <= k < done ==> ring[Turn(head + k, |ring|)] == data[k]
  }

  /** The bytes laid down lie in the free part, past the head, and what they announce will fit. */
  ghost predicate LaidOk(s: Machine)
    requires InRing(s)
  {
    && 0 <= Done(s) <= |Laying(s)| && Count(s) + |Laying(s)| < |s.ring|
    && Laid(s.ring, s.head, Laying(s), Done(s))
    && (s.writer.LayingLength? ==> M.Sendable(s.writer.message) && s.writer.space >= |s.writer.message| + HEADER)
  }

  /** The bytes taken are the first of the contents. */
  ghost predicate TakenOk(s: Machine)
    requires InRing(s)
  {
    && |Got(s)| <= Wanted(s) && (Got(s) != [] || s.reader.TakingLength? || s.reader.TakingData? ==> Wanted(s) <= Count(s))
    && Got(s) <= Contents(s)
    && (s.reader.TakingLength? ==> s.reader.available > HEADER)
  }

  ghost predicate Inv(s: Machine) {
    InRing(s) && LaidOk(s) && TakenOk(s) && M.Inv(Abs(s))
  }

  // ---- The ring ----

  /** A byte stored past the contents is not one of them. */
  lemma StoreOutside(ring: Bytes, tail: int, count: int, off: int, b: byte)
    requires 0 <= tail < |ring| && 0 <= count <= off < |ring|
    ensures RingBytes(ring[Turn(tail + off, |ring|) := b], tail, count) == RingBytes(ring, tail, count)
  {
  }

  lemma TurnTwice(tail: int, count: int, k: int, n: int)
    requires 0 <= tail < n && 0 <= count && 0 <= k && count + k < n
    ensures 0 <= Turn(Turn(tail + count, n) + k, n) < n && Turn(Turn(tail + count, n) + k, n) == Turn(tail + (count + k), n)
  {
  }

  lemma HeadMoves(tail: int, head: int, k: int, n: int)
    requires 0 <= tail < n && 0 <= head < n && 0 <= k && BytesBetween(tail, head, n) + k < n
    ensures 0 <= Turn(head + k, n) < n && BytesBetween(tail, Turn(head + k, n), n) == BytesBetween(tail, head, n) + k
  {
  }

  lemma TailMoves(tail: int, head: int, k: int, n: int)
    requires 0 <= tail < n && 0 <= head < n && 0 <= k <= BytesBetween(tail, head, n)
    ensures 0 <= Turn(tail + k, n) < n && BytesBetween(Turn(tail + k, n), head, n) == BytesBetween(tail, head, n) - k
  {
  }

  /** Publishing what was laid down appends it. */
  lemma Published(ring: Bytes, tail: int, head: int, count: int, data: Bytes)
    requires 0 <= tail < |ring| && 0 <= count && count + |data| < |ring| && head == Turn(tail + count, |ring|)
    requires Laid(ring, head, data, |data|)
    ensures RingBytes(ring, tail, count + |data|) == RingBytes(ring, tail, count) + data
  {
    var a, b := RingBytes(ring, tail, count + |data|), RingBytes(ring, tail, count) + data;
    forall k | 0 <= k < count + |data| ensures a[k] == b[k] {
      if k >= count {
        TurnTwice(tail, count, k - count, |ring|);
      }
    }
  }

  // ---- Every step is a step of the abstract machine, or none ----

  /** Laying a byte down leaves the contents alone. */
  lemma LayByteContents(s: Machine)
    requires InRing(s) && LaidOk(s) && Enabled(s, LayByte)
    ensures var s' := Apply(s, LayByte); InRing(s') && Contents(s') == Contents(s) && Laying(s') == Laying(s) && LaidOk(s')
  {
    hide RingBytes, Encode, Laid;
    var s', n, done := Apply(s, LayByte), |s.ring|, Done(s);
    TurnTwice(s.tail, Count(s), done, n);
    StoreOutside(s.ring, s.tail, Count(s), Count(s) + done, Laying(s)[done]);
    LaidGrows(s.ring, s.head, Laying(s), done);
  }

  lemma LaidNone(ring: Bytes, head: int, data: Bytes)
    requires 0 <= head < |ring| && |data| < |ring|
    ensures Laid(ring, head, data, 0)
  {
  }

  lemma LaidGrows(ring: Bytes, head: int, data: Bytes, done: int)
    requires 0 <= head < |ring| && 0 <= done < |data| < |ring| && Laid(ring, head, data, done)
    ensures Laid(ring[Turn(head + done, |ring|) := data[done]], head, data, done + 1)
  {
    var ring' := ring[Turn(head + done, |ring|) := data[done]];
    forall k | 0 <= k < done + 1 ensures ring'[Turn(head + k, |ring|)] == data[k] {
      if k < done {
        assert Turn(head + k, |ring|) != Turn(head + done, |ring|);
      }
    }
  }

  lemma LayByteKeeps(s: Machine)
    requires Inv(s) && Enabled(s, LayByte)
    ensures Inv(Apply(s, LayByte)) && Abs(Apply(s, LayByte)) == Abs(s)
  {
    hide RingBytes, Encode, M.Inv, LaidOk, Contents, Count;
    LayByteContents(s);
    SameCount(s, Apply(s, LayByte));
  }

  lemma SameCount(s: Machine, s': Machine)
    requires InRing(s) && |s'.ring| == |s.ring| && s'.head == s.head && s'.tail == s.tail
    ensures InRing(s') && Count(s') == Count(s)
    ensures s'.ring == s.ring ==> Contents(s') == Contents(s)
  {
    hide RingBytes;
  }

  lemma MoveHeadContents(s: Machine)
    requires Inv(s) && Enabled(s, MoveHead)
    ensures var s' := Apply(s, MoveHead);
      && InRing(s') && |s'.ring| == |s.ring| && Count(s') == Count(s) + |Laying(s)| && Contents(s') == Contents(s) + Laying(s)
  {
    hide RingBytes, Encode, M.Inv, Laid;
    HeadMoves(s.tail, s.head, |Laying(s)|, |s.ring|);
    Published(s.ring, s.tail, s.head, Count(s), Laying(s));
  }

  /** What a moved head publishes is what the abstract writer writes. */
  lemma MoveHeadIsWrite(s: Machine)
    requires Inv(s) && Enabled(s, MoveHead)
    ensures var a := if s.writer.LayingLength? then M.WriteLength else M.WriteData;
      M.Enabled(Abs(s), a) && InRing(Apply(s, MoveHead)) && Abs(Apply(s, MoveHead)) == M.Apply(Abs(s), a)
  {
    hide RingBytes, Encode, M.Inv, Contents, Count, Laid;
    MoveHeadContents(s);
  }

  lemma MoveHeadKeeps(s: Machine)
    requires Inv(s) && Enabled(s, MoveHead)
    ensures Inv(Apply(s, MoveHead))
  {
    hide RingBytes, Encode, M.Inv, Laid;
    var s' := Apply(s, MoveHead);
    MoveHeadContents(s);
    MoveHeadIsWrite(s);
    M.StepKeeps(Abs(s), if s.writer.LayingLength? then M.WriteLength else M.WriteData);
    AbstractRoom(s');
    LaidNone(s'.ring, s'.head, Laying(s'));
  }

  /** What the abstract invariant says about room and about the message being read. */
  lemma AbstractRoom(s: Machine)
    requires InRing(s) && M.Inv(Abs(s))
    ensures s.writer.LayingData? ==> M.Sendable(s.writer.message) && Count(s) + |s.writer.message| < |s.ring|
    ensures s.writer.Checked? ==> M.Sendable(s.writer.message) && s.writer.space <= |s.ring| - 1 - Count(s)
    ensures s.reader.TakingData? ==> s.reader.available >= s.reader.length && 0 <= s.reader.length <= Count(s)
    ensures s.reader.Looked? && s.reader.available > HEADER ==> HEADER <= Count(s)
  {
    if s.reader.Looked? && s.reader.available > HEADER {
      M.FirstFrame(Abs(s));
    }
    hide M.Frames, Encode;
  }

  lemma PrefixGrows(got: Bytes, all: Bytes)
    requires got <= all && |got| < |all|
    ensures got + [all[|got|]] <= all
  {
  }

  lemma ContentsAt(s: Machine, k: int)
    requires InRing(s) && 0 <= k < Count(s)
    ensures k < |Contents(s)| && Contents(s)[k] == s.ring[Turn(s.tail + k, |s.ring|)]
  {
  }

  lemma TakeByteKeeps(s: Machine)
    requires Inv(s) && Enabled(s, TakeByte)
    ensures Inv(Apply(s, TakeByte)) && Abs(Apply(s, TakeByte)) == Abs(s)
  {
    hide RingBytes, Encode, M.Inv, Contents, Count, LaidOk;
    var s' := Apply(s, TakeByte);
    SameCount(s, s');
    ContentsAt(s, |Got(s)|);
    PrefixGrows(Got(s), Contents(s));
    SameLaid(s, s');
  }

  lemma SameLaid(s: Machine, s': Machine)
    requires InRing(s) && LaidOk(s) && s'.ring == s.ring && s'.head == s.head && s'.tail == s.tail && s'.writer == s.writer
    ensures InRing(s') && LaidOk(s')
  {
    hide Encode, Count, Laid;
    SameCount(s, s');
  }

  lemma MoveTailContents(s: Machine, k: int)
    requires InRing(s) && 0 <= k <= Count(s)
    ensures var s' := s.(tail := Turn(s.tail + k, |s.ring|));
      && InRing(s') && Count(s') == Count(s) - k && Contents(s') == Contents(s)[k..]
  {
    TailMoves(s.tail, s.head, k, |s.ring|);
    ReadDrops(s.ring, s.tail, Count(s), k);
    hide RingBytes;
  }

  lemma TakenIsPrefix(s: Machine)
    requires Inv(s) && (s.reader.TakingLength? || s.reader.TakingData?) && |Got(s)| == Wanted(s)
    ensures |Got(s)| <= Count(s) && Contents(s)[..|Got(s)|] == Got(s)
  {
  }

  lemma TakenLength(s: Machine, bufferLength: int)
    requires Inv(s) && s.reader.TakingLength? && Enabled(s, MoveTail(bufferLength))
    ensures var s' := MoveTailStep(s, bufferLength);
      InRing(s') && M.Enabled(Abs(s), M.ReadLength(bufferLength)) && Abs(s') == M.ReadLengthStep(Abs(s), bufferLength)
  {
    hide RingBytes, Encode, Decode, M.Inv, LaidOk, Contents, Count;
    TakenIsPrefix(s);
    MoveTailContents(s, |Got(s)|);
    var s1, s' := s.(tail := Turn(s.tail + |Got(s)|, |s.ring|)), MoveTailStep(s, bufferLength);
    assert |Contents(s)| >= HEADER by { ContentsSize(s); }
    if Decode(Got(s)) > bufferLength {
      SameCount(s, s');
    } else {
      SameCount(s1, s');
    }
  }

  lemma ContentsSize(s: Machine)
    requires InRing(s)
    ensures |Contents(s)| == Count(s)
  {
  }

  lemma TakenData(s: Machine, bufferLength: int)
    requires Inv(s) && s.reader.TakingData? && Enabled(s, MoveTail(bufferLength))
    ensures var s' := MoveTailStep(s, bufferLength);
      InRing(s') && M.Enabled(Abs(s), M.ReadData) && Abs(s') == M.ReadDataStep(Abs(s))
  {
    hide RingBytes, Encode, Decode, M.Inv, LaidOk, Contents, Count;
    AbstractRoom(s);
    TakenIsPrefix(s);
    ContentsSize(s);
    MoveTailContents(s, |Got(s)|);
    SameCount(s.(tail := Turn(s.tail + |Got(s)|, |s.ring|)), MoveTailStep(s, bufferLength));
  }

  /** What a moved tail takes away is what the abstract reader reads. */
  function Read(s: Machine, bufferLength: int): M.Action {
    if s.reader.TakingLength? then M.ReadLength(bufferLength) else M.ReadData
  }

  lemma MoveTailIsRead(s: Machine, bufferLength: int)
    requires Inv(s) && Enabled(s, MoveTail(bufferLength))
    ensures var s' := Apply(s, MoveTail(bufferLength));
      InRing(s') && M.Enabled(Abs(s), Read(s, bufferLength)) && Abs(s') == M.Apply(Abs(s), Read(s, bufferLength))
  {
    hide Inv, Abs, MoveTailStep, M.ReadLengthStep, M.ReadDataStep;
    if s.reader.TakingLength? {
      TakenLength(s, bufferLength);
    } else {
      TakenData(s, bufferLength);
    }
  }

  lemma MoveTailKeeps(s: Machine, bufferLength: int)
    requires Inv(s) && Enabled(s, MoveTail(bufferLength))
    ensures Inv(Apply(s, MoveTail(bufferLength)))
  {
    hide M.Inv, Abs, LaidOk, TakenOk, Encode, Decode;
    MoveTailIsRead(s, bufferLength);
    M.StepKeeps(Abs(s), Read(s, bufferLength));
    MoveTailLaid(s, bufferLength);
    MoveTailTaken(s, bufferLength);
  }

  lemma MoveTailLaid(s: Machine, bufferLength: int)
    requires Inv(s) && Enabled(s, MoveTail(bufferLength))
    ensures InRing(Apply(s, MoveTail(bufferLength))) && LaidOk(Apply(s, MoveTail(bufferLength)))
  {
    hide RingBytes, Encode, Decode, M.Inv, Contents, Count, Laid;
    TakenIsPrefix(s);
    MoveTailContents(s, |Got(s)|);
    var s1, s' := s.(tail := Turn(s.tail + |Got(s)|, |s.ring|)), Apply(s, MoveTail(bufferLength));
    if s'.tail == s.tail {
      SameCount(s, s');
    } else {
      SameCount(s1, s');
    }
  }

  lemma MoveTailTaken(s: Machine, bufferLength: int)
    requires Inv(s) && Enabled(s, MoveTail(bufferLength))
    requires InRing(Apply(s, MoveTail(bufferLength))) && M.Inv(Abs(Apply(s, MoveTail(bufferLength))))
    ensures TakenOk(Apply(s, MoveTail(bufferLength)))
  {
    hide RingBytes, Encode, Decode, M.Inv, Contents, Count, Laid;
    AbstractRoom(Apply(s, MoveTail(bufferLength)));
  }

  /** The steps that move no index. */
  lemma OtherKeeps(s: Machine, a: Action)
    requires Inv(s) && Enabled(s, a) && (a.CheckSpace? || a.StartLength? || a.Look? || a.StartTaking?)
    ensures Inv(Apply(s, a)) && (Abs(Apply(s, a)) == Abs(s) || exists b :: M.Enabled(Abs(s), b) && Abs(Apply(s, a)) == M.Apply(Abs(s), b))
  {
    hide RingBytes, Encode, Decode, M.Inv, Laid;
    AbstractRoom(s);
    var s' := Apply(s, a);
    assert Contents(s') == Contents(s);
    var b :=
      match a
      case CheckSpace(m) => M.CheckSpace(m)
      case StartLength => M.WriteLength
      case Look => M.Look
      case StartTaking(bufferLength) => M.ReadLength(bufferLength)
      case _ => M.Look;
    if !a.Look? && !a.StartTaking? {
      LaidNone(s'.ring, s'.head, Laying(s'));
    }
    if Abs(s') != Abs(s) {
      assert M.Enabled(Abs(s), b) && Abs(s') == M.Apply(Abs(s), b);
      M.StepKeeps(Abs(s), b);
    }
  }

  /** The ring refines the abstract buffer step by step. */
  lemma StepRefines(s: Machine, a: Action)
    requires Inv(s) && Enabled(s, a)
    ensures Inv(Apply(s, a)) && (Abs(Apply(s, a)) == Abs(s) || exists b :: M.Enabled(Abs(s), b) && Abs(Apply(s, a)) == M.Apply(Abs(s), b))
  {
    hide Inv, Abs;
    match a
    case LayByte => LayByteKeeps(s);
    case MoveHead =>
      MoveHeadKeeps(s);
      MoveHeadIsWrite(s);
    case TakeByte => TakeByteKeeps(s);
    case MoveTail(bufferLength) => 
      MoveTailKeeps(s, bufferLength);
      MoveTailIsRead(s, bufferLength);
    case _ => OtherKeeps(s, a);
  }

  // ---- Runs ----

  ghost predicate Runs(s: Machine, run: seq<Action>, s': Machine)
    decreases |run|
  {
    if run == [] then s == s' else Enabled(s, run[0]) && Runs(Apply(s, run[0]), run[1..], s')
  }

  lemma {:induction false} RunKeeps(s: Machine, run: seq<Action>, s': Machine)
    requires Inv(s) && Runs(s, run, s')
    ensures Inv(s') && |s'.ring| == |s.ring|
    decreases |run|
  {
    hide Inv, Enabled, Apply, Abs;
    if run != [] {
      StepRefines(s, run[0]);
      SameRing(s, run[0]);
      RunKeeps(Apply(s, run[0]), run[1..], s');
    }
  }

  lemma SameRing(s: Machine, a: Action)
    requires Enabled(s, a)
    ensures |Apply(s, a).ring| == |s.ring|
  {
    hide Encode, Decode, RingBytes;
  }

  predicate Empty(s: Machine) {
    InRing(s) && s.head == s.tail && s.writer.Idle? && s.reader.Ready? && s.sent == [] && s.received == [] && s.pending == [] && s.current == []
  }

  /**
    Over every interleaving of byte copies and index updates, from an empty ring of any size and
    contents: the messages received are the first ones sent, whole and in order, and what lies
    between the tail and the head is the rest of one message, whole frames and at most a bare length.
   */
  lemma MessagesArriveWhole(s: Machine, run: seq<Action>, s': Machine)
    requires Empty(s) && Runs(s, run, s')
    ensures InRing(s') && M.Framed(Abs(s')) && s'.received <= s'.sent
    ensures s'.sent == s'.received + M.InHand(Abs(s')) + s'.pending
    ensures LaidOk(s') && TakenOk(s')
  {
    hide Inv, Empty, Runs, Abs, InRing, M.Framed, LaidOk, TakenOk;
    EmptyInv(s);
    RunKeeps(s, run, s');
    InvMeans(s');
  }

  lemma EmptyInv(s: Machine)
    requires Empty(s)
    ensures Inv(s)
  {
    assert Contents(s) == [];
    hide RingBytes, Count;
  }

  lemma InvMeans(s: Machine)
    requires Inv(s)
    ensures InRing(s) && LaidOk(s) && TakenOk(s) && M.Framed(Abs(s))
    ensures s.sent == s.received + M.InHand(Abs(s)) + s.pending && s.received <= s.sent
  {
    hide RingBytes, M.Framed, LaidOk, TakenOk, Contents, InRing;
    assert (s.received + M.InHand(Abs(s)) + s.pending)[..|s.received|] == s.received;
  }
}
