/**
  Event groups (event_groups.c). A waiting task's condition is packed into its event list item:
  the bits it waits for, and control bits for "all of them" and "clear them on exit".
 */
module EventGroups {
  import opened BitMasks

  type Task = int

  const CLEAR_EVENTS_ON_EXIT_BIT: Bits := 0x0100_0000
  const UNBLOCKED_DUE_TO_BIT_SET: Bits := 0x0200_0000
  const WAIT_FOR_ALL_BITS: Bits := 0x0400_0000
  const CONTROL_BYTES: Bits := 0xff00_0000
  const ITEM_VALUE_IN_USE: Bits := 0x8000_0000

  // ---- Conditions ----

  /** prvTestWaitCondition */
  predicate TestWaitCondition(current: Bits, wanted: Bits, all: bool) {
    if all then Covers(current, wanted) else Meets(current, wanted)
  }

  /** The event list item value of a task that waits. */
  function Pack(wanted: Bits, clear: bool, all: bool): Bits {
    wanted | (if clear then CLEAR_EVENTS_ON_EXIT_BIT else 0) | (if all then WAIT_FOR_ALL_BITS else 0) | ITEM_VALUE_IN_USE
  }

  function Wanted(word: Bits): Bits { word & !CONTROL_BYTES }
  predicate NeedsAll(word: Bits) { word & WAIT_FOR_ALL_BITS != 0 }
  predicate Clears(word: Bits) { word & CLEAR_EVENTS_ON_EXIT_BIT != 0 }

  /** Callers leave the control bits alone. */
  predicate Plain(bits: Bits) { bits & CONTROL_BYTES == 0 }

  /** Packing loses nothing. */
  lemma PackRoundTrip(wanted: Bits, clear: bool, all: bool)
    requires Plain(wanted)
    ensures var word := Pack(wanted, clear, all); Wanted(word) == wanted && Clears(word) == clear && NeedsAll(word) == all
  {
  }

  /** What a released task reads back: the bits that released it, without the control bits. */
  lemma ReleasedRoundTrip(bits: Bits)
    requires Plain(bits)
    ensures var word := ReleasedWord(bits); Wanted(word) == bits && word & UNBLOCKED_DUE_TO_BIT_SET != 0
  {
  }

  function ReleasedWord(bits: Bits): Bits { bits | UNBLOCKED_DUE_TO_BIT_SET | ITEM_VALUE_IN_USE }

  predicate Matches(word: Bits, bits: Bits) { TestWaitCondition(bits, Wanted(word), NeedsAll(word)) }

  /** With fewer bits set, an unmet condition stays unmet. */
  lemma FewerBits(word: Bits, bits: Bits, fewer: Bits)
    requires !Matches(word, bits) && Covers(bits, fewer)
    ensures !Matches(word, fewer)
  {
    hide Wanted, NeedsAll, Covers, Meets;
    if Matches(word, fewer) {
      if NeedsAll(word) {
        CoversFewer(bits, fewer, Wanted(word));
      } else {
        MeetsFewer(bits, fewer, Wanted(word));
      }
    }
  }

  // ---- Groups ----

  datatype Waiter = Waiter(t: Task, word: Bits)

  datatype Group = Group(bits: Bits, waiting: seq<Waiter>)

  function Released(ws: seq<Waiter>, bits: Bits): (r: seq<Waiter>)
    ensures forall w :: w in r <==> w in ws && Matches(w.word, bits)
  {
    if ws == [] then [] else (if Matches(ws[0].word, bits) then [ws[0]] else []) + Released(ws[1..], bits)
  }

  function Kept(ws: seq<Waiter>, bits: Bits): (r: seq<Waiter>)
    ensures forall w :: w in r <==> w in ws && !Matches(w.word, bits)
  {
    if ws == [] then [] else (if Matches(ws[0].word, bits) then [] else [ws[0]]) + Kept(ws[1..], bits)
  }

  /** The bits that the released tasks asked to have cleared. */
  function ClearMask(ws: seq<Waiter>): Bits {
    if ws == [] then 0 else Or(if Clears(ws[0].word) then Wanted(ws[0].word) else 0, ClearMask(ws[1..]))
  }

  /** xEventGroupSetBits */
  function SetBits(g: Group, bitsToSet: Bits): Group {
    var bits := Or(g.bits, bitsToSet);
    Group(Minus(bits, ClearMask(Released(g.waiting, bits))), Kept(g.waiting, bits))
  }

  function ClearBits(g: Group, bitsToClear: Bits): Group { g.(bits := Minus(g.bits, bitsToClear)) }

  /** The decision of xEventGroupWaitBits, made with the scheduler suspended. */
  function WaitBits(g: Group, t: Task, wanted: Bits, clear: bool, all: bool, mayBlock: bool): Group {
    if TestWaitCondition(g.bits, wanted, all) then if clear then ClearBits(g, wanted) else g
    else if mayBlock then g.(waiting := g.waiting + [Waiter(t, Pack(wanted, clear, all))])
    else g
  }

  /** The first part of xEventGroupSync. */
  function Sync(g: Group, t: Task, bitsToSet: Bits, wanted: Bits, mayBlock: bool): Group {
    var g1 := SetBits(g, bitsToSet);
    if Covers(Or(g.bits, bitsToSet), wanted) then ClearBits(g1, wanted)
    else if mayBlock then g1.(waiting := g1.waiting + [Waiter(t, Pack(wanted, true, true))])
    else g1
  }

  /** The critical section that a task runs when it woke without its bits. */
  function AfterTimeout(g: Group, wanted: Bits, clear: bool, all: bool): Group {
    if TestWaitCondition(g.bits, wanted, all) && clear then ClearBits(g, wanted) else g
  }

  function WithoutTask(ws: seq<Waiter>, t: Task): (r: seq<Waiter>)
    ensures forall w :: w in r <==> w in ws && w.t != t
  {
    if ws == [] then [] else (if ws[0].t == t then [] else [ws[0]]) + WithoutTask(ws[1..], t)
  }

  // ---- What xEventGroupSetBits releases and clears ----

  /** Exactly the waiters satisfied by the old and new bits together leave the list. */
  lemma SetBitsExact(g: Group, bitsToSet: Bits, w: Waiter)
    ensures w in SetBits(g, bitsToSet).waiting <==> w in g.waiting && !Matches(w.word, Or(g.bits, bitsToSet))
    ensures w in Released(g.waiting, Or(g.bits, bitsToSet)) <==> w in g.waiting && Matches(w.word, Or(g.bits, bitsToSet))
  {
    hide Matches, Or, Minus, ClearMask;
  }

  /** A bit is cleared exactly when some released task that clears on exit waited for it. */
  lemma {:induction false} ClearMaskExact(ws: seq<Waiter>, m: Bits)
    ensures Meets(ClearMask(ws), m) <==> exists w :: w in ws && Clears(w.word) && Meets(Wanted(w.word), m)
  {
    hide Clears, Wanted, Meets, Or;
    NothingMeets(m);
    if ws != [] {
      ClearMaskExact(ws[1..], m);
      OrMeets(if Clears(ws[0].word) then Wanted(ws[0].word) else 0, ClearMask(ws[1..]), m);
      assert ws == [ws[0]] + ws[1..];
      if Clears(ws[0].word) && Meets(Wanted(ws[0].word), m) {
        assert ws[0] in ws;
      }
    }
  }

  /** The order of the waiting list does not matter to what is released or cleared. */
  lemma OrderIndependent(ws: seq<Waiter>, ws': seq<Waiter>, bits: Bits)
    requires forall w :: w in ws <==> w in ws'
    ensures forall w :: w in Released(ws, bits) <==> w in Released(ws', bits)
    ensures forall w :: w in Kept(ws, bits) <==> w in Kept(ws', bits)
    ensures ClearMask(Released(ws, bits)) == ClearMask(Released(ws', bits))
  {
    hide Matches, Clears, Wanted, ClearMask, Meets, Not, Released, Kept;
    SameMembersSameMask(Released(ws, bits), Released(ws', bits));
  }

  lemma SameMembersSameMask(r: seq<Waiter>, r': seq<Waiter>)
    requires forall w :: w in r <==> w in r'
    ensures ClearMask(r) == ClearMask(r')
  {
    hide Clears, Wanted, ClearMask, Meets, Not;
    var a, b := ClearMask(r), ClearMask(r');
    SameMeets(r, r', Not(b));
    SameMeets(r, r', Not(a));
    SameMask(a, b);
  }

  lemma SameMeets(r: seq<Waiter>, r': seq<Waiter>, m: Bits)
    requires forall w :: w in r <==> w in r'
    ensures Meets(ClearMask(r), m) == Meets(ClearMask(r'), m)
  {
    hide Clears, Wanted, ClearMask, Meets;
    ClearMaskExact(r, m);
    ClearMaskExact(r', m);
  }

  // ---- Bit by bit ----

  /** A wait condition in terms of single bits. */
  lemma ConditionByBits(current: Bits, wanted: Bits, all: bool)
    ensures all ==> (TestWaitCondition(current, wanted, all) <==> forall m :: IsBit(m) && Meets(wanted, m) ==> Meets(current, m))
    ensures !all ==> (TestWaitCondition(current, wanted, all) <==> exists m :: IsBit(m) && Meets(current, m) && Meets(wanted, m))
  {
    hide Meets, Covers, IsBit;
    CoversByBits(current, wanted);
    MeetsByBits(current, wanted);
  }

  /** A waiter whose condition is met and that asked for bit m to be cleared on exit. */
  ghost predicate Consumes(ws: seq<Waiter>, bits: Bits, m: Bits) {
    exists w :: w in ws && Matches(w.word, bits) && Clears(w.word) && Meets(Wanted(w.word), m)
  }

  /** What xEventGroupSetBits leaves: the old and new bits, less those that a released waiter clears. */
  lemma BitsAfterSet(g: Group, bitsToSet: Bits, m: Bits)
    requires IsBit(m)
    ensures Meets(SetBits(g, bitsToSet).bits, m) <==>
      (Meets(g.bits, m) || Meets(bitsToSet, m)) && !Consumes(g.waiting, Or(g.bits, bitsToSet), m)
  {
    hide Matches, Clears, Wanted, Meets, Minus, Or, IsBit, ClearMask;
    var bits := Or(g.bits, bitsToSet);
    OrMeets(g.bits, bitsToSet, m);
    MinusBit(bits, ClearMask(Released(g.waiting, bits)), m);
    ClearMaskExact(Released(g.waiting, bits), m);
  }

  lemma BitsAfterClear(g: Group, bitsToClear: Bits, m: Bits)
    requires IsBit(m)
    ensures Meets(ClearBits(g, bitsToClear).bits, m) <==> Meets(g.bits, m) && !Meets(bitsToClear, m)
    ensures ClearBits(g, bitsToClear).waiting == g.waiting
  {
    hide Meets, Minus, IsBit;
    MinusBit(g.bits, bitsToClear, m);
  }

  /** A wait met at once takes its bits if asked to; a wait that blocks is recorded as it was asked for. */
  lemma BitsAfterWait(g: Group, t: Task, wanted: Bits, clear: bool, all: bool, mayBlock: bool, m: Bits)
    requires IsBit(m) && Plain(wanted)
    ensures var g', met := WaitBits(g, t, wanted, clear, all, mayBlock), TestWaitCondition(g.bits, wanted, all);
      && (Meets(g'.bits, m) <==> Meets(g.bits, m) && !(met && clear && Meets(wanted, m)))
      && (met || !mayBlock ==> g'.waiting == g.waiting)
      && (!met && mayBlock ==>
            && |g'.waiting| == |g.waiting| + 1 && g'.waiting[..|g.waiting|] == g.waiting
            && var w := g'.waiting[|g.waiting|]; w.t == t && Wanted(w.word) == wanted && Clears(w.word) == clear && NeedsAll(w.word) == all)
  {
    hide Meets, TestWaitCondition, Minus, IsBit, Plain, Pack, Wanted, Clears, NeedsAll;
    BitsAfterClear(g, wanted, m);
    PackRoundTrip(wanted, clear, all);
  }

  /** A rendezvous that is complete takes all its bits; one that blocks waits for all of them and will clear them. */
  lemma BitsAfterSync(g: Group, t: Task, bitsToSet: Bits, wanted: Bits, mayBlock: bool, m: Bits)
    requires IsBit(m) && Plain(wanted)
    ensures var g1, g', met := SetBits(g, bitsToSet), Sync(g, t, bitsToSet, wanted, mayBlock), Covers(Or(g.bits, bitsToSet), wanted);
      && (Meets(g'.bits, m) <==> Meets(g1.bits, m) && !(met && Meets(wanted, m)))
      && (met || !mayBlock ==> g'.waiting == g1.waiting)
      && (!met && mayBlock ==>
            && |g'.waiting| == |g1.waiting| + 1 && g'.waiting[..|g1.waiting|] == g1.waiting
            && var w := g'.waiting[|g1.waiting|]; w.t == t && Wanted(w.word) == wanted && Clears(w.word) && NeedsAll(w.word))
  {
    hide Meets, Covers, Or, Minus, IsBit, Plain, Pack, Wanted, Clears, NeedsAll, SetBits;
    BitsAfterClear(SetBits(g, bitsToSet), wanted, m);
    PackRoundTrip(wanted, true, true);
  }

  /** A task that timed out and finds its condition met after all takes its bits if it asked to. */
  lemma BitsAfterTimeout(g: Group, wanted: Bits, clear: bool, all: bool, m: Bits)
    requires IsBit(m)
    ensures var g', met := AfterTimeout(g, wanted, clear, all), TestWaitCondition(g.bits, wanted, all);
      (Meets(g'.bits, m) <==> Meets(g.bits, m) && !(met && clear && Meets(wanted, m))) && g'.waiting == g.waiting
  {
    hide Meets, TestWaitCondition, Minus, IsBit;
    BitsAfterClear(g, wanted, m);
  }

  // ---- Nobody is stranded ----

  datatype Action =
    | Set(bits: Bits)
    | Clear(bits: Bits)
    | Wait(t: Task, wanted: Bits, clear: bool, all: bool, mayBlock: bool)
    | Meet(t: Task, bits: Bits, wanted: Bits, mayBlock: bool)
    | TimeOut(t: Task)
    | GiveUp(wanted: Bits, clear: bool, all: bool)

  predicate Enabled(a: Action) {
    match a
    case Wait(_, wanted, _, _, _) => Plain(wanted)
    case Meet(_, _, wanted, _) => Plain(wanted)
    case _ => true
  }

  function Apply(g: Group, a: Action): Group {
    match a
    case Set(bits) => SetBits(g, bits)
    case Clear(bits) => ClearBits(g, bits)
    case Wait(t, wanted, clear, all, mayBlock) => WaitBits(g, t, wanted, clear, all, mayBlock)
    case Meet(t, bits, wanted, mayBlock) => Sync(g, t, bits, wanted, mayBlock)
    case TimeOut(t) => g.(waiting := WithoutTask(g.waiting, t))
    case GiveUp(wanted, clear, all) => AfterTimeout(g, wanted, clear, all)
  }

  /** No task on the list has its condition met by the bits. */
  ghost predicate NoneStranded(g: Group) {
    forall w :: w in g.waiting ==> !Matches(w.word, g.bits)
  }

  lemma ClearKeeps(g: Group, mask: Bits)
    requires NoneStranded(g)
    ensures NoneStranded(ClearBits(g, mask))
  {
    hide Matches, Minus, Covers;
    MinusIsFewer(g.bits, mask);
    forall w | w in g.waiting ensures !Matches(w.word, Minus(g.bits, mask)) {
      FewerBits(w.word, g.bits, Minus(g.bits, mask));
    }
  }

  lemma SetKeeps(g: Group, bitsToSet: Bits)
    ensures NoneStranded(SetBits(g, bitsToSet))
  {
    hide Matches, ClearMask, Or, Minus;
    var bits := Or(g.bits, bitsToSet);
    ClearKeeps(Group(bits, Kept(g.waiting, bits)), ClearMask(Released(g.waiting, bits)));
  }

  /** A task joins the list only with its condition unmet. */
  lemma JoinKeeps(g: Group, t: Task, wanted: Bits, clear: bool, all: bool)
    requires NoneStranded(g) && Plain(wanted) && !TestWaitCondition(g.bits, wanted, all)
    ensures NoneStranded(g.(waiting := g.waiting + [Waiter(t, Pack(wanted, clear, all))]))
  {
    hide Pack, TestWaitCondition, Plain, Wanted, NeedsAll, Clears;
    PackRoundTrip(wanted, clear, all);
    assert !Matches(Pack(wanted, clear, all), g.bits);
    hide Matches;
  }

  /** In Sync the test was made before the clearing; fewer bits remain, so it still fails. */
  lemma SyncStillUnmet(g: Group, bitsToSet: Bits, wanted: Bits)
    requires !Covers(Or(g.bits, bitsToSet), wanted)
    ensures !TestWaitCondition(SetBits(g, bitsToSet).bits, wanted, true)
  {
    hide Covers, Or, Minus, ClearMask, Released, Kept, Meets;
    var bits := Or(g.bits, bitsToSet);
    MinusIsFewer(bits, ClearMask(Released(g.waiting, bits)));
    if Covers(SetBits(g, bitsToSet).bits, wanted) {
      CoversFewer(bits, SetBits(g, bitsToSet).bits, wanted);
    }
  }

  lemma SyncKeeps(g: Group, t: Task, bitsToSet: Bits, wanted: Bits, mayBlock: bool)
    requires Plain(wanted)
    ensures NoneStranded(Sync(g, t, bitsToSet, wanted, mayBlock))
  {
    hide SetBits, NoneStranded, Pack, TestWaitCondition, ClearBits, Or, Covers, Plain;
    var g1 := SetBits(g, bitsToSet);
    SetKeeps(g, bitsToSet);
    if Covers(Or(g.bits, bitsToSet), wanted) {
      ClearKeeps(g1, wanted);
    } else if mayBlock {
      SyncStillUnmet(g, bitsToSet, wanted);
      JoinKeeps(g1, t, wanted, true, true);
    }
  }

  lemma StepKeeps(g: Group, a: Action)
    requires NoneStranded(g) && Enabled(a)
    ensures NoneStranded(Apply(g, a))
  {
    match a
    case Set(bits) => SetKeeps(g, bits);
    case Clear(bits) => ClearKeeps(g, bits);
    case Wait(t, wanted, clear, all, mayBlock) =>
      hide NoneStranded, Pack, TestWaitCondition, ClearBits, Plain;
      if TestWaitCondition(g.bits, wanted, all) {
        ClearKeeps(g, wanted);
      } else {
        JoinKeeps(g, t, wanted, clear, all);
      }
    case Meet(t, bits, wanted, mayBlock) => SyncKeeps(g, t, bits, wanted, mayBlock);
    case TimeOut(t) => hide Matches;
    case GiveUp(wanted, clear, all) =>
      hide NoneStranded, ClearBits, TestWaitCondition;
      ClearKeeps(g, wanted);
  }

  function Run(g: Group, actions: seq<Action>): Group
    decreases |actions|
  {
    if actions == [] then g else Run(Apply(g, actions[0]), actions[1..])
  }

  /** From an empty group, whatever the calls, timeouts and their order. */
  lemma {:induction false} NeverStranded(g: Group, actions: seq<Action>)
    requires NoneStranded(g) && forall a :: a in actions ==> Enabled(a)
    ensures NoneStranded(Run(g, actions))
    decreases |actions|
  {
    hide NoneStranded, Apply, Enabled;
    if actions != [] {
      StepKeeps(g, actions[0]);
      NeverStranded(Apply(g, actions[0]), actions[1..]);
    }
  }

  // ---- The code in place ----

  class EventGroup {
    var eventBits: Bits
    var tasksWaitingForBits: seq<Waiter>

    constructor ()
      ensures State() == Group(0, []) && NoneStranded(State())
    {
      eventBits, tasksWaitingForBits := 0, [];
    }

    function State(): Group
      reads this
    {
      Group(eventBits, tasksWaitingForBits)
    }

    /** The traversal that removes matching items as it goes; each gets the bits that released it. */
    method SetEventBits(bitsToSet: Bits) returns (released: seq<Waiter>)
      modifies this
      ensures State() == SetBits(old(State()), bitsToSet)
      ensures released == Stamp(Released(old(tasksWaitingForBits), Or(old(eventBits), bitsToSet)), Or(old(eventBits), bitsToSet))
    {
      hide Matches, Clears, Wanted, Or, Minus, ReleasedWord, Kept, Released, ClearMask, Stamp;
      eventBits := Or(eventBits, bitsToSet);
      var bitsToClear: Bits := 0;
      released := [];
      ghost var all := tasksWaitingForBits;
      var i := 0;
      ghost var done := 0;
      ScanStarts(all, eventBits);
      while i < |tasksWaitingForBits|
        invariant eventBits == Or(old(eventBits), bitsToSet) && 0 <= i <= |tasksWaitingForBits|
        invariant Scanned(all, done, eventBits, tasksWaitingForBits, i, released, bitsToClear)
        decreases |all| - done
      {
        ScanStep(all, done, eventBits, tasksWaitingForBits, i, released, bitsToClear);
        var w := tasksWaitingForBits[i];
        if Matches(w.word, eventBits) {
          if Clears(w.word) {
            bitsToClear := Or(bitsToClear, Wanted(w.word));
          }
          released := released + [Waiter(w.t, ReleasedWord(eventBits))];
          tasksWaitingForBits := tasksWaitingForBits[..i] + tasksWaitingForBits[i + 1..];
        } else {
          i := i + 1;
        }
        done := done + 1;
      }
      ScanEnds(all, done, eventBits, tasksWaitingForBits, i, released, bitsToClear);
      eventBits := Minus(eventBits, bitsToClear);
    }

    method ClearEventBits(bitsToClear: Bits) returns (before: Bits)
      modifies this
      ensures State() == ClearBits(old(State()), bitsToClear) && before == old(eventBits)
    {
      before := eventBits;
      eventBits := Minus(eventBits, bitsToClear);
    }

    /** xEventGroupWaitBits up to the point where the task blocks or returns. */
    method WaitForBits(t: Task, wanted: Bits, clear: bool, all: bool, mayBlock: bool) returns (current: Bits, blocked: bool)
      modifies this
      ensures State() == WaitBits(old(State()), t, wanted, clear, all, mayBlock) && current == old(eventBits)
      ensures blocked == (mayBlock && !TestWaitCondition(current, wanted, all))
    {
      current, blocked := eventBits, false;
      if TestWaitCondition(current, wanted, all) {
        if clear {
          eventBits := Minus(eventBits, wanted);
        }
      } else if mayBlock {
        tasksWaitingForBits := tasksWaitingForBits + [Waiter(t, Pack(wanted, clear, all))];
        blocked := true;
      }
    }

    /** xEventGroupSync up to the point where the task blocks or returns. */
    method SyncBits(t: Task, bitsToSet: Bits, wanted: Bits, mayBlock: bool) returns (result: Bits, released: seq<Waiter>, blocked: bool)
      modifies this
      ensures State() == Sync(old(State()), t, bitsToSet, wanted, mayBlock)
      ensures var now := Or(old(eventBits), bitsToSet);
        && blocked == (mayBlock && !Covers(now, wanted)) && (Covers(now, wanted) ==> result == now)
        && (!Covers(now, wanted) && !mayBlock ==> result == eventBits)
        && released == Stamp(Released(old(tasksWaitingForBits), now), now)
    {
      hide Or, Covers, SetBits, Released, Stamp, Minus, Pack;
      var original := eventBits;
      released := SetEventBits(bitsToSet);
      blocked, result := false, 0;
      if Covers(Or(original, bitsToSet), wanted) {
        result := Or(original, bitsToSet);
        eventBits := Minus(eventBits, wanted);
      } else if mayBlock {
        tasksWaitingForBits := tasksWaitingForBits + [Waiter(t, Pack(wanted, true, true))];
        blocked := true;
      } else {
        result := eventBits;
      }
    }
  }

  /** The released tasks with the word each of them will read. */
  function Stamp(ws: seq<Waiter>, bits: Bits): seq<Waiter> {
    if ws == [] then [] else Stamp(ws[..|ws| - 1], bits) + [Waiter(ws[|ws| - 1].t, ReleasedWord(bits))]
  }

  lemma StampAppend(ws: seq<Waiter>, w: Waiter, bits: Bits)
    ensures Stamp(ws + [w], bits) == Stamp(ws, bits) + [Waiter(w.t, ReleasedWord(bits))]
  {
    assert (ws + [w])[..|ws|] == ws;
  }

  /** The invariant of the traversal: `done` of all items seen, i of them kept. */
  ghost predicate Scanned(all: seq<Waiter>, done: int, bits: Bits, list: seq<Waiter>, i: int, released: seq<Waiter>, mask: Bits) {
    && 0 <= done <= |all|
    && list == Kept(all[..done], bits) + all[done..] && i == |Kept(all[..done], bits)|
    && released == Stamp(Released(all[..done], bits), bits)
    && mask == ClearMask(Released(all[..done], bits))
  }

  lemma ScanStarts(all: seq<Waiter>, bits: Bits)
    ensures Scanned(all, 0, bits, all, 0, [], 0)
  {
    FilterNone(all, bits);
    assert ClearMask([]) == 0 && Stamp([], bits) == [];
  }

  lemma ScanStep(all: seq<Waiter>, done: int, bits: Bits, list: seq<Waiter>, i: int, released: seq<Waiter>, mask: Bits)
    requires Scanned(all, done, bits, list, i, released, mask) && i < |list|
    ensures done < |all| && list[i] == all[done] && 0 <= i
    ensures Matches(list[i].word, bits) ==>
      Scanned(all, done + 1, bits, list[..i] + list[i + 1..], i, released + [Waiter(list[i].t, ReleasedWord(bits))],
              if Clears(list[i].word) then Or(mask, Wanted(list[i].word)) else mask)
    ensures !Matches(list[i].word, bits) ==> Scanned(all, done + 1, bits, list, i + 1, released, mask)
  {
    hide Matches, Clears, Wanted, Or, ReleasedWord, Kept, Released, ClearMask, Stamp;
    var kept, gone, w := Kept(all[..done], bits), Released(all[..done], bits), all[done];
    FilterNext(all, done, bits);
    StampAppend(gone, w, bits);
    ClearMaskAppend(gone, w);
    OrAssociates(mask, 0, 0);
    assert list[i] == w;
    assert list[..i] == kept && list[i + 1..] == all[done + 1..];
    assert kept + ([w] + all[done + 1..]) == (kept + [w]) + all[done + 1..];
    assert gone + [] == gone && kept + [] == kept;
  }

  lemma ScanEnds(all: seq<Waiter>, done: int, bits: Bits, list: seq<Waiter>, i: int, released: seq<Waiter>, mask: Bits)
    requires Scanned(all, done, bits, list, i, released, mask) && i >= |list|
    ensures list == Kept(all, bits) && released == Stamp(Released(all, bits), bits) && mask == ClearMask(Released(all, bits))
  {
    hide Kept, Released, ClearMask, Stamp;
    assert all[..done] == all && all[done..] == [];
  }

  lemma FilterNone(ws: seq<Waiter>, bits: Bits)
    ensures Kept(ws[..0], bits) == [] && Released(ws[..0], bits) == [] && [] + ws[0..] == ws
  {
  }

  lemma {:induction false} ReleasedAppend(ws: seq<Waiter>, w: Waiter, bits: Bits)
    ensures Released(ws + [w], bits) == Released(ws, bits) + if Matches(w.word, bits) then [w] else []
  {
    hide Matches;
    if ws == [] {
      assert ws + [w] == [w] && [w][1..] == [];
    } else {
      ReleasedAppend(ws[1..], w, bits);
      assert (ws + [w])[1..] == ws[1..] + [w] && (ws + [w])[0] == ws[0];
      Regroup(if Matches(ws[0].word, bits) then [ws[0]] else [], Released(ws[1..], bits), if Matches(w.word, bits) then [w] else []);
    }
  }

  lemma {:induction false} KeptAppend(ws: seq<Waiter>, w: Waiter, bits: Bits)
    ensures Kept(ws + [w], bits) == Kept(ws, bits) + if Matches(w.word, bits) then [] else [w]
  {
    hide Matches;
    if ws == [] {
      assert ws + [w] == [w] && [w][1..] == [];
    } else {
      KeptAppend(ws[1..], w, bits);
      assert (ws + [w])[1..] == ws[1..] + [w] && (ws + [w])[0] == ws[0];
      Regroup(if Matches(ws[0].word, bits) then [] else [ws[0]], Kept(ws[1..], bits), if Matches(w.word, bits) then [] else [w]);
    }
  }

  lemma Regroup(a: seq<Waiter>, b: seq<Waiter>, c: seq<Waiter>)
    ensures a + (b + c) == (a + b) + c
  {
  }

  lemma FilterNext(all: seq<Waiter>, done: int, bits: Bits)
    requires 0 <= done < |all|
    ensures Released(all[..done + 1], bits) == Released(all[..done], bits) + if Matches(all[done].word, bits) then [all[done]] else []
    ensures Kept(all[..done + 1], bits) == Kept(all[..done], bits) + if Matches(all[done].word, bits) then [] else [all[done]]
    ensures all[done..] == [all[done]] + all[done + 1..]
  {
    hide Matches, Released, Kept;
    assert all[..done + 1] == all[..done] + [all[done]];
    ReleasedAppend(all[..done], all[done], bits);
    KeptAppend(all[..done], all[done], bits);
  }

  lemma {:induction false} ClearMaskAppend(ws: seq<Waiter>, w: Waiter)
    ensures ClearMask(ws + [w]) == Or(ClearMask(ws), if Clears(w.word) then Wanted(w.word) else 0)
  {
    hide Clears, Wanted, Or;
    var mine: Bits := if Clears(w.word) then Wanted(w.word) else 0;
    if ws == [] {
      assert ws + [w] == [w] && [w][1..] == [];
      assert ClearMask([w]) == Or(mine, ClearMask([])) && ClearMask([]) == 0;
      OrAssociates(mine, 0, 0);
    } else {
      ClearMaskAppend(ws[1..], w);
      assert (ws + [w])[1..] == ws[1..] + [w];
      OrAssociates(if Clears(ws[0].word) then Wanted(ws[0].word) else 0, ClearMask(ws[1..]), mine);
    }
  }
}
