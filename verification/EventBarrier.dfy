/**
  xEventGroupSync as a reusable barrier: n tasks, each with its own bit, wait for all the bits
  with no timeout and use nothing but Sync, any number of times and in any order.
 */
module EventBarrier {
  import opened BitMasks
  import opened EventGroups

  /** A task is outside the call, waiting in it, or released and about to return a value. */
  datatype Phase = Out | Waiting | Woken(value: Bits)

  datatype Party = Party(calls: int, ended: int, phase: Phase, last: Bits)

  /** round counts the rendezvous completed; no branch reads it. */
  datatype Barrier = Barrier(g: Group, parties: seq<Party>, round: int)

  function OrAll(own: seq<Bits>): Bits {
    if own == [] then 0 else Or(own[0], OrAll(own[1..]))
  }

  /** Every task has at least one bit, and no two share one. */
  ghost predicate Distinct(own: seq<Bits>) {
    && (forall i :: 0 <= i < |own| ==> own[i] != 0)
    && (forall i, j :: 0 <= i < |own| && 0 <= j < |own| && i != j ==> !Meets(own[i], own[j]))
    && Plain(OrAll(own))
  }

  function Word(own: seq<Bits>): Bits { Pack(OrAll(own), true, true) }

  // ---- Masks ----

  lemma {:induction false} AllCoversEach(own: seq<Bits>, i: int)
    requires 0 <= i < |own|
    ensures Covers(OrAll(own), own[i])
  {
    hide Or, Covers;
    OrCovers(own[0], OrAll(own[1..]));
    if i > 0 {
      AllCoversEach(own[1..], i - 1);
      CoversFewer(OrAll(own), OrAll(own[1..]), own[i]);
    }
  }

  lemma {:induction false} EachCoversAll(bits: Bits, own: seq<Bits>)
    requires forall i :: 0 <= i < |own| ==> Covers(bits, own[i])
    ensures Covers(bits, OrAll(own))
  {
    hide Or, Covers;
    if own == [] {
      CoversNothing(bits);
    } else {
      EachCoversAll(bits, own[1..]);
      CoversBoth(bits, own[0], OrAll(own[1..]));
    }
  }

  // ---- Steps ----

  function Call(p: Party, phase: Phase): Party { p.(calls := p.calls + 1, phase := phase) }

  predicate Names(ws: seq<Waiter>, i: int) { exists w :: w in ws && w.t == i }

  /** The parties after those on the list were released with the given bits. */
  function Wake(parties: seq<Party>, released: seq<Waiter>, bits: Bits): (r: seq<Party>)
    ensures |r| == |parties|
    ensures forall i :: 0 <= i < |r| ==>
      r[i] == if Names(released, i) then parties[i].(phase := Woken(bits)) else parties[i]
  {
    seq(|parties|, i requires 0 <= i < |parties| =>
      if Names(released, i) then parties[i].(phase := Woken(bits)) else parties[i])
  }

  /** Task i calls xEventGroupSync. */
  function Arrive(b: Barrier, own: seq<Bits>, i: int): Barrier
    requires 0 <= i < |b.parties| == |own|
  {
    var all, bits := OrAll(own), Or(b.g.bits, own[i]);
    var g := Sync(b.g, i, own[i], all, true);
    var parties := Wake(b.parties, Released(b.g.waiting, bits), bits);
    if Covers(bits, all) then
      Barrier(g, parties[i := Party(b.parties[i].calls + 1, b.parties[i].ended + 1, Out, bits)], b.round + 1)
    else Barrier(g, parties[i := Call(b.parties[i], Waiting)], b.round)
  }

  /** A released task runs again and returns. */
  function Return(b: Barrier, i: int): Barrier
    requires 0 <= i < |b.parties| && b.parties[i].phase.Woken?
  {
    var p := b.parties[i];
    b.(parties := b.parties[i := p.(ended := p.ended + 1, phase := Out, last := p.phase.value)])
  }

  // ---- The invariant ----

  /** Where party i stands relative to the completed rounds, and its bit. */
  predicate PartyOk(b: Barrier, own: seq<Bits>, i: int)
    requires 0 <= i < |b.parties| == |own|
  {
    var p := b.parties[i];
    && (p.ended > 0 ==> Covers(p.last, OrAll(own)))
    && match p.phase
       case Out => p.calls == b.round && p.ended == b.round && !Meets(b.g.bits, own[i])
       case Waiting => p.calls == b.round + 1 && p.ended == b.round && Covers(b.g.bits, own[i])
       case Woken(value) => p.calls == b.round && p.ended == b.round - 1 && !Meets(b.g.bits, own[i]) && Covers(value, OrAll(own))
  }

  /** The list holds exactly the waiting parties, each waiting for all the bits. */
  ghost predicate ListOk(b: Barrier, own: seq<Bits>) {
    && (forall w :: w in b.g.waiting ==> 0 <= w.t < |b.parties| && b.parties[w.t].phase.Waiting? && w.word == Word(own))
    && (forall i :: 0 <= i < |b.parties| && b.parties[i].phase.Waiting? ==> Waiter(i, Word(own)) in b.g.waiting)
  }

  ghost predicate Inv(b: Barrier, own: seq<Bits>) {
    && |b.parties| == |own| && Distinct(own) && ListOk(b, own)
    && forall i :: 0 <= i < |own| ==> PartyOk(b, own, i)
  }

  /** The waiters' word asks for all the bits. */
  lemma WordMatches(own: seq<Bits>, bits: Bits)
    requires Distinct(own)
    ensures Matches(Word(own), bits) <==> Covers(bits, OrAll(own))
    ensures Clears(Word(own)) && Wanted(Word(own)) == OrAll(own)
  {
    hide Pack, Wanted, NeedsAll, Clears, Covers, Meets, Plain, OrAll;
    PackRoundTrip(OrAll(own), true, true);
  }

  /** The call completes the round exactly when everyone else is waiting. */
  lemma CompletesWhenAllWait(b: Barrier, own: seq<Bits>, i: int)
    requires Inv(b, own) && 0 <= i < |own| && b.parties[i].phase.Out?
    ensures Covers(Or(b.g.bits, own[i]), OrAll(own)) <==> forall j :: 0 <= j < |own| && j != i ==> b.parties[j].phase.Waiting?
  {
    hide Or, Covers, Meets, OrAll, Plain;
    var bits := Or(b.g.bits, own[i]);
    OrCovers(b.g.bits, own[i]);
    if Covers(bits, OrAll(own)) {
      forall j | 0 <= j < |own| && j != i ensures b.parties[j].phase.Waiting? {
        AllCoversEach(own, j);
        CoversFewer(bits, OrAll(own), own[j]);
        assert !Meets(own[i], own[j]) && own[j] != 0;
        OrDisjoint(b.g.bits, own[i], own[j]);
        NotMet(b.g.bits, own[j]);
        assert PartyOk(b, own, j);
      }
    }
    if forall j :: 0 <= j < |own| && j != i ==> b.parties[j].phase.Waiting? {
      forall j | 0 <= j < |own| ensures Covers(bits, own[j]) {
        assert PartyOk(b, own, j);
        if j != i {
          CoversFewer(bits, b.g.bits, own[j]);
        }
      }
      EachCoversAll(bits, own);
    }
  }

  // ---- The last arrival ----

  lemma Completed(b: Barrier, own: seq<Bits>, i: int)
    requires Inv(b, own) && 0 <= i < |own| && b.parties[i].phase.Out? && Covers(Or(b.g.bits, own[i]), OrAll(own))
    ensures var b' := Arrive(b, own, i);
      && b'.g.waiting == [] && b'.round == b.round + 1 && |b'.parties| == |own|
      && (forall j :: 0 <= j < |own| && j != i ==> b'.parties[j] == b.parties[j].(phase := Woken(Or(b.g.bits, own[i]))))
      && b'.parties[i] == Party(b.parties[i].calls + 1, b.parties[i].ended + 1, Out, Or(b.g.bits, own[i]))
      && exists g1: Bits :: b'.g.bits == Minus(g1, OrAll(own))
  {
    hide Or, Covers, Meets, OrAll, Plain, Matches, Minus, ClearMask, Word;
    var bits, b' := Or(b.g.bits, own[i]), Arrive(b, own, i);
    WordMatches(own, bits);
    CompletesWhenAllWait(b, own, i);
    EverybodyReleased(b.g.waiting, bits);
    forall j | 0 <= j < |own| && j != i ensures Names(Released(b.g.waiting, bits), j) {
      assert Waiter(j, Word(own)) in b.g.waiting;
      assert Waiter(j, Word(own)) in Released(b.g.waiting, bits) && Waiter(j, Word(own)).t == j;
    }
    assert b'.g.bits == Minus(SetBits(b.g, own[i]).bits, OrAll(own));
  }

  lemma CompletedKeeps(b: Barrier, own: seq<Bits>, i: int)
    requires Inv(b, own) && 0 <= i < |own| && b.parties[i].phase.Out? && Covers(Or(b.g.bits, own[i]), OrAll(own))
    ensures Inv(Arrive(b, own, i), own) && !Meets(Arrive(b, own, i).g.bits, OrAll(own))
  {
    hide Arrive, Or, Covers, Meets, OrAll, Plain, Minus, Word;
    var bits, b' := Or(b.g.bits, own[i]), Arrive(b, own, i);
    Completed(b, own, i);
    CompletesWhenAllWait(b, own, i);
    var g1: Bits :| b'.g.bits == Minus(g1, OrAll(own));
    CoversItself(OrAll(own));
    MinusClears(g1, OrAll(own), OrAll(own));
    forall j | 0 <= j < |own| ensures PartyOk(b', own, j) {
      assert PartyOk(b, own, j);
      AllCoversEach(own, j);
      MinusClears(g1, OrAll(own), own[j]);
    }
  }

  lemma CoversItself(a: Bits)
    ensures Covers(a, a)
  {
  }

  // ---- An earlier arrival ----

  lemma Joined(b: Barrier, own: seq<Bits>, i: int)
    requires Inv(b, own) && 0 <= i < |own| && b.parties[i].phase.Out? && !Covers(Or(b.g.bits, own[i]), OrAll(own))
    ensures var b' := Arrive(b, own, i);
      && b'.g.waiting == b.g.waiting + [Waiter(i, Word(own))] && b'.g.bits == Or(b.g.bits, own[i])
      && b'.parties == b.parties[i := Call(b.parties[i], Waiting)] && b'.round == b.round
  {
    hide Or, Covers, Meets, OrAll, Plain, Matches, Minus, ClearMask, Pack;
    var bits := Or(b.g.bits, own[i]);
    WordMatches(own, bits);
    NobodyReleased(b.g.waiting, bits);
    NothingCleared(bits);
    assert Wake(b.parties, [], bits) == b.parties;
  }

  lemma {:induction false} NobodyReleased(ws: seq<Waiter>, bits: Bits)
    requires forall w :: w in ws ==> !Matches(w.word, bits)
    ensures Released(ws, bits) == [] && Kept(ws, bits) == ws
  {
    hide Matches;
    if ws != [] {
      assert ws[0] in ws;
      NobodyReleased(ws[1..], bits);
    }
  }

  lemma {:induction false} EverybodyReleased(ws: seq<Waiter>, bits: Bits)
    requires forall w :: w in ws ==> Matches(w.word, bits)
    ensures Kept(ws, bits) == []
  {
    hide Matches;
    if ws != [] {
      assert ws[0] in ws;
      EverybodyReleased(ws[1..], bits);
    }
  }

  lemma NothingCleared(bits: Bits)
    ensures Minus(bits, ClearMask([])) == bits
  {
    assert ClearMask([]) == 0;
    MinusNothing(bits);
  }

  lemma MinusNothing(a: Bits)
    ensures Minus(a, 0) == a
  {
  }

  lemma JoinedKeeps(b: Barrier, own: seq<Bits>, i: int)
    requires Inv(b, own) && 0 <= i < |own| && b.parties[i].phase.Out? && !Covers(Or(b.g.bits, own[i]), OrAll(own))
    ensures Inv(Arrive(b, own, i), own)
  {
    hide Arrive, Or, Covers, Meets, OrAll, Plain, Word;
    var b' := Arrive(b, own, i);
    Joined(b, own, i);
    OrCovers(b.g.bits, own[i]);
    forall j | 0 <= j < |own| ensures PartyOk(b', own, j) {
      assert PartyOk(b, own, j);
      if j != i {
        assert !Meets(own[i], own[j]);
        OrDisjoint(b.g.bits, own[i], own[j]);
      }
    }
    JoinedList(b, b', own, i);
  }

  lemma JoinedList(b: Barrier, b': Barrier, own: seq<Bits>, i: int)
    requires ListOk(b, own) && 0 <= i < |b.parties| && b.parties[i].phase.Out?
    requires b'.g.waiting == b.g.waiting + [Waiter(i, Word(own))] && b'.parties == b.parties[i := Call(b.parties[i], Waiting)]
    ensures ListOk(b', own)
  {
    hide Word;
    assert Waiter(i, Word(own)) in b'.g.waiting;
  }

  // ---- Runs ----

  lemma ReturnKeeps(b: Barrier, own: seq<Bits>, i: int)
    requires Inv(b, own) && 0 <= i < |own| && b.parties[i].phase.Woken?
    ensures Inv(Return(b, i), own)
  {
    hide Covers, Meets, OrAll, Plain, Word;
    var b' := Return(b, i);
    forall j | 0 <= j < |own| ensures PartyOk(b', own, j) {
      assert PartyOk(b, own, j);
    }
  }

  datatype Action = ArriveStep(i: int) | ReturnStep(i: int)

  predicate Enabled(b: Barrier, own: seq<Bits>, a: Action) {
    && |b.parties| == |own| && 0 <= a.i < |own|
    && match a
       case ArriveStep(i) => b.parties[i].phase.Out?
       case ReturnStep(i) => b.parties[i].phase.Woken?
  }

  function Apply(b: Barrier, own: seq<Bits>, a: Action): Barrier
    requires Enabled(b, own, a)
  {
    match a
    case ArriveStep(i) => Arrive(b, own, i)
    case ReturnStep(i) => Return(b, i)
  }

  lemma StepKeeps(b: Barrier, own: seq<Bits>, a: Action)
    requires Inv(b, own) && Enabled(b, own, a)
    ensures Inv(Apply(b, own, a), own)
  {
    match a
    case ArriveStep(i) =>
      hide Inv, Arrive, Covers, Or, OrAll;
      if Covers(Or(b.g.bits, own[i]), OrAll(own)) {
        CompletedKeeps(b, own, i);
      } else {
        JoinedKeeps(b, own, i);
      }
    case ReturnStep(i) => ReturnKeeps(b, own, i);
  }

  ghost predicate Runs(b: Barrier, own: seq<Bits>, run: seq<Action>, b': Barrier)
    decreases |run|
  {
    if run == [] then b == b' else Enabled(b, own, run[0]) && Runs(Apply(b, own, run[0]), own, run[1..], b')
  }

  lemma {:induction false} RunKeeps(b: Barrier, own: seq<Bits>, run: seq<Action>, b': Barrier)
    requires Inv(b, own) && Runs(b, own, run, b')
    ensures Inv(b', own)
    decreases |run|
  {
    hide Inv, Enabled, Apply;
    if run != [] {
      StepKeeps(b, own, run[0]);
      RunKeeps(Apply(b, own, run[0]), own, run[1..], b');
    }
  }

  function Initial(n: nat): Barrier { Barrier(Group(0, []), seq(n, _ => Party(0, 0, Out, 0)), 0) }

  lemma InitialInv(own: seq<Bits>)
    requires Distinct(own)
    ensures Inv(Initial(|own|), own)
  {
    hide OrAll, Plain, Covers, Word, Meets;
    forall i | 0 <= i < |own| ensures PartyOk(Initial(|own|), own, i) {
      NothingMeets(own[i]);
    }
  }

  /** No r-th call returns before everyone has made an r-th call, and what it returned holds every bit. */
  lemma BarrierSafe(own: seq<Bits>, run: seq<Action>, b: Barrier, i: int, j: int, r: int)
    requires Distinct(own) && Runs(Initial(|own|), own, run, b) && 0 <= i < |own| && 0 <= j < |own|
    ensures |b.parties| == |own|
    ensures b.parties[i].ended >= r ==> b.parties[j].calls >= r
    ensures b.parties[i].ended > 0 ==> Covers(b.parties[i].last, OrAll(own))
  {
    hide Distinct, Covers, OrAll, Meets, ListOk, Runs;
    InitialInv(own);
    RunKeeps(Initial(|own|), own, run, b);
    assert PartyOk(b, own, i) && PartyOk(b, own, j);
  }

  /** The last of n tasks to arrive returns at once, releases the others and leaves the bits cleared. */
  lemma LastArrivalClears(own: seq<Bits>, run: seq<Action>, b: Barrier, i: int)
    requires Distinct(own) && Runs(Initial(|own|), own, run, b)
    requires Enabled(b, own, ArriveStep(i)) && forall j :: 0 <= j < |own| && j != i ==> b.parties[j].phase.Waiting?
    ensures var b' := Arrive(b, own, i);
      && b'.g.waiting == [] && !Meets(b'.g.bits, OrAll(own)) && b'.parties[i].ended == b.parties[i].ended + 1
      && |b'.parties| == |own| && forall j :: 0 <= j < |own| && j != i ==> b'.parties[j].phase.Woken?
  {
    hide Distinct, Covers, Or, OrAll, Meets, ListOk, Runs, Arrive, Inv;
    InitialInv(own);
    RunKeeps(Initial(|own|), own, run, b);
    CompletesWhenAllWait(b, own, i);
    Completed(b, own, i);
    CompletedKeeps(b, own, i);
  }
}
