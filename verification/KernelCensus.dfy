/**
  uxTaskGetSystemState: walking every state list once finds every task exactly once.
 */
module KernelCensus {
  import opened Options
  import opened Seqs
  import opened Kernel
  import opened KernelLists
  import opened KernelTime
  import opened KernelRuns
  import opened KernelSteps
  import opened KernelResults
  import Rings

  function OwnerSeq(s: seq<Item>): (r: seq<Task>)
    ensures |r| == |s| && forall i :: 0 <= i < |s| ==> r[i] == s[i].t
  {
    seq(|s|, i requires 0 <= i < |s| => s[i].t)
  }

  /** The tasks in the order in which prvListTasksWithinSingleList reports them. */
  function Visited(r: Rings.Ring<Item>): seq<Task> {
    if Rings.Valid(r) && r.items != [] then OwnerSeq(Rings.Rotation(Rings.Next(r))) else []
  }

  /** The walk of a list leaves its index one entry further on. */
  function TurnedOn(r: Rings.Ring<Item>): Rings.Ring<Item> {
    if Rings.Valid(r) && r.items != [] then Rings.Next(r) else r
  }

  /** The lists that the report walks. */
  predicate Reported(l: ListId) {
    match l
    case Ready(p) => 0 <= p < MAX_PRIORITIES
    case PendingReady => false
    case Event(_) => false
    case _ => true
  }

  /** Distinct items belong to distinct tasks. */
  predicate OneEach(s: seq<Item>) {
    forall i, j :: 0 <= i < j < |s| ==> s[i].t != s[j].t
  }

  function ReadyLists(): (ls: seq<ListId>)
    ensures |ls| == MAX_PRIORITIES && forall i :: 0 <= i < MAX_PRIORITIES ==> ls[i] == Ready(MAX_PRIORITIES - 1 - i)
  {
    seq(MAX_PRIORITIES, i requires 0 <= i < MAX_PRIORITIES => Ready(MAX_PRIORITIES - 1 - i))
  }

  /** The lists in the order of the report. */
  function StateLists(k: State): seq<ListId> {
    ReadyLists() + [Delayed(k.second), Delayed(!k.second), Termination, Suspended]
  }

  function Gather(k: State, ls: seq<ListId>): seq<Task> {
    if ls == [] then [] else Gather(k, ls[..|ls| - 1]) + Visited(k.RingOf(ls[|ls| - 1]))
  }

  predicate IsStateList(l: ListId) { !l.PendingReady? && !l.Event? }

  lemma OnStateList(k: State, l: ListId, x: Item)
    requires Lists(k) && Placed(k) && Waits(k) && IsStateList(l) && x in k.ItemsOf(l)
    ensures x == StateItem(x.t) && k.StateList(x.t) == Some(l)
  {
    assert x.EventItem? ==> k.EventList(x.t) == Some(l);
    assert x.StateItem? ==> k.StateList(x.t) == Some(l);
  }

  lemma VisitedExact(k: State, l: ListId)
    requires Lists(k) && Placed(k) && Waits(k) && IsStateList(l)
    ensures OneEach(k.ItemsOf(l)) && NoDup(Visited(k.RingOf(l)))
    ensures forall t :: t in Visited(k.RingOf(l)) <==> k.StateList(t) == Some(l)
  {
    var r := k.RingOf(l);
    assert Rings.Valid(r);
    hide Placed, Waits;
    forall i, j | 0 <= i < j < |r.items| ensures r.items[i].t != r.items[j].t {
      OnStateList(k, l, r.items[i]);
      OnStateList(k, l, r.items[j]);
    }
    if r.items != [] {
      RotationOneEach(k, l);
    }
    forall t ensures t in Visited(r) <==> k.StateList(t) == Some(l) {
      VisitedMember(k, l, t);
    }
  }

  lemma RotationOneEach(k: State, l: ListId)
    requires Lists(k) && Placed(k) && Waits(k) && IsStateList(l) && k.ItemsOf(l) != []
    ensures NoDup(Visited(k.RingOf(l)))
  {
    var r := k.RingOf(l);
    assert Rings.Valid(r);
    var rot := Rings.Rotation(Rings.Next(r));
    Rings.RotationFacts(Rings.Next(r));
    hide Rings.Rotation, Rings.Next, Placed, Waits;
    forall i, j | 0 <= i < j < |rot| ensures rot[i].t != rot[j].t {
      OnStateList(k, l, rot[i]);
      OnStateList(k, l, rot[j]);
    }
  }

  lemma VisitedMember(k: State, l: ListId, t: Task)
    requires Lists(k) && Placed(k) && Waits(k) && IsStateList(l)
    ensures t in Visited(k.RingOf(l)) <==> k.StateList(t) == Some(l)
  {
    var r := k.RingOf(l);
    assert Rings.Valid(r);
    assert StateItem(t) in r.items <==> k.StateList(t) == Some(l);
    if r.items != [] {
      var rot := Rings.Rotation(Rings.Next(r));
      Rings.RotationFacts(Rings.Next(r));
      hide Rings.Rotation, Rings.Next, Rings.Valid, Placed, Waits, State.StateList;
      if StateItem(t) in rot {
        var i :| 0 <= i < |rot| && rot[i] == StateItem(t);
        assert OwnerSeq(rot)[i] == t;
      }
      if t in OwnerSeq(rot) {
        var i :| 0 <= i < |rot| && OwnerSeq(rot)[i] == t;
        OnStateList(k, l, rot[i]);
      }
    }
  }

  lemma JoinNoDup(a: seq<Task>, b: seq<Task>)
    requires NoDup(a) && NoDup(b) && forall t :: t in a ==> t !in b
    ensures NoDup(a + b)
  {
    forall i, j | 0 <= i < j < |a + b| ensures (a + b)[i] != (a + b)[j] {
      if i < |a| <= j {
        assert (a + b)[j] == b[j - |a|] && a[i] in a;
      }
    }
  }

  lemma {:induction false} GatherExact(k: State, ls: seq<ListId>)
    requires Lists(k) && Placed(k) && Waits(k) && NoDup(ls) && forall l :: l in ls ==> IsStateList(l)
    ensures NoDup(Gather(k, ls))
    ensures forall t :: t in Gather(k, ls) <==> k.StateList(t).Some? && k.StateList(t).value in ls
  {
    if ls != [] {
      var init, l := ls[..|ls| - 1], ls[|ls| - 1];
      assert ls == init + [l];
      GatherExact(k, init);
      VisitedExact(k, l);
      hide Lists, Placed, Waits, Visited, State.StateList, State.RingOf;
      assert l !in init;
      JoinNoDup(Gather(k, init), Visited(k.RingOf(l)));
      hide NoDup;
    }
  }

  lemma StateListsCover(k: State)
    ensures NoDup(StateLists(k)) && forall l :: l in StateLists(k) ==> IsStateList(l)
    ensures forall p :: 0 <= p < MAX_PRIORITIES ==> Ready(p) in StateLists(k)
    ensures forall b :: Delayed(b) in StateLists(k)
    ensures Termination in StateLists(k) && Suspended in StateLists(k)
  {
    var ls, tail := StateLists(k), [Delayed(k.second), Delayed(!k.second), Termination, Suspended];
    forall p | 0 <= p < MAX_PRIORITIES ensures Ready(p) in ls {
      assert ReadyLists()[MAX_PRIORITIES - 1 - p] == Ready(p);
    }
    assert tail[0] == Delayed(k.second) && tail[1] == Delayed(!k.second) && tail[2] == Termination && tail[3] == Suspended;
    hide ReadyLists;
    forall i, j | 0 <= i < j < |ls| ensures ls[i] != ls[j] {
      if MAX_PRIORITIES <= i {
        assert ls[i] == tail[i - MAX_PRIORITIES] && ls[j] == tail[j - MAX_PRIORITIES];
      } else if MAX_PRIORITIES <= j {
        assert ls[j] == tail[j - MAX_PRIORITIES];
      }
    }
  }

  lemma PlacedCovered(k: State, t: Task)
    requires Placed(k)
    ensures t in k.tasks <==> k.StateList(t).Some? && k.StateList(t).value in StateLists(k)
  {
    hide StateLists;
    StateListsCover(k);
  }

  /** The report holds every task once, so as many entries as there are tasks. */
  lemma CensusExact(k: State)
    requires Lists(k) && Rest(k)
    ensures var found := Gather(k, StateLists(k));
      NoDup(found) && Elements(found) == k.tasks && |found| == k.numTasks
  {
    hide Lists, Placed, Waits, TopOk, StateLists, Gather, NoDup, State.StateList;
    var found := Gather(k, StateLists(k));
    StateListsCover(k);
    GatherExact(k, StateLists(k));
    forall t ensures t in found <==> t in k.tasks {
      PlacedCovered(k, t);
    }
    ElementsSize(found);
    assert Elements(found) == k.tasks;
  }

  /** In every reachable state, and with uxDeletedTasksWaitingCleanUp counting the deleted ones. */
  lemma Census(k: State)
    requires Reachable(k)
    ensures var found := Gather(k, StateLists(k)); NoDup(found) && Elements(found) == k.tasks && |found| == k.numTasks
    ensures k.deletedWaiting > 0 ==> k.ItemsOf(Termination) != []
  {
    ReachableInv(k);
    InvSuspended(k);
    hide Inv, Reachable, Gather, Elements, NoDup;
    CensusExact(k);
    if k.deletedWaiting > 0 {
      assert Dead(k) != {};
      var t :| t in Dead(k);
      assert StateItem(t) in k.ItemsOf(Termination);
    }
  }

  // ---- The walk of one list ----

  /** j entries of the rotation have been visited. */
  ghost predicate Walking(r1: Rings.Ring<Item>, r: Rings.Ring<Item>, j: int) {
    && Rings.Valid(r1) && Rings.Valid(r) && r1.items != [] && r.items == r1.items && r.index > 0
    && 0 <= j <= |r1.items|
    && var rot := Rings.Rotation(r1); Rings.Rotation(r) == rot[j..] + rot[..j]
  }

  lemma WalkStarts(r1: Rings.Ring<Item>)
    requires Rings.Valid(r1) && r1.items != [] && r1.index > 0
    ensures Walking(r1, r1, 0)
  {
    var rot := Rings.Rotation(r1);
    assert rot[0..] + rot[..0] == rot;
  }

  lemma WalkStep(r1: Rings.Ring<Item>, r: Rings.Ring<Item>, j: int)
    requires Walking(r1, r, j) && j < |r1.items|
    ensures Walking(r1, Rings.Next(r), j + 1) && Rings.Picked(r) == Rings.Rotation(r1)[j]
  {
    Rings.NextRotates(r);
    Rings.RotationFacts(r1);
    hide Rings.Rotation, Rings.Valid;
    Turn(Rings.Rotation(r1), j);
  }

  lemma Turn(rot: seq<Item>, j: int)
    requires 0 <= j < |rot|
    ensures var now := rot[j..] + rot[..j]; now[0] == rot[j] && now[1..] + [now[0]] == rot[j + 1..] + rot[..j + 1]
  {
    var now := rot[j..] + rot[..j];
    assert now[1..] == rot[j + 1..] + rot[..j];
    assert rot[..j + 1] == rot[..j] + [rot[j]];
  }

  /** After a full turn the index is back where the walk began. */
  lemma WalkEnds(r1: Rings.Ring<Item>, r: Rings.Ring<Item>)
    requires Walking(r1, r, |r1.items|) && r1.index > 0
    ensures r == r1
  {
    var rot, n := Rings.Rotation(r1), |r1.items|;
    Rings.RotationFacts(r1);
    assert rot[n..] + rot[..n] == rot;
    assert Rings.Rotation(r)[n - 1] == r.items[r.index - 1] && rot[n - 1] == r1.items[r1.index - 1];
  }

  /** The last entry of the rotation is the one at the index. */
  lemma LastOfRotation(r: Rings.Ring<Item>)
    requires Rings.Valid(r) && r.items != [] && r.index > 0
    ensures |Rings.Rotation(r)| == |r.items| && Rings.Rotation(r)[|r.items| - 1] == r.items[r.index - 1]
    ensures OneEach(r.items) ==> OneEach(Rings.Rotation(r))
  {
    var rot, n := Rings.Rotation(r), |r.items| - r.index;
    assert forall i :: 0 <= i < |rot| ==> rot[i] == r.items[if i < n then r.index + i else i - n];
  }

  method ListTasksWithinSingleList(list: Rings.Ring<Item>) returns (found: seq<Task>, r: Rings.Ring<Item>)
    requires Rings.Valid(list) && OneEach(list.items)
    ensures found == Visited(list)
    ensures r == TurnedOn(list)
  {
    found, r := [], list;
    if |list.items| > 0 {
      r := Rings.Next(r);
      var first := r.items[r.index - 1].t;
      LastOfRotation(r);
      hide Rings.Rotation, Rings.Next, Rings.Picked, OneEach;
      found, r := VisitFrom(r, Rings.Rotation(r), first);
    }
  }

  method VisitFrom(r1: Rings.Ring<Item>, ghost rot: seq<Item>, first: Task) returns (found: seq<Task>, r: Rings.Ring<Item>)
    requires Rings.Valid(r1) && r1.items != [] && r1.index > 0 && rot == Rings.Rotation(r1) && |rot| == |r1.items|
    requires OneEach(rot) && rot[|rot| - 1].t == first
    ensures found == OwnerSeq(rot) && r == r1
  {
    hide Rings.Rotation, Rings.Valid, Walking, Rings.Next, Rings.Picked;
    WalkStarts(r1);
    WalkStep(r1, r1, 0);
    var next := Rings.Picked(r1).t;
    r := Rings.Next(r1);
    found := [next];
    ghost var j := 1;
    while next != first
      invariant 1 <= j <= |rot| && Walking(r1, r, j) && found == OwnerSeq(rot[..j]) && next == rot[j - 1].t
      decreases |rot| - j
    {
      WalkStep(r1, r, j);
      WalkReads(r1, r, j);
      next := Rings.Picked(r).t;
      r := Rings.Next(r);
      assert OwnerSeq(rot[..j + 1]) == OwnerSeq(rot[..j]) + [rot[j].t];
      found := found + [next];
      j := j + 1;
    }
    assert j == |rot|;
    assert rot[..j] == rot;
    WalkEnds(r1, r);
  }

  lemma WalkReads(r1: Rings.Ring<Item>, r: Rings.Ring<Item>, j: int)
    requires Walking(r1, r, j)
    ensures Rings.Valid(r) && r.items != []
  {
  }

  lemma GatherNext(k: State, order: seq<ListId>, i: int)
    requires 0 <= i < |order|
    ensures Gather(k, order[..i + 1]) == Gather(k, order[..i]) + Visited(k.RingOf(order[i]))
  {
    assert order[..i + 1][..i] == order[..i];
  }

  /** Every list of the report can be walked. */
  lemma Walkable(k: State)
    requires Lists(k) && Rest(k)
    ensures forall l :: IsStateList(l) ==> CanWalk(k.RingOf(l))
  {
    hide Lists, Rest, State.RingOf, Rings.Valid, OneEach;
    forall l | IsStateList(l) ensures CanWalk(k.RingOf(l)) {
      ListWalkable(k, l);
    }
  }

  lemma ListWalkable(k: State, l: ListId)
    requires Lists(k) && Rest(k) && IsStateList(l)
    ensures Rings.Valid(k.RingOf(l)) && OneEach(k.RingOf(l).items)
  {
    assert Rings.Valid(k.RingOf(l));
    VisitedExact(k, l);
  }

  predicate CanWalk(r: Rings.Ring<Item>) { Rings.Valid(r) && OneEach(r.items) }

  lemma LastLists(k: State)
    ensures var order := StateLists(k);
      Gather(k, order) == Gather(k, ReadyLists()) + Visited(k.RingOf(Delayed(k.second))) + Visited(k.RingOf(Delayed(!k.second)))
                             + Visited(k.RingOf(Termination)) + Visited(k.RingOf(Suspended))
  {
    var order := StateLists(k);
    assert order[15] == Delayed(k.second) && order[16] == Delayed(!k.second) && order[17] == Termination && order[18] == Suspended;
    assert order[..19] == order && order[..15] == ReadyLists();
    hide Visited, State.RingOf, StateLists;
    GatherNext(k, order, 15);
    GatherNext(k, order, 16);
    GatherNext(k, order, 17);
    GatherNext(k, order, 18);
    hide Gather;
  }

  lemma GatherNone(k: State)
    ensures Gather(k, ReadyLists()[..0]) == []
  {
  }
}
