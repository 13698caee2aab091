/**
  What a list of list.c means: its items in order, and where pxIndex stands. Index 0 is the
  end marker and index i > 0 is items[i - 1]. `Rotation` is the order in which
  listGET_OWNER_OF_NEXT_ENTRY will visit the items.
 */
module Rings {
  import opened Seqs

  datatype Ring<T(==)> = Ring(items: seq<T>, index: int)

  predicate Valid<T>(r: Ring<T>) {
    0 <= r.index <= |r.items| && NoDup(r.items)
  }

  /** The entries from just after the index, round to the index. */
  function Rotation<T>(r: Ring<T>): seq<T>
    requires 0 <= r.index <= |r.items|
  {
    r.items[r.index..] + r.items[..r.index]
  }

  /** vListInsertEnd: in front of the index. */
  function InsertEnd<T(!new)>(r: Ring<T>, x: T): (r': Ring<T>)
    requires Valid(r) && x !in r.items
    ensures Valid(r') && forall y :: y in r'.items <==> y == x || y in r.items
    ensures |r'.items| == |r.items| + 1
  {
    var at := if r.index == 0 then |r.items| else r.index - 1;
    InsertAtNoDup(r.items, at, x);
    Ring(InsertAt(r.items, at, x), if r.index == 0 then 0 else r.index + 1)
  }

  /** vListInsert once the search has settled on a position. */
  function InsertBefore<T(!new)>(r: Ring<T>, at: int, x: T): (r': Ring<T>)
    requires Valid(r) && 0 <= at <= |r.items| && x !in r.items
    ensures Valid(r') && forall y :: y in r'.items <==> y == x || y in r.items
    ensures r'.items == r.items[..at] + [x] + r.items[at..]
  {
    InsertAtNoDup(r.items, at, x);
    Ring(InsertAt(r.items, at, x), if r.index > at then r.index + 1 else r.index)
  }

  /** uxListRemove: an index on the removed item falls back to its predecessor. */
  function Remove<T(!new)>(r: Ring<T>, x: T): (r': Ring<T>)
    requires Valid(r)
    ensures Valid(r') && x !in r'.items && forall y :: y in r'.items <==> y != x && y in r.items
    ensures r'.items == Without(r.items, x)
  {
    WithoutNoDup(r.items, x);
    if x in r.items && r.index > IndexOf(r.items, x) then Ring(Without(r.items, x), r.index - 1)
    else Ring(Without(r.items, x), r.index)
  }

  /** listGET_OWNER_OF_NEXT_ENTRY on a list that is not empty: advance, skipping the end marker. */
  function Next<T>(r: Ring<T>): (r': Ring<T>)
    requires Valid(r) && r.items != []
    ensures Valid(r') && r'.index > 0 && r'.items == r.items
  {
    r.(index := if r.index == |r.items| then 1 else r.index + 1)
  }

  /** An item inserted in order leaves the index on the entry it stood on. */
  lemma InsertKeepsIndex<T(!new)>(r: Ring<T>, at: int, x: T)
    requires Valid(r) && 0 <= at <= |r.items| && x !in r.items
    ensures var r' := InsertBefore(r, at, x);
      (r.index == 0 <==> r'.index == 0) && (r.index > 0 ==> r'.items[r'.index - 1] == r.items[r.index - 1])
  {
  }

  /** The owner that Next returns. */
  function Picked<T>(r: Ring<T>): (x: T)
    requires Valid(r) && r.items != []
    ensures x in r.items
  {
    Next(r).items[Next(r).index - 1]
  }

  // ---- Rotation order ----

  lemma RotationFacts<T(!new)>(r: Ring<T>)
    requires Valid(r)
    ensures NoDup(Rotation(r)) && |Rotation(r)| == |r.items|
    ensures forall y :: y in Rotation(r) <==> y in r.items
  {
    assert r.items == r.items[..r.index] + r.items[r.index..];
    var rot := Rotation(r);
    forall i, j | 0 <= i < j < |rot| ensures rot[i] != rot[j] {
      var n := |r.items| - r.index;
      assert rot[i] == r.items[if i < n then r.index + i else i - n];
      assert rot[j] == r.items[if j < n then r.index + j else j - n];
    }
  }

  /** The next entry is the first of the rotation, which then goes to its end. */
  lemma NextRotates<T(!new)>(r: Ring<T>)
    requires Valid(r) && r.items != []
    ensures Picked(r) == Rotation(r)[0]
    ensures Rotation(Next(r)) == Rotation(r)[1..] + [Rotation(r)[0]]
  {
    if r.index == |r.items| {
      assert Rotation(r) == r.items;
      assert Rotation(Next(r)) == r.items[1..] + r.items[..1];
    } else {
      var i := r.index;
      assert r.items[i..] == [r.items[i]] + r.items[i + 1..];
      assert r.items[..i + 1] == r.items[..i] + [r.items[i]];
      assert Rotation(r) == [r.items[i]] + (r.items[i + 1..] + r.items[..i]);
    }
  }

  /**
    A new entry is last in the rotation when the index is on the end marker; otherwise the
    entry at the index stays last, behind the new one.
   */
  lemma InsertEndRotation<T(!new)>(r: Ring<T>, x: T)
    requires Valid(r) && x !in r.items
    ensures r.index == 0 ==> Rotation(InsertEnd(r, x)) == Rotation(r) + [x]
    ensures r.index > 0 ==>
      var rot := Rotation(r);
      Rotation(InsertEnd(r, x)) == rot[..|rot| - 1] + [x] + [r.items[r.index - 1]] && rot[|rot| - 1] == r.items[r.index - 1]
  {
    var rot, i := Rotation(r), r.index;
    if i > 0 {
      var front, last := r.items[..i - 1], r.items[i - 1];
      assert r.items[..i] == front + [last];
      assert r.items[i - 1..] == [last] + r.items[i..];
      var r' := InsertEnd(r, x);
      assert r'.items == (front + [x] + [last]) + r.items[i..];
      assert r'.items[..i + 1] == front + [x] + [last];
      assert Rotation(r') == r.items[i..] + (front + [x] + [last]);
      assert rot == (r.items[i..] + front) + [last];
      assert rot[..|rot| - 1] == r.items[i..] + front;
    }
  }

  /** Removing an element that occurs once, at p. */
  lemma WithoutAt<T(!new)>(s: seq<T>, p: nat, x: T)
    requires NoDup(s) && p < |s| && s[p] == x
    ensures Without(s, x) == s[..p] + s[p + 1..]
  {
    UniqueIndex(s, p, x);
    hide NoDup;
  }

  lemma WithoutLeft<T(!new)>(a: seq<T>, b: seq<T>, x: T)
    requires NoDup(a + b) && x in a
    ensures Without(a + b, x) == Without(a, x) + b
  {
    var p := IndexOf(a, x);
    assert (a + b)[p] == x;
    assert Without(a, x) == a[..p] + a[p + 1..];
    WithoutAt(a + b, p, x);
    hide NoDup, IndexOf, Without;
    CutLeft(a, b, p);
  }

  lemma WithoutRight<T(!new)>(a: seq<T>, b: seq<T>, x: T)
    requires NoDup(a + b) && x in b
    ensures Without(a + b, x) == a + Without(b, x)
  {
    var p := IndexOf(b, x);
    assert (a + b)[|a| + p] == x;
    assert Without(b, x) == b[..p] + b[p + 1..];
    WithoutAt(a + b, |a| + p, x);
    hide NoDup, IndexOf, Without;
    CutRight(a, b, p);
  }

  lemma CutLeft<T>(a: seq<T>, b: seq<T>, p: nat)
    requires p < |a|
    ensures (a + b)[..p] + (a + b)[p + 1..] == (a[..p] + a[p + 1..]) + b
  {
    assert (a + b)[..p] == a[..p];
    assert (a + b)[p + 1..] == a[p + 1..] + b;
  }

  lemma CutRight<T>(a: seq<T>, b: seq<T>, p: nat)
    requires p < |b|
    ensures (a + b)[..|a| + p] + (a + b)[|a| + p + 1..] == a + (b[..p] + b[p + 1..])
  {
    assert (a + b)[..|a| + p] == a + b[..p];
    assert (a + b)[|a| + p + 1..] == b[p + 1..];
  }

  /** Removing an entry leaves the order of the others. */
  lemma RemoveRotation<T(!new)>(r: Ring<T>, x: T)
    requires Valid(r) && x in r.items
    ensures Rotation(Remove(r, x)) == Without(Rotation(r), x)
  {
    RotationFacts(r);
    var p, i := IndexOf(r.items, x), r.index;
    var a, b := r.items[..i], r.items[i..];
    assert r.items == a + b;
    if p < i {
      assert a[p] == x;
      WithoutLeft(a, b, x);
      WithoutRight(b, a, x);
    } else {
      assert b[p - i] == x;
      WithoutRight(a, b, x);
      WithoutLeft(b, a, x);
    }
    hide Without, IndexOf, NoDup;
  }

  lemma IndexAfterWithout<T(!new)>(s: seq<T>, y: T, x: T)
    requires NoDup(s) && x in s && y in s && x != y
    ensures x in Without(s, y)
    ensures IndexOf(Without(s, y), x) == IndexOf(s, x) - if IndexOf(s, y) < IndexOf(s, x) then 1 else 0
  {
    WithoutNoDup(s, y);
    var k, j := IndexOf(s, x), IndexOf(s, y);
    UniqueIndex(Without(s, y), if j < k then k - 1 else k, x);
  }

  lemma UniqueIndex<T(!new)>(s: seq<T>, i: nat, x: T)
    requires NoDup(s) && i < |s| && s[i] == x
    ensures IndexOf(s, x) == i
  {
    var k := IndexOf(s, x);
    assert s[k] == x;
  }

  // ---- Overtaking ----

  /** How many selections come before x's. */
  function Ahead<T(!new)>(r: Ring<T>, x: T): (k: int)
    requires Valid(r) && x in r.items
    ensures 0 <= k < |r.items|
  {
    RotationFacts(r);
    IndexOf(Rotation(r), x)
  }

  datatype Op<T> = InsertOp(x: T) | RemoveOp(x: T) | NextOp

  predicate Allowed<T>(r: Ring<T>, op: Op<T>) {
    Valid(r) && match op
      case InsertOp(y) => y !in r.items
      case RemoveOp(y) => y in r.items
      case NextOp => r.items != []
  }

  function Apply<T(!new)>(r: Ring<T>, op: Op<T>): (r': Ring<T>)
    requires Allowed(r, op)
    ensures Valid(r')
  {
    match op
    case InsertOp(y) => InsertEnd(r, y)
    case RemoveOp(y) => Remove(r, y)
    case NextOp => Next(r)
  }

  /** An insertion while the index is on x puts the new entry in front of x. */
  predicate Pushes<T(==)>(r: Ring<T>, op: Op<T>, x: T) {
    op.InsertOp? && 0 < r.index <= |r.items| && r.items[r.index - 1] == x
  }

  predicate RemovesAhead<T(!new)>(r: Ring<T>, op: Op<T>, x: T)
    requires Allowed(r, op) && x in r.items
  {
    op.RemoveOp? && Ahead(r, op.x) < Ahead(r, x)
  }

  /** What one operation does to x's place in the rotation. */
  function Shift<T(!new)>(r: Ring<T>, op: Op<T>, x: T): int
    requires Allowed(r, op) && x in r.items
  {
    if Pushes(r, op, x) then 1 else if op.NextOp? || RemovesAhead(r, op, x) then -1 else 0
  }

  lemma AheadNext<T(!new)>(r: Ring<T>, x: T)
    requires Valid(r) && x in r.items
    ensures Picked(r) == x <==> Ahead(r, x) == 0
    ensures Ahead(Next(r), x) == if Picked(r) == x then |r.items| - 1 else Ahead(r, x) - 1
  {
    RotationFacts(r);
    RotationFacts(Next(r));
    NextRotates(r);
    var rot, k := Rotation(r), Ahead(r, x);
    UniqueIndex(Rotation(Next(r)), if k == 0 then |rot| - 1 else k - 1, x);
    if Picked(r) == x {
      UniqueIndex(rot, 0, x);
    }
  }

  lemma AheadInsert<T(!new)>(r: Ring<T>, y: T, x: T)
    requires Valid(r) && x in r.items && y !in r.items
    ensures Ahead(InsertEnd(r, y), x) == Ahead(r, x) + if Pushes(r, InsertOp(y), x) then 1 else 0
  {
    RotationFacts(r);
    RotationFacts(InsertEnd(r, y));
    InsertEndRotation(r, y);
    var rot, k := Rotation(r), Ahead(r, x);
    if Pushes(r, InsertOp(y), x) {
      UniqueIndex(rot, |rot| - 1, x);
      UniqueIndex(Rotation(InsertEnd(r, y)), k + 1, x);
    } else {
      assert r.index > 0 ==> k < |rot| - 1;
      UniqueIndex(Rotation(InsertEnd(r, y)), k, x);
    }
  }

  lemma AheadRemove<T(!new)>(r: Ring<T>, y: T, x: T)
    requires Valid(r) && x in r.items && y in r.items && x != y
    ensures Ahead(Remove(r, y), x) == Ahead(r, x) - if Ahead(r, y) < Ahead(r, x) then 1 else 0
  {
    RotationFacts(r);
    RotationFacts(Remove(r, y));
    hide Remove, Rotation, Without, IndexOf, NoDup;
    RemoveRotation(r, y);
    IndexAfterWithout(Rotation(r), y, x);
  }

  /** The exact law of overtaking for one operation that neither removes nor selects x. */
  lemma AheadStep<T(!new)>(r: Ring<T>, op: Op<T>, x: T)
    requires Allowed(r, op) && x in r.items
    requires op != RemoveOp(x) && (op.NextOp? ==> Picked(r) != x)
    ensures x in Apply(r, op).items
    ensures Ahead(Apply(r, op), x) == Ahead(r, x) + Shift(r, op, x)
  {
    match op
    case InsertOp(y) => AheadInsert(r, y, x);
    case RemoveOp(y) => AheadRemove(r, y, x);
    case NextOp => AheadNext(r, x);
  }

  /** Every operation is allowed, and none removes or selects x. */
  ghost predicate PassesOver<T(!new)>(r: Ring<T>, ops: seq<Op<T>>, x: T)
    decreases |ops|
  {
    && Valid(r) && x in r.items
    && (ops != [] ==>
          && Allowed(r, ops[0]) && ops[0] != RemoveOp(x) && (ops[0].NextOp? ==> Picked(r) != x)
          && PassesOver(Apply(r, ops[0]), ops[1..], x))
  }

  function After<T(!new)>(r: Ring<T>, ops: seq<Op<T>>, x: T): Ring<T>
    requires PassesOver(r, ops, x)
    decreases |ops|
  {
    if ops == [] then r else After(Apply(r, ops[0]), ops[1..], x)
  }

  function Selections<T(!new)>(ops: seq<Op<T>>): int {
    if ops == [] then 0 else (if ops[0].NextOp? then 1 else 0) + Selections(ops[1..])
  }

  function PushCount<T(!new)>(r: Ring<T>, ops: seq<Op<T>>, x: T): int
    requires PassesOver(r, ops, x)
    decreases |ops|
  {
    if ops == [] then 0 else (if Pushes(r, ops[0], x) then 1 else 0) + PushCount(Apply(r, ops[0]), ops[1..], x)
  }

  function RemovalsAhead<T(!new)>(r: Ring<T>, ops: seq<Op<T>>, x: T): int
    requires PassesOver(r, ops, x)
    decreases |ops|
  {
    if ops == [] then 0 else (if RemovesAhead(r, ops[0], x) then 1 else 0) + RemovalsAhead(Apply(r, ops[0]), ops[1..], x)
  }

  /**
    Over any operations that pass x over: every selection and every removal ahead of x brings it
    one place nearer, every insertion made while the index is on x costs it one, nothing else matters.
   */
  lemma {:induction false} OvertakingLaw<T(!new)>(r: Ring<T>, ops: seq<Op<T>>, x: T)
    requires PassesOver(r, ops, x)
    ensures var r' := After(r, ops, x);
      && Valid(r') && x in r'.items
      && Ahead(r', x) == Ahead(r, x) + PushCount(r, ops, x) - RemovalsAhead(r, ops, x) - Selections(ops)
    decreases |ops|
  {
    hide Ahead, Apply, Allowed, Valid, Picked, Pushes, RemovesAhead;
    if ops != [] {
      LawStep(r, ops[0], x);
      OvertakingLaw(Apply(r, ops[0]), ops[1..], x);
    }
  }

  lemma LawStep<T(!new)>(r: Ring<T>, op: Op<T>, x: T)
    requires Allowed(r, op) && x in r.items && op != RemoveOp(x) && (op.NextOp? ==> Picked(r) != x)
    ensures x in Apply(r, op).items
    ensures Ahead(Apply(r, op), x) == Ahead(r, x) + (if Pushes(r, op, x) then 1 else 0)
      - (if RemovesAhead(r, op, x) then 1 else 0) - (if op.NextOp? then 1 else 0)
  {
    AheadStep(r, op, x);
  }

  lemma PassesOne<T(!new)>(r: Ring<T>, op: Op<T>, x: T)
    requires Allowed(r, op) && x in r.items && op != RemoveOp(x) && (op.NextOp? ==> Picked(r) != x)
    ensures PassesOver(r, [op], x) && After(r, [op], x) == Apply(r, op)
    ensures Selections([op]) == if op.NextOp? then 1 else 0
  {
    AheadStep(r, op, x);
    hide Apply, Picked, Ahead;
    assert [op][0] == op && [op][1..] == [];
    assert PassesOver(Apply(r, op), [], x);
    assert Selections([op][1..]) == 0;
  }

  /** Two stretches of operations as one. */
  lemma {:induction false} PassesAppend<T(!new)>(r: Ring<T>, ops: seq<Op<T>>, more: seq<Op<T>>, x: T)
    requires PassesOver(r, ops, x) && PassesOver(After(r, ops, x), more, x)
    ensures PassesOver(r, ops + more, x) && After(r, ops + more, x) == After(After(r, ops, x), more, x)
    ensures Selections(ops + more) == Selections(ops) + Selections(more)
    decreases |ops|
  {
    hide Apply, Allowed, Valid, Picked;
    if ops == [] {
      assert ops + more == more;
    } else {
      assert (ops + more)[0] == ops[0] && (ops + more)[1..] == ops[1..] + more;
      PassesAppend(Apply(r, ops[0]), ops[1..], more, x);
    }
  }

  /** Without insertions there is nothing to be pushed by. */
  lemma {:induction false} NoInsertionsNoPushes<T(!new)>(r: Ring<T>, ops: seq<Op<T>>, x: T)
    requires PassesOver(r, ops, x) && forall i :: 0 <= i < |ops| ==> !ops[i].InsertOp?
    ensures PushCount(r, ops, x) == 0
    decreases |ops|
  {
    hide Apply, Allowed, Valid, Picked;
    if ops != [] {
      assert !ops[0].InsertOp?;
      NoInsertionsNoPushes(Apply(r, ops[0]), ops[1..], x);
    }
  }

  /** Without such insertions x is picked within k + 1 selections, k being the entries ahead of it. */
  lemma BoundedOvertaking<T(!new)>(r: Ring<T>, ops: seq<Op<T>>, x: T)
    requires PassesOver(r, ops, x)
    ensures Selections(ops) <= Ahead(r, x) + PushCount(r, ops, x)
  {
    OvertakingLaw(r, ops, x);
    RemovalsCount(r, ops, x);
  }

  lemma {:induction false} RemovalsCount<T(!new)>(r: Ring<T>, ops: seq<Op<T>>, x: T)
    requires PassesOver(r, ops, x)
    ensures RemovalsAhead(r, ops, x) >= 0
    decreases |ops|
  {
    if ops != [] {
      RemovalsCount(Apply(r, ops[0]), ops[1..], x);
    }
  }

  /** With them the bound fails: one entry ahead of x, then two selections that both pass x over. */
  lemma InsertionsOvertake()
    ensures var r, ops := Ring([1, 2], 2), [InsertOp(3), NextOp, NextOp];
      PassesOver(r, ops, 2) && Ahead(r, 2) == 1 && Selections(ops) == 2
  {
    var r, ops := Ring([1, 2], 2), [InsertOp(3), NextOp, NextOp];
    assert Rotation(r) == [1, 2];
    var r1 := Apply(r, ops[0]);
    assert r1 == Ring([1, 3, 2], 3);
    assert ops[1..] == [NextOp, NextOp] && ops[1..][1..] == [NextOp] && ops[1..][1..][1..] == [];
    var r2 := Apply(r1, NextOp);
    assert r2 == Ring([1, 3, 2], 1);
    var r3 := Apply(r2, NextOp);
    assert r3 == Ring([1, 3, 2], 2);
    assert PassesOver(r3, [], 2);
    assert PassesOver(r2, [NextOp], 2);
    assert PassesOver(r1, [NextOp, NextOp], 2);
    assert Selections(ops) == 0 + Selections(ops[1..]);
  }
}
