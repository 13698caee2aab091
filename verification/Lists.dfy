/**
  The circular doubly linked list of list.c as it is in memory. The ghost `ring` is the walk
  along pxNext from the end marker back to it; each method changes the pointers the way the
  source does and is proved against `Rings`. An item's `id` stands for its address.
 */
module Lists {
  import opened Seqs
  import opened Ticks
  import Rings

  class ListItem {
    const id: int
    var value: Tick
    var next: ListItem?
    var previous: ListItem?
    var container: List?

    constructor (id: int, value: Tick)
      ensures this.id == id && this.value == value && container == null
    {
      this.id, this.value, container := id, value, null;
    }
  }

  type Walk = seq<ListItem>

  /** The items of a walk, without the end marker at its two ends. */
  function IdsOf(ring: Walk): (s: seq<int>)
    requires |ring| >= 2
    ensures |s| == |ring| - 2 && forall i :: 0 <= i < |s| ==> s[i] == ring[i + 1].id
  {
    seq(|ring| - 2, i requires 0 <= i < |ring| - 2 => ring[i + 1].id)
  }

  function SpliceIn(ring: Walk, p: int, item: ListItem): (r: Walk)
    requires 0 <= p < |ring| - 1
    ensures |r| == |ring| + 1
  {
    ring[..p + 1] + [item] + ring[p + 1..]
  }

  function SpliceOut(ring: Walk, p: int): (r: Walk)
    requires 0 < p < |ring| - 1
    ensures |r| == |ring| - 1
  {
    ring[..p] + ring[p + 1..]
  }

  lemma SpliceInIds(ring: Walk, p: int, item: ListItem)
    requires 0 <= p < |ring| - 1
    ensures IdsOf(SpliceIn(ring, p, item)) == InsertAt(IdsOf(ring), p, item.id)
  {
  }

  lemma SpliceOutIds(ring: Walk, p: int, x: int)
    requires 0 < p < |ring| - 1 && NoDup(IdsOf(ring)) && x == ring[p].id
    ensures x in IdsOf(ring) && IndexOf(IdsOf(ring), x) == p - 1
    ensures IdsOf(SpliceOut(ring, p)) == Without(IdsOf(ring), x)
  {
    var ids := IdsOf(ring);
    assert ids[p - 1] == x;
    Rings.UniqueIndex(ids, p - 1, x);
    assert IdsOf(SpliceOut(ring, p)) == ids[..p - 1] + ids[p..];
  }

  /** Two neighbours of the walk point at each other. */
  ghost predicate LinkAt(ring: Walk, i: int)
    requires 0 <= i < |ring| - 1
    reads ring
  {
    ring[i].next == ring[i + 1] && ring[i + 1].previous == ring[i]
  }

  /** The walk starts and ends at the end marker and visits each item once. */
  ghost predicate Closed(ring: Walk, end: ListItem) {
    && |ring| >= 2 && ring[0] == ring[|ring| - 1] == end
    && forall i, j :: 0 <= i < j < |ring| - 1 ==> ring[i] != ring[j]
  }

  ghost predicate Linked(ring: Walk)
    reads ring
  {
    forall i :: 0 <= i < |ring| - 1 ==> LinkAt(ring, i)
  }

  /** The items, and not the end marker, know which list they are on. */
  ghost predicate Owned(ring: Walk, end: ListItem, list: List)
    reads ring
  {
    forall x :: x in ring ==> x.container == if x == end then null else list
  }

  lemma SpliceInClosed(ring: Walk, p: int, item: ListItem, end: ListItem)
    requires Closed(ring, end) && 0 <= p < |ring| - 1 && item !in ring
    ensures Closed(SpliceIn(ring, p, item), end)
  {
  }

  lemma SpliceOutClosed(ring: Walk, p: int, end: ListItem)
    requires Closed(ring, end) && 0 < p < |ring| - 1
    ensures Closed(SpliceOut(ring, p), end) && ring[p] !in SpliceOut(ring, p)
  {
    var r := SpliceOut(ring, p);
    forall i | 0 <= i < |r| ensures r[i] != ring[p] {
      assert r[i] == ring[if i < p then i else i + 1];
    }
  }

  /** Every neighbouring pair but one is linked. */
  ghost predicate LinkedBut(ring: Walk, p: int)
    reads ring
  {
    forall i :: 0 <= i < |ring| - 1 && i != p ==> LinkAt(ring, i)
  }

  lemma SpliceInLinked(ring: Walk, p: int, item: ListItem)
    requires 0 <= p < |ring| - 1 && LinkedBut(ring, p)
    requires item.next == ring[p + 1] && item.previous == ring[p] && ring[p].next == item && ring[p + 1].previous == item
    ensures Linked(SpliceIn(ring, p, item))
  {
    var r := SpliceIn(ring, p, item);
    forall i | 0 <= i < |r| - 1 ensures LinkAt(r, i) {
      if i < p {
        assert LinkAt(ring, i);
      } else if i > p + 1 {
        assert LinkAt(ring, i - 1);
      }
    }
  }

  lemma SpliceOutLinked(ring: Walk, p: int)
    requires 0 < p < |ring| - 1 && ring[p - 1].next == ring[p + 1] && ring[p + 1].previous == ring[p - 1]
    requires forall i :: 0 <= i < |ring| - 1 && i != p && i != p - 1 ==> LinkAt(ring, i)
    ensures Linked(SpliceOut(ring, p))
  {
    var r := SpliceOut(ring, p);
    forall i | 0 <= i < |r| - 1 ensures LinkAt(r, i) {
      if i < p - 1 {
        assert LinkAt(ring, i);
      } else if i > p - 1 {
        assert LinkAt(ring, i + 1);
      }
    }
  }

  /** What an insertion does to the walk and to the meaning, apart from pointers. */
  lemma SpliceInFacts(ring: Walk, p: int, item: ListItem, end: ListItem, at: int)
    requires Closed(ring, end) && NoDup(IdsOf(ring)) && 0 <= p < |ring| - 1 && 0 <= at < |ring| - 1
    requires item !in ring && item.id !in IdsOf(ring)
    ensures var r := SpliceIn(ring, p, item);
      && Closed(r, end) && NoDup(IdsOf(r)) && r[if at > p then at + 1 else at] == ring[at]
      && (forall x :: x in r <==> x == item || x in ring)
      && Rings.InsertBefore(Rings.Ring(IdsOf(ring), at), p, item.id) == Rings.Ring(IdsOf(r), if at > p then at + 1 else at)
  {
    SpliceInClosed(ring, p, item, end);
    SpliceInIds(ring, p, item);
    InsertAtNoDup(IdsOf(ring), p, item.id);
    hide Closed, NoDup, IdsOf;
    assert ring == ring[..p + 1] + ring[p + 1..];
  }

  lemma InsertEndIsInsertion(ids: seq<int>, at: int, x: int)
    requires NoDup(ids) && x !in ids && 0 <= at <= |ids|
    ensures Rings.InsertEnd(Rings.Ring(ids, at), x) == Rings.InsertBefore(Rings.Ring(ids, at), if at == 0 then |ids| else at - 1, x)
  {
  }

  lemma SpliceOutFacts(ring: Walk, p: int, end: ListItem, at: int)
    requires Closed(ring, end) && NoDup(IdsOf(ring)) && 0 < p < |ring| - 1 && 0 <= at < |ring| - 1
    ensures var r := SpliceOut(ring, p);
      && Closed(r, end) && NoDup(IdsOf(r)) && (at != p ==> r[if at > p then at - 1 else at] == ring[at]) && r[p - 1] == ring[p - 1]
      && (forall x :: x in r ==> x in ring && x != ring[p])
      && Rings.Remove(Rings.Ring(IdsOf(ring), at), ring[p].id) == Rings.Ring(IdsOf(r), if at >= p then at - 1 else at)
  {
    SpliceOutClosed(ring, p, end);
    SpliceOutIds(ring, p, ring[p].id);
    WithoutNoDup(IdsOf(ring), ring[p].id);
    hide Closed, NoDup, IdsOf;
  }

  /** The pointer updates of vListInsertEnd, vListInsert and uxListRemove on the walk that they change. */
  method LinkBefore(ghost ring: Walk, ghost p: int, successor: ListItem, item: ListItem, list: List, ghost end: ListItem)
    requires Closed(ring, end) && Linked(ring) && Owned(ring, end, list) && 0 <= p < |ring| - 1 && successor == ring[p + 1] && item !in ring
    modifies ring, item
    ensures Linked(SpliceIn(ring, p, item)) && Owned(SpliceIn(ring, p, item), end, list)
    ensures item.value == old(item.value) && item.container == list && end.value == old(end.value)
    ensures forall x :: x in ring ==> x.value == old(x.value)
  {
    assert LinkAt(ring, p);
    item.next := successor;
    item.previous := successor.previous;
    successor.previous.next := item;
    successor.previous := item;
    item.container := list;
    forall i | 0 <= i < |ring| - 1 && i != p ensures LinkAt(ring, i) {
      assert old(LinkAt(ring, i));
    }
    SpliceInLinked(ring, p, item);
    SpliceInClosed(ring, p, item, end);
  }

  method LinkAfter(ghost ring: Walk, ghost p: int, predecessor: ListItem, item: ListItem, list: List, ghost end: ListItem)
    requires Closed(ring, end) && Linked(ring) && Owned(ring, end, list) && 0 <= p < |ring| - 1 && predecessor == ring[p] && item !in ring
    modifies ring, item
    ensures Linked(SpliceIn(ring, p, item)) && Owned(SpliceIn(ring, p, item), end, list)
    ensures item.value == old(item.value) && item.container == list && end.value == old(end.value)
    ensures forall x :: x in ring ==> x.value == old(x.value)
  {
    assert LinkAt(ring, p);
    item.next := predecessor.next;
    item.next.previous := item;
    item.previous := predecessor;
    predecessor.next := item;
    item.container := list;
    forall i | 0 <= i < |ring| - 1 && i != p ensures LinkAt(ring, i) {
      assert old(LinkAt(ring, i));
    }
    SpliceInLinked(ring, p, item);
    SpliceInClosed(ring, p, item, end);
  }

  method Unlink(ghost ring: Walk, ghost p: int, item: ListItem, ghost list: List, ghost end: ListItem)
    requires Closed(ring, end) && Linked(ring) && Owned(ring, end, list) && 0 < p < |ring| - 1 && item == ring[p]
    modifies ring
    ensures Linked(SpliceOut(ring, p)) && Owned(SpliceOut(ring, p), end, list) && item.previous == ring[p - 1]
    ensures item.container == null && end.value == old(end.value)
    ensures forall x :: x in ring ==> x.value == old(x.value)
  {
    assert LinkAt(ring, p - 1) && LinkAt(ring, p);
    item.next.previous := item.previous;
    item.previous.next := item.next;
    item.container := null;
    forall i | 0 <= i < |ring| - 1 && i != p && i != p - 1 ensures LinkAt(ring, i) {
      assert old(LinkAt(ring, i));
    }
    SpliceOutLinked(ring, p);
    SpliceOutClosed(ring, p, end);
  }

  /** A value belongs after ring[p]: nothing up to there is larger, and what follows is. */
  ghost predicate Fits(ring: Walk, p: int, value: Tick)
    reads ring
  {
    && (forall i :: 0 < i <= p && i < |ring| - 1 ==> ring[i].value <= value)
    && (0 <= p < |ring| - 2 ==> value < ring[p + 1].value)
  }

  lemma Locate(ring: Walk, end: ListItem, item: ListItem, at: int) returns (p: int)
    requires Closed(ring, end) && item in ring && item != end && 0 <= at < |ring| - 1
    ensures 0 < p < |ring| - 1 && ring[p] == item && (at == p <==> ring[at] == item)
  {
    p :| 0 <= p < |ring| && ring[p] == item;
  }

  lemma LinkedBack(ring: Walk, p: int)
    requires Linked(ring) && 0 < p < |ring| - 1
    ensures ring[p].previous == ring[p - 1]
  {
    assert LinkAt(ring, p - 1);
  }

  class List {
    const end: ListItem
    var index: ListItem
    var numberOfItems: int
    ghost var ring: Walk
    ghost var at: int

    ghost predicate Valid()
      reads this, ring
    {
      && Closed(ring, end) && Linked(ring) && NoDup(IdsOf(ring))
      && numberOfItems == |ring| - 2
      && 0 <= at < |ring| - 1 && index == ring[at]
      && Owned(ring, end, this)
      && end.value == PORT_MAX_DELAY
    }

    ghost function Ids(): seq<int>
      requires Valid()
      reads this, ring
    {
      IdsOf(ring)
    }

    /** What the list means. */
    ghost function Contents(): (r: Rings.Ring<int>)
      requires Valid()
      reads this, ring
      ensures Rings.Valid(r)
    {
      Rings.Ring(IdsOf(ring), at)
    }

    /** vListInitialise */
    constructor ()
      ensures Valid() && fresh(end) && ring == [end, end] && Contents() == Rings.Ring([], 0)
    {
      var e := new ListItem(0, PORT_MAX_DELAY);
      end, index, numberOfItems, ring, at := e, e, 0, [e, e], 0;
      new;
      end.next, end.previous := end, end;
    }

    /** vListInsertEnd */
    method InsertEnd(item: ListItem)
      requires Valid() && item !in ring && item.id !in Ids()
      modifies this, ring, item
      ensures Valid() && Contents() == Rings.InsertEnd(old(Contents()), item.id)
      ensures item.container == this && item.value == old(item.value)
      ensures forall x :: x in old(ring) ==> x.value == old(x.value)
    {
      ghost var before := ring;
      ghost var p := if at == 0 then |ring| - 2 else at - 1;
      assert ring[p + 1] == index && |ring| >= 2;
      hide Closed, Linked, Owned, NoDup, IdsOf, SpliceIn, Rings.InsertEnd, Rings.InsertBefore, Rings.Valid;
      SpliceInFacts(before, p, item, end, at);
      InsertEndIsInsertion(IdsOf(before), at, item.id);
      numberOfItems := numberOfItems + 1;
      ring, at := SpliceIn(before, p, item), if at == 0 then 0 else at + 1;
      LinkBefore(before, p, index, item, this, end);
    }

    /** vListInsert: after every item whose value is not larger. */
    method Insert(item: ListItem) returns (ghost p: int)
      requires Valid() && item !in ring && item.id !in Ids()
      modifies this, ring, item
      ensures 0 <= p <= |old(Ids())|
      ensures Valid() && Contents() == Rings.InsertBefore(old(Contents()), p, item.id)
      ensures item.container == this && item.value == old(item.value)
      ensures forall x :: x in old(ring) ==> x.value == old(x.value)
      ensures old(Fits(ring, p, item.value))
    {
      assert |ring| >= 2;
      hide Closed, Linked, Owned, Fits, NoDup, IdsOf, SpliceIn, Rings.InsertBefore, Rings.Valid;
      ghost var before := ring;
      var walker;
      walker, p := FindPlace(item.value);
      SpliceInFacts(before, p, item, end, at);
      numberOfItems := numberOfItems + 1;
      ring, at := SpliceIn(before, p, item), if at > p then at + 1 else at;
      LinkAfter(before, p, walker, item, this, end);
    }

    /** The search of vListInsert, with its special case for the end marker's own value. */
    method FindPlace(value: Tick) returns (walker: ListItem, ghost p: int)
      requires Valid()
      ensures 0 <= p < |ring| - 1 && walker == ring[p] && Fits(ring, p, value)
    {
      if value == PORT_MAX_DELAY {
        assert LinkAt(ring, |ring| - 2);
        walker, p := end.previous, |ring| - 2;
      } else {
        walker, p := end, 0;
        assert LinkAt(ring, 0);
        while walker.next.value <= value
          invariant 0 <= p < |ring| - 1 && walker == ring[p] && LinkAt(ring, p)
          invariant forall i :: 0 < i <= p ==> ring[i].value <= value
          decreases |ring| - p
        {
          walker, p := walker.next, p + 1;
          assert LinkAt(ring, p);
        }
      }
    }

    /** uxListRemove on the list that holds the item. */
    method Remove(item: ListItem) returns (left: int)
      requires Valid() && item in ring && item != end
      modifies this, ring
      ensures Valid() && Contents() == Rings.Remove(old(Contents()), item.id)
      ensures item.container == null && item !in ring && left == |Ids()|
      ensures forall x :: x in old(ring) ==> x.value == old(x.value)
    {
      ghost var before := ring;
      assert |ring| >= 2;
      hide Closed, Linked, Owned, NoDup, IdsOf, SpliceOut, Rings.Remove, Rings.Valid;
      ghost var p := Locate(ring, end, item, at);
      SpliceOutFacts(before, p, end, at);
      LinkedBack(before, p);
      if index == item {
        index := item.previous;
      }
      numberOfItems := numberOfItems - 1;
      left := numberOfItems;
      ring, at := SpliceOut(before, p), if at >= p then at - 1 else at;
      Unlink(before, p, item, this, end);
    }

    /** listGET_OWNER_OF_NEXT_ENTRY */
    method NextEntry() returns (item: ListItem)
      requires Valid() && Ids() != []
      modifies this`index, this`at
      ensures Valid() && Contents() == Rings.Next(old(Contents()))
      ensures item.id == Rings.Picked(old(Contents()))
    {
      assert LinkAt(ring, at) && LinkAt(ring, 0);
      index := index.next;
      at := at + 1;
      if index == end {
        index := index.next;
        at := 1;
      }
      item := index;
    }
  }
}
