/**
  The intrusive lists stay consistent: every item is on exactly the list its container names,
  and the delayed lists stay in order of wake time.
 */
module KernelLists {
  import opened Options
  import opened Seqs
  import opened Kernel
  import Rings

  /** Each item is on the list its container names and on no other, once. */
  ghost predicate Linked(k: State) {
    && (forall l :: Rings.Valid(k.RingOf(l)))
    && (forall l, x :: x in k.ItemsOf(l) <==> k.ContainerOf(x) == Some(l))
  }

  ghost predicate SortedItems(k: State, items: seq<Item>) {
    forall i, j :: 0 <= i < j < |items| ==> k.ValueOf(items[i]) <= k.ValueOf(items[j])
  }

  ghost predicate Sorted(k: State) {
    SortedItems(k, k.ItemsOf(Delayed(false))) && SortedItems(k, k.ItemsOf(Delayed(true)))
  }

  ghost predicate Lists(k: State) { Linked(k) && Sorted(k) }

  /** Only lists and containers differ. */
  ghost predicate OnlyLists(k: State, k': State) {
    k' == k.(lists := k'.lists, containers := k'.containers)
  }

  /** Only lists, containers and uxTopReadyPriority differ. */
  ghost predicate OnlyReady(k: State, k': State) {
    k' == k.(lists := k'.lists, containers := k'.containers, topReady := k'.topReady)
  }

  lemma OnlyReadyThen(k: State, k1: State, k2: State)
    requires OnlyReady(k, k1) && OnlyReady(k1, k2)
    ensures OnlyReady(k, k2) && forall t :: k1.PriorityOf(t) == k.PriorityOf(t)
  {
  }

  // ---- Unlink ----

  lemma UnlinkView(k: State, x: Item)
    requires Linked(k)
    ensures var k' := Unlink(k, x);
      && OnlyLists(k, k')
      && (forall y :: k'.ContainerOf(y) == if y == x then None else k.ContainerOf(y))
      && (forall l :: k'.RingOf(l) == if k.ContainerOf(x) == Some(l) then Rings.Remove(k.RingOf(l), x) else k.RingOf(l))
  {
    hide Rings.Remove, Rings.Valid;
  }

  lemma UnlinkLinked(k: State, x: Item)
    requires Linked(k)
    ensures Linked(Unlink(k, x))
  {
    UnlinkView(k, x);
    hide Unlink, Rings.Remove, Rings.Valid, State.RingOf, State.ContainerOf;
  }

  lemma UnlinkSorted(k: State, x: Item)
    requires Lists(k)
    ensures Sorted(Unlink(k, x))
  {
    UnlinkView(k, x);
    hide Unlink, Rings.Valid, State.RingOf, State.ContainerOf, State.ValueOf, SortedItems;
    RemoveSorted(k, Unlink(k, x), k.RingOf(Delayed(false)), x);
    RemoveSorted(k, Unlink(k, x), k.RingOf(Delayed(true)), x);
  }

  lemma RemoveSorted(k: State, k': State, r: Rings.Ring<Item>, x: Item)
    requires Rings.Valid(r) && SortedItems(k, r.items) && k'.values == k.values
    ensures SortedItems(k', r.items) && SortedItems(k', Rings.Remove(r, x).items)
  {
    hide Rings.Valid, Rings.Remove;
    WithoutSorted(k, k', r.items, x);
  }

  lemma WithoutSorted(k: State, k': State, s: seq<Item>, x: Item)
    requires SortedItems(k, s) && k'.values == k.values
    ensures SortedItems(k', s) && SortedItems(k', Without(s, x))
  {
    assert forall y :: k'.ValueOf(y) == k.ValueOf(y);
    hide State.ValueOf;
    if x in s {
      CutSorted(k', s, IndexOf(s, x));
    }
  }

  lemma CutSorted(k: State, s: seq<Item>, p: nat)
    requires SortedItems(k, s) && p < |s|
    ensures SortedItems(k, s[..p] + s[p + 1..])
  {
    hide State.ValueOf;
    var r := s[..p] + s[p + 1..];
    forall i, j | 0 <= i < j < |r| ensures k.ValueOf(r[i]) <= k.ValueOf(r[j]) {
      assert r[i] == s[if i < p then i else i + 1] && r[j] == s[if j < p then j else j + 1];
    }
  }

  lemma UnlinkKeeps(k: State, x: Item)
    requires Lists(k)
    ensures Lists(Unlink(k, x))
  {
    hide Linked, Sorted;
    UnlinkLinked(k, x);
    UnlinkSorted(k, x);
  }

  // ---- LinkEnd ----

  lemma LinkEndView(k: State, l: ListId, x: Item)
    requires Linked(k) && k.ContainerOf(x) == None
    ensures x !in k.ItemsOf(l) && Rings.Valid(k.RingOf(l))
    ensures var k' := LinkEnd(k, l, x);
      && OnlyLists(k, k')
      && (forall y :: k'.ContainerOf(y) == if y == x then Some(l) else k.ContainerOf(y))
      && (forall m :: k'.RingOf(m) == if m == l then Rings.InsertEnd(k.RingOf(l), x) else k.RingOf(m))
  {
    hide Rings.InsertEnd, Rings.Valid;
    assert x !in k.ItemsOf(l) && Rings.Valid(k.RingOf(l));
  }

  lemma LinkEndKeeps(k: State, l: ListId, x: Item)
    requires Lists(k) && k.ContainerOf(x) == None && !l.Delayed?
    ensures Lists(LinkEnd(k, l, x))
  {
    LinkEndView(k, l, x);
    assert forall y :: LinkEnd(k, l, x).ValueOf(y) == k.ValueOf(y);
    hide LinkEnd, Rings.InsertEnd, Rings.Valid, State.RingOf, State.ContainerOf, State.ValueOf;
  }

  // ---- LinkAt ----

  lemma LinkAtView(k: State, l: ListId, at: int, x: Item)
    requires Linked(k) && k.ContainerOf(x) == None && 0 <= at <= |k.ItemsOf(l)|
    ensures x !in k.ItemsOf(l) && Rings.Valid(k.RingOf(l))
    ensures var k' := LinkAt(k, l, at, x);
      && OnlyLists(k, k')
      && (forall y :: k'.ContainerOf(y) == if y == x then Some(l) else k.ContainerOf(y))
      && (forall m :: k'.RingOf(m) == if m == l then Rings.InsertBefore(k.RingOf(l), at, x) else k.RingOf(m))
  {
    hide Rings.InsertBefore, Rings.Valid;
    assert x !in k.ItemsOf(l) && Rings.Valid(k.RingOf(l));
  }

  lemma LinkAtLinked(k: State, l: ListId, at: int, x: Item)
    requires Linked(k) && k.ContainerOf(x) == None && 0 <= at <= |k.ItemsOf(l)|
    ensures Linked(LinkAt(k, l, at, x))
  {
    LinkAtView(k, l, at, x);
    hide LinkAt, Rings.InsertBefore, Rings.Valid, State.RingOf, State.ContainerOf;
  }

  /** Linking into a list that is not a delayed list. */
  lemma LinkAtKeeps(k: State, l: ListId, at: int, x: Item)
    requires Lists(k) && k.ContainerOf(x) == None && 0 <= at <= |k.ItemsOf(l)| && !l.Delayed?
    ensures Lists(LinkAt(k, l, at, x))
  {
    LinkAtView(k, l, at, x);
    LinkAtLinked(k, l, at, x);
    assert forall y :: LinkAt(k, l, at, x).ValueOf(y) == k.ValueOf(y);
    hide LinkAt, Linked, Rings.InsertBefore, State.RingOf, State.ValueOf;
  }

  lemma {:induction false} PlaceSplits(k: State, items: seq<Item>, v: int)
    requires SortedItems(k, items)
    ensures var at := Place(k, items, v);
      && (forall i :: 0 <= i < at ==> k.ValueOf(items[i]) <= v)
      && (forall i :: at <= i < |items| ==> v < k.ValueOf(items[i]))
  {
    hide State.ValueOf;
    if items != [] && k.ValueOf(items[0]) <= v {
      PlaceSplits(k, items[1..], v);
    }
  }

  lemma SortedAround(k: State, a: seq<Item>, x: Item, b: seq<Item>)
    requires SortedItems(k, a) && SortedItems(k, b)
    requires forall i :: 0 <= i < |a| ==> k.ValueOf(a[i]) <= k.ValueOf(x)
    requires forall i :: 0 <= i < |b| ==> k.ValueOf(x) <= k.ValueOf(b[i])
    ensures SortedItems(k, a + [x] + b)
  {
    hide State.ValueOf;
    var r := a + [x] + b;
    forall i, j | 0 <= i < j < |r| ensures k.ValueOf(r[i]) <= k.ValueOf(r[j]) {
      if j < |a| {
        assert r[i] == a[i] && r[j] == a[j];
      } else if i > |a| {
        assert r[i] == b[i - |a| - 1] && r[j] == b[j - |a| - 1];
      }
    }
  }

  lemma InsertSorted(k: State, items: seq<Item>, x: Item)
    requires SortedItems(k, items)
    ensures var at := Place(k, items, k.ValueOf(x)); SortedItems(k, items[..at] + [x] + items[at..])
  {
    PlaceSplits(k, items, k.ValueOf(x));
    hide State.ValueOf, Place;
    var at := Place(k, items, k.ValueOf(x));
    SortedAround(k, items[..at], x, items[at..]);
  }

  /** Linking into a delayed list in order of wake time. */
  lemma LinkInOrderKeeps(k: State, b: bool, x: Item)
    requires Lists(k) && k.ContainerOf(x) == None
    ensures Lists(LinkAt(k, Delayed(b), Place(k, k.ItemsOf(Delayed(b)), k.ValueOf(x)), x))
  {
    var items := k.ItemsOf(Delayed(b));
    var at := Place(k, items, k.ValueOf(x));
    var k' := LinkAt(k, Delayed(b), at, x);
    LinkAtView(k, Delayed(b), at, x);
    LinkAtLinked(k, Delayed(b), at, x);
    InsertSorted(k, items, x);
    assert k'.values == k.values;
    hide LinkAt, Linked, State.RingOf, State.ValueOf, Place, Rings.Valid;
    assert k'.ItemsOf(Delayed(b)) == items[..at] + [x] + items[at..];
    SameValues(k, k', k'.ItemsOf(Delayed(b)));
    SameValues(k, k', k.ItemsOf(Delayed(!b)));
    hide SortedItems;
  }

  lemma SameValues(k: State, k': State, items: seq<Item>)
    requires k'.values == k.values
    ensures SortedItems(k', items) == SortedItems(k, items)
  {
    assert forall y :: k'.ValueOf(y) == k.ValueOf(y);
    hide State.ValueOf;
  }

  // ---- Moving tasks ----

  lemma FieldsKeepLists(k: State, k': State)
    requires Lists(k) && k'.lists == k.lists && k'.containers == k.containers && k'.values == k.values
    ensures Lists(k')
    ensures forall u :: k'.StateList(u) == k.StateList(u) && k'.EventList(u) == k.EventList(u)
  {
    assert forall l :: k'.RingOf(l) == k.RingOf(l);
    assert forall x :: k'.ContainerOf(x) == k.ContainerOf(x) && k'.ValueOf(x) == k.ValueOf(x);
    hide State.RingOf, State.ContainerOf, State.ValueOf, Rings.Valid;
  }

  /** Two unlinks: both items of t are off every list. */
  lemma DetachView(k: State, t: Task)
    requires Lists(k)
    ensures var k' := Unlink(Unlink(k, EventItem(t)), StateItem(t));
      && Lists(k') && OnlyLists(k, k')
      && (forall u :: k'.StateList(u) == if u == t then None else k.StateList(u))
      && (forall u :: k'.EventList(u) == if u == t then None else k.EventList(u))
  {
    hide Unlink, Lists, State.StateList, State.EventList;
    EventOff(k, t);
    StateOff(Unlink(k, EventItem(t)), t);
  }

  lemma EventOff(k: State, t: Task)
    requires Lists(k)
    ensures var k' := Unlink(k, EventItem(t));
      && Lists(k') && OnlyLists(k, k')
      && (forall u :: k'.StateList(u) == k.StateList(u))
      && (forall u :: k'.EventList(u) == if u == t then None else k.EventList(u))
  {
    hide Unlink, Linked, Sorted, State.RingOf, State.ContainerOf;
    UnlinkKeeps(k, EventItem(t));
    UnlinkView(k, EventItem(t));
  }

  lemma StateOff(k: State, t: Task)
    requires Lists(k)
    ensures var k' := Unlink(k, StateItem(t));
      && Lists(k') && OnlyLists(k, k')
      && (forall u :: k'.StateList(u) == if u == t then None else k.StateList(u))
      && (forall u :: k'.EventList(u) == k.EventList(u))
  {
    hide Unlink, Linked, Sorted, State.RingOf, State.ContainerOf;
    UnlinkKeeps(k, StateItem(t));
    UnlinkView(k, StateItem(t));
  }

  /** The same for an event item that goes onto a list, at its end or elsewhere. */
  lemma EventToEnd(k: State, l: ListId, t: Task)
    requires Lists(k) && k.EventList(t) == None && !l.Delayed?
    ensures var k' := LinkEnd(k, l, EventItem(t));
      && Lists(k') && OnlyLists(k, k')
      && (forall u :: k'.StateList(u) == k.StateList(u))
      && (forall u :: k'.EventList(u) == if u == t then Some(l) else k.EventList(u))
  {
    hide LinkEnd, Linked, Sorted, State.RingOf, State.ContainerOf;
    LinkEndView(k, l, EventItem(t));
    LinkEndKeeps(k, l, EventItem(t));
  }

  lemma EventAt(k: State, l: ListId, at: int, t: Task)
    requires Lists(k) && k.EventList(t) == None && !l.Delayed? && 0 <= at <= |k.ItemsOf(l)|
    ensures var k' := LinkAt(k, l, at, EventItem(t));
      && Lists(k') && OnlyLists(k, k')
      && (forall u :: k'.StateList(u) == k.StateList(u))
      && (forall u :: k'.EventList(u) == if u == t then Some(l) else k.EventList(u))
  {
    hide LinkAt, Linked, Sorted, State.RingOf, State.ContainerOf;
    LinkAtView(k, l, at, EventItem(t));
    LinkAtKeeps(k, l, at, EventItem(t));
  }

  /** A state item that goes onto a delayed list, in order. */
  lemma StateInOrder(k: State, b: bool, t: Task)
    requires Lists(k) && k.StateList(t) == None
    ensures var k' := LinkAt(k, Delayed(b), Place(k, k.ItemsOf(Delayed(b)), k.ValueOf(StateItem(t))), StateItem(t));
      && Lists(k') && OnlyLists(k, k')
      && (forall u :: k'.StateList(u) == if u == t then Some(Delayed(b)) else k.StateList(u))
      && (forall u :: k'.EventList(u) == k.EventList(u))
  {
    hide LinkAt, Linked, Sorted, State.RingOf, State.ContainerOf, Place, State.ValueOf;
    LinkAtView(k, Delayed(b), Place(k, k.ItemsOf(Delayed(b)), k.ValueOf(StateItem(t))), StateItem(t));
    LinkInOrderKeeps(k, b, StateItem(t));
  }

  lemma LinkedToEnd(k: State, l: ListId, t: Task)
    requires Lists(k) && k.StateList(t) == None && !l.Delayed?
    ensures var k' := LinkEnd(k, l, StateItem(t));
      && Lists(k') && OnlyLists(k, k')
      && (forall u :: k'.StateList(u) == if u == t then Some(l) else k.StateList(u))
      && (forall u :: k'.EventList(u) == k.EventList(u))
  {
    hide LinkEnd, Linked, Sorted, State.RingOf, State.ContainerOf;
    LinkEndView(k, l, StateItem(t));
    LinkEndKeeps(k, l, StateItem(t));
  }

  lemma AddToReadyView(k: State, t: Task)
    requires Lists(k) && k.StateList(t) == None
    ensures var k', p := AddToReady(k, t), k.PriorityOf(t);
      && Lists(k')
      && OnlyReady(k, k') && k'.topReady == (if p > k.topReady then p else k.topReady)
      && (forall u :: k'.StateList(u) == if u == t then Some(Ready(p)) else k.StateList(u))
      && (forall u :: k'.EventList(u) == k.EventList(u))
  {
    hide LinkEnd, Lists, State.StateList, State.EventList, State.PriorityOf;
    var p := k.PriorityOf(t);
    var k1 := k.(topReady := if p > k.topReady then p else k.topReady);
    FieldsKeepLists(k, k1);
    LinkedToEnd(k1, Ready(p), t);
  }

  lemma MakeReadyView(k: State, t: Task)
    requires Lists(k)
    ensures var k', p := MakeReady(k, t), k.PriorityOf(t);
      && Lists(k')
      && OnlyReady(k, k') && k'.topReady == (if p > k.topReady then p else k.topReady)
      && (forall u :: k'.StateList(u) == if u == t then Some(Ready(p)) else k.StateList(u))
      && (forall u :: k'.EventList(u) == if u == t then None else k.EventList(u))
  {
    var k1 := Unlink(Unlink(k, EventItem(t)), StateItem(t));
    DetachView(k, t);
    assert k1.PriorityOf(t) == k.PriorityOf(t);
    hide Unlink, AddToReady, Lists, State.StateList, State.EventList, State.PriorityOf;
    AddToReadyView(k1, t);
  }

  lemma ParkView(k: State, t: Task, l: ListId)
    requires Lists(k) && !l.Delayed?
    ensures var k' := Park(k, t, l);
      && Lists(k') && OnlyLists(k, k')
      && (forall u :: k'.StateList(u) == if u == t then Some(l) else k.StateList(u))
      && (forall u :: k'.EventList(u) == if u == t then None else k.EventList(u))
  {
    hide Unlink, LinkEnd, Lists, State.StateList, State.EventList;
    DetachView(k, t);
    LinkedToEnd(Unlink(Unlink(k, EventItem(t)), StateItem(t)), l, t);
  }

  /** The tasks whose items are in a sequence. */
  function Owners(items: seq<Item>): set<Task> {
    set i | 0 <= i < |items| :: items[i].t
  }

  lemma OwnersSplit(items: seq<Item>)
    requires items != []
    ensures Owners(items) == {items[0].t} + Owners(items[1..])
  {
    assert items == [items[0]] + items[1..];
  }

  /** Waking a sequence of tasks: they are ready at their own priorities and wait for nothing. */
  lemma {:induction false} WakeAllView(k: State, items: seq<Item>)
    requires Lists(k)
    ensures var k', ts := WakeAll(k, items), Owners(items);
      && Lists(k') && OnlyReady(k, k')
      && (forall u :: k'.StateList(u) == if u in ts then Some(Ready(k.PriorityOf(u))) else k.StateList(u))
      && (forall u :: k'.EventList(u) == if u in ts then None else k.EventList(u))
    decreases |items|
  {
    if items != [] {
      var t, k1 := items[0].t, MakeReady(k, items[0].t);
      MakeReadyView(k, t);
      OwnersSplit(items);
      WakeAllView(k1, items[1..]);
      OnlyReadyThen(k, k1, WakeAll(k, items));
      hide MakeReady, Lists, State.StateList, State.EventList, State.PriorityOf, Owners, OnlyReady;
    }
  }

  /** uxTopReadyPriority rises to the highest of them at most. */
  lemma {:induction false} WakeAllTop(k: State, items: seq<Item>, bound: int)
    requires Lists(k) && k.topReady <= bound && forall t :: t in Owners(items) ==> k.PriorityOf(t) <= bound
    ensures k.topReady <= WakeAll(k, items).topReady <= bound
    ensures forall t :: t in Owners(items) ==> k.PriorityOf(t) <= WakeAll(k, items).topReady
    decreases |items|
  {
    if items != [] {
      var k1 := MakeReady(k, items[0].t);
      MakeReadyView(k, items[0].t);
      OnlyReadyThen(k, k1, k1);
      OwnersSplit(items);
      hide MakeReady, Lists, Owners, OnlyReady, State.PriorityOf, State.StateList, State.EventList;
      WakeAllTop(k1, items[1..], bound);
    }
  }
}
