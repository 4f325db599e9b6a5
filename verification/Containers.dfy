/**
  Containers that hold items and cache their weight (src/container.cpp), and the questions
  the game asks before it changes them.
  */
module Containers {
  import opened Common
  import opened ItemForest
  import opened ItemSteps
  import opened ContainerWalk

  const WHEREEVER := -1

  /** The `ReturnValue`s that containers produce. */
  datatype ReturnValue =
    | NoError | NotPossible | CannotPickup | ThisIsImpossible | ItemCannotBeMovedThere
    | ContainerNotEnoughRoom | DepotIsFull | NotMoveable | NotEnoughRoom

  datatype Flags = Flags(noLimit: bool, childIsOwner: bool, ignoreNotMoveable: bool, ignoreAutoStack: bool)

  const NO_FLAGS := Flags(false, false, false, false)

  /** `Item::getWeight` of the item alone. */
  ghost function OwnWeight(kind: Kind, count: nat): int {
    if kind.stackable then kind.weight * (if count >= 1 then count else 1) else kind.weight
  }

  /** `Item::getItemCount`, counted for one kind of item only. */
  ghost function CountOf(k: Kind): Measure {
    (kind: Kind, n: nat) => if kind == k then n else 0
  }

  /** Stacks hold 1 to 100 pieces; containers do not stack. */
  ghost predicate StackOk(n: Node) {
    && (n.box.Box? ==> !n.kind.stackable)
    && (n.parent.Inside? && n.kind.stackable ==> 1 <= n.count <= 100)
  }

  ghost predicate Stacks(s: Store) {
    forall x :: 0 <= x < |s| ==> StackOk(s[x])
  }

  // ----- what the queries mean ------------------------------------------------------------

  /** `Item::getTopParent` for a container: the container that stands on the ground, if one does. */
  ghost function TopParent(s: Store, r: seq<nat>, c: Id): (t: Id)
    requires Forest(s, r) && c < |s|
    ensures t in Chain(s, r, c)
    ensures IsBox(s, c) ==> IsBox(s, t)
    decreases Top(r) - r[c]
  {
    assert NodeOk(s, c) && RankOk(s, r, c);
    if s[c].parent.Inside? && s[s[c].parent.c].parent != Nowhere then TopParent(s, r, s[c].parent.c) else c
  }

  /** Whether `getTopParent` of an item is the container `d`. */
  ghost predicate HasTopParent(s: Store, r: seq<nat>, x: Id, d: Id)
    requires Forest(s, r) && x < |s|
  {
    if s[x].box.Box? then TopParent(s, r, x) == d
    else
      assert NodeOk(s, x);
      s[x].parent.Inside? && TopParent(s, r, s[x].parent.c) == d
  }

  /** How many items `DepotChest::queryAdd` reckons the addition brings. */
  ghost function Extra(s: Store, r: seq<nat>, d: Id, x: Id, count: nat): int
    requires Forest(s, r) && d < |s| && x < |s|
  {
    if !HasTopParent(s, r, x, d) then 1 + DeepIn(s, r, One, x)
    else if s[x].kind.stackable && s[x].count != count then 1
    else 0
  }

  ghost predicate DepotFull(s: Store, r: seq<nat>, d: Id, x: Id, count: nat)
    requires Forest(s, r) && IsBox(s, d) && x < |s|
  {
    s[d].box.role.Depot? && DeepIn(s, r, One, d) + Extra(s, r, d, x, count) > s[d].box.role.maxItems
  }

  ghost predicate UnderMailbox(s: Store, r: seq<nat>, c: Id)
    requires Forest(s, r) && c < |s|
  {
    exists d :: d in Chain(s, r, c) && d != c && s[d].box.role == Mailbox
  }

  /** When an addition is accepted, said without reference to how it is found out. */
  ghost predicate Accepts(s: Store, r: seq<nat>, c: Id, index: int, x: Id, count: nat, flags: Flags)
    requires Forest(s, r) && IsBox(s, c) && x < |s|
  {
    if s[c].box.role == Mailbox then flags.noLimit && x != c && s[x].kind.pickupable
    else
      && s[c].box.unlocked
      && s[x].kind.pickupable
      && (s[x].kind.storeItem ==> s[c].box.role.Depot?)
      && x !in Chain(s, r, c)
      && (!flags.noLimit ==>
            && !UnderMailbox(s, r, c)
            && (index == WHEREEVER ==> |Items(s, c)| < s[c].box.capacity)
            && !DepotFull(s, r, c, x, count)
            && !DepotFull(s, r, TopParent(s, r, c), x, count))
  }

  /** Whether `x` can be merged into stack `y`. */
  ghost predicate Mergeable(s: Store, x: Id, y: Id)
    requires x < |s| && y < |s|
  {
    y != x && s[y].kind == s[x].kind && s[y].count < 100
  }

  /** Free room in the stacks of a list that an item can be merged into. */
  ghost function Room(s: Store, x: Id, xs: seq<Id>): (n: nat)
    requires x < |s| && InStore(s, xs)
  {
    if xs == [] then 0
    else (if Mergeable(s, x, xs[0]) then 100 - s[xs[0]].count else 0) + Room(s, x, xs[1..])
  }

  lemma {:induction false} RoomAppend(s: Store, x: Id, xs: seq<Id>, y: Id)
    requires x < |s| && InStore(s, xs) && y < |s|
    ensures Room(s, x, xs + [y]) == Room(s, x, xs) + if Mergeable(s, x, y) then 100 - s[y].count else 0
  {
    if xs == [] {
      assert xs + [y] == [y];
    } else {
      assert (xs + [y])[1..] == xs[1..] + [y];
      RoomAppend(s, x, xs[1..], y);
    }
  }

  lemma RoomNext(s: Store, x: Id, xs: seq<Id>, i: nat)
    requires x < |s| && InStore(s, xs) && i < |xs|
    ensures Room(s, x, xs[..i + 1])
            == Room(s, x, xs[..i]) + if Mergeable(s, x, xs[i]) then 100 - s[xs[i]].count else 0
  {
    assert xs[..i + 1] == xs[..i] + [xs[i]];
    RoomAppend(s, x, xs[..i], xs[i]);
  }

  /** The walk up depends on the parent links of the chain only. */
  lemma {:induction false} AddAlongSame(s: Store, r: seq<nat>, s': Store, r': seq<nat>, cache: seq<int>, c: Id, delta: int)
    requires Forest(s, r) && Forest(s', r') && |s'| == |s| == |cache| && c < |s|
    requires forall d :: d in Chain(s, r, c) ==> s'[d].parent == s[d].parent
    ensures AddAlong(s', r', cache, c, delta) == AddAlong(s, r, cache, c, delta)
    decreases Top(r) - r[c]
  {
    assert NodeOk(s, c) && RankOk(s, r, c);
    if s[c].parent.Inside? {
      AddAlongSame(s, r, s', r', cache[c := cache[c] + delta], s[c].parent.c, delta);
    }
  }

  lemma HeldBy(s: Store, c: Id, x: Id)
    requires Linked(s) && c < |s| && x in Items(s, c)
    ensures x < |s| && s[x].parent == Inside(c)
  {
    assert NodeOk(s, c);
  }

  lemma OnlyPlace(s: Store, c: Id, i: nat)
    requires Linked(s) && c < |s| && i < |Items(s, c)|
    ensures forall j :: 0 <= j < |Items(s, c)| && Items(s, c)[j] == Items(s, c)[i] ==> j == i
  {
    assert NodeOk(s, c);
  }

  // What the three steps keep, cached weights included.

  lemma PutKeeps(s: Store, r: seq<nat>, f: Measure, cache: seq<int>, c: Id, i: nat, x: Id)
    requires Forest(s, r) && Consistent(s, f, cache) && IsBox(s, c) && i <= |Items(s, c)|
    requires x < |s| && s[x].parent == Nowhere && x !in Chain(s, r, c)
    requires s[x].box.Box? ==> s[x].box.role == Bag
    ensures x != c && Forest(Put(s, c, i, x), Lifted(s, r, c, x))
    ensures Consistent(Put(s, c, i, x), f,
                       AddAlong(Put(s, c, i, x), Lifted(s, r, c, x), cache, c, Whole(s, f, cache, x)))
  {
    PutForest(s, r, c, i, x);
    PutSums(s, f, cache, c, i, x);
    AddAlongRepairs(Put(s, c, i, x), Lifted(s, r, c, x), f, cache, c, Whole(s, f, cache, x));
  }

  lemma TakeAlong(s: Store, r: seq<nat>, cache: seq<int>, c: Id, i: nat, delta: int)
    requires Forest(s, r) && |cache| == |s| && IsBox(s, c) && i < |Items(s, c)|
    ensures Items(s, c)[i] < |s| && Items(s, c)[i] != c && Forest(Take(s, c, i), r)
    ensures AddAlong(Take(s, c, i), r, cache, c, delta) == AddAlong(s, r, cache, c, delta)
  {
    TakeForest(s, r, c, i);
    AddAlongSame(s, r, Take(s, c, i), r, cache, c, delta);
  }

  lemma TakeKeeps(s: Store, r: seq<nat>, f: Measure, cache: seq<int>, c: Id, i: nat)
    requires Forest(s, r) && Consistent(s, f, cache) && IsBox(s, c) && i < |Items(s, c)|
    ensures Items(s, c)[i] < |s| && Items(s, c)[i] != c && s[Items(s, c)[i]].parent == Inside(c)
    ensures Forest(Take(s, c, i), r)
    ensures Consistent(Take(s, c, i), f, AddAlong(s, r, cache, c, -Whole(s, f, cache, Items(s, c)[i])))
  {
    HeldBy(s, c, Items(s, c)[i]);
    var delta := -Whole(s, f, cache, Items(s, c)[i]);
    TakeAlong(s, r, cache, c, i, delta);
    TakeSums(s, f, cache, c, i);
    AddAlongRepairs(Take(s, c, i), r, f, cache, c, delta);
  }

  lemma SetItemKeeps(s: Store, r: seq<nat>, f: Measure, cache: seq<int>, c: Id, x: Id, kind: Kind, n: nat)
    requires Forest(s, r) && Consistent(s, f, cache) && c < |s| && x in Items(s, c)
    ensures x < |s| && s[x].parent == Inside(c) && Forest(SetItem(s, x, kind, n), r)
    ensures Consistent(SetItem(s, x, kind, n), f,
                       AddAlong(SetItem(s, x, kind, n), r, cache, c, f(kind, n) - f(s[x].kind, s[x].count)))
  {
    HeldBy(s, c, x);
    SetItemForest(s, r, x, kind, n);
    SetItemSums(s, f, cache, x, kind, n, c);
    AddAlongRepairs(SetItem(s, x, kind, n), r, f, cache, c, f(kind, n) - f(s[x].kind, s[x].count));
  }

  /** Two walks up the same chain add up. */
  lemma AddAlongTwice(s: Store, r: seq<nat>, s': Store, r': seq<nat>, cache: seq<int>, c: Id, a: int, b: int)
    requires Forest(s, r) && Forest(s', r') && |s'| == |s| == |cache| && c < |s|
    requires Chain(s', r', c) == Chain(s, r, c)
    ensures AddAlong(s', r', AddAlong(s, r, cache, c, a), c, b) == AddAlong(s, r, cache, c, a + b)
  {
    var mid := AddAlong(s, r, cache, c, a);
    AddAlongAt(s, r, cache, c, a);
    AddAlongAt(s', r', mid, c, b);
    AddAlongAt(s, r, cache, c, a + b);
    assert forall d :: 0 <= d < |s| ==> AddAlong(s', r', mid, c, b)[d] == AddAlong(s, r, cache, c, a + b)[d];
  }

  /** What an item amounts to does not change while another one is taken out below which it is not. */
  lemma TakeLeavesWhole(s: Store, r: seq<nat>, f: Measure, cache: seq<int>, c: Id, i: nat, x: Id)
    requires Forest(s, r) && |cache| == |s| && IsBox(s, c) && i < |Items(s, c)|
    requires x < |s| && s[x].parent == Nowhere && x !in Chain(s, r, c)
    ensures Items(s, c)[i] < |s| && Items(s, c)[i] != c && Items(s, c)[i] != x && Take(s, c, i)[x] == s[x]
    ensures var a := -Whole(s, f, cache, Items(s, c)[i]);
            Whole(Take(s, c, i), f, AddAlong(s, r, cache, c, a), x) == Whole(s, f, cache, x)
  {
    HeldBy(s, c, Items(s, c)[i]);
    assert Items(s, c)[i] != c by { TakeForest(s, r, c, i); }
    AddAlongAt(s, r, cache, c, -Whole(s, f, cache, Items(s, c)[i]));
    assert c in Chain(s, r, c);
  }

  /** Replacing an item moves the caches by the difference of the two, once, up the chain. */
  lemma ReplaceKeeps(s: Store, r: seq<nat>, f: Measure, cache: seq<int>, c: Id, i: nat, x: Id)
    requires Forest(s, r) && Consistent(s, f, cache) && IsBox(s, c) && i < |Items(s, c)|
    requires x < |s| && s[x].parent == Nowhere && x !in Chain(s, r, c)
    requires s[x].box.Box? ==> s[x].box.role == Bag
    ensures Items(s, c)[i] < |s| && Items(s, c)[i] != c && Forest(Take(s, c, i), r)
    ensures x != c && i <= |Items(Take(s, c, i), c)|
    ensures Forest(Put(Take(s, c, i), c, i, x), Lifted(Take(s, c, i), r, c, x))
    ensures Consistent(Put(Take(s, c, i), c, i, x), f,
                       AddAlong(s, r, cache, c, -Whole(s, f, cache, Items(s, c)[i]) + Whole(s, f, cache, x)))
  {
    TakeKeeps(s, r, f, cache, c, i);
    var s1, a := Take(s, c, i), -Whole(s, f, cache, Items(s, c)[i]);
    assert Chain(s1, r, c) == Chain(s, r, c) by { TakeForest(s, r, c, i); }
    TakeLeavesWhole(s, r, f, cache, c, i, x);
    PutAfterTake(s, r, f, cache, c, i, x, s1, a, Whole(s, f, cache, x));
  }

  /** The second half of a replacement, in the store `s1` that the first half has left. */
  lemma PutAfterTake(s: Store, r: seq<nat>, f: Measure, cache: seq<int>, c: Id, i: nat, x: Id, s1: Store, a: int, b: int)
    requires Forest(s, r) && Forest(s1, r) && |cache| == |s| == |s1| && c < |s| && Chain(s1, r, c) == Chain(s, r, c)
    requires Consistent(s1, f, AddAlong(s, r, cache, c, a)) && IsBox(s1, c) && i <= |Items(s1, c)|
    requires x < |s1| && s1[x].parent == Nowhere && x !in Chain(s, r, c) && (s1[x].box.Box? ==> s1[x].box.role == Bag)
    requires b == Whole(s1, f, AddAlong(s, r, cache, c, a), x)
    ensures x != c && Forest(Put(s1, c, i, x), Lifted(s1, r, c, x))
    ensures Consistent(Put(s1, c, i, x), f, AddAlong(s, r, cache, c, a + b))
  {
    PutKeeps(s1, r, f, AddAlong(s, r, cache, c, a), c, i, x);
    PutForest(s1, r, c, i, x);
    AddAlongTwice(s, r, Put(s1, c, i, x), Lifted(s1, r, c, x), cache, c, a, b);
  }

  /** One stack with room is enough for there to be room. */
  lemma {:induction false} RoomAt(s: Store, x: Id, xs: seq<Id>, i: nat)
    requires x < |s| && InStore(s, xs) && i < |xs|
    requires Mergeable(s, x, xs[i])
    ensures Room(s, x, xs) >= 100 - s[xs[i]].count
  {
    if i > 0 {
      RoomAt(s, x, xs[1..], i - 1);
    }
  }

  ghost function FreeSlots(s: Store, c: Id): nat
    requires IsBox(s, c)
  {
    if |Items(s, c)| < s[c].box.capacity then s[c].box.capacity - |Items(s, c)| else 0
  }

  /** How many pieces of `x` the container has room for, at an index or anywhere. */
  ghost function MaxCount(s: Store, r: seq<nat>, c: Id, index: int, x: Id, count: nat, flags: Flags): nat
    requires Forest(s, r) && IsBox(s, c) && x < |s| && WHEREEVER <= index
  {
    assert NodeOk(s, c);
    if flags.noLimit then (if count >= 1 then count else 1)
    else if !s[x].kind.stackable then FreeSlots(s, c)
    else if index == WHEREEVER then
      FreeSlots(s, c) * 100 + if Accepts(s, r, c, 0, x, count, flags) then Room(s, x, Items(s, c)) else 0
    else if index < |Items(s, c)| && s[Items(s, c)[index]].kind == s[x].kind && s[Items(s, c)[index]].count < 100
            && Accepts(s, r, c, index, x, count, flags) then
      FreeSlots(s, c) * 100 + (100 - s[Items(s, c)[index]].count)
    else
      FreeSlots(s, c) * 100
  }

  /** The stack at an index of a container, not itself a container. */
  ghost predicate Destination(s: Store, c: Id, index: int, y: Id) {
    IsBox(s, c) && 0 <= index < |Items(s, c)| && Items(s, c)[index] == y && y < |s| && !s[y].box.Box?
  }

  /** Whether `queryDestination` looks for a stack to merge with. */
  ghost predicate AutoStacks(s: Store, c: Id, x: Id, flags: Flags)
    requires x < |s|
  {
    !flags.ignoreAutoStack && s[x].kind.stackable && s[x].parent != Inside(c)
  }

  /** A stack with room is chosen exactly when the container has one. */
  ghost predicate PrefersStack(s: Store, c: Id, x: Id, dest: Option<Id>)
    requires x < |s| && c < |s|
  {
    && InStore(s, Items(s, c))
    && (Room(s, x, Items(s, c)) > 0 <==>
          dest.Some? && dest.value < |s| && s[dest.value].kind == s[x].kind && s[dest.value].count < 100)
  }

  /** A stack of the same kind with room for more pieces. */
  ghost predicate Joins(s: Store, x: Id, y: Id) {
    x < |s| && y < |s| && y != x && s[y].kind == s[x].kind && s[y].count < 100
  }

  ghost predicate JoinsAt(s: Store, c: Id, x: Id, j: int) {
    0 <= j < |Items(s, c)| && Joins(s, x, Items(s, c)[j])
  }

  /** The item at a slot, if there is one. */
  ghost function ItemAt(s: Store, c: Id, slot: int): Option<Id> {
    if 0 <= slot < |Items(s, c)| then Some(Items(s, c)[slot]) else None
  }

  /**
    Within a container: a stackable item that comes from elsewhere goes to the stack at the slot, or else to the
    first stack with room; where there is none, and for all other items, it is the slot that counts.
    */
  ghost predicate StackChosen(s: Store, c: Id, x: Id, flags: Flags, slot: int, index: int, dest: Option<Id>)
    requires x < |s|
  {
    if !flags.ignoreAutoStack && s[x].kind.stackable && s[x].parent != Inside(c) && !JoinsAt(s, c, x, slot)
       && exists j :: JoinsAt(s, c, x, j)
    then
      && JoinsAt(s, c, x, index) && dest == Some(Items(s, c)[index])
      && forall j :: 0 <= j < index ==> !JoinsAt(s, c, x, j)
    else index == slot && dest == ItemAt(s, c, slot)
  }

  /** What an index stands for: 254 (move up), 255 and whatever is beyond the capacity are no slots. */
  ghost function SlotOf(s: Store, c: Id, index: int): int
    requires IsBox(s, c)
  {
    if index == 254 || index == 255 || index >= s[c].box.capacity then WHEREEVER else index
  }

  /** A container that lies at the slot. */
  ghost predicate BoxAt(s: Store, c: Id, slot: int) {
    ItemAt(s, c, slot).Some? && IsBox(s, ItemAt(s, c, slot).value)
  }

  /** One step on the way to where an item goes, by the rules for the player's clicks. */
  ghost predicate StepTo(s: Store, c: Id, index: int, x: Id, flags: Flags, c': Id, index': int, dest: Option<Id>)
    requires IsBox(s, c) && x < |s|
  {
    var slot := SlotOf(s, c, index);
    && (!s[c].box.unlocked ==> c' == c && index' == index && dest == None)
    && (s[c].box.unlocked && index == 254 ==>
          c' == (if s[c].parent.Inside? then s[c].parent.c else c) && index' == WHEREEVER && dest == None)
    && (s[c].box.unlocked && index != 254 && BoxAt(s, c, slot) ==>
          Some(c') == ItemAt(s, c, slot) && index' == WHEREEVER && dest == None)
    && (s[c].box.unlocked && index != 254 && !BoxAt(s, c, slot) ==>
          c' == c && StackChosen(s, c, x, flags, slot, index', dest))
  }

  /** What a step leads to can be added to. */
  lemma StepMeans(s: Store, r: seq<nat>, c: Id, index: int, x: Id, flags: Flags, c': Id, index': int, dest: Option<Id>)
    requires Forest(s, r) && Stacks(s) && IsBox(s, c) && x < |s| && WHEREEVER <= index
    requires StepTo(s, c, index, x, flags, c', index', dest)
    ensures IsBox(s, c') && WHEREEVER <= index'
    ensures c' != c ==> index' == WHEREEVER && dest == None && s[c].box.unlocked
    ensures !s[c].box.unlocked ==> index' == index && dest == None
    ensures index == WHEREEVER ==> c' == c && (dest == None ==> index' == WHEREEVER)
    ensures dest.Some? ==> Destination(s, c, index', dest.value)
    ensures index == WHEREEVER && dest.Some? ==>
                s[c].box.unlocked && AutoStacks(s, c, x, flags) && Mergeable(s, x, dest.value)
    ensures dest == None && s[c].box.unlocked && index' != WHEREEVER ==>
                |Items(s, c)| <= index' < s[c].box.capacity
    ensures c' == c && s[c].box.unlocked && index != 254 && AutoStacks(s, c, x, flags) ==>
                PrefersStack(s, c, x, dest)
  {
    AllInStore(s, c);
    assert NodeOk(s, c);
    if s[c].box.unlocked && index != 254 {
      if BoxAt(s, c, SlotOf(s, c, index)) {
        ItemsRankLower(s, r, c);
      } else {
        ChosenMeans(s, c, x, flags, SlotOf(s, c, index), index', dest);
      }
    }
  }

  lemma ChosenMeans(s: Store, c: Id, x: Id, flags: Flags, slot: int, index: int, dest: Option<Id>)
    requires Linked(s) && Stacks(s) && IsBox(s, c) && x < |s| && !BoxAt(s, c, slot)
    requires StackChosen(s, c, x, flags, slot, index, dest)
    ensures dest.Some? ==> Destination(s, c, index, dest.value)
    ensures AutoStacks(s, c, x, flags) ==> PrefersStack(s, c, x, dest)
    ensures slot == WHEREEVER && dest.Some? ==> AutoStacks(s, c, x, flags) && Mergeable(s, x, dest.value)
  {
    AllInStore(s, c);
    if dest.Some? {
      HeldBy(s, c, dest.value);
      assert StackOk(s[dest.value]);
      if JoinsAt(s, c, x, slot) { assert dest == ItemAt(s, c, slot); }
    }
    if AutoStacks(s, c, x, flags) {
      RoomOrNot(s, x, Items(s, c));
      if j :| 0 <= j < |Items(s, c)| && Joins(s, x, Items(s, c)[j]) {
        assert JoinsAt(s, c, x, j);
      } else {
        assert forall j :: !JoinsAt(s, c, x, j);
      }
    }
  }

  lemma {:induction false} RoomOrNot(s: Store, x: Id, xs: seq<Id>)
    requires x < |s| && InStore(s, xs)
    ensures Room(s, x, xs) > 0 <==> exists j :: 0 <= j < |xs| && Joins(s, x, xs[j])
  {
    if xs != [] {
      RoomOrNot(s, x, xs[1..]);
      if Room(s, x, xs) > 0 && !Joins(s, x, xs[0]) {
        var j :| 0 <= j < |xs[1..]| && Joins(s, x, xs[1..][j]);
        assert xs[j + 1] == xs[1..][j];
      }
      if j :| 0 <= j < |xs| && Joins(s, x, xs[j]) {
        if j > 0 { assert xs[1..][j - 1] == xs[j]; }
      }
    }
  }

  lemma AllInStore(s: Store, c: Id)
    requires Linked(s) && c < |s|
    ensures InStore(s, Items(s, c))
  {
    assert NodeOk(s, c);
  }

  lemma AnySlotAlike(s: Store, r: seq<nat>, c: Id, index: nat, x: Id, count: nat, flags: Flags)
    requires Forest(s, r) && IsBox(s, c) && x < |s|
    ensures Accepts(s, r, c, index, x, count, flags) <==> Accepts(s, r, c, 0, x, count, flags)
  {}

  /** The world after a replacement. */
  lemma Replaced(s: Store, r: seq<nat>, total: seq<int>, c: Id, i: nat, x: Id, diff: int) returns (s2: Store, r2: seq<nat>)
    requires Forest(s, r) && Consistent(s, OwnWeight, total) && IsBox(s, c) && i < |Items(s, c)|
    requires x < |s| && s[x].parent == Nowhere && x !in Chain(s, r, c)
    requires s[x].box.Box? ==> s[x].box.role == Bag
    requires Items(s, c)[i] < |s| && diff == -Whole(s, OwnWeight, total, Items(s, c)[i]) + Whole(s, OwnWeight, total, x)
    ensures Items(s, c)[i] != c && x != c && i <= |Items(Take(s, c, i), c)|
    ensures s2 == Put(Take(s, c, i), c, i, x) && Forest(s2, r2)
    ensures Consistent(s2, OwnWeight, AddAlong(s, r, total, c, diff))
  {
    ReplaceKeeps(s, r, OwnWeight, total, c, i, x);
    s2, r2 := Put(Take(s, c, i), c, i, x), Lifted(Take(s, c, i), r, c, x);
  }

  lemma ReplaceStacks(s: Store, c: Id, i: nat, x: Id)
    requires Stacks(s) && IsBox(s, c) && x < |s| && x != c && i < |Items(s, c)|
    requires Items(s, c)[i] < |s| && Items(s, c)[i] != c && i <= |Items(Take(s, c, i), c)|
    requires s[x].kind.stackable ==> 1 <= s[x].count <= 100
    ensures Stacks(Put(Take(s, c, i), c, i, x))
  {
    var s2 := Put(Take(s, c, i), c, i, x);
    forall y | 0 <= y < |s2| ensures StackOk(s2[y]) {
      assert StackOk(s[y]);
    }
  }

  /** What `internalAddThing` assigns. */
  lemma PutFront(s: Store, c: Id, x: Id)
    requires IsBox(s, c) && x < |s| && x != c
    ensures var s1 := s[x := s[x].(parent := Inside(c))];
            s1[c := s1[c].(box := s1[c].box.(items := [x] + Items(s, c)))] == Put(s, c, 0, x)
  {
    var xs := Items(s, c);
    assert xs[..0] + [x] + xs[0..] == [x] + xs;
  }

  /** What `replaceThing` assigns. */
  lemma PutInPlace(s: Store, c: Id, index: nat, x: Id)
    requires IsBox(s, c) && x < |s| && x != c && index < |Items(s, c)| && Items(s, c)[index] < |s|
    requires Items(s, c)[index] != c && Items(s, c)[index] != x
    ensures index <= |Items(Take(s, c, index), c)|
    ensures var s1 := s[Items(s, c)[index] := s[Items(s, c)[index]].(parent := Nowhere)];
            var s2 := s1[x := s1[x].(parent := Inside(c))];
            s2[c := s2[c].(box := s2[c].box.(items := Items(s, c)[index := x]))] == Put(Take(s, c, index), c, index, x)
  {
    var xs := Items(s, c);
    var ys := xs[..index] + xs[index + 1..];
    assert ys[..index] + [x] + ys[index..] == xs[index := x];
  }

  // ----- the containers -------------------------------------------------------------------

  class World {
    var nodes: Store
    var total: seq<int>         // `totalWeight` of each container
    ghost var rank: seq<nat>

    ghost predicate Valid()
      reads this
    {
      Forest(nodes, rank) && Consistent(nodes, OwnWeight, total) && Stacks(nodes)
    }

    constructor ()
      ensures Valid() && nodes == []
    {
      nodes, total, rank := [], [], [];
    }

    /** A world as it is found: links, cached weights and stacks in order. */
    constructor Of(nodes: Store, total: seq<int>, ghost rank: seq<nat>)
      requires Forest(nodes, rank) && Consistent(nodes, OwnWeight, total) && Stacks(nodes)
      ensures Valid() && this.nodes == nodes && this.total == total && this.rank == rank
    {
      this.nodes, this.total, this.rank := nodes, total, rank;
    }

    /** `Container::updateItemWeight`: the difference goes up the whole chain. */
    method UpdateItemWeight(c: Id, diff: int)
      requires Forest(nodes, rank) && |total| == |nodes| && c < |nodes|
      modifies this`total
      ensures total == AddAlong(nodes, rank, old(total), c, diff)
      decreases Top(rank) - rank[c]
    {
      assert NodeOk(nodes, c) && RankOk(nodes, rank, c);
      total := total[c := total[c] + diff];
      if nodes[c].parent.Inside? {
        UpdateItemWeight(nodes[c].parent.c, diff);
      }
    }

    /** `getWeight`, for containers with what they hold. */
    method GetWeight(x: Id) returns (weight: int)
      requires |total| == |nodes| && x < |nodes|
      ensures weight == Whole(nodes, OwnWeight, total, x)
    {
      var item := nodes[x];
      weight := item.kind.weight;
      if item.kind.stackable {
        weight := weight * if item.count > 1 then item.count else 1;
      }
      if item.box.Box? {
        weight := weight + total[x];
      }
    }

    method GetThingIndex(c: Id, x: Id) returns (index: int)
      requires IsBox(nodes, c)
      ensures index == -1 <==> x !in Items(nodes, c)
      ensures index != -1 ==> 0 <= index < |Items(nodes, c)| && Items(nodes, c)[index] == x
    {
      index := 0;
      while index < |Items(nodes, c)|
        invariant 0 <= index <= |Items(nodes, c)|
        invariant x !in Items(nodes, c)[..index]
      {
        if Items(nodes, c)[index] == x {
          return;
        }
        index := index + 1;
      }
      index := -1;
    }

    /** `addThing`: drops the item silently when the index is beyond the capacity. */
    method AddThing(c: Id, index: int, x: Id)
      requires Valid() && IsBox(nodes, c) && x < |nodes|
      requires nodes[x].parent == Nowhere && x !in Chain(nodes, rank, c)
      requires nodes[x].box.Box? ==> nodes[x].box.role == Bag
      requires nodes[x].kind.stackable ==> 1 <= nodes[x].count <= 100
      modifies this
      ensures Valid()
      ensures index >= old(nodes[c].box.capacity) ==> nodes == old(nodes) && rank == old(rank)
      ensures index < old(nodes[c].box.capacity) ==>
                nodes == Put(old(nodes), c, 0, x) && rank == Lifted(old(nodes), old(rank), c, x)
    {
      if index >= nodes[c].box.capacity {
        return;
      }
      InternalAddThing(c, x);
    }

    /** `internalAddThing`: no question asked about room. */
    method InternalAddThing(c: Id, x: Id)
      requires Valid() && IsBox(nodes, c) && x < |nodes|
      requires nodes[x].parent == Nowhere && x !in Chain(nodes, rank, c)
      requires nodes[x].box.Box? ==> nodes[x].box.role == Bag
      requires nodes[x].kind.stackable ==> 1 <= nodes[x].count <= 100
      modifies this
      ensures Valid()
      ensures nodes == Put(old(nodes), c, 0, x) && rank == Lifted(old(nodes), old(rank), c, x)
    {
      var weight := GetWeight(x);
      PutKeeps(nodes, rank, OwnWeight, total, c, 0, x);
      var items := nodes[c].box.items;
      PutFront(nodes, c, x);
      rank := Lifted(nodes, rank, c, x);
      nodes := nodes[x := nodes[x].(parent := Inside(c))];
      nodes := nodes[c := nodes[c].(box := nodes[c].box.(items := [x] + items))];
      UpdateItemWeight(c, weight);
    }

    /** `updateThing`: a held item changes id and count in place. */
    method UpdateThing(c: Id, x: Id, kind: Kind, count: nat)
      requires Valid() && IsBox(nodes, c)
      requires kind.stackable ==> 1 <= count <= 100
      requires x < |nodes| && nodes[x].box.Box? ==> !kind.stackable
      modifies this
      ensures Valid() && rank == old(rank)
      ensures x !in old(Items(nodes, c)) ==> nodes == old(nodes)
      ensures x in old(Items(nodes, c)) ==> x < old(|nodes|) && nodes == SetItem(old(nodes), x, kind, count)
    {
      var index := GetThingIndex(c, x);
      if index == -1 {
        return;
      }
      SetItemKeeps(nodes, rank, OwnWeight, total, c, x, kind, count);
      var oldWeight := GetWeight(x);
      nodes := nodes[x := nodes[x].(kind := kind, count := count)];
      var newWeight := GetWeight(x);
      UpdateItemWeight(c, -oldWeight + newWeight);
    }

    /** `replaceThing`: `x` takes the place of the item at `index`, which is then held by nothing. */
    method ReplaceThing(c: Id, index: nat, x: Id)
      requires Valid() && IsBox(nodes, c) && x < |nodes|
      requires nodes[x].parent == Nowhere && x !in Chain(nodes, rank, c)
      requires nodes[x].box.Box? ==> nodes[x].box.role == Bag
      requires nodes[x].kind.stackable ==> 1 <= nodes[x].count <= 100
      modifies this
      ensures Valid()
      ensures index >= old(|Items(nodes, c)|) ==> nodes == old(nodes)
      ensures index < old(|Items(nodes, c)|) ==>
                var y := old(Items(nodes, c)[index]);
                && y < old(|nodes|) && y != c
                && index <= |Items(Take(old(nodes), c, index), c)|
                && nodes == Put(Take(old(nodes), c, index), c, index, x)
    {
      if index >= |Items(nodes, c)| {
        return;
      }
      var y := Items(nodes, c)[index];
      HeldBy(nodes, c, y);
      var newWeight := GetWeight(x);
      var oldWeight := GetWeight(y);
      var diff := -oldWeight + newWeight;
      ghost var s2, r2 := Replaced(nodes, rank, total, c, index, x, diff);
      ReplaceStacks(nodes, c, index, x);
      UpdateItemWeight(c, diff);
      SetPlace(c, index, x);
      rank := r2;
    }

    /** The list and the two links. */
    method SetPlace(c: Id, index: nat, x: Id)
      requires Linked(nodes) && IsBox(nodes, c) && x < |nodes| && x != c && index < |Items(nodes, c)|
      requires nodes[x].parent == Nowhere && Items(nodes, c)[index] != c
      modifies this`nodes
      ensures Items(old(nodes), c)[index] < |old(nodes)|
      ensures index <= |Items(Take(old(nodes), c, index), c)|
      ensures nodes == Put(Take(old(nodes), c, index), c, index, x)
    {
      var items := nodes[c].box.items;
      var y := items[index];
      HeldBy(nodes, c, y);
      PutInPlace(nodes, c, index, x);
      nodes := nodes[y := nodes[y].(parent := Nowhere)];
      nodes := nodes[x := nodes[x].(parent := Inside(c))];
      nodes := nodes[c := nodes[c].(box := nodes[c].box.(items := items[index := x]))];
    }

    /** `removeThing`: part of a stack, or the whole item. */
    method RemoveThing(c: Id, x: Id, count: nat)
      requires Valid() && IsBox(nodes, c) && x in Items(nodes, c)
      requires nodes[x].kind.stackable ==> count <= nodes[x].count && 1 <= count
      modifies this
      ensures Valid() && rank == old(rank)
      ensures x < old(|nodes|) && x != c
      ensures old(nodes[x].kind.stackable && count != nodes[x].count) ==>
                nodes == SetItem(old(nodes), x, old(nodes[x].kind), old(nodes[x].count) - count)
      ensures !old(nodes[x].kind.stackable && count != nodes[x].count) ==>
                forall i :: 0 <= i < |Items(old(nodes), c)| && Items(old(nodes), c)[i] == x ==> nodes == Take(old(nodes), c, i)
    {
      var index := GetThingIndex(c, x);
      TakeKeeps(nodes, rank, OwnWeight, total, c, index);
      if nodes[x].kind.stackable && count != nodes[x].count {
        UpdateThing(c, x, nodes[x].kind, nodes[x].count - count);
      } else {
        var weight := GetWeight(x);
        UpdateItemWeight(c, -weight);
        OnlyPlace(nodes, c, index);
        var items := nodes[c].box.items;
        nodes := nodes[x := nodes[x].(parent := Nowhere)];
        nodes := nodes[c := nodes[c].(box := nodes[c].box.(items := items[..index] + items[index + 1..]))];
      }
    }

    /** `Item::CreateItem` and `Item::clone`: a new item that nothing holds yet. */
    method CreateItem(kind: Kind, count: nat) returns (x: Id)
      requires Valid()
      modifies this
      ensures Valid() && x == old(|nodes|)
      ensures nodes == Spawn(old(nodes), kind, count) && rank == old(rank) + [0]
    {
      SpawnForest(nodes, rank, kind, count);
      SpawnSums(nodes, OwnWeight, total, kind, count);
      x := |nodes|;
      nodes, total, rank := nodes + [Node(kind, count, Nowhere, NoBox)], total + [0], rank + [0];
    }

    /** Whether a container is, or is nested in, an item. */
    method IsWithin(c: Id, x: Id) returns (b: bool)
      requires Forest(nodes, rank) && c < |nodes|
      ensures b <==> x in Chain(nodes, rank, c)
      decreases Top(rank) - rank[c]
    {
      assert NodeOk(nodes, c) && RankOk(nodes, rank, c);
      if c == x {
        return true;
      }
      if !nodes[c].parent.Inside? {
        return false;
      }
      b := IsWithin(nodes[c].parent.c, x);
    }

    // ----- questions ----------------------------------------------------------------------

    method GetTopParent(c: Id) returns (t: Id)
      requires Forest(nodes, rank) && c < |nodes|
      ensures t == TopParent(nodes, rank, c)
    {
      t := c;
      assert NodeOk(nodes, c) && RankOk(nodes, rank, c);
      while nodes[t].parent.Inside? && nodes[nodes[t].parent.c].parent != Nowhere
        invariant t < |nodes| && NodeOk(nodes, t) && RankOk(nodes, rank, t)
        invariant TopParent(nodes, rank, t) == TopParent(nodes, rank, c)
        decreases Top(rank) - rank[t]
      {
        t := nodes[t].parent.c;
        assert NodeOk(nodes, t) && RankOk(nodes, rank, t);
      }
    }

    /** The limit check of `DepotChest::queryAdd`. */
    method IsDepotFull(d: Id, x: Id, count: nat) returns (full: bool)
      requires Valid() && IsBox(nodes, d) && nodes[d].box.role.Depot? && x < |nodes|
      ensures full <==> DepotFull(nodes, rank, d, x, count)
    {
      var addCount := 0;
      if nodes[x].kind.stackable && nodes[x].count != count {
        addCount := 1;
      }
      var inside := false;
      if nodes[x].box.Box? {
        var t := GetTopParent(x);
        inside := t == d;
      } else if nodes[x].parent.Inside? {
        assert NodeOk(nodes, x);
        var t := GetTopParent(nodes[x].parent.c);
        inside := t == d;
      }
      if !inside {
        var holding := GetItemHoldingCount(nodes, rank, x);
        addCount := holding + 1;
      }
      var held := GetItemHoldingCount(nodes, rank, d);
      full := held + addCount > nodes[d].box.role.maxItems;
    }

    /** The walk of `Container::queryAdd` from the container upwards. */
    method WalkUp(c: Id, x: Id, noLimit: bool) returns (ret: ReturnValue)
      requires Forest(nodes, rank) && IsBox(nodes, c) && x < |nodes| && x != c
      ensures ret == ThisIsImpossible <==> x in Chain(nodes, rank, c)
      ensures ret == ContainerNotEnoughRoom <==>
                x !in Chain(nodes, rank, c) && !noLimit && UnderMailbox(nodes, rank, c)
      ensures ret in {NoError, ThisIsImpossible, ContainerNotEnoughRoom}
      decreases Top(rank) - rank[c]
    {
      assert NodeOk(nodes, c) && RankOk(nodes, rank, c);
      if !nodes[c].parent.Inside? {
        return NoError;
      }
      var p := nodes[c].parent.c;
      if p == x {
        return ThisIsImpossible;
      }
      assert NodeOk(nodes, p);
      if !noLimit && nodes[p].box.role == Mailbox {
        assert Chain(nodes, rank, p) == {p};
        return ContainerNotEnoughRoom;
      }
      ret := WalkUp(p, x, noLimit);
    }

    /** `queryAdd`, dispatched on the kind of container. */
    method QueryAdd(c: Id, index: int, x: Id, count: nat, flags: Flags) returns (ret: ReturnValue)
      requires Valid() && IsBox(nodes, c) && x < |nodes| && !flags.childIsOwner
      ensures ret == NoError <==> Accepts(nodes, rank, c, index, x, count, flags)
      ensures ret == ThisIsImpossible ==> x in Chain(nodes, rank, c)
      ensures ret == DepotIsFull ==>
                !flags.noLimit && (DepotFull(nodes, rank, c, x, count)
                                   || DepotFull(nodes, rank, TopParent(nodes, rank, c), x, count))
    {
      match nodes[c].box.role
      case Mailbox =>
        ret := MailboxQueryAdd(c, x, flags);
      case Depot(_) =>
        if !flags.noLimit {
          var full := IsDepotFull(c, x, count);
          if full {
            return DepotIsFull;
          }
        }
        ret := ContainerQueryAdd(c, index, x, count, flags);
      case Bag =>
        ret := ContainerQueryAdd(c, index, x, count, flags);
    }

    method MailboxQueryAdd(c: Id, x: Id, flags: Flags) returns (ret: ReturnValue)
      requires IsBox(nodes, c) && x < |nodes|
      ensures ret == NoError <==> flags.noLimit && x != c && nodes[x].kind.pickupable
      ensures ret == ThisIsImpossible ==> x == c
      ensures ret != DepotIsFull
    {
      if !flags.noLimit {
        return ContainerNotEnoughRoom;
      }
      if x == c {
        return ThisIsImpossible;
      }
      if !nodes[x].kind.pickupable {
        return CannotPickup;
      }
      return NoError;
    }

    /** The answer of a top container that a nested one asks (`FLAG_CHILDISOWNER`). */
    method OwnerQueryAdd(t: Id, x: Id, count: nat, flags: Flags) returns (ret: ReturnValue)
      requires Valid() && IsBox(nodes, t) && x < |nodes| && x != t && nodes[x].kind.pickupable
      requires nodes[t].box.role == Mailbox ==> flags.noLimit
      ensures ret == if !flags.noLimit && DepotFull(nodes, rank, t, x, count) then DepotIsFull else NoError
    {
      match nodes[t].box.role
      case Mailbox =>
        ret := MailboxQueryAdd(t, x, flags);
      case Bag =>
        ret := NoError;
      case Depot(_) =>
        if !flags.noLimit {
          var full := IsDepotFull(t, x, count);
          if full {
            return DepotIsFull;
          }
        }
        ret := NoError;
    }

    method ContainerQueryAdd(c: Id, index: int, x: Id, count: nat, flags: Flags) returns (ret: ReturnValue)
      requires Valid() && IsBox(nodes, c) && x < |nodes| && !flags.childIsOwner
      requires nodes[c].box.role != Mailbox
      requires flags.noLimit || !DepotFull(nodes, rank, c, x, count)
      ensures ret == NoError <==> Accepts(nodes, rank, c, index, x, count, flags)
      ensures ret == ThisIsImpossible ==> x in Chain(nodes, rank, c)
      ensures ret == DepotIsFull ==> !flags.noLimit && DepotFull(nodes, rank, TopParent(nodes, rank, c), x, count)
    {
      if !nodes[c].box.unlocked {
        return NotPossible;
      }
      if !nodes[x].kind.pickupable {
        return CannotPickup;
      }
      if x == c {
        return ThisIsImpossible;
      }
      if nodes[x].kind.storeItem && !nodes[c].box.role.Depot? {
        return ItemCannotBeMovedThere;
      }
      ret := WalkUp(c, x, flags.noLimit);
      if ret != NoError {
        return;
      }
      if !flags.noLimit && index == WHEREEVER && |Items(nodes, c)| >= nodes[c].box.capacity {
        return ContainerNotEnoughRoom;
      }
      var topParent := GetTopParent(c);
      if topParent != c {
        ret := OwnerQueryAdd(topParent, x, count, flags);
      }
    }

    /** `queryMaxCount`: how many pieces there is room for. */
    method QueryMaxCount(c: Id, index: int, x: Id, count: nat, flags: Flags) returns (ret: ReturnValue, max: nat)
      requires Valid() && IsBox(nodes, c) && x < |nodes| && !flags.childIsOwner && WHEREEVER <= index
      ensures max == MaxCount(nodes, rank, c, index, x, count, flags)
      ensures ret == NoError <==>
                flags.noLimit || (if nodes[x].kind.stackable then count <= max else max != 0)
    {
      if flags.noLimit {
        return NoError, if count >= 1 then count else 1;
      }
      var size, capacity := |Items(nodes, c)|, nodes[c].box.capacity;
      var freeSlots := if size < capacity then capacity - size else 0;
      if !nodes[x].kind.stackable {
        return if freeSlots == 0 then ContainerNotEnoughRoom else NoError, freeSlots;
      }
      var n := 0;
      if index == WHEREEVER {
        n := SumRoom(c, x, count, flags);
      } else if index < |Items(nodes, c)| {
        HeldBy(nodes, c, Items(nodes, c)[index]);
        var y := Items(nodes, c)[index];
        if nodes[y].kind == nodes[x].kind && nodes[y].count < 100 {
          var ok := QueryAdd(c, index, x, count, flags);
          if ok == NoError {
            n := 100 - nodes[y].count;
          }
        }
      }
      max := freeSlots * 100 + n;
      ret := if max < count then ContainerNotEnoughRoom else NoError;
    }

    /** The loop of `queryMaxCount` over all stacks. */
    method SumRoom(c: Id, x: Id, count: nat, flags: Flags) returns (n: nat)
      requires Valid() && IsBox(nodes, c) && x < |nodes| && !flags.childIsOwner
      ensures InStore(nodes, Items(nodes, c))
      ensures n == if Accepts(nodes, rank, c, 0, x, count, flags) then Room(nodes, x, Items(nodes, c)) else 0
    {
      AllInStore(nodes, c);
      var xs := Items(nodes, c);
      ghost var accepted := Accepts(nodes, rank, c, 0, x, count, flags);
      n := 0;
      var slotIndex := 0;
      for i := 0 to |xs|
        invariant slotIndex >= 0
        invariant n == if accepted then Room(nodes, x, xs[..i]) else 0
      {
        var y := xs[i];
        RoomNext(nodes, x, xs, i);
        if y != x && nodes[y].kind == nodes[x].kind && nodes[y].count < 100 {
          var ok := QueryAdd(c, slotIndex, x, count, flags);
          AnySlotAlike(nodes, rank, c, slotIndex, x, count, flags);
          slotIndex := slotIndex + 1;
          if ok == NoError {
            n := n + (100 - nodes[y].count);
          }
        }
      }
      assert xs[..|xs|] == xs;
    }

    method QueryRemove(c: Id, x: Id, count: nat, flags: Flags) returns (ret: ReturnValue)
      requires Valid() && IsBox(nodes, c) && x < |nodes|
      ensures ret == NoError <==>
                && x in Items(nodes, c) && count != 0
                && (nodes[x].kind.stackable ==> count <= nodes[x].count)
                && (nodes[x].kind.moveable || flags.ignoreNotMoveable)
    {
      var index := GetThingIndex(c, x);
      if index == -1 {
        return NotPossible;
      }
      if count == 0 || (nodes[x].kind.stackable && count > nodes[x].count) {
        return NotPossible;
      }
      if !nodes[x].kind.moveable && !flags.ignoreNotMoveable {
        return NotMoveable;
      }
      return NoError;
    }

    /** `queryDestination`: which container, at which index, merging with which stack. */
    method QueryDestination(c: Id, index: int, x: Id, flags: Flags) returns (c': Id, index': int, dest: Option<Id>)
      requires Valid() && IsBox(nodes, c) && x < |nodes| && WHEREEVER <= index
      ensures StepTo(nodes, c, index, x, flags, c', index', dest)
    {
      c', index', dest := c, index, None;
      if !nodes[c].box.unlocked {
        return;
      }
      if index == 254 {
        index' := WHEREEVER;
        if nodes[c].parent.Inside? {
          assert NodeOk(nodes, c);
          c' := nodes[c].parent.c;
        }
        return;
      }
      if index == 255 || index >= nodes[c].box.capacity {
        index' := WHEREEVER;
      }
      if index' != WHEREEVER && index' < |Items(nodes, c)| {
        var y := Items(nodes, c)[index'];
        HeldBy(nodes, c, y);
        if nodes[y].box.Box? {
          ItemsRankLower(nodes, rank, c);
          c', index' := y, WHEREEVER;
          return;
        }
        dest := Some(y);
      }
      dest, index' := FindStack(c, x, flags, dest, index');
    }

    /** The automatic stacking at the end of `queryDestination`. */
    method FindStack(c: Id, x: Id, flags: Flags, dest0: Option<Id>, index0: int) returns (dest: Option<Id>, index: int)
      requires Valid() && IsBox(nodes, c) && x < |nodes|
      requires dest0.Some? ==> Destination(nodes, c, index0, dest0.value)
      requires dest0 == ItemAt(nodes, c, index0)
      ensures StackChosen(nodes, c, x, flags, index0, index, dest)
      ensures dest.Some? ==> Destination(nodes, c, index, dest.value)
      ensures dest == None ==> dest0 == None && index == index0
      ensures dest.Some? && dest != dest0 ==> AutoStacks(nodes, c, x, flags) && Mergeable(nodes, x, dest.value)
      ensures AutoStacks(nodes, c, x, flags) ==> PrefersStack(nodes, c, x, dest)
    {
      dest, index := dest0, index0;
      AllInStore(nodes, c);
      if !flags.ignoreAutoStack && nodes[x].kind.stackable && nodes[x].parent != Inside(c) {
        if dest.Some? && nodes[dest.value].kind == nodes[x].kind && nodes[dest.value].count < 100 {
          HeldBy(nodes, c, dest.value);
          assert JoinsAt(nodes, c, x, index0);
          RoomAt(nodes, x, Items(nodes, c), index);
          return;
        }
        var n := FirstStack(nodes, x, Items(nodes, c));
        assert forall j :: 0 <= j < n ==> !JoinsAt(nodes, c, x, j);
        if n < |Items(nodes, c)| {
          assert JoinsAt(nodes, c, x, n);
          dest, index := Some(Items(nodes, c)[n]), n;
        }
      }
    }
  }

  /** The loop that looks for a stack to merge with. */
  method FirstStack(s: Store, x: Id, xs: seq<Id>) returns (n: nat)
    requires x < |s| && InStore(s, xs)
    requires forall j :: 0 <= j < |xs| && s[xs[j]].kind.stackable ==> !s[xs[j]].box.Box?
    ensures n <= |xs|
    ensures n < |xs| ==> Joins(s, x, xs[n])
    ensures forall j :: 0 <= j < n ==> !Joins(s, x, xs[j])
    ensures n < |xs| <==> Room(s, x, xs) > 0
  {
    n := 0;
    while n < |xs|
      invariant 0 <= n <= |xs|
      invariant Room(s, x, xs[..n]) == 0
      invariant forall j :: 0 <= j < n ==> !Joins(s, x, xs[j])
    {
      RoomNext(s, x, xs, n);
      if xs[n] != x && s[xs[n]].kind == s[x].kind && s[xs[n]].count < 100 {
        RoomAt(s, x, xs, n);
        return;
      }
      n := n + 1;
    }
    assert xs[..n] == xs;
  }
}
