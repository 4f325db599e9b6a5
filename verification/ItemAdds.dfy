/**
  Adding a new item to a container, merging it into stacks on the way
  (`Game::internalAddItem`, src/game.cpp:1262-1343, with the default index).
  */
module ItemAdds {
  import opened Common
  import opened ItemForest
  import opened ItemSteps
  import opened ContainerWalk
  import opened Containers
  import opened ItemMoves

  /** A measure that is additive on one kind, so that splitting a stack does not change it. */
  ghost predicate Linear(f: Measure, kind: Kind) {
    forall a: nat, b: nat :: f(kind, a + b) == f(kind, a) + f(kind, b)
  }

  /** What an addition leaves alone: all links but the new item's, and all stacks of other kinds. */
  ghost predicate OthersKept(s: Store, s': Store, x: Id, kind: Kind) {
    && |s| <= |s'|
    && forall y :: 0 <= y < |s| && y != x ==> KeptAt(s, s', y, kind)
  }

  ghost predicate KeptAt(s: Store, s': Store, y: Id, kind: Kind)
    requires y < |s| <= |s'|
  {
    && s'[y].parent == s[y].parent && s'[y].kind == s[y].kind
    && s'[y].box.Box? == s[y].box.Box? && (s[y].box.Box? ==> s'[y].box.role == s[y].box.role)
    && (s[y].kind != kind || !s[y].kind.stackable ==> s'[y].count == s[y].count)
    && s[y].count <= s'[y].count
  }

  /** Everything in the chain of `c`, and nothing else, gained `gain`. */
  ghost predicate Gained(s: Store, r: seq<nat>, s': Store, r': seq<nat>, f: Measure, c: Id, gain: int)
    requires Forest(s, r) && Forest(s', r') && c < |s| <= |s'|
  {
    forall d :: 0 <= d < |s| && s[d].box.Box? ==> GainedAt(s, r, s', r', f, c, gain, d)
  }

  ghost predicate GainedAt(s: Store, r: seq<nat>, s': Store, r': seq<nat>, f: Measure, c: Id, gain: int, d: Id)
    requires Forest(s, r) && Forest(s', r') && c < |s| <= |s'| && d < |s|
  {
    DeepIn(s', r', f, d) == DeepIn(s, r, f, d) + On(d in Chain(s, r, c), gain)
  }

  /** No item changes its kind, and all new items are of one kind. */
  ghost predicate KindsKept(s: Store, s': Store, kind: Kind) {
    && |s| <= |s'|
    && forall y :: 0 <= y < |s'| ==> KindKept(s, s', kind, y)
  }

  ghost predicate KindKept(s: Store, s': Store, kind: Kind, y: Id)
    requires y < |s'|
  {
    s'[y].kind == if y < |s| then s[y].kind else kind
  }

  lemma KindsCompose(s: Store, s1: Store, s2: Store, kind: Kind)
    requires KindsKept(s, s1, kind) && KindsKept(s1, s2, kind)
    ensures KindsKept(s, s2, kind)
  {
    forall y | 0 <= y < |s2| ensures KindKept(s, s2, kind, y) {
      assert KindKept(s1, s2, kind, y);
      if y < |s1| { assert KindKept(s, s1, kind, y); }
    }
  }

  // ----- the two ways an addition ends -----------------------------------------------------

  lemma PutGains(s: Store, r: seq<nat>, f: Measure, c: Id, x: Id)
    requires Forest(s, r) && IsBox(s, c) && x < |s| && s[x].parent == Nowhere && x !in Chain(s, r, c)
    requires s[x].box.Box? ==> s[x].box.role == Bag
    ensures x != c && Forest(Put(s, c, 0, x), Lifted(s, r, c, x))
    ensures OthersKept(s, Put(s, c, 0, x), x, s[x].kind)
    ensures Gained(s, r, Put(s, c, 0, x), Lifted(s, r, c, x), f, c, f(s[x].kind, s[x].count) + DeepIn(s, r, f, x))
  {
    PutForest(s, r, c, 0, x);
    forall d | 0 <= d < |s| && s[d].box.Box?
      ensures GainedAt(s, r, Put(s, c, 0, x), Lifted(s, r, c, x), f, c, f(s[x].kind, s[x].count) + DeepIn(s, r, f, x), d)
    {
      PutDeep(s, r, f, c, 0, x, d);
    }
  }

  lemma MergeGainsAt(s: Store, r: seq<nat>, f: Measure, c: Id, y: Id, n: nat, d: Id)
    requires Forest(s, r) && c < |s| && y < |s| && s[y].parent == Inside(c) && Linear(f, s[y].kind) && s[y].kind.stackable
    requires d < |s| && s[d].box.Box?
    ensures Forest(SetItem(s, y, s[y].kind, s[y].count + n), r)
    ensures GainedAt(s, r, SetItem(s, y, s[y].kind, s[y].count + n), r, f, c, f(s[y].kind, n), d)
  {
    SetItemForest(s, r, y, s[y].kind, s[y].count + n);
    SetItemDeep(s, r, f, y, s[y].kind, s[y].count + n, d);
  }

  lemma MergeGains(s: Store, r: seq<nat>, f: Measure, c: Id, y: Id, n: nat, x: Id)
    requires Forest(s, r) && IsBox(s, c) && y in Items(s, c) && y < |s| && Linear(f, s[y].kind) && s[y].kind.stackable
    ensures Forest(SetItem(s, y, s[y].kind, s[y].count + n), r)
    ensures OthersKept(s, SetItem(s, y, s[y].kind, s[y].count + n), x, s[y].kind)
    ensures Gained(s, r, SetItem(s, y, s[y].kind, s[y].count + n), r, f, c, f(s[y].kind, n))
  {
    HeldBy(s, c, y);
    assert Forest(SetItem(s, y, s[y].kind, s[y].count + n), r) by { SetItemForest(s, r, y, s[y].kind, s[y].count + n); }
    forall d | 0 <= d < |s| && s[d].box.Box?
      ensures GainedAt(s, r, SetItem(s, y, s[y].kind, s[y].count + n), r, f, c, f(s[y].kind, n), d)
    {
      MergeGainsAt(s, r, f, c, y, n, d);
    }
  }

  lemma SpawnKeeps(s: Store, r: seq<nat>, f: Measure, kind: Kind, n: nat, c: Id, x: Id)
    requires Forest(s, r) && IsBox(s, c)
    ensures Forest(Spawn(s, kind, n), r + [0])
    ensures OthersKept(s, Spawn(s, kind, n), x, kind)
    ensures Gained(s, r, Spawn(s, kind, n), r + [0], f, c, 0)
  {
    SpawnForest(s, r, kind, n);
    forall d | 0 <= d < |s| && s[d].box.Box?
      ensures GainedAt(s, r, Spawn(s, kind, n), r + [0], f, c, 0, d)
    {
      SpawnDeep(s, r, f, kind, n, d);
    }
  }

  /** Gains in the same chain add up. */
  lemma GainsCompose(s: Store, r: seq<nat>, s1: Store, r1: seq<nat>, s2: Store, r2: seq<nat>,
                     f: Measure, c: Id, a: int, b: int)
    requires Forest(s, r) && Forest(s1, r1) && Forest(s2, r2) && c < |s| <= |s1| <= |s2|
    requires Gained(s, r, s1, r1, f, c, a) && Gained(s1, r1, s2, r2, f, c, b)
    requires Chain(s1, r1, c) == Chain(s, r, c)
    requires forall d :: 0 <= d < |s| && s[d].box.Box? ==> s1[d].box.Box?
    ensures Gained(s, r, s2, r2, f, c, a + b)
  {
    forall d | 0 <= d < |s| && s[d].box.Box? ensures GainedAt(s, r, s2, r2, f, c, a + b, d) {
      assert GainedAt(s, r, s1, r1, f, c, a, d) && GainedAt(s1, r1, s2, r2, f, c, b, d);
    }
  }

  lemma KeptCompose(s: Store, s1: Store, s2: Store, x: Id, x1: Id, kind: Kind)
    requires OthersKept(s, s1, x, kind) && OthersKept(s1, s2, x1, kind) && x1 >= |s|
    ensures OthersKept(s, s2, x, kind)
  {
    forall y | 0 <= y < |s| && y != x ensures KeptAt(s, s2, y, kind) {
      assert KeptAt(s, s1, y, kind) && KeptAt(s1, s2, y, kind);
    }
  }

  // ----- room --------------------------------------------------------------------------------

  /** Merging `n` pieces into a stack takes `n` from the room there is. */
  lemma {:induction false} RoomAfterMerge(s: Store, x: Id, y: Id, n: nat, x': Id, s': Store, xs: seq<Id>)
    requires x < |s| && InStore(s, xs) && Distinct(xs) && x !in xs
    requires y < |s| && Mergeable(s, x, y) && s[y].count + n <= 100
    requires |s| <= |s'| && InStore(s', xs) && x' < |s'| && x' !in xs && s'[x'].kind == s[x].kind
    requires s'[y].kind == s[y].kind && s'[y].count == s[y].count + n
    requires forall z :: 0 <= z < |s| && z != y ==> s'[z].kind == s[z].kind && s'[z].count == s[z].count
    ensures Room(s', x', xs) == Room(s, x, xs) - if y in xs then n else 0
  {
    if xs != [] {
      DistinctTail(xs);
      RoomAfterMerge(s, x, y, n, x', s', xs[1..]);
    }
  }

  /** Enough is known for the addition of a stack to succeed. */
  ghost predicate WillFit(s: Store, r: seq<nat>, c: Id, x: Id, flags: Flags)
    requires Forest(s, r) && IsBox(s, c) && x < |s|
  {
    && InStore(s, Items(s, c))
    && s[x].kind.stackable && s[x].count >= 1
    && Accepts(s, r, c, 0, x, s[x].count, flags)
    && (flags.noLimit || (AutoStacks(s, c, x, flags) && s[c].box.unlocked
                          && FreeSlots(s, c) * 100 + Room(s, x, Items(s, c)) >= s[x].count))
  }

  /** The store after a merge and the creation of the item that carries the remainder. */
  ghost function Merge(s: Store, y: Id, n: nat, rest: nat): Store
    requires y < |s|
  {
    Spawn(SetItem(s, y, s[y].kind, s[y].count + n), s[y].kind, rest)
  }

  lemma MergeForest(s: Store, r: seq<nat>, y: Id, n: nat, rest: nat)
    requires Forest(s, r) && y < |s| && s[y].parent.Inside?
    ensures Forest(Merge(s, y, n, rest), r + [0])
    ensures forall d :: 0 <= d < |s| ==> Chain(Merge(s, y, n, rest), r + [0], d) == Chain(s, r, d)
    ensures forall d :: 0 <= d < |s| ==> Items(Merge(s, y, n, rest), d) == Items(s, d)
  {
    var s1 := SetItem(s, y, s[y].kind, s[y].count + n);
    SetItemForest(s, r, y, s[y].kind, s[y].count + n);
    SpawnForest(s1, r, s[y].kind, rest);
  }

  lemma MergeHolding(s: Store, r: seq<nat>, y: Id, n: nat, rest: nat, d: Id)
    requires Forest(s, r) && y < |s| && s[y].parent.Inside? && IsBox(s, d)
    ensures Forest(Merge(s, y, n, rest), r + [0])
    ensures DeepIn(Merge(s, y, n, rest), r + [0], One, d) == DeepIn(s, r, One, d)
  {
    var s1 := SetItem(s, y, s[y].kind, s[y].count + n);
    SetItemForest(s, r, y, s[y].kind, s[y].count + n);
    SetItemDeep(s, r, One, y, s[y].kind, s[y].count + n, d);
    SpawnDeep(s1, r, One, s[y].kind, rest, d);
  }

  lemma {:induction false} TopStable(s: Store, r: seq<nat>, s': Store, r': seq<nat>, c: Id)
    requires Forest(s, r) && Forest(s', r') && c < |s| <= |s'|
    requires forall d :: d in Chain(s, r, c) ==> s'[d].parent == s[d].parent
    ensures TopParent(s', r', c) == TopParent(s, r, c)
    decreases Top(r) - r[c]
  {
    assert NodeOk(s, c) && RankOk(s, r, c);
    if s[c].parent.Inside? {
      TopStable(s, r, s', r', s[c].parent.c);
    }
  }

  lemma DepotFullAgain(s: Store, r: seq<nat>, y: Id, n: nat, rest: nat, x: Id, d: Id)
    requires Forest(s, r) && Stacks(s) && y < |s| && s[y].parent.Inside? && s[y].kind.stackable && IsBox(s, d)
    requires x < |s| && s[x].parent == Nowhere && s[x].kind == s[y].kind
    ensures Forest(Merge(s, y, n, rest), r + [0])
    ensures DepotFull(Merge(s, y, n, rest), r + [0], d, |s|, rest) <==> DepotFull(s, r, d, x, s[x].count)
  {
    MergeForest(s, r, y, n, rest);
    MergeHolding(s, r, y, n, rest, d);
    StackableLeaf(s, r, One, x);
    DeepLeaf(Merge(s, y, n, rest), r + [0], One, |s|);
  }

  /** The item that carries the remainder is accepted wherever the whole was. */
  lemma AcceptsAgain(s: Store, r: seq<nat>, c: Id, index: nat, x: Id, flags: Flags, y: Id, n: nat, rest: nat)
    requires Forest(s, r) && Stacks(s) && IsBox(s, c) && x < |s| && y < |s| && s[y].parent.Inside?
    requires s[x].parent == Nowhere && s[x].kind == s[y].kind && s[y].kind.stackable
    requires Accepts(s, r, c, index, x, s[x].count, flags)
    ensures Forest(Merge(s, y, n, rest), r + [0])
    ensures Accepts(Merge(s, y, n, rest), r + [0], c, 0, |s|, rest, flags)
  {
    var s', r' := Merge(s, y, n, rest), r + [0];
    MergeForest(s, r, y, n, rest);
    TopStable(s, r, s', r', c);
    DepotFullAgain(s, r, y, n, rest, x, c);
    DepotFullAgain(s, r, y, n, rest, x, TopParent(s, r, c));
    assert Chain(s', r', c) == Chain(s, r, c);
    assert UnderMailbox(s', r', c) <==> UnderMailbox(s, r, c);
  }

  lemma WillFitAgain(s: Store, r: seq<nat>, c: Id, index: nat, x: Id, flags: Flags, y: Id, n: nat, rest: nat)
    requires Forest(s, r) && Stacks(s) && IsBox(s, c) && x < |s| && s[x].parent == Nowhere && s[x].kind.stackable
    requires y in Items(s, c) && y < |s| && Mergeable(s, x, y) && AutoStacks(s, c, x, flags) && s[c].box.unlocked
    requires Accepts(s, r, c, index, x, s[x].count, flags)
    requires s[y].count + n <= 100 && s[x].count == n + rest && rest >= 1
    requires flags.noLimit || (InStore(s, Items(s, c)) && FreeSlots(s, c) * 100 + Room(s, x, Items(s, c)) >= s[x].count)
    ensures Forest(Merge(s, y, n, rest), r + [0])
    ensures WillFit(Merge(s, y, n, rest), r + [0], c, |s|, flags)
  {
    var s' := Merge(s, y, n, rest);
    HeldBy(s, c, y);
    MergeForest(s, r, y, n, rest);
    AcceptsAgain(s, r, c, index, x, flags, y, n, rest);
    AllInStore(s, c);
    AllInStore(s', c);
    ItemsDistinct(s, c);
    assert x !in Items(s, c) by { if x in Items(s, c) { HeldBy(s, c, x); } }
    assert |s| !in Items(s, c);
    RoomAfterMerge(s, x, y, n, |s|, s', Items(s, c));
  }

  lemma ItemsDistinct(s: Store, c: Id)
    requires Linked(s) && c < |s|
    ensures Distinct(Items(s, c))
  {
    assert NodeOk(s, c);
  }

  // ----- limits -------------------------------------------------------------------------------

  lemma PutWithinDepot(s: Store, r: seq<nat>, c: Id, x: Id, flags: Flags, d: Id)
    requires Forest(s, r) && IsBox(s, c) && x < |s| && s[x].parent == Nowhere
    requires s[x].box.Box? ==> s[x].box.role == Bag
    requires !flags.noLimit && Accepts(s, r, c, WHEREEVER, x, s[x].count, flags)
    requires d < |s| && s[d].box.Box? && s[d].box.role.Depot? && (s[d].parent == Ground || d == c)
    requires DeepIn(s, r, One, d) <= s[d].box.role.maxItems
    ensures x !in Chain(s, r, c) && x != c && Forest(Put(s, c, 0, x), Lifted(s, r, c, x))
    ensures DeepIn(Put(s, c, 0, x), Lifted(s, r, c, x), One, d) <= s[d].box.role.maxItems
  {
    AcceptedNotAbove(s, r, c, WHEREEVER, x, s[x].count, flags);
    PutDeep(s, r, One, c, 0, x, d);
    if d != c && d in Chain(s, r, c) { GroundIsTop(s, r, c, d); }
  }

  lemma PutWithinLimits(s: Store, r: seq<nat>, c: Id, x: Id, flags: Flags)
    requires Forest(s, r) && IsBox(s, c) && x < |s| && s[x].parent == Nowhere
    requires s[x].box.Box? ==> s[x].box.role == Bag
    requires !flags.noLimit && Accepts(s, r, c, WHEREEVER, x, s[x].count, flags)
    ensures x !in Chain(s, r, c) && x != c && Forest(Put(s, c, 0, x), Lifted(s, r, c, x))
    ensures WithinCapacity(s, Put(s, c, 0, x))
    ensures WithinDepotLimits(s, r, Put(s, c, 0, x), Lifted(s, r, c, x), Some(c))
  {
    AcceptedNotAbove(s, r, c, WHEREEVER, x, s[x].count, flags);
    assert Forest(Put(s, c, 0, x), Lifted(s, r, c, x)) by { PutForest(s, r, c, 0, x); }
    forall d | 0 <= d < |s| && s[d].box.Box? && s[d].box.role.Depot? && (s[d].parent == Ground || d == c)
               && DeepIn(s, r, One, d) <= s[d].box.role.maxItems
      ensures DeepIn(Put(s, c, 0, x), Lifted(s, r, c, x), One, d) <= s[d].box.role.maxItems
    {
      PutWithinDepot(s, r, c, x, flags, d);
    }
  }

  lemma MergeWithinLimits(s: Store, r: seq<nat>, y: Id, n: nat, rest: nat, to: Option<Id>)
    requires Forest(s, r) && y < |s| && s[y].parent.Inside?
    ensures WithinCapacity(s, SetItem(s, y, s[y].kind, s[y].count + n))
    ensures WithinDepotLimits(s, r, SetItem(s, y, s[y].kind, s[y].count + n), r, to)
    ensures WithinCapacity(s, Merge(s, y, n, rest))
    ensures WithinDepotLimits(s, r, Merge(s, y, n, rest), r + [0], to)
  {
    SetItemForest(s, r, y, s[y].kind, s[y].count + n);
    forall d | IsBox(s, d)
      ensures DeepIn(SetItem(s, y, s[y].kind, s[y].count + n), r, One, d) == DeepIn(s, r, One, d)
    {
      SetItemDeep(s, r, One, y, s[y].kind, s[y].count + n, d);
    }
    RestWithinLimits(s, r, y, n, rest, to);
  }

  lemma RestWithinLimits(s: Store, r: seq<nat>, y: Id, n: nat, rest: nat, to: Option<Id>)
    requires Forest(s, r) && y < |s| && s[y].parent.Inside?
    ensures WithinCapacity(s, Merge(s, y, n, rest))
    ensures WithinDepotLimits(s, r, Merge(s, y, n, rest), r + [0], to)
  {
    MergeForest(s, r, y, n, rest);
    forall d | IsBox(s, d)
      ensures DeepIn(Merge(s, y, n, rest), r + [0], One, d) == DeepIn(s, r, One, d)
    {
      MergeHolding(s, r, y, n, rest, d);
    }
  }

  // ----- the addition -------------------------------------------------------------------------

  /** What an accepted addition amounts to. */
  ghost predicate AddedTo(s: Store, r: seq<nat>, s': Store, r': seq<nat>, c: Id, x: Id, f: Measure, flags: Flags) {
    && Forest(s, r) && Forest(s', r') && c < |s| && x < |s|
    && OthersKept(s, s', x, s[x].kind)
    && Gained(s, r, s', r', f, c, f(s[x].kind, s[x].count) + DeepIn(s, r, f, x))
    && (!flags.noLimit ==> WithinCapacity(s, s') && WithinDepotLimits(s, r, s', r', Some(c)))
  }

  lemma AddedByPut(s: Store, r: seq<nat>, c: Id, x: Id, f: Measure, flags: Flags)
    requires Forest(s, r) && IsBox(s, c) && x < |s| && s[x].parent == Nowhere
    requires s[x].box.Box? ==> s[x].box.role == Bag
    requires Accepts(s, r, c, WHEREEVER, x, s[x].count, flags)
    ensures x !in Chain(s, r, c) && x != c
    ensures AddedTo(s, r, Put(s, c, 0, x), Lifted(s, r, c, x), c, x, f, flags)
  {
    AcceptedNotAbove(s, r, c, WHEREEVER, x, s[x].count, flags);
    PutGains(s, r, f, c, x);
    if !flags.noLimit { PutWithinLimits(s, r, c, x, flags); }
  }

  lemma AddedByMerge(s: Store, r: seq<nat>, c: Id, x: Id, f: Measure, flags: Flags, y: Id)
    requires Forest(s, r) && Stacks(s) && IsBox(s, c) && x < |s| && y in Items(s, c) && y < |s|
    requires s[y].kind == s[x].kind && s[x].kind.stackable && Linear(f, s[x].kind)
    ensures AddedTo(s, r, SetItem(s, y, s[y].kind, s[y].count + s[x].count), r, c, x, f, flags)
  {
    HeldBy(s, c, y);
    StackableLeaf(s, r, f, x);
    MergeGains(s, r, f, c, y, s[x].count, x);
    MergeWithinLimits(s, r, y, s[x].count, 0, Some(c));
  }

  lemma MergeGainsPart(s: Store, r: seq<nat>, c: Id, x: Id, f: Measure, y: Id, n: nat, rest: nat)
    requires Forest(s, r) && IsBox(s, c) && x < |s| && y in Items(s, c) && y < |s|
    requires s[y].kind.stackable && Linear(f, s[y].kind) && s[y].parent.Inside?
    ensures Forest(Merge(s, y, n, rest), r + [0])
    ensures OthersKept(s, Merge(s, y, n, rest), x, s[y].kind)
    ensures Gained(s, r, Merge(s, y, n, rest), r + [0], f, c, f(s[y].kind, n))
  {
    var s1, s2 := SetItem(s, y, s[y].kind, s[y].count + n), Merge(s, y, n, rest);
    assert Forest(s2, r + [0]) by { MergeForest(s, r, y, n, rest); }
    assert Forest(s1, r) && Chain(s1, r, c) == Chain(s, r, c) by { SetItemForest(s, r, y, s[y].kind, s[y].count + n); }
    MergeGains(s, r, f, c, y, n, x);
    SpawnKeeps(s1, r, f, s[y].kind, rest, c, |s|);
    KeptCompose(s, s1, s2, x, |s|, s[y].kind);
    GainsCompose(s, r, s1, r, s2, r + [0], f, c, f(s[y].kind, n), 0);
  }

  /** A merge, followed by the addition of the remainder, is the addition of the whole. */
  lemma AddedInParts(s: Store, r: seq<nat>, s2: Store, r2: seq<nat>, c: Id, x: Id, f: Measure, flags: Flags,
                     y: Id, n: nat, rest: nat)
    requires Forest(s, r) && Stacks(s) && IsBox(s, c) && x < |s| && y in Items(s, c) && y < |s|
    requires s[y].kind == s[x].kind && s[x].kind.stackable && Linear(f, s[x].kind) && s[x].count == n + rest
    requires AddedTo(Merge(s, y, n, rest), r + [0], s2, r2, c, |s|, f, flags)
    ensures AddedTo(s, r, s2, r2, c, x, f, flags)
  {
    HeldBy(s, c, y);
    StackableLeaf(s, r, f, x);
    var s1, r1 := Merge(s, y, n, rest), r + [0];
    MergeForest(s, r, y, n, rest);
    MergeGainsPart(s, r, c, x, f, y, n, rest);
    DeepLeaf(s1, r1, f, |s|);
    KeptCompose(s, s1, s2, x, |s|, s[x].kind);
    GainsCompose(s, r, s1, r1, s2, r2, f, c, f(s[x].kind, n), f(s[x].kind, rest));
    if !flags.noLimit {
      MergeWithinLimits(s, r, y, n, rest, Some(c));
      DepotLimitsCompose(s, r, s1, r1, s2, r2, Some(c), Some(c));
    }
  }

  /** What the questions of `internalAddItem` settle. */
  ghost predicate Asked(s: Store, r: seq<nat>, c: Id, x: Id, flags: Flags, index: int, toItem: Option<Id>)
    requires Forest(s, r) && IsBox(s, c) && x < |s|
  {
    && Accepts(s, r, c, index, x, s[x].count, flags)
    && (toItem == None ==> index == WHEREEVER)
    && (toItem.Some? ==>
          && Destination(s, c, index, toItem.value) && Mergeable(s, x, toItem.value)
          && AutoStacks(s, c, x, flags) && s[c].box.unlocked
          && InStore(s, Items(s, c))
          && (flags.noLimit || FreeSlots(s, c) * 100 + Room(s, x, Items(s, c)) >= s[x].count))
  }

  /** Whether an addition at the default index is accepted: allowed where it would go, and enough room. */
  ghost predicate Fits(s: Store, r: seq<nat>, c: Id, x: Id, flags: Flags)
    requires Forest(s, r) && IsBox(s, c) && x < |s|
  {
    && InStore(s, Items(s, c))
    && Accepts(s, r, c, if StackFound(s, c, x, flags) then 0 else WHEREEVER, x, s[x].count, flags)
    && (flags.noLimit || (var max := MaxCount(s, r, c, WHEREEVER, x, s[x].count, flags);
                          if s[x].kind.stackable then s[x].count <= max else max != 0))
  }

  /** A stack that the item can join. */
  ghost predicate StackFound(s: Store, c: Id, x: Id, flags: Flags)
    requires IsBox(s, c) && x < |s| && InStore(s, Items(s, c))
  {
    s[c].box.unlocked && AutoStacks(s, c, x, flags) && Room(s, x, Items(s, c)) > 0
  }

  /** What is known to fit is accepted. */
  lemma WillFitFits(s: Store, r: seq<nat>, c: Id, x: Id, flags: Flags)
    requires Forest(s, r) && IsBox(s, c) && x < |s| && WillFit(s, r, c, x, flags) && s[x].count <= 100
    ensures Fits(s, r, c, x, flags)
  {}

  /** An inbox takes, without limit, exactly what can be picked up. */
  lemma MailboxFits(s: Store, r: seq<nat>, c: Id, x: Id, flags: Flags)
    requires Forest(s, r) && IsBox(s, c) && x < |s| && x != c && s[c].box.role == Mailbox && flags.noLimit
    ensures Fits(s, r, c, x, flags) <==> s[x].kind.pickupable
  {
    AllInStore(s, c);
  }

  method AskRoom(w: World, c: Id, x: Id, flags: Flags) returns (ret: ReturnValue, index: int, toItem: Option<Id>)
    requires w.Valid() && IsBox(w.nodes, c) && x < |w.nodes| && w.nodes[x].parent == Nowhere && !flags.childIsOwner
    requires w.nodes[x].kind.stackable ==> 1 <= w.nodes[x].count <= 100
    ensures ret == NoError ==> Asked(w.nodes, w.rank, c, x, flags, index, toItem)
    ensures ret == NoError <==> Fits(w.nodes, w.rank, c, x, flags)
  {
    AllInStore(w.nodes, c);
    var c';
    c', index, toItem := w.QueryDestination(c, WHEREEVER, x, flags);
    StepMeans(w.nodes, w.rank, c, WHEREEVER, x, flags, c', index, toItem);
    assert toItem.Some? <==> StackFound(w.nodes, c, x, flags);
    var count := w.nodes[x].count;
    ret := w.QueryAdd(c, index, x, count, flags);
    if toItem.Some? { AnySlotAlike(w.nodes, w.rank, c, index, x, count, flags); }
    if ret == NoError {
      var max;
      ret, max := w.QueryMaxCount(c, WHEREEVER, x, count, flags);
    }
  }

  /** What an accepted addition amounts to, for every quantity that splitting a stack does not change. */
  ghost predicate Arrived(s: Store, r: seq<nat>, s': Store, r': seq<nat>, c: Id, x: Id, flags: Flags) {
    x < |s| && forall f: Measure :: Suits(f, s[x].kind) ==> AddedTo(s, r, s', r', c, x, f, flags)
  }

  ghost predicate Suits(f: Measure, kind: Kind) {
    kind.stackable ==> Linear(f, kind)
  }

  lemma AddedByPutAll(s: Store, r: seq<nat>, c: Id, x: Id, flags: Flags)
    requires Forest(s, r) && IsBox(s, c) && x < |s| && s[x].parent == Nowhere
    requires s[x].box.Box? ==> s[x].box.role == Bag
    requires Accepts(s, r, c, WHEREEVER, x, s[x].count, flags)
    ensures x !in Chain(s, r, c) && x != c
    ensures Arrived(s, r, Put(s, c, 0, x), Lifted(s, r, c, x), c, x, flags)
  {
    AcceptedNotAbove(s, r, c, WHEREEVER, x, s[x].count, flags);
    var s', r' := Put(s, c, 0, x), Lifted(s, r, c, x);
    forall f: Measure | Suits(f, s[x].kind) ensures AddedTo(s, r, s', r', c, x, f, flags) {
      AddedByPut(s, r, c, x, f, flags);
    }
  }

  lemma AddedByMergeAll(s: Store, r: seq<nat>, c: Id, x: Id, flags: Flags, y: Id, s': Store)
    requires Forest(s, r) && Stacks(s) && IsBox(s, c) && x < |s| && y in Items(s, c) && y < |s|
    requires s[y].kind == s[x].kind && s[x].kind.stackable && s' == SetItem(s, y, s[y].kind, s[y].count + s[x].count)
    ensures Arrived(s, r, s', r, c, x, flags)
  {
    forall f: Measure | Suits(f, s[x].kind) ensures AddedTo(s, r, s', r, c, x, f, flags) {
      AddedByMerge(s, r, c, x, f, flags, y);
    }
  }

  lemma AddedInPartsAll(s: Store, r: seq<nat>, s2: Store, r2: seq<nat>, c: Id, x: Id, flags: Flags, y: Id, n: nat, rest: nat)
    requires Forest(s, r) && Stacks(s) && IsBox(s, c) && x < |s| && y in Items(s, c) && y < |s|
    requires s[y].kind == s[x].kind && s[x].kind.stackable && s[x].count == n + rest
    requires Arrived(Merge(s, y, n, rest), r + [0], s2, r2, c, |s|, flags)
    ensures Arrived(s, r, s2, r2, c, x, flags)
  {
    var s1, r1 := Merge(s, y, n, rest), r + [0];
    forall f: Measure | Suits(f, s[x].kind) ensures AddedTo(s, r, s2, r2, c, x, f, flags) {
      assert AddedTo(s1, r1, s2, r2, c, |s|, f, flags);
      AddedInParts(s, r, s2, r2, c, x, f, flags, y, n, rest);
    }
  }

  /**
    `Game::internalAddItem` of an item that nothing holds yet.  An accepted item arrives whole, however many
    stacks it is spread over; a refused one changes nothing.
    */
  method InternalAddItem(w: World, c: Id, x: Id, flags: Flags) returns (ret: ReturnValue)
    requires w.Valid() && IsBox(w.nodes, c) && x < |w.nodes| && w.nodes[x].parent == Nowhere && !flags.childIsOwner
    requires w.nodes[x].box.Box? ==> w.nodes[x].box.role == Bag
    requires w.nodes[x].kind.stackable ==> 1 <= w.nodes[x].count <= 100
    modifies w
    ensures w.Valid() && KindsKept(old(w.nodes), w.nodes, old(w.nodes[x].kind))
    ensures ret == NoError <==> Fits(old(w.nodes), old(w.rank), c, x, flags)
    ensures ret != NoError ==> w.nodes == old(w.nodes) && w.rank == old(w.rank)
    ensures ret == NoError ==> Arrived(old(w.nodes), old(w.rank), w.nodes, w.rank, c, x, flags)
    decreases w.nodes[x].count, 1
  {
    var index, toItem;
    ret, index, toItem := AskRoom(w, c, x, flags);
    if ret == NoError {
      if toItem == None {
        PutNew(w, c, x, flags, index);
      } else {
        MergeInto(w, c, x, flags, index, toItem.value);
      }
    }
  }

  /** The item goes into the container as it is. */
  method PutNew(w: World, c: Id, x: Id, flags: Flags, index: int)
    requires w.Valid() && IsBox(w.nodes, c) && x < |w.nodes| && w.nodes[x].parent == Nowhere
    requires w.nodes[x].box.Box? ==> w.nodes[x].box.role == Bag
    requires w.nodes[x].kind.stackable ==> 1 <= w.nodes[x].count <= 100
    requires index == WHEREEVER && Accepts(w.nodes, w.rank, c, index, x, w.nodes[x].count, flags)
    modifies w
    ensures w.Valid() && KindsKept(old(w.nodes), w.nodes, old(w.nodes[x].kind))
    ensures Arrived(old(w.nodes), old(w.rank), w.nodes, w.rank, c, x, flags)
  {
    AddedByPutAll(w.nodes, w.rank, c, x, flags);
    w.AddThing(c, index, x);
  }

  /** Fills up one stack and adds the remainder as an item of its own. */
  method MergeInto(w: World, c: Id, x: Id, flags: Flags, index: nat, y: Id)
    requires w.Valid() && IsBox(w.nodes, c) && x < |w.nodes| && w.nodes[x].parent == Nowhere && !flags.childIsOwner
    requires w.nodes[x].kind.stackable && 1 <= w.nodes[x].count <= 100
    requires Asked(w.nodes, w.rank, c, x, flags, index, Some(y))
    modifies w
    ensures w.Valid() && KindsKept(old(w.nodes), w.nodes, old(w.nodes[x].kind))
    ensures Arrived(old(w.nodes), old(w.rank), w.nodes, w.rank, c, x, flags)
    decreases w.nodes[x].count, 0
  {
    ghost var s, r := w.nodes, w.rank;
    var count, kind := w.nodes[x].count, w.nodes[x].kind;
    HeldBy(s, c, y);
    assert StackOk(s[y]);
    var n := Min(100 - w.nodes[y].count, count);
    w.UpdateThing(c, y, kind, w.nodes[y].count + n);
    if n == count {
      AddedByMergeAll(s, r, c, x, flags, y, w.nodes);
      return;
    }
    AddRemainder(w, s, r, c, x, flags, index, y, n, count - n, kind);
  }

  method AddRemainder(w: World, ghost s: Store, ghost r: seq<nat>, c: Id, ghost x: Id, flags: Flags,
                      ghost index: nat, ghost y: Id, ghost n: nat, rest: nat, kind: Kind)
    requires w.Valid() && Forest(s, r) && Stacks(s) && IsBox(s, c) && x < |s| && s[x].parent == Nowhere
    requires !flags.childIsOwner && s[x].kind == kind && kind.stackable
    requires Asked(s, r, c, x, flags, index, Some(y))
    requires s[x].count == n + rest && 1 <= rest <= 100 && 1 <= n && s[y].count + n <= 100
    requires w.rank == r && w.nodes == SetItem(s, y, kind, s[y].count + n)
    modifies w
    ensures w.Valid() && KindsKept(s, w.nodes, kind)
    ensures Arrived(s, r, w.nodes, w.rank, c, x, flags)
    decreases rest, 2
  {
    WillFitAgain(s, r, c, index, x, flags, y, n, rest);
    var remainder := w.CreateItem(kind, rest);
    ghost var s1 := w.nodes;
    WillFitFits(s1, w.rank, c, remainder, flags);
    assert KindsKept(s, s1, kind);
    var ret := InternalAddItem(w, c, remainder, flags);
    KindsCompose(s, s1, w.nodes, kind);
    AddedInPartsAll(s, r, w.nodes, w.rank, c, x, flags, y, n, rest);
  }
}
