/**
  The item limit of depot chests, which a nested bag asks its top parent about (src/container.cpp:338-343,
  src/depotchest.cpp:28-58, src/item.cpp:275-292): for which chests it holds.
  */
module DepotLimits {
  import opened Common
  import opened ItemForest
  import opened ItemSteps
  import opened ContainerWalk
  import opened Containers
  import opened ItemMoves

  /** The top parent of a container is its root exactly when the root is placed, or is the container itself. */
  lemma {:induction false} TopIsRootIff(s: Store, r: seq<nat>, c: Id, d: Id)
    requires Forest(s, r) && c < |s| && d in Chain(s, r, c) && !s[d].parent.Inside?
    ensures TopParent(s, r, c) == d <==> c == d || s[d].parent == Ground
    decreases Top(r) - r[c]
  {
    assert NodeOk(s, c) && RankOk(s, r, c);
    if c != d && s[s[c].parent.c].parent != Nowhere {
      TopIsRootIff(s, r, s[c].parent.c, d);
    }
  }

  /** An item that nothing holds is inside no other root. */
  lemma OutsideRoot(s: Store, r: seq<nat>, x: Id, d: Id)
    requires Forest(s, r) && x < |s| && d < |s| && s[x].parent == Nowhere && x != d
    ensures !HasTopParent(s, r, x, d)
  {}

  /** An accepted addition keeps the limit of a chest that is placed, and of the chest that it goes into. */
  lemma AcceptedWithinLimit(s: Store, r: seq<nat>, c: Id, x: Id, flags: Flags, d: Id)
    requires Forest(s, r) && IsBox(s, c) && x < |s| && s[x].parent == Nowhere && !flags.noLimit
    requires s[x].box.Box? ==> s[x].box.role == Bag
    requires Accepts(s, r, c, WHEREEVER, x, s[x].count, flags)
    requires IsBox(s, d) && s[d].box.role.Depot? && d in Chain(s, r, c) && (c == d || s[d].parent == Ground)
    ensures x !in Chain(s, r, c) && x != c && Forest(Put(s, c, 0, x), Lifted(s, r, c, x))
    ensures DeepIn(Put(s, c, 0, x), Lifted(s, r, c, x), One, d) <= s[d].box.role.maxItems
  {
    AcceptedNotAbove(s, r, c, WHEREEVER, x, s[x].count, flags);
    assert NodeOk(s, d);
    TopIsRootIff(s, r, c, d);
    OutsideRoot(s, r, x, d);
    PutDeep(s, r, One, c, 0, x, d);
  }

  /** What a new item of a kind is like before it is added. */
  ghost predicate Addable(s: Store, r: seq<nat>, c: Id, kind: Kind, n: nat)
    requires Forest(s, r) && IsBox(s, c)
  {
    SpawnForest(s, r, kind, n);
    Accepts(Spawn(s, kind, n), r + [0], c, WHEREEVER, |s|, n, NO_FLAGS)
  }

  ghost function HeldAfter(s: Store, r: seq<nat>, c: Id, kind: Kind, n: nat, d: Id): int
    requires Forest(s, r) && IsBox(s, c) && d < |s| && Addable(s, r, c, kind, n)
  {
    SpawnForest(s, r, kind, n);
    AcceptedNotAbove(Spawn(s, kind, n), r + [0], c, WHEREEVER, |s|, n, NO_FLAGS);
    PutForest(Spawn(s, kind, n), r + [0], c, 0, |s|);
    DeepIn(Put(Spawn(s, kind, n), c, 0, |s|), Lifted(Spawn(s, kind, n), r + [0], c, |s|), One, d)
  }

  /** Every new item that the container accepts leaves the chest within its limit. */
  ghost predicate LimitKept(s: Store, r: seq<nat>, c: Id, d: Id)
    requires Forest(s, r) && IsBox(s, c) && IsBox(s, d) && s[d].box.role.Depot?
  {
    forall kind, n :: Addable(s, r, c, kind, n) ==> HeldAfter(s, r, c, kind, n, d) <= s[d].box.role.maxItems
  }

  lemma NewItemAddsOne(s: Store, r: seq<nat>, c: Id, kind: Kind, n: nat, d: Id)
    requires Forest(s, r) && IsBox(s, c) && IsBox(s, d) && d in Chain(s, r, c) && Addable(s, r, c, kind, n)
    ensures HeldAfter(s, r, c, kind, n, d) == DeepIn(s, r, One, d) + 1
  {
    var s1, r1 := Spawn(s, kind, n), r + [0];
    SpawnForest(s, r, kind, n);
    AcceptedNotAbove(s1, r1, c, WHEREEVER, |s|, n, NO_FLAGS);
    SpawnDeep(s, r, One, kind, n, d);
    PutDeep(s1, r1, One, c, 0, |s|, d);
    DeepLeaf(s1, r1, One, |s|);
  }

  /** An item that anybody can carry. */
  function Plain(): Kind { Kind(0, 0, false, true, true, false, 1) }

  lemma TopSpawned(s: Store, r: seq<nat>, kind: Kind, n: nat, c: Id)
    requires Forest(s, r) && c < |s|
    ensures Forest(Spawn(s, kind, n), r + [0])
    ensures TopParent(Spawn(s, kind, n), r + [0], c) == TopParent(s, r, c)
    ensures Chain(Spawn(s, kind, n), r + [0], c) == Chain(s, r, c)
  {
    SpawnForest(s, r, kind, n);
    TopSpawnedStep(s, r, kind, n, c);
  }

  lemma {:induction false} TopSpawnedStep(s: Store, r: seq<nat>, kind: Kind, n: nat, c: Id)
    requires Forest(s, r) && c < |s| && Forest(Spawn(s, kind, n), r + [0])
    ensures TopParent(Spawn(s, kind, n), r + [0], c) == TopParent(s, r, c)
    decreases Top(r) - r[c]
  {
    assert NodeOk(s, c) && RankOk(s, r, c);
    if s[c].parent.Inside? {
      TopSpawnedStep(s, r, kind, n, s[c].parent.c);
    }
  }

  /** Below a chest the top parent of a bag is a bag, if it is not the chest. */
  lemma NestedTop(s: Store, r: seq<nat>, c: Id, d: Id)
    requires Forest(s, r) && IsBox(s, c) && IsBox(s, d) && s[d].box.role.Depot? && d in Chain(s, r, c) && c != d
    requires s[d].parent == Nowhere
    ensures s[c].box.role == Bag && s[TopParent(s, r, c)].box.role == Bag
  {
    assert NodeOk(s, d) && NodeOk(s, c) && RankOk(s, r, c);
    TopIsRootIff(s, r, c, d);
    var t := TopParent(s, r, c);
    assert NodeOk(s, t);
    if !s[t].parent.Inside? {
      OneRoot(s, r, c, t, d);
    }
  }

  lemma NoMailboxAbove(s: Store, r: seq<nat>, c: Id, d: Id)
    requires Forest(s, r) && c < |s| && IsBox(s, d) && s[d].box.role.Depot? && d in Chain(s, r, c)
    ensures !UnderMailbox(s, r, c)
  {
    assert NodeOk(s, d);
    forall e | e in Chain(s, r, c) && e != c ensures s[e].box.role != Mailbox {
      assert NodeOk(s, e);
      if s[e].box.role == Mailbox {
        OneRoot(s, r, c, d, e);
        assert false;
      }
    }
  }

  /** An open bag with room, inside a chest that nothing holds, takes an item whatever the chest's limit. */
  lemma NestedBagAccepts(s: Store, r: seq<nat>, c: Id, d: Id)
    requires Forest(s, r) && IsBox(s, c) && IsBox(s, d) && s[d].box.role.Depot? && d in Chain(s, r, c) && c != d
    requires s[d].parent == Nowhere && s[c].box.unlocked && |Items(s, c)| < s[c].box.capacity
    ensures Addable(s, r, c, Plain(), 1)
  {
    var s1, r1 := Spawn(s, Plain(), 1), r + [0];
    SpawnForest(s, r, Plain(), 1);
    TopSpawned(s, r, Plain(), 1, c);
    NestedTop(s, r, c, d);
    NoMailboxAbove(s1, r1, c, d);
    assert s1[c] == s[c] && s1[TopParent(s, r, c)] == s[TopParent(s, r, c)];
  }

  /**
    When the limit is kept: for every full chest and every open container in it with room, all accepted
    additions keep the limit if and only if the chest is placed or is that container.
    */
  lemma LimitKeptIff(s: Store, r: seq<nat>, c: Id, d: Id)
    requires Forest(s, r) && IsBox(s, c) && IsBox(s, d) && s[d].box.role.Depot? && d in Chain(s, r, c)
    requires s[c].box.unlocked && |Items(s, c)| < s[c].box.capacity
    requires DeepIn(s, r, One, d) == s[d].box.role.maxItems
    ensures LimitKept(s, r, c, d) <==> s[d].parent == Ground || c == d
  {
    assert NodeOk(s, d);
    if s[d].parent == Ground || c == d {
      forall kind, n | Addable(s, r, c, kind, n) ensures HeldAfter(s, r, c, kind, n, d) <= s[d].box.role.maxItems {
        SpawnForest(s, r, kind, n);
        AcceptedWithinLimit(Spawn(s, kind, n), r + [0], c, |s|, NO_FLAGS, d);
      }
    } else {
      NestedBagAccepts(s, r, c, d);
      NewItemAddsOne(s, r, c, Plain(), 1, d);
    }
  }

  /** Every full chest that nothing holds can be overfilled through an open bag inside it that has room. */
  lemma UnplacedDepotOverflows(s: Store, r: seq<nat>, c: Id, d: Id)
    requires Forest(s, r) && IsBox(s, c) && IsBox(s, d) && s[d].box.role.Depot? && d in Chain(s, r, c) && c != d
    requires s[d].parent == Nowhere && s[c].box.unlocked && |Items(s, c)| < s[c].box.capacity
    requires DeepIn(s, r, One, d) == s[d].box.role.maxItems
    ensures Addable(s, r, c, Plain(), 1) && HeldAfter(s, r, c, Plain(), 1, d) == s[d].box.role.maxItems + 1
  {
    NestedBagAccepts(s, r, c, d);
    NewItemAddsOne(s, r, c, Plain(), 1, d);
  }
}
