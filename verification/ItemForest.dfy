/**
  The forest of items that containers form (src/item.h, src/container.h).

  Every item is a node of a store; its identity is its index there, so a pointer
  of the original is an index here.  A container is a node with a `Box`, which
  lists the nodes it holds; each node also points up to what holds it.
  */
module ItemForest {

  type Id = nat

  /** What `Item::equals` compares (id and attributes), with the item-type flags that go with it. */
  datatype Kind = Kind(
    id: nat, attributes: nat,
    stackable: bool, pickupable: bool, moveable: bool, storeItem: bool,
    weight: nat)

  /** The value of the virtual `getParent()`: nothing, a tile, or a container. */
  datatype Parent = Nowhere | Ground | Inside(c: Id)

  /** `Container`, `DepotChest` (with its item limit) and `Inbox`. */
  datatype Role = Bag | Depot(maxItems: nat) | Mailbox

  datatype Box = NoBox | Box(role: Role, capacity: nat, unlocked: bool, items: seq<Id>)

  datatype Node = Node(kind: Kind, count: nat, parent: Parent, box: Box)

  type Store = seq<Node>

  /** A quantity that an item contributes by itself, whatever it holds. */
  type Measure = (Kind, nat) -> int

  predicate IsBox(s: Store, c: Id) {
    c < |s| && s[c].box.Box?
  }

  function Items(s: Store, c: Id): seq<Id> {
    if IsBox(s, c) then s[c].box.items else []
  }

  predicate Distinct(xs: seq<Id>) {
    forall i, j :: 0 <= i < j < |xs| ==> xs[i] != xs[j]
  }

  /** Up and down links of one node agree, it lists nothing twice, depot chests and inboxes are roots. */
  ghost predicate NodeOk(s: Store, x: Id)
    requires x < |s|
  {
    && (forall j :: 0 <= j < |Items(s, x)| ==> Items(s, x)[j] < |s| && s[Items(s, x)[j]].parent == Inside(x))
    && Distinct(Items(s, x))
    && (s[x].parent.Inside? ==> IsBox(s, s[x].parent.c) && x in Items(s, s[x].parent.c))
    && (s[x].box.Box? && s[x].box.role != Bag ==> !s[x].parent.Inside?)
  }

  ghost predicate Linked(s: Store) {
    forall x :: 0 <= x < |s| ==> NodeOk(s, x)
  }

  ghost predicate RankOk(s: Store, r: seq<nat>, x: Id)
    requires |r| == |s| && x < |s|
  {
    s[x].parent.Inside? && s[x].parent.c < |s| ==> r[x] < r[s[x].parent.c]
  }

  /** A ranking that decreases from container to contents: containment has no cycle. */
  ghost predicate Ranked(s: Store, r: seq<nat>) {
    |r| == |s| && forall x :: 0 <= x < |s| ==> RankOk(s, r, x)
  }

  ghost predicate Forest(s: Store, r: seq<nat>) {
    Linked(s) && Ranked(s, r)
  }

  ghost function Top(r: seq<nat>): (t: nat)
    ensures forall i :: 0 <= i < |r| ==> r[i] <= t
  {
    if r == [] then 0
    else
      var t := Top(r[1..]);
      assert forall i :: 1 <= i < |r| ==> r[i] == r[1..][i - 1];
      if r[0] > t then r[0] else t
  }

  /** A container and everything it is nested in. */
  ghost function Chain(s: Store, r: seq<nat>, c: Id): (a: set<Id>)
    requires Forest(s, r) && c < |s|
    ensures c in a
    ensures forall d :: d in a ==> d < |s| && r[c] <= r[d]
    ensures forall d :: d in a && d != c ==> r[c] < r[d] && IsBox(s, d)
    decreases Top(r) - r[c]
  {
    assert NodeOk(s, c) && RankOk(s, r, c);
    if s[c].parent.Inside? then {c} + Chain(s, r, s[c].parent.c) else {c}
  }

  /** The chain is closed upwards. */
  lemma {:induction false} ChainUp(s: Store, r: seq<nat>, c: Id, d: Id)
    requires Forest(s, r) && c < |s| && d in Chain(s, r, c) && s[d].parent.Inside?
    ensures s[d].parent.c in Chain(s, r, c)
    decreases Top(r) - r[c]
  {
    assert NodeOk(s, c) && RankOk(s, r, c) && NodeOk(s, d);
    if d != c {
      ChainUp(s, r, s[c].parent.c, d);
    }
  }

  /** Chains depend on the parent links along them only. */
  lemma {:induction false} ChainStable(s: Store, r: seq<nat>, s': Store, r': seq<nat>, c: Id)
    requires Forest(s, r) && Forest(s', r') && c < |s| <= |s'|
    requires forall d :: d in Chain(s, r, c) ==> s'[d].parent == s[d].parent
    ensures Chain(s', r', c) == Chain(s, r, c)
    decreases Top(r) - r[c]
  {
    assert NodeOk(s, c) && RankOk(s, r, c);
    if s[c].parent.Inside? {
      ChainStable(s, r, s', r', s[c].parent.c);
    }
  }

  // ----- recursive sums and caches ------------------------------------------------------

  ghost predicate Below(s: Store, r: seq<nat>, xs: seq<Id>, bound: nat)
    requires |r| == |s|
  {
    forall j :: 0 <= j < |xs| ==> xs[j] < |s| && r[xs[j]] < bound
  }

  predicate InStore(s: Store, xs: seq<Id>) {
    forall j :: 0 <= j < |xs| ==> xs[j] < |s|
  }

  /** The recursive definition: the measure of everything listed, at any depth. */
  ghost function Deep(s: Store, r: seq<nat>, f: Measure, xs: seq<Id>, bound: nat): int
    requires Forest(s, r) && Below(s, r, xs, bound)
    decreases bound, |xs|
  {
    if xs == [] then 0
    else
      var x := xs[0];
      ItemsRankLower(s, r, x);
      assert forall j :: 0 <= j < |xs[1..]| ==> xs[1..][j] == xs[j + 1];
      f(s[x].kind, s[x].count) + Deep(s, r, f, Items(s, x), r[x]) + Deep(s, r, f, xs[1..], bound)
  }

  lemma ItemsRankLower(s: Store, r: seq<nat>, c: Id)
    requires Forest(s, r) && c < |s|
    ensures Below(s, r, Items(s, c), r[c])
  {
    assert NodeOk(s, c);
    forall j | 0 <= j < |Items(s, c)| ensures r[Items(s, c)[j]] < r[c] {
      assert RankOk(s, r, Items(s, c)[j]);
    }
  }

  /** The measure of all that container `c` holds, at any depth. */
  ghost function DeepIn(s: Store, r: seq<nat>, f: Measure, c: Id): int
    requires Forest(s, r) && c < |s|
  {
    ItemsRankLower(s, r, c);
    Deep(s, r, f, Items(s, c), r[c])
  }

  /** What an item weighs with its cached contents (`Container::getWeight`). */
  function Whole(s: Store, f: Measure, cache: seq<int>, x: Id): int
    requires |cache| == |s| && x < |s|
  {
    f(s[x].kind, s[x].count) + if s[x].box.Box? then cache[x] else 0
  }

  function Sum(s: Store, f: Measure, cache: seq<int>, xs: seq<Id>): int
    requires |cache| == |s| && InStore(s, xs)
  {
    if xs == [] then 0 else Whole(s, f, cache, xs[0]) + Sum(s, f, cache, xs[1..])
  }

  ghost predicate SumsUp(s: Store, f: Measure, cache: seq<int>, c: Id, error: int)
    requires |cache| == |s| && c < |s|
  {
    && InStore(s, Items(s, c))
    && cache[c] + error == Sum(s, f, cache, Items(s, c))
  }

  /** The cache of every container is one level of the recursive definition. */
  ghost predicate Consistent(s: Store, f: Measure, cache: seq<int>) {
    && |cache| == |s|
    && forall c :: 0 <= c < |s| && s[c].box.Box? ==> SumsUp(s, f, cache, c, 0)
  }

  ghost predicate ConsistentBut(s: Store, f: Measure, cache: seq<int>, p: Id, error: int) {
    && |cache| == |s|
    && IsBox(s, p)
    && SumsUp(s, f, cache, p, error)
    && forall c :: 0 <= c < |s| && s[c].box.Box? && c != p ==> SumsUp(s, f, cache, c, 0)
  }

  /** A consistent cache holds the recursive sums. */
  lemma {:induction false} CacheIsDeep(s: Store, r: seq<nat>, f: Measure, cache: seq<int>, xs: seq<Id>, bound: nat)
    requires Forest(s, r) && Consistent(s, f, cache)
    requires Below(s, r, xs, bound)
    ensures Sum(s, f, cache, xs) == Deep(s, r, f, xs, bound)
    decreases bound, |xs|
  {
    if xs != [] {
      var x := xs[0];
      ItemsRankLower(s, r, x);
      CacheIsDeep(s, r, f, cache, Items(s, x), r[x]);
      CacheIsDeep(s, r, f, cache, xs[1..], bound);
      assert s[x].box.Box? ==> SumsUp(s, f, cache, x, 0);
    }
  }

  /** The theorem behind every cached total: it is the recursive total. */
  lemma CachedTotalIsRecursiveTotal(s: Store, r: seq<nat>, f: Measure, cache: seq<int>, c: Id)
    requires Forest(s, r) && Consistent(s, f, cache) && IsBox(s, c)
    ensures cache[c] == DeepIn(s, r, f, c)
  {
    ItemsRankLower(s, r, c);
    assert SumsUp(s, f, cache, c, 0);
    CacheIsDeep(s, r, f, cache, Items(s, c), r[c]);
  }

  /** Add `delta` to the cache of `p` and of everything `p` is nested in. */
  ghost function AddAlong(s: Store, r: seq<nat>, cache: seq<int>, p: Id, delta: int): (after: seq<int>)
    requires Forest(s, r) && |cache| == |s| && p < |s|
    ensures |after| == |cache|
    decreases Top(r) - r[p]
  {
    assert NodeOk(s, p) && RankOk(s, r, p);
    var next := cache[p := cache[p] + delta];
    if s[p].parent.Inside? then AddAlong(s, r, next, s[p].parent.c, delta) else next
  }

  lemma {:induction false} AddAlongAt(s: Store, r: seq<nat>, cache: seq<int>, p: Id, delta: int)
    requires Forest(s, r) && |cache| == |s| && p < |s|
    ensures forall d :: 0 <= d < |s| ==>
              AddAlong(s, r, cache, p, delta)[d] == cache[d] + if d in Chain(s, r, p) then delta else 0
    decreases Top(r) - r[p]
  {
    assert NodeOk(s, p) && RankOk(s, r, p);
    if s[p].parent.Inside? {
      var q := s[p].parent.c;
      var next := cache[p := cache[p] + delta];
      AddAlongAt(s, r, next, q, delta);
      assert p !in Chain(s, r, q);
    }
  }

  /** Changing one entry changes a sum over a duplicate-free list by the same amount, or not at all. */
  lemma {:induction false} SumChange(s: Store, f: Measure, cache: seq<int>, p: Id, delta: int, xs: seq<Id>)
    requires |cache| == |s| && IsBox(s, p) && Distinct(xs) && InStore(s, xs)
    ensures Sum(s, f, cache[p := cache[p] + delta], xs) == Sum(s, f, cache, xs) + if p in xs then delta else 0
  {
    if xs != [] {
      DistinctTail(xs);
      SumChange(s, f, cache, p, delta, xs[1..]);
    }
  }

  lemma DistinctTail(xs: seq<Id>)
    requires Distinct(xs) && xs != []
    ensures Distinct(xs[1..]) && xs[0] !in xs[1..]
    ensures forall x :: x in xs <==> x == xs[0] || x in xs[1..]
  {
    assert xs == [xs[0]] + xs[1..];
    forall x | x in xs[1..] ensures x != xs[0] {
      var j :| 0 <= j < |xs[1..]| && xs[1..][j] == x;
      assert xs[j + 1] == x;
    }
  }

  /** One step of the walk: entry `p` is repaired and its error moves to its container. */
  lemma RepairOne(s: Store, f: Measure, cache: seq<int>, p: Id, delta: int, c: Id)
    requires Linked(s) && ConsistentBut(s, f, cache, p, delta) && IsBox(s, c)
    ensures SumsUp(s, f, cache[p := cache[p] + delta], c, if s[p].parent == Inside(c) then delta else 0)
  {
    assert NodeOk(s, c) && NodeOk(s, p);
    assert SumsUp(s, f, cache, c, if c == p then delta else 0);
    SumChange(s, f, cache, p, delta, Items(s, c));
    assert p in Items(s, c) <==> s[p].parent == Inside(c);
  }

  lemma RepairStep(s: Store, f: Measure, cache: seq<int>, p: Id, delta: int)
    requires Linked(s) && ConsistentBut(s, f, cache, p, delta)
    ensures s[p].parent.Inside? ==> ConsistentBut(s, f, cache[p := cache[p] + delta], s[p].parent.c, delta)
    ensures !s[p].parent.Inside? ==> Consistent(s, f, cache[p := cache[p] + delta])
  {
    assert NodeOk(s, p);
    var next := cache[p := cache[p] + delta];
    forall c | 0 <= c < |s| && s[c].box.Box?
      ensures SumsUp(s, f, next, c, if s[p].parent == Inside(c) then delta else 0)
    {
      RepairOne(s, f, cache, p, delta, c);
    }
  }

  /** Carrying the error of one cache entry up the chain repairs all caches. */
  lemma {:induction false} AddAlongRepairs(s: Store, r: seq<nat>, f: Measure, cache: seq<int>, p: Id, delta: int)
    requires Forest(s, r) && ConsistentBut(s, f, cache, p, delta)
    ensures Consistent(s, f, AddAlong(s, r, cache, p, delta))
    decreases Top(r) - r[p]
  {
    assert NodeOk(s, p) && RankOk(s, r, p);
    RepairStep(s, f, cache, p, delta);
    if s[p].parent.Inside? {
      AddAlongRepairs(s, r, f, cache[p := cache[p] + delta], s[p].parent.c, delta);
    }
  }
}
