/**
  The three ways in which containers change the item forest (src/container.cpp:503-615, 713-723),
  as functions on the store, and what each keeps: the links, the absence of cycles, and
  how far it moves the recursive sums.
  */
module ItemSteps {
  import opened ItemForest

  // ----- the steps ----------------------------------------------------------------------

  ghost function WithItems(n: Node, xs: seq<Id>): Node
    requires n.box.Box?
  {
    n.(box := n.box.(items := xs))
  }

  /** `x` enters container `c` at position `i` (`push_front` is position 0). */
  ghost function Put(s: Store, c: Id, i: nat, x: Id): (s': Store)
    requires IsBox(s, c) && x < |s| && x != c && i <= |Items(s, c)|
    ensures |s'| == |s|
  {
    var xs := Items(s, c);
    s[x := s[x].(parent := Inside(c))][c := WithItems(s[c], xs[..i] + [x] + xs[i..])]
  }

  /** The item at position `i` leaves container `c`. */
  ghost function Take(s: Store, c: Id, i: nat): (s': Store)
    requires IsBox(s, c) && i < |Items(s, c)| && Items(s, c)[i] < |s| && Items(s, c)[i] != c
    ensures |s'| == |s|
  {
    var xs := Items(s, c);
    s[xs[i] := s[xs[i]].(parent := Nowhere)][c := WithItems(s[c], xs[..i] + xs[i + 1..])]
  }

  /** An item changes id and count where it is (`setID`, `setSubType`, `setItemCount`). */
  ghost function SetItem(s: Store, x: Id, kind: Kind, n: nat): (s': Store)
    requires x < |s|
    ensures |s'| == |s|
  {
    s[x := s[x].(kind := kind, count := n)]
  }

  /** A new item, not yet held by anything. */
  ghost function Spawn(s: Store, kind: Kind, n: nat): (s': Store)
    ensures |s'| == |s| + 1
  {
    s + [Node(kind, n, Nowhere, NoBox)]
  }

  // ----- lists --------------------------------------------------------------------------

  lemma PutListAt(xs: seq<Id>, i: nat, x: Id, ys: seq<Id>)
    requires i <= |xs| && ys == xs[..i] + [x] + xs[i..]
    ensures forall j :: 0 <= j < |ys| ==> ys[j] == if j < i then xs[j] else if j == i then x else xs[j - 1]
  {}

  lemma PutList(xs: seq<Id>, i: nat, x: Id)
    requires Distinct(xs) && x !in xs && i <= |xs|
    ensures Distinct(xs[..i] + [x] + xs[i..])
    ensures forall y :: y in xs[..i] + [x] + xs[i..] <==> y == x || y in xs
  {
    var ys := xs[..i] + [x] + xs[i..];
    PutListAt(xs, i, x, ys);
    forall a, b | 0 <= a < b < |ys| ensures ys[a] != ys[b] {
      if a == i || b == i {
        var k := if a == i then b else a;
        assert ys[k] in xs;
      } else {
        assert ys[a] == xs[if a < i then a else a - 1] && ys[b] == xs[if b < i then b else b - 1];
      }
    }
    forall y ensures y in ys <==> y == x || y in xs {
      assert ys[i] == x;
      if y in xs {
        var j :| 0 <= j < |xs| && xs[j] == y;
        assert ys[if j < i then j else j + 1] == y;
      }
    }
  }

  lemma TakeList(xs: seq<Id>, i: nat)
    requires Distinct(xs) && i < |xs|
    ensures Distinct(xs[..i] + xs[i + 1..])
    ensures forall y :: y in xs[..i] + xs[i + 1..] <==> y != xs[i] && y in xs
  {
    var ys := xs[..i] + xs[i + 1..];
    assert forall j :: 0 <= j < |xs| && j != i ==> xs[j] == ys[if j < i then j else j - 1];
    assert forall j :: 0 <= j < |ys| ==> ys[j] == xs[if j < i then j else j + 1];
  }

  // ----- links --------------------------------------------------------------------------

  lemma PutItemsAt(s: Store, c: Id, i: nat, x: Id, d: Id)
    requires Linked(s) && IsBox(s, c) && x < |s| && x != c && i <= |Items(s, c)| && s[x].parent == Nowhere
    requires d < |s|
    ensures Distinct(Items(Put(s, c, i, x), d))
    ensures forall y :: y in Items(Put(s, c, i, x), d) <==> y in Items(s, d) || (d == c && y == x)
  {
    assert NodeOk(s, d);
    if d == c {
      assert x !in Items(s, c);
      PutList(Items(s, c), i, x);
    } else {
      assert Items(Put(s, c, i, x), d) == Items(s, d);
    }
  }

  lemma PutNode(s: Store, c: Id, i: nat, x: Id, d: Id)
    requires Linked(s) && IsBox(s, c) && x < |s| && x != c && i <= |Items(s, c)| && s[x].parent == Nowhere
    requires s[x].box.Box? ==> s[x].box.role == Bag
    requires d < |s|
    ensures NodeOk(Put(s, c, i, x), d)
  {
    var s' := Put(s, c, i, x);
    assert NodeOk(s, d);
    PutItemsAt(s, c, i, x, d);
    forall j | 0 <= j < |Items(s', d)| ensures Items(s', d)[j] < |s'| && s'[Items(s', d)[j]].parent == Inside(d) {
      assert Items(s', d)[j] in Items(s', d);
    }
    if s'[d].parent.Inside? {
      PutItemsAt(s, c, i, x, s'[d].parent.c);
    }
  }

  lemma PutLinked(s: Store, c: Id, i: nat, x: Id)
    requires Linked(s) && IsBox(s, c) && x < |s| && x != c && i <= |Items(s, c)|
    requires s[x].parent == Nowhere
    requires s[x].box.Box? ==> s[x].box.role == Bag
    ensures Linked(Put(s, c, i, x))
  {
    forall d | 0 <= d < |s| ensures NodeOk(Put(s, c, i, x), d) {
      PutNode(s, c, i, x, d);
    }
  }

  lemma TakeItemsAt(s: Store, c: Id, i: nat, d: Id)
    requires Linked(s) && IsBox(s, c) && i < |Items(s, c)| && Items(s, c)[i] < |s| && Items(s, c)[i] != c
    requires d < |s|
    ensures Distinct(Items(Take(s, c, i), d))
    ensures forall y :: y in Items(Take(s, c, i), d) <==> y in Items(s, d) && y != Items(s, c)[i]
  {
    assert NodeOk(s, d) && NodeOk(s, c);
    if d == c {
      TakeList(Items(s, c), i);
    } else {
      assert Items(Take(s, c, i), d) == Items(s, d);
      assert Items(s, c)[i] !in Items(s, d);
    }
  }

  lemma TakeNode(s: Store, c: Id, i: nat, d: Id)
    requires Linked(s) && IsBox(s, c) && i < |Items(s, c)| && Items(s, c)[i] < |s| && Items(s, c)[i] != c
    requires d < |s|
    ensures NodeOk(Take(s, c, i), d)
  {
    var s' := Take(s, c, i);
    assert NodeOk(s, d);
    TakeItemsAt(s, c, i, d);
    forall j | 0 <= j < |Items(s', d)| ensures Items(s', d)[j] < |s'| && s'[Items(s', d)[j]].parent == Inside(d) {
      assert Items(s', d)[j] in Items(s', d);
    }
    if s'[d].parent.Inside? {
      TakeItemsAt(s, c, i, s'[d].parent.c);
    }
  }

  lemma TakeLinked(s: Store, c: Id, i: nat)
    requires Linked(s) && IsBox(s, c) && i < |Items(s, c)| && Items(s, c)[i] < |s| && Items(s, c)[i] != c
    ensures Linked(Take(s, c, i))
  {
    forall d | 0 <= d < |s| ensures NodeOk(Take(s, c, i), d) {
      TakeNode(s, c, i, d);
    }
  }

  lemma SetItemLinked(s: Store, x: Id, kind: Kind, n: nat)
    requires Linked(s) && x < |s|
    ensures Linked(SetItem(s, x, kind, n))
  {
    var s' := SetItem(s, x, kind, n);
    forall d | 0 <= d < |s'| ensures NodeOk(s', d) {
      assert NodeOk(s, d);
      assert Items(s', d) == Items(s, d);
    }
  }

  lemma SpawnLinked(s: Store, kind: Kind, n: nat)
    requires Linked(s)
    ensures Linked(Spawn(s, kind, n))
  {
    var s' := Spawn(s, kind, n);
    forall d | 0 <= d < |s'| ensures NodeOk(s', d) {
      if d < |s| {
        assert NodeOk(s, d);
        assert Items(s', d) == Items(s, d);
      }
    }
  }

  // ----- no cycles ----------------------------------------------------------------------

  /** The ranking after `x` enters `c`: everything above `c` is lifted over `x`. */
  ghost function Lifted(s: Store, r: seq<nat>, c: Id, x: Id): (r': seq<nat>)
    requires Forest(s, r) && c < |s| && x < |s|
    ensures |r'| == |r|
  {
    seq(|r|, i requires 0 <= i < |r| => if i in Chain(s, r, c) then r[i] + r[x] + 1 else r[i])
  }

  /** Containment stays a forest exactly because `x` is not in the chain of `c`. */
  lemma PutForest(s: Store, r: seq<nat>, c: Id, i: nat, x: Id)
    requires Forest(s, r) && IsBox(s, c) && x < |s| && i <= |Items(s, c)|
    requires s[x].parent == Nowhere && x !in Chain(s, r, c)
    requires s[x].box.Box? ==> s[x].box.role == Bag
    ensures x != c && Forest(Put(s, c, i, x), Lifted(s, r, c, x))
    ensures Chain(Put(s, c, i, x), Lifted(s, r, c, x), c) == Chain(s, r, c)
  {
    PutLinked(s, c, i, x);
    var s', r' := Put(s, c, i, x), Lifted(s, r, c, x);
    forall y | 0 <= y < |s'| ensures RankOk(s', r', y) {
      assert RankOk(s, r, y) && NodeOk(s, y);
      if s[y].parent.Inside? && y in Chain(s, r, c) { ChainUp(s, r, c, y); }
    }
    ChainStable(s, r, s', r', c);
  }

  lemma TakeForest(s: Store, r: seq<nat>, c: Id, i: nat)
    requires Forest(s, r) && IsBox(s, c) && i < |Items(s, c)|
    ensures Items(s, c)[i] < |s| && Items(s, c)[i] !in Chain(s, r, c)
    ensures Forest(Take(s, c, i), r)
    ensures Chain(Take(s, c, i), r, c) == Chain(s, r, c)
  {
    ItemsRankLower(s, r, c);
    TakeLinked(s, c, i);
    var s' := Take(s, c, i);
    forall y | 0 <= y < |s'| ensures RankOk(s', r, y) {
      assert RankOk(s, r, y);
    }
    ChainStable(s, r, s', r, c);
  }

  lemma SetItemForest(s: Store, r: seq<nat>, x: Id, kind: Kind, n: nat)
    requires Forest(s, r) && x < |s|
    ensures Forest(SetItem(s, x, kind, n), r)
    ensures forall c :: 0 <= c < |s| ==> Chain(SetItem(s, x, kind, n), r, c) == Chain(s, r, c)
  {
    SetItemLinked(s, x, kind, n);
    forall y | 0 <= y < |s| ensures RankOk(SetItem(s, x, kind, n), r, y) {
      assert RankOk(s, r, y);
    }
    forall c | 0 <= c < |s| ensures Chain(SetItem(s, x, kind, n), r, c) == Chain(s, r, c) {
      ChainStable(s, r, SetItem(s, x, kind, n), r, c);
    }
  }

  lemma SpawnForest(s: Store, r: seq<nat>, kind: Kind, n: nat)
    requires Forest(s, r)
    ensures Forest(Spawn(s, kind, n), r + [0])
    ensures forall c :: 0 <= c < |s| ==> Chain(Spawn(s, kind, n), r + [0], c) == Chain(s, r, c)
    ensures forall c :: 0 <= c < |s| ==> |s| !in Chain(Spawn(s, kind, n), r + [0], c)
  {
    SpawnLinked(s, kind, n);
    forall y | 0 <= y < |s| + 1 ensures RankOk(Spawn(s, kind, n), r + [0], y) {
      if y < |s| { assert RankOk(s, r, y) && NodeOk(s, y); }
    }
    forall c | 0 <= c < |s| ensures Chain(Spawn(s, kind, n), r + [0], c) == Chain(s, r, c) {
      ChainStable(s, r, Spawn(s, kind, n), r + [0], c);
    }
  }

  // ----- caches -------------------------------------------------------------------------

  lemma {:induction false} SumAppend(s: Store, f: Measure, cache: seq<int>, xs: seq<Id>, ys: seq<Id>)
    requires |cache| == |s| && InStore(s, xs) && InStore(s, ys)
    ensures Sum(s, f, cache, xs + ys) == Sum(s, f, cache, xs) + Sum(s, f, cache, ys)
  {
    if xs == [] {
      assert xs + ys == ys;
    } else {
      SumAppend(s, f, cache, xs[1..], ys);
      assert (xs + ys)[1..] == xs[1..] + ys;
    }
  }

  predicate SameFor(s: Store, s': Store, cache: seq<int>, cache': seq<int>, x: Id)
    requires |cache| == |s| && |cache'| == |s'|
  {
    x < |s| && x < |s'| && s'[x].kind == s[x].kind && s'[x].count == s[x].count
    && s'[x].box.Box? == s[x].box.Box? && cache'[x] == cache[x]
  }

  lemma {:induction false} SumSame(s: Store, s': Store, f: Measure, cache: seq<int>, cache': seq<int>, xs: seq<Id>)
    requires |cache| == |s| && |cache'| == |s'| && InStore(s, xs)
    requires forall j :: 0 <= j < |xs| ==> SameFor(s, s', cache, cache', xs[j])
    ensures InStore(s', xs) && Sum(s', f, cache', xs) == Sum(s, f, cache, xs)
  {
    if xs != [] {
      assert SameFor(s, s', cache, cache', xs[0]);
      forall j | 0 <= j < |xs[1..]| ensures SameFor(s, s', cache, cache', xs[1..][j]) {
        assert xs[1..][j] == xs[j + 1];
      }
      SumSame(s, s', f, cache, cache', xs[1..]);
    }
  }

  lemma SumSplit(s: Store, f: Measure, cache: seq<int>, xs: seq<Id>, i: nat)
    requires |cache| == |s| && InStore(s, xs) && i < |xs|
    ensures InStore(s, xs[..i] + xs[i + 1..])
    ensures Sum(s, f, cache, xs) == Sum(s, f, cache, xs[..i] + xs[i + 1..]) + Whole(s, f, cache, xs[i])
  {
    var front, back := xs[..i], xs[i..];
    assert xs == front + back && back[0] == xs[i] && back[1..] == xs[i + 1..];
    SumAppend(s, f, cache, front, back);
    SumAppend(s, f, cache, front, back[1..]);
  }

  /** A step that leaves the measures, the caches and the list of `d` alone keeps `d` exact. */
  lemma SumsUpSame(s: Store, s': Store, f: Measure, cache: seq<int>, d: Id)
    requires Linked(s) && |cache| == |s| == |s'| && d < |s| && SumsUp(s, f, cache, d, 0)
    requires Items(s', d) == Items(s, d)
    requires forall x :: 0 <= x < |s| ==> SameFor(s, s', cache, cache, x)
    ensures SumsUp(s', f, cache, d, 0)
  {
    SumSame(s, s', f, cache, cache, Items(s, d));
  }

  lemma PutSumHere(s: Store, f: Measure, cache: seq<int>, c: Id, i: nat, x: Id)
    requires |cache| == |s| && IsBox(s, c) && x < |s| && x != c && i <= |Items(s, c)|
    requires SumsUp(s, f, cache, c, 0)
    ensures SumsUp(Put(s, c, i, x), f, cache, c, Whole(s, f, cache, x))
  {
    var s', xs := Put(s, c, i, x), Items(s, c);
    var ys := xs[..i] + [x] + xs[i..];
    PutListAt(xs, i, x, ys);
    assert Items(s', c) == ys && ys[..i] == xs[..i] && ys[i + 1..] == xs[i..] && xs[..i] + xs[i..] == xs;
    SumSplit(s, f, cache, ys, i);
    SumSame(s, s', f, cache, cache, ys);
  }

  lemma PutSums(s: Store, f: Measure, cache: seq<int>, c: Id, i: nat, x: Id)
    requires Linked(s) && Consistent(s, f, cache)
    requires IsBox(s, c) && x < |s| && x != c && i <= |Items(s, c)|
    ensures ConsistentBut(Put(s, c, i, x), f, cache, c, Whole(s, f, cache, x))
  {
    var s' := Put(s, c, i, x);
    assert SumsUp(s, f, cache, c, 0);
    PutSumHere(s, f, cache, c, i, x);
    forall d | 0 <= d < |s'| && s'[d].box.Box? && d != c ensures SumsUp(s', f, cache, d, 0) {
      assert SumsUp(s, f, cache, d, 0);
      SumsUpSame(s, s', f, cache, d);
    }
  }

  lemma TakeSumHere(s: Store, f: Measure, cache: seq<int>, c: Id, i: nat)
    requires |cache| == |s|
    requires IsBox(s, c) && i < |Items(s, c)| && Items(s, c)[i] < |s| && Items(s, c)[i] != c
    requires SumsUp(s, f, cache, c, 0)
    ensures SumsUp(Take(s, c, i), f, cache, c, -Whole(s, f, cache, Items(s, c)[i]))
  {
    var s', xs := Take(s, c, i), Items(s, c);
    SumSplit(s, f, cache, xs, i);
    SumSame(s, s', f, cache, cache, xs[..i] + xs[i + 1..]);
  }

  lemma TakeSums(s: Store, f: Measure, cache: seq<int>, c: Id, i: nat)
    requires Linked(s) && Consistent(s, f, cache)
    requires IsBox(s, c) && i < |Items(s, c)| && Items(s, c)[i] < |s| && Items(s, c)[i] != c
    ensures ConsistentBut(Take(s, c, i), f, cache, c, -Whole(s, f, cache, Items(s, c)[i]))
  {
    var s' := Take(s, c, i);
    assert SumsUp(s, f, cache, c, 0);
    TakeSumHere(s, f, cache, c, i);
    forall d | 0 <= d < |s'| && s'[d].box.Box? && d != c ensures SumsUp(s', f, cache, d, 0) {
      assert SumsUp(s, f, cache, d, 0);
      SumsUpSame(s, s', f, cache, d);
    }
  }

  /** Sum over a duplicate-free list when the count of one entry changes. */
  lemma {:induction false} SumItem(s: Store, f: Measure, cache: seq<int>, x: Id, kind: Kind, n: nat, xs: seq<Id>)
    requires |cache| == |s| && x < |s| && Distinct(xs) && InStore(s, xs)
    ensures Sum(SetItem(s, x, kind, n), f, cache, xs)
            == Sum(s, f, cache, xs) + if x in xs then f(kind, n) - f(s[x].kind, s[x].count) else 0
  {
    if xs != [] {
      DistinctTail(xs);
      SumItem(s, f, cache, x, kind, n, xs[1..]);
    }
  }

  lemma SetItemSums(s: Store, f: Measure, cache: seq<int>, x: Id, kind: Kind, n: nat, c: Id)
    requires Linked(s) && Consistent(s, f, cache) && x < |s| && s[x].parent == Inside(c)
    ensures c < |s| && ConsistentBut(SetItem(s, x, kind, n), f, cache, c, f(kind, n) - f(s[x].kind, s[x].count))
  {
    assert NodeOk(s, x);
    var s' := SetItem(s, x, kind, n);
    forall d | 0 <= d < |s'| && s'[d].box.Box?
      ensures SumsUp(s', f, cache, d, if d == c then f(kind, n) - f(s[x].kind, s[x].count) else 0)
    {
      assert SumsUp(s, f, cache, d, 0);
      assert NodeOk(s, d) && NodeOk(s, x);
      assert Items(s', d) == Items(s, d);
      SumItem(s, f, cache, x, kind, n, Items(s, d));
    }
  }

  lemma SpawnSums(s: Store, f: Measure, cache: seq<int>, kind: Kind, n: nat)
    requires Consistent(s, f, cache)
    ensures Consistent(Spawn(s, kind, n), f, cache + [0])
  {
    var s' := Spawn(s, kind, n);
    forall d | 0 <= d < |s'| && s'[d].box.Box? ensures SumsUp(s', f, cache + [0], d, 0) {
      assert SumsUp(s, f, cache, d, 0);
      SumSame(s, s', f, cache, cache + [0], Items(s, d));
      assert Items(s', d) == Items(s, d);
    }
  }

  // ----- totals over the whole store ----------------------------------------------------

  function Held(n: Node, f: Measure): int {
    if n.parent.Inside? then f(n.kind, n.count) else 0
  }

  /** The measure of everything that some container holds. */
  function Total(s: Store, f: Measure): int {
    if s == [] then 0 else Held(s[0], f) + Total(s[1..], f)
  }

  lemma {:induction false} TotalUpdate(s: Store, f: Measure, x: Id, n: Node)
    requires x < |s|
    ensures Total(s[x := n], f) == Total(s, f) + Held(n, f) - Held(s[x], f)
  {
    if x == 0 {
      assert s[x := n][1..] == s[1..];
    } else {
      assert s[x := n][1..] == s[1..][x - 1 := n];
      TotalUpdate(s[1..], f, x - 1, n);
    }
  }

  lemma {:induction false} TotalAppend(s: Store, f: Measure, n: Node)
    ensures Total(s + [n], f) == Total(s, f) + Held(n, f)
  {
    if s == [] {
      assert [n][1..] == [];
    } else {
      assert (s + [n])[1..] == s[1..] + [n];
      TotalAppend(s[1..], f, n);
    }
  }

  lemma PutTotal(s: Store, f: Measure, c: Id, i: nat, x: Id)
    requires IsBox(s, c) && x < |s| && x != c && i <= |Items(s, c)| && s[x].parent == Nowhere
    ensures Total(Put(s, c, i, x), f) == Total(s, f) + f(s[x].kind, s[x].count)
  {
    var s1 := s[x := s[x].(parent := Inside(c))];
    TotalUpdate(s, f, x, s[x].(parent := Inside(c)));
    TotalUpdate(s1, f, c, Put(s, c, i, x)[c]);
  }

  lemma TakeTotal(s: Store, f: Measure, c: Id, i: nat)
    requires IsBox(s, c) && i < |Items(s, c)| && Items(s, c)[i] < |s| && Items(s, c)[i] != c
    requires s[Items(s, c)[i]].parent.Inside?
    ensures Total(Take(s, c, i), f)
            == Total(s, f) - f(s[Items(s, c)[i]].kind, s[Items(s, c)[i]].count)
  {
    var x := Items(s, c)[i];
    var s1 := s[x := s[x].(parent := Nowhere)];
    TotalUpdate(s, f, x, s[x].(parent := Nowhere));
    TotalUpdate(s1, f, c, Take(s, c, i)[c]);
  }

  // ----- recursive sums -----------------------------------------------------------------

  ghost function DeepCache(s: Store, r: seq<nat>, f: Measure): (cache: seq<int>)
    requires Forest(s, r)
    ensures |cache| == |s|
  {
    seq(|s|, c requires 0 <= c < |s| => DeepIn(s, r, f, c))
  }

  lemma {:induction false} DeepIsSum(s: Store, r: seq<nat>, f: Measure, xs: seq<Id>, bound: nat)
    requires Forest(s, r) && Below(s, r, xs, bound)
    ensures Deep(s, r, f, xs, bound) == Sum(s, f, DeepCache(s, r, f), xs)
    decreases |xs|
  {
    if xs != [] {
      assert forall j :: 0 <= j < |xs[1..]| ==> xs[1..][j] == xs[j + 1];
      DeepIsSum(s, r, f, xs[1..], bound);
      ItemsRankLower(s, r, xs[0]);
      assert Items(s, xs[0]) == [] || s[xs[0]].box.Box?;
    }
  }

  lemma DeepCacheConsistent(s: Store, r: seq<nat>, f: Measure)
    requires Forest(s, r)
    ensures Consistent(s, f, DeepCache(s, r, f))
  {
    forall c | 0 <= c < |s| && s[c].box.Box? ensures SumsUp(s, f, DeepCache(s, r, f), c, 0) {
      ItemsRankLower(s, r, c);
      DeepIsSum(s, r, f, Items(s, c), r[c]);
    }
  }

  /** If one cache entry is off by `delta`, the recursive sums move by `delta` along its chain. */
  lemma DeepAfter(s: Store, r: seq<nat>, f: Measure, cache: seq<int>, p: Id, delta: int, d: Id)
    requires Forest(s, r) && ConsistentBut(s, f, cache, p, delta) && IsBox(s, d)
    ensures DeepIn(s, r, f, d) == cache[d] + if d in Chain(s, r, p) then delta else 0
  {
    AddAlongRepairs(s, r, f, cache, p, delta);
    AddAlongAt(s, r, cache, p, delta);
    CachedTotalIsRecursiveTotal(s, r, f, AddAlong(s, r, cache, p, delta), d);
  }

  /** Putting `x` into `c` adds what `x` amounts to, along the chain of `c` and nowhere else. */
  lemma PutDeep(s: Store, r: seq<nat>, f: Measure, c: Id, i: nat, x: Id, d: Id)
    requires Forest(s, r) && IsBox(s, c) && x < |s| && i <= |Items(s, c)| && IsBox(s, d)
    requires s[x].parent == Nowhere && x !in Chain(s, r, c)
    requires s[x].box.Box? ==> s[x].box.role == Bag
    ensures x != c && Forest(Put(s, c, i, x), Lifted(s, r, c, x))
    ensures DeepIn(Put(s, c, i, x), Lifted(s, r, c, x), f, d)
            == DeepIn(s, r, f, d)
               + if d in Chain(s, r, c) then f(s[x].kind, s[x].count) + DeepIn(s, r, f, x) else 0
  {
    PutForest(s, r, c, i, x);
    DeepCacheConsistent(s, r, f);
    PutSums(s, f, DeepCache(s, r, f), c, i, x);
    DeepLeaf(s, r, f, x);
    DeepAfter(Put(s, c, i, x), Lifted(s, r, c, x), f, DeepCache(s, r, f), c,
              f(s[x].kind, s[x].count) + DeepIn(s, r, f, x), d);
  }

  lemma DeepLeaf(s: Store, r: seq<nat>, f: Measure, x: Id)
    requires Forest(s, r) && x < |s|
    ensures !s[x].box.Box? ==> DeepIn(s, r, f, x) == 0
    ensures Whole(s, f, DeepCache(s, r, f), x) == f(s[x].kind, s[x].count) + DeepIn(s, r, f, x)
  {}

  lemma TakeDeep(s: Store, r: seq<nat>, f: Measure, c: Id, i: nat, d: Id)
    requires Forest(s, r) && IsBox(s, c) && i < |Items(s, c)| && IsBox(s, d)
    ensures Items(s, c)[i] < |s| && Items(s, c)[i] != c && Forest(Take(s, c, i), r)
    ensures var x := Items(s, c)[i];
            DeepIn(Take(s, c, i), r, f, d)
            == DeepIn(s, r, f, d)
               - if d in Chain(s, r, c) then f(s[x].kind, s[x].count) + DeepIn(s, r, f, x) else 0
  {
    TakeForest(s, r, c, i);
    var x := Items(s, c)[i];
    DeepCacheConsistent(s, r, f);
    TakeSums(s, f, DeepCache(s, r, f), c, i);
    DeepLeaf(s, r, f, x);
    DeepAfter(Take(s, c, i), r, f, DeepCache(s, r, f), c, -(f(s[x].kind, s[x].count) + DeepIn(s, r, f, x)), d);
  }

  lemma SetItemDeep(s: Store, r: seq<nat>, f: Measure, x: Id, kind: Kind, n: nat, d: Id)
    requires Forest(s, r) && x < |s| && s[x].parent.Inside? && IsBox(s, d)
    ensures Forest(SetItem(s, x, kind, n), r)
    ensures s[x].parent.c < |s|
    ensures DeepIn(SetItem(s, x, kind, n), r, f, d)
            == DeepIn(s, r, f, d)
               + if d in Chain(s, r, s[x].parent.c) then f(kind, n) - f(s[x].kind, s[x].count) else 0
  {
    assert NodeOk(s, x);
    SetItemForest(s, r, x, kind, n);
    DeepCacheConsistent(s, r, f);
    SetItemSums(s, f, DeepCache(s, r, f), x, kind, n, s[x].parent.c);
    DeepAfter(SetItem(s, x, kind, n), r, f, DeepCache(s, r, f), s[x].parent.c,
              f(kind, n) - f(s[x].kind, s[x].count), d);
  }

  lemma SpawnDeep(s: Store, r: seq<nat>, f: Measure, kind: Kind, n: nat, d: Id)
    requires Forest(s, r) && IsBox(s, d)
    ensures Forest(Spawn(s, kind, n), r + [0])
    ensures DeepIn(Spawn(s, kind, n), r + [0], f, d) == DeepIn(s, r, f, d)
  {
    SpawnForest(s, r, kind, n);
    DeepCacheConsistent(s, r, f);
    SpawnSums(s, f, DeepCache(s, r, f), kind, n);
    CachedTotalIsRecursiveTotal(Spawn(s, kind, n), r + [0], f, DeepCache(s, r, f) + [0], d);
  }
}
