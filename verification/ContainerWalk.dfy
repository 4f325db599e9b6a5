/**
  `ContainerIterator` (src/container.h:35-50, src/container.cpp:732-765) and the loops that use it.
  */
module ContainerWalk {
  import opened ItemForest

  function One(kind: Kind, n: nat): int { 1 }

  /** All items below a list, with multiplicity. */
  ghost function Ids(s: Store, r: seq<nat>, xs: seq<Id>, bound: nat): multiset<Id>
    requires Forest(s, r) && Below(s, r, xs, bound)
    decreases bound, |xs|
  {
    if xs == [] then multiset{}
    else
      var x := xs[0];
      ItemsRankLower(s, r, x);
      assert forall j :: 0 <= j < |xs[1..]| ==> xs[1..][j] == xs[j + 1];
      multiset{x} + Ids(s, r, Items(s, x), r[x]) + Ids(s, r, xs[1..], bound)
  }

  ghost function IdsIn(s: Store, r: seq<nat>, c: Id): multiset<Id>
    requires Forest(s, r) && c < |s|
  {
    ItemsRankLower(s, r, c);
    Ids(s, r, Items(s, c), r[c])
  }

  /** Everything below the containers of a queue. */
  ghost function IdsInAll(s: Store, r: seq<nat>, cs: seq<Id>): multiset<Id>
    requires Forest(s, r) && InStore(s, cs)
  {
    if cs == [] then multiset{} else IdsIn(s, r, cs[0]) + IdsInAll(s, r, cs[1..])
  }

  lemma {:induction false} IdsInAllAppend(s: Store, r: seq<nat>, cs: seq<Id>, c: Id)
    requires Forest(s, r) && InStore(s, cs) && c < |s|
    ensures IdsInAll(s, r, cs + [c]) == IdsInAll(s, r, cs) + IdsIn(s, r, c)
  {
    if cs == [] {
      assert cs + [c] == [c];
    } else {
      assert (cs + [c])[1..] == cs[1..] + [c];
      IdsInAllAppend(s, r, cs[1..], c);
    }
  }

  /** The number of items below a container is the recursive count. */
  lemma {:induction false} IdsCount(s: Store, r: seq<nat>, xs: seq<Id>, bound: nat)
    requires Forest(s, r) && Below(s, r, xs, bound)
    ensures |Ids(s, r, xs, bound)| == Deep(s, r, One, xs, bound)
    decreases bound, |xs|
  {
    if xs != [] {
      ItemsRankLower(s, r, xs[0]);
      assert forall j :: 0 <= j < |xs[1..]| ==> xs[1..][j] == xs[j + 1];
      IdsCount(s, r, Items(s, xs[0]), r[xs[0]]);
      IdsCount(s, r, xs[1..], bound);
    }
  }

  // ----- looking down and looking up agree, and nothing is met twice ---------------------

  ghost predicate Siblings(s: Store, xs: seq<Id>, p: Id) {
    Distinct(xs) && InStore(s, xs) && forall j :: 0 <= j < |xs| ==> s[xs[j]].parent == Inside(p)
  }

  ghost predicate Above(s: Store, r: seq<nat>, xs: seq<Id>, y: Id)
    requires Forest(s, r) && y < |s|
  {
    exists j :: 0 <= j < |xs| && xs[j] in Chain(s, r, y)
  }

  lemma ItemsAreSiblings(s: Store, r: seq<nat>, c: Id)
    requires Forest(s, r) && c < |s|
    ensures Siblings(s, Items(s, c), c) && Below(s, r, Items(s, c), r[c])
  {
    assert NodeOk(s, c);
    ItemsRankLower(s, r, c);
  }

  lemma SiblingsTail(s: Store, r: seq<nat>, xs: seq<Id>, p: Id, bound: nat)
    requires |r| == |s| && Siblings(s, xs, p) && Below(s, r, xs, bound) && xs != []
    ensures Siblings(s, xs[1..], p) && Below(s, r, xs[1..], bound)
  {
    assert forall j :: 0 <= j < |xs[1..]| ==> xs[1..][j] == xs[j + 1];
  }

  /** Two siblings are never both in one chain. */
  lemma {:induction false} OneSiblingAbove(s: Store, r: seq<nat>, a: Id, b: Id, p: Id, y: Id)
    requires Forest(s, r) && y < |s| && a < |s| && b < |s|
    requires s[a].parent == Inside(p) && s[b].parent == Inside(p)
    requires a in Chain(s, r, y) && b in Chain(s, r, y)
    ensures a == b
    decreases Top(r) - r[y]
  {
    assert NodeOk(s, y) && RankOk(s, r, y) && RankOk(s, r, a) && RankOk(s, r, b) && NodeOk(s, a);
    if y != a && y != b {
      OneSiblingAbove(s, r, a, b, p, s[y].parent.c);
    }
  }

  /** The container of an item is in its chain exactly when one of its items is, or it is the item itself. */
  lemma {:induction false} ThroughAChild(s: Store, r: seq<nat>, c: Id, y: Id)
    requires Forest(s, r) && c < |s| && y < |s|
    ensures Above(s, r, Items(s, c), y) <==> c in Chain(s, r, y) && c != y
    decreases Top(r) - r[y]
  {
    ItemsAreSiblings(s, r, c);
    assert NodeOk(s, y) && RankOk(s, r, y);
    if s[y].parent == Inside(c) {
      var j :| 0 <= j < |Items(s, c)| && Items(s, c)[j] == y;
    } else if s[y].parent.Inside? {
      ThroughAChild(s, r, c, s[y].parent.c);
    }
  }

  /** Each item is listed once if one of the siblings is above it, and not at all otherwise. */
  lemma {:induction false} IdsOnce(s: Store, r: seq<nat>, xs: seq<Id>, bound: nat, p: Id, y: Id)
    requires Forest(s, r) && Below(s, r, xs, bound) && Siblings(s, xs, p) && y < |s|
    ensures Ids(s, r, xs, bound)[y] == if Above(s, r, xs, y) then 1 else 0
    decreases bound, |xs|
  {
    if xs != [] {
      var x := xs[0];
      ItemsAreSiblings(s, r, x);
      SiblingsTail(s, r, xs, p, bound);
      IdsOnce(s, r, Items(s, x), r[x], x, y);
      IdsOnce(s, r, xs[1..], bound, p, y);
      ThroughAChild(s, r, x, y);
      HeadOrTailAbove(s, r, xs, p, y);
      assert x == y ==> x in Chain(s, r, y);
    }
  }

  lemma HeadOrTailAbove(s: Store, r: seq<nat>, xs: seq<Id>, p: Id, y: Id)
    requires Forest(s, r) && Siblings(s, xs, p) && y < |s| && xs != []
    ensures Above(s, r, xs, y) <==> xs[0] in Chain(s, r, y) || Above(s, r, xs[1..], y)
    ensures !(xs[0] in Chain(s, r, y) && Above(s, r, xs[1..], y))
  {
    if j :| 0 <= j < |xs[1..]| && xs[1..][j] in Chain(s, r, y) {
      assert xs[j + 1] == xs[1..][j];
      if xs[0] in Chain(s, r, y) {
        OneSiblingAbove(s, r, xs[0], xs[j + 1], p, y);
        assert false;
      }
    }
    if Above(s, r, xs, y) && xs[0] !in Chain(s, r, y) {
      var j :| 0 <= j < |xs| && xs[j] in Chain(s, r, y);
      assert xs[1..][j - 1] == xs[j];
    }
  }

  lemma {:induction false} IdsInStore(s: Store, r: seq<nat>, xs: seq<Id>, bound: nat)
    requires Forest(s, r) && Below(s, r, xs, bound)
    ensures forall y :: y in Ids(s, r, xs, bound) ==> y < |s|
    decreases bound, |xs|
  {
    if xs != [] {
      ItemsRankLower(s, r, xs[0]);
      assert forall j :: 0 <= j < |xs[1..]| ==> xs[1..][j] == xs[j + 1];
      IdsInStore(s, r, Items(s, xs[0]), r[xs[0]]);
      IdsInStore(s, r, xs[1..], bound);
    }
  }

  /** What is below `c`: exactly the items whose chain leads through `c`, each once. */
  lemma HeldExactlyOnce(s: Store, r: seq<nat>, c: Id, y: Id)
    requires Forest(s, r) && c < |s|
    ensures IdsIn(s, r, c)[y] == if y < |s| && y != c && c in Chain(s, r, y) then 1 else 0
  {
    ItemsAreSiblings(s, r, c);
    if y < |s| {
      IdsOnce(s, r, Items(s, c), r[c], c, y);
      ThroughAChild(s, r, c, y);
    } else {
      IdsInStore(s, r, Items(s, c), r[c]);
    }
  }

  /** Only one root is above an item. */
  lemma {:induction false} OneRoot(s: Store, r: seq<nat>, y: Id, a: Id, b: Id)
    requires Forest(s, r) && y < |s| && a in Chain(s, r, y) && b in Chain(s, r, y)
    requires !s[a].parent.Inside? && !s[b].parent.Inside?
    ensures a == b
    decreases Top(r) - r[y]
  {
    assert NodeOk(s, y) && RankOk(s, r, y);
    if s[y].parent.Inside? {
      OneRoot(s, r, s[y].parent.c, a, b);
    }
  }

  // ----- the iterator -------------------------------------------------------------------

  ghost predicate Ready(s: Store, r: seq<nat>, over: seq<Id>, cur: nat) {
    && Forest(s, r)
    && InStore(s, over)
    && (over != [] ==> cur < |Items(s, over[0])|)
    && Full(s, over)
  }

  /** Queued containers are not empty. */
  ghost predicate Full(s: Store, over: seq<Id>) {
    forall j :: 1 <= j < |over| ==> Items(s, over[j]) != []
  }

  lemma SuffixBelow(s: Store, r: seq<nat>, c: Id, cur: nat)
    requires Forest(s, r) && c < |s| && cur <= |Items(s, c)|
    ensures Below(s, r, Items(s, c)[cur..], r[c])
  {
    ItemsRankLower(s, r, c);
  }

  /** What is still to be visited: the rest of the front container, then the queued containers. */
  ghost function Left(s: Store, r: seq<nat>, over: seq<Id>, cur: nat): multiset<Id>
    requires Forest(s, r) && InStore(s, over)
    requires over != [] ==> cur <= |Items(s, over[0])|
  {
    if over == [] then multiset{}
    else
      SuffixBelow(s, r, over[0], cur);
      Ids(s, r, Items(s, over[0])[cur..], r[over[0]]) + IdsInAll(s, r, over[1..])
  }

  lemma Regroup(x: Id, below: multiset<Id>, tail: multiset<Id>, queued: multiset<Id>)
    ensures multiset{x} + below + tail + queued == multiset{x} + (tail + (queued + below))
  {}

  lemma IdsFront(s: Store, r: seq<nat>, c: Id, cur: nat)
    requires Forest(s, r) && c < |s| && cur < |Items(s, c)|
    ensures Items(s, c)[cur] < |s|
    ensures Below(s, r, Items(s, c)[cur..], r[c]) && Below(s, r, Items(s, c)[cur + 1..], r[c])
    ensures Ids(s, r, Items(s, c)[cur..], r[c])
            == multiset{Items(s, c)[cur]} + IdsIn(s, r, Items(s, c)[cur]) + Ids(s, r, Items(s, c)[cur + 1..], r[c])
  {
    ItemsRankLower(s, r, c);
    assert Items(s, c)[cur..][1..] == Items(s, c)[cur + 1..];
  }

  /** Visiting an item moves what it holds from the front list to the queue. */
  lemma VisitOne(s: Store, r: seq<nat>, over: seq<Id>, cur: nat, x: Id)
    requires Forest(s, r) && InStore(s, over) && over != [] && cur < |Items(s, over[0])| && x == Items(s, over[0])[cur]
    ensures x < |s|
    ensures Left(s, r, over, cur) == multiset{x} + Left(s, r, over + [x], cur + 1)
  {
    var c := over[0];
    IdsFront(s, r, c, cur);
    assert (over + [x])[0] == c && (over + [x])[1..] == over[1..] + [x];
    IdsInAllAppend(s, r, over[1..], x);
    Regroup(x, IdsIn(s, r, x), Ids(s, r, Items(s, c)[cur + 1..], r[c]), IdsInAll(s, r, over[1..]));
  }

  /** An item that holds nothing need not be queued. */
  lemma VisitLeaf(s: Store, r: seq<nat>, over: seq<Id>, cur: nat, x: Id)
    requires Forest(s, r) && InStore(s, over) && over != [] && cur < |Items(s, over[0])| && x == Items(s, over[0])[cur]
    requires Items(s, x) == []
    ensures x < |s|
    ensures Left(s, r, over, cur) == multiset{x} + Left(s, r, over, cur + 1)
  {
    IdsFront(s, r, over[0], cur);
  }

  /** A finished front container leaves the queue without effect. */
  lemma PopOne(s: Store, r: seq<nat>, over: seq<Id>)
    requires Forest(s, r) && InStore(s, over) && over != []
    ensures InStore(s, over[1..])
    ensures Left(s, r, over, |Items(s, over[0])|) == Left(s, r, over[1..], 0)
  {
    assert Items(s, over[0])[|Items(s, over[0])|..] == [];
    if over[1..] != [] {
      assert Items(s, over[1])[0..] == Items(s, over[1]);
    }
  }

  /** The queue after visiting `x`: `x` joins it if it holds anything. */
  function Queued(s: Store, over: seq<Id>, x: Id): seq<Id> {
    if Items(s, x) != [] then over + [x] else over
  }

  lemma QueuedReady(s: Store, over: seq<Id>, x: Id, queue: seq<Id>)
    requires InStore(s, over) && over != [] && Full(s, over) && x < |s| && queue == Queued(s, over, x)
    ensures InStore(s, queue) && queue != [] && queue[0] == over[0] && Full(s, queue)
  {}

  lemma VisitStep(s: Store, r: seq<nat>, over: seq<Id>, cur: nat, x: Id, queue: seq<Id>)
    requires Forest(s, r) && InStore(s, over) && over != [] && cur < |Items(s, over[0])|
    requires x == Items(s, over[0])[cur] && queue == Queued(s, over, x) && InStore(s, queue) && queue[0] == over[0]
    ensures Left(s, r, over, cur) == multiset{x} + Left(s, r, queue, cur + 1)
  {
    if Items(s, x) != [] {
      VisitOne(s, r, over, cur, x);
    } else {
      VisitLeaf(s, r, over, cur, x);
    }
  }

  function Next(s: Store, over: seq<Id>, cur: nat): (seq<Id>, nat)
    requires over != [] && cur < |Items(s, over[0])|
  {
    var over' := Queued(s, over, Items(s, over[0])[cur]);
    if cur + 1 < |Items(s, over[0])| then (over', cur + 1) else (over'[1..], 0)
  }

  lemma PopReady(s: Store, r: seq<nat>, queue: seq<Id>)
    requires Forest(s, r) && InStore(s, queue) && queue != [] && Full(s, queue)
    ensures Ready(s, r, queue[1..], 0)
  {
    assert forall j :: 0 <= j < |queue[1..]| ==> queue[1..][j] == queue[j + 1];
  }

  /** One step: the current item is the only one to leave what is still to be visited. */
  lemma NextVisits(s: Store, r: seq<nat>, over: seq<Id>, cur: nat, over': seq<Id>, cur': nat)
    requires Ready(s, r, over, cur) && over != [] && (over', cur') == Next(s, over, cur)
    ensures Ready(s, r, over', cur')
    ensures Left(s, r, over, cur) == multiset{Items(s, over[0])[cur]} + Left(s, r, over', cur')
  {
    ItemsRankLower(s, r, over[0]);
    var x := Items(s, over[0])[cur];
    var queue := Queued(s, over, x);
    QueuedReady(s, over, x, queue);
    VisitStep(s, r, over, cur, x, queue);
    if cur + 1 == |Items(s, over[0])| {
      PopOne(s, r, queue);
      PopReady(s, r, queue);
    }
  }

  class ContainerIterator {
    var over: seq<Id>
    var cur: nat

    ghost predicate Valid(s: Store, r: seq<nat>)
      reads this
    {
      Ready(s, r, over, cur)
    }

    ghost function Remaining(s: Store, r: seq<nat>): multiset<Id>
      requires Valid(s, r)
      reads this
    {
      Left(s, r, over, cur)
    }

    constructor (s: Store, ghost r: seq<nat>, c: Id)
      requires Forest(s, r) && c < |s|
      ensures Valid(s, r) && Remaining(s, r) == IdsIn(s, r, c)
    {
      over, cur := if Items(s, c) != [] then [c] else [], 0;
      new;
      assert Items(s, c)[0..] == Items(s, c);
    }

    method HasNext() returns (b: bool)
      ensures b <==> over != []
    {
      b := over != [];
    }

    method Current(s: Store, ghost r: seq<nat>) returns (x: Id)
      requires Valid(s, r) && over != []
      ensures x == Items(s, over[0])[cur] && x < |s|
    {
      ItemsRankLower(s, r, over[0]);
      x := Items(s, over[0])[cur];
    }

    /** Steps past the current item, which is the only one to leave `Remaining`. */
    method Advance(s: Store, ghost r: seq<nat>)
      requires Valid(s, r) && over != []
      modifies this
      ensures Valid(s, r)
      ensures old(Remaining(s, r)) == multiset{old(Items(s, over[0])[cur])} + Remaining(s, r)
    {
      var queue, x, next := over, Items(s, over[0])[cur], cur + 1;
      if Items(s, x) != [] {
        queue := queue + [x];
      }
      if next == |Items(s, queue[0])| {
        queue, next := queue[1..], 0;
      }
      NextVisits(s, r, over, cur, queue, next);
      over, cur := queue, next;
    }
  }

  lemma Grow(visited: seq<Id>, x: Id, left: multiset<Id>, left': multiset<Id>)
    requires left == multiset{x} + left'
    ensures multiset(visited + [x]) + left' == multiset(visited) + left
  {}

  lemma VisitedIsHeld(s: Store, r: seq<nat>, c: Id, visited: seq<Id>)
    requires Forest(s, r) && c < |s| && multiset(visited) == IdsIn(s, r, c)
    ensures forall y: nat :: y < |s| ==> (y in visited <==> y != c && c in Chain(s, r, y))
    ensures forall y: nat :: multiset(visited)[y] <= 1
  {
    forall y: nat
      ensures multiset(visited)[y] <= 1
      ensures y < |s| ==> (y in visited <==> y != c && c in Chain(s, r, y))
    {
      HeldExactlyOnce(s, r, c, y);
      assert y in visited <==> y in multiset(visited);
    }
  }

  /** `Container::getItems(true)`: every item below the container, each exactly once. */
  method GetItemsRecursive(s: Store, ghost r: seq<nat>, c: Id) returns (visited: seq<Id>)
    requires Forest(s, r) && c < |s|
    ensures multiset(visited) == IdsIn(s, r, c)
    ensures forall y: nat :: y < |s| ==> (y in visited <==> y != c && c in Chain(s, r, y))
    ensures forall y: nat :: multiset(visited)[y] <= 1
  {
    var it := new ContainerIterator(s, r, c);
    visited := [];
    var more := it.HasNext();
    while more
      invariant it.Valid(s, r) && more == (it.over != [])
      invariant multiset(visited) + it.Remaining(s, r) == IdsIn(s, r, c)
      decreases it.Remaining(s, r)
    {
      var x := it.Current(s, r);
      ghost var before := it.Remaining(s, r);
      it.Advance(s, r);
      Grow(visited, x, before, it.Remaining(s, r));
      visited := visited + [x];
      more := it.HasNext();
    }
    VisitedIsHeld(s, r, c, visited);
  }

  /** `Container::getItemHoldingCount` counts what the recursive definition counts. */
  method GetItemHoldingCount(s: Store, ghost r: seq<nat>, c: Id) returns (counter: nat)
    requires Forest(s, r) && c < |s|
    ensures counter == DeepIn(s, r, One, c)
  {
    var it := new ContainerIterator(s, r, c);
    counter := 0;
    var more := it.HasNext();
    while more
      invariant it.Valid(s, r) && more == (it.over != [])
      invariant counter + |it.Remaining(s, r)| == |IdsIn(s, r, c)|
      decreases it.Remaining(s, r)
    {
      counter := counter + 1;
      ghost var before := it.Remaining(s, r);
      ghost var x := Items(s, it.over[0])[it.cur];
      it.Advance(s, r);
      assert |before| == |multiset{x}| + |it.Remaining(s, r)|;
      more := it.HasNext();
    }
    ItemsRankLower(s, r, c);
    IdsCount(s, r, Items(s, c), r[c]);
  }

  /** `Container::isHoldingItem`: the answer is whether the item's chain leads through the container. */
  method IsHoldingItem(s: Store, ghost r: seq<nat>, c: Id, x: Id) returns (held: bool)
    requires Forest(s, r) && c < |s| && x < |s|
    ensures held <==> x != c && c in Chain(s, r, x)
  {
    var it := new ContainerIterator(s, r, c);
    var more := it.HasNext();
    HeldExactlyOnce(s, r, c, x);
    while more
      invariant it.Valid(s, r) && more == (it.over != [])
      invariant it.Remaining(s, r)[x] == IdsIn(s, r, c)[x]
      decreases it.Remaining(s, r)
    {
      var y := it.Current(s, r);
      it.Advance(s, r);
      if y == x {
        return true;
      }
      more := it.HasNext();
    }
    held := false;
  }
}
