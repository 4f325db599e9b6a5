/**
  Moving an item from one container to another (src/game.cpp:1061-1207).

  `MoveResult` is what a move does to the store, in three stages: pieces leave the source,
  pieces join the stack found at the destination, and what is left over is added there.
  */
module ItemMoves {
  import opened Common
  import opened ItemForest
  import opened ItemSteps
  import opened ContainerWalk
  import opened Containers

  const MAP_MAX_LAYERS := 16

  /** What the questions of `internalMoveItem` settle before anything changes. */
  datatype Plan = Plan(from: Id, at: nat, to: Id, m: nat, toItem: Option<Id>, dropped: bool)

  ghost predicate PlanOk(s: Store, r: seq<nat>, p: Plan) {
    && Forest(s, r) && Stacks(s)
    && IsBox(s, p.from) && IsBox(s, p.to) && p.at < |Items(s, p.from)|
    && Moving(s, p) < |s| && Moving(s, p) !in Chain(s, r, p.to)
    && p.m >= 1
    && (s[Moving(s, p)].kind.stackable ==> p.m <= s[Moving(s, p)].count)
    && (p.toItem.Some? ==> p.toItem.value in Items(s, p.to) && p.toItem.value != Moving(s, p))
  }

  function Moving(s: Store, p: Plan): Id
    requires IsBox(s, p.from) && p.at < |Items(s, p.from)|
  {
    Items(s, p.from)[p.at]
  }

  function Split(s: Store, p: Plan): bool
    requires IsBox(s, p.from) && p.at < |Items(s, p.from)| && Moving(s, p) < |s|
  {
    s[Moving(s, p)].kind.stackable && p.m != s[Moving(s, p)].count
  }

  function Min(a: int, b: int): (m: int)
    ensures m <= a && m <= b && m in {a, b}
  {
    if a <= b then a else b
  }

  /** How many of the moved pieces join the destination stack. */
  ghost function Merged(s: Store, r: seq<nat>, p: Plan): (n: nat)
    requires PlanOk(s, r, p)
    ensures n <= p.m
    ensures p.toItem.Some? ==> p.toItem.value < |s| && s[p.toItem.value].parent == Inside(p.to)
    ensures p.toItem.Some? && s[p.toItem.value].kind.stackable ==> 1 <= s[p.toItem.value].count <= 100
    ensures n > 0 ==> p.toItem.Some? && s[p.toItem.value].count + n <= 100
  {
    if p.toItem.Some? then
      HeldBy(s, p.to, p.toItem.value);
      assert StackOk(s[p.toItem.value]);
      if s[Moving(s, p)].kind.stackable && s[p.toItem.value].kind == s[Moving(s, p)].kind
      then Min(100 - s[p.toItem.value].count, p.m) else 0
    else 0
  }

  ghost function Leave(s: Store, r: seq<nat>, p: Plan): (s': Store)
    requires PlanOk(s, r, p)
    ensures |s'| == |s|
  {
    TakeForest(s, r, p.from, p.at);
    var x := Moving(s, p);
    if Split(s, p) then SetItem(s, x, s[x].kind, s[x].count - p.m) else Take(s, p.from, p.at)
  }

  ghost function Join(s: Store, r: seq<nat>, p: Plan): (s': Store)
    requires PlanOk(s, r, p)
    ensures |s'| == |s|
  {
    var n := Merged(s, r, p);
    if n > 0 then SetItem(Leave(s, r, p), p.toItem.value, s[p.toItem.value].kind, s[p.toItem.value].count + n)
    else Leave(s, r, p)
  }

  /** Whether something is left to be added as an item of its own. */
  ghost predicate LeftOver(s: Store, r: seq<nat>, p: Plan)
    requires PlanOk(s, r, p)
  {
    s[Moving(s, p)].kind.stackable ==> Merged(s, r, p) < p.m
  }

  ghost predicate NothingDropped(s: Store, r: seq<nat>, p: Plan)
    requires PlanOk(s, r, p)
  {
    LeftOver(s, r, p) ==> !p.dropped
  }

  ghost function MoveResult(s: Store, r: seq<nat>, p: Plan): Store
    requires PlanOk(s, r, p)
  {
    JoinBox(s, r, p);
    var x, s2 := Moving(s, p), Join(s, r, p);
    if !LeftOver(s, r, p) then s2
    else if s[x].kind.stackable then
      var s3 := Spawn(s2, s[x].kind, p.m - Merged(s, r, p));
      if p.dropped then s3 else Put(s3, p.to, 0, |s2|)
    else
      if p.dropped then s2 else Put(s2, p.to, 0, x)
  }

  lemma JoinBox(s: Store, r: seq<nat>, p: Plan)
    requires PlanOk(s, r, p)
    ensures IsBox(Join(s, r, p), p.to) && Moving(s, p) != p.to
    ensures |Join(s, r, p)| == |s|
  {
    TakeForest(s, r, p.from, p.at);
  }

  lemma HeldIsBag(s: Store, c: Id, x: Id)
    requires Linked(s) && c < |s| && x in Items(s, c)
    ensures x < |s| && (s[x].box.Box? ==> s[x].box.role == Bag)
  {
    HeldBy(s, c, x);
    assert NodeOk(s, x);
  }

  // ----- stage by stage -------------------------------------------------------------------

  lemma LeaveForest(s: Store, r: seq<nat>, p: Plan)
    requires PlanOk(s, r, p)
    ensures Forest(Leave(s, r, p), r)
    ensures Chain(Leave(s, r, p), r, p.to) == Chain(s, r, p.to)
    ensures !Split(s, p) ==> Leave(s, r, p)[Moving(s, p)].parent == Nowhere
    ensures p.toItem.Some? ==> p.toItem.value in Items(Leave(s, r, p), p.to)
    ensures p.toItem.Some? ==> p.toItem.value < |s| && Leave(s, r, p)[p.toItem.value].kind == s[p.toItem.value].kind
                               && Leave(s, r, p)[p.toItem.value].count == s[p.toItem.value].count
                               && Leave(s, r, p)[p.toItem.value].parent == Inside(p.to)
  {
    var x := Moving(s, p);
    TakeForest(s, r, p.from, p.at);
    if p.toItem.Some? {
      HeldBy(s, p.to, p.toItem.value);
      TakeItemsAt(s, p.from, p.at, p.to);
    }
    if Split(s, p) {
      SetItemForest(s, r, x, s[x].kind, s[x].count - p.m);
    } else {
      ChainStable(s, r, Leave(s, r, p), r, p.to);
    }
  }

  lemma JoinForest(s: Store, r: seq<nat>, p: Plan)
    requires PlanOk(s, r, p)
    ensures Forest(Join(s, r, p), r) && IsBox(Join(s, r, p), p.to)
    ensures Chain(Join(s, r, p), r, p.to) == Chain(s, r, p.to)
    ensures !Split(s, p) ==> Join(s, r, p)[Moving(s, p)].parent == Nowhere
    ensures Join(s, r, p)[Moving(s, p)].box == s[Moving(s, p)].box
    ensures Join(s, r, p)[Moving(s, p)].kind == s[Moving(s, p)].kind
    ensures !Split(s, p) ==> Join(s, r, p)[Moving(s, p)].count == s[Moving(s, p)].count
  {
    LeaveForest(s, r, p);
    JoinBox(s, r, p);
    TakeForest(s, r, p.from, p.at);
    var n := Merged(s, r, p);
    if n > 0 {
      var y := p.toItem.value;
      SetItemForest(Leave(s, r, p), r, y, s[y].kind, s[y].count + n);
    }
  }

  /** The ranking after the move. */
  ghost function MoveRank(s: Store, r: seq<nat>, p: Plan): (r': seq<nat>)
    requires PlanOk(s, r, p)
  {
    JoinForest(s, r, p);
    var x, s2 := Moving(s, p), Join(s, r, p);
    if !LeftOver(s, r, p) then r
    else if s[x].kind.stackable then
      SpawnForest(s2, r, s[x].kind, p.m - Merged(s, r, p));
      if p.dropped then r + [0]
      else Lifted(Spawn(s2, s[x].kind, p.m - Merged(s, r, p)), r + [0], p.to, |s2|)
    else
      if p.dropped then r else Lifted(s2, r, p.to, x)
  }

  /** Containment stays a forest. */
  lemma MoveForest(s: Store, r: seq<nat>, p: Plan)
    requires PlanOk(s, r, p)
    ensures Forest(MoveResult(s, r, p), MoveRank(s, r, p))
  {
    JoinForest(s, r, p);
    JoinBox(s, r, p);
    var x, s2 := Moving(s, p), Join(s, r, p);
    HeldIsBag(s, p.from, x);
    if LeftOver(s, r, p) {
      if s[x].kind.stackable {
        var rest := p.m - Merged(s, r, p);
        SpawnForest(s2, r, s[x].kind, rest);
        if !p.dropped {
          PutForest(Spawn(s2, s[x].kind, rest), r + [0], p.to, 0, |s2|);
        }
      } else if !p.dropped {
        PutForest(s2, r, p.to, 0, x);
      }
    }
  }

  // ----- what moves, for any measure ------------------------------------------------------

  /** What the source side loses: of the item alone, or with all it holds. */
  ghost function Loss(s: Store, r: seq<nat>, f: Measure, p: Plan, deep: bool): int
    requires PlanOk(s, r, p)
  {
    var x := Moving(s, p);
    if Split(s, p) then f(s[x].kind, s[x].count) - f(s[x].kind, s[x].count - p.m)
    else f(s[x].kind, s[x].count) + if deep then DeepIn(s, r, f, x) else 0
  }

  /** What the destination side gains, by the merge and by the addition. */
  ghost function Gain(s: Store, r: seq<nat>, f: Measure, p: Plan, deep: bool): int
    requires PlanOk(s, r, p)
  {
    var n := Merged(s, r, p);
    (if n > 0 then f(s[p.toItem.value].kind, s[p.toItem.value].count + n)
                   - f(s[p.toItem.value].kind, s[p.toItem.value].count) else 0)
    + Added(s, r, f, p, deep)
  }

  lemma StackableLeaf(s: Store, r: seq<nat>, f: Measure, x: Id)
    requires Forest(s, r) && Stacks(s) && x < |s| && s[x].kind.stackable
    ensures DeepIn(s, r, f, x) == 0 && !s[x].box.Box?
  {
    assert StackOk(s[x]);
    DeepLeaf(s, r, f, x);
  }

  ghost function On(b: bool, a: int): int { if b then a else 0 }

  lemma LeaveDeep(s: Store, r: seq<nat>, f: Measure, p: Plan, d: Id)
    requires PlanOk(s, r, p) && IsBox(s, d)
    ensures Forest(Leave(s, r, p), r) && IsBox(Leave(s, r, p), d)
    ensures DeepIn(Leave(s, r, p), r, f, d)
            == DeepIn(s, r, f, d) - On(d in Chain(s, r, p.from), Loss(s, r, f, p, true))
  {
    LeaveForest(s, r, p);
    var x := Moving(s, p);
    HeldBy(s, p.from, x);
    if Split(s, p) {
      SetItemDeep(s, r, f, x, s[x].kind, s[x].count - p.m, d);
    } else {
      TakeDeep(s, r, f, p.from, p.at, d);
    }
  }

  lemma JoinDeep(s: Store, r: seq<nat>, f: Measure, p: Plan, d: Id)
    requires PlanOk(s, r, p) && IsBox(s, d)
    ensures Forest(Join(s, r, p), r) && IsBox(Join(s, r, p), d)
    ensures var n := Merged(s, r, p);
            DeepIn(Join(s, r, p), r, f, d)
            == DeepIn(s, r, f, d) - On(d in Chain(s, r, p.from), Loss(s, r, f, p, true))
               + On(n > 0 && d in Chain(s, r, p.to),
                    if n > 0 then f(s[p.toItem.value].kind, s[p.toItem.value].count + n)
                                  - f(s[p.toItem.value].kind, s[p.toItem.value].count) else 0)
  {
    LeaveDeep(s, r, f, p, d);
    LeaveForest(s, r, p);
    JoinForest(s, r, p);
    var n := Merged(s, r, p);
    if n > 0 {
      var y := p.toItem.value;
      SetItemDeep(Leave(s, r, p), r, f, y, s[y].kind, s[y].count + n, d);
    }
  }

  /** The moved item still holds what it held. */
  lemma MovingKeepsContents(s: Store, r: seq<nat>, f: Measure, p: Plan)
    requires PlanOk(s, r, p)
    ensures Forest(Join(s, r, p), r)
    ensures DeepIn(Join(s, r, p), r, f, Moving(s, p)) == DeepIn(s, r, f, Moving(s, p))
  {
    JoinForest(s, r, p);
    var x := Moving(s, p);
    if IsBox(s, x) {
      JoinDeep(s, r, f, p, x);
      TakeForest(s, r, p.from, p.at);
    } else {
      DeepLeaf(s, r, f, x);
      DeepLeaf(Join(s, r, p), r, f, x);
    }
  }

  /** What the addition of the left-over pieces, or of the whole item, brings. */
  ghost function Added(s: Store, r: seq<nat>, f: Measure, p: Plan, deep: bool): int
    requires PlanOk(s, r, p)
  {
    var x := Moving(s, p);
    if !LeftOver(s, r, p) || p.dropped then 0
    else if s[x].kind.stackable then f(s[x].kind, p.m - Merged(s, r, p))
    else f(s[x].kind, s[x].count) + if deep then DeepIn(s, r, f, x) else 0
  }

  lemma AddStackDeep(s: Store, r: seq<nat>, f: Measure, p: Plan, d: Id)
    requires PlanOk(s, r, p) && IsBox(s, d) && s[Moving(s, p)].kind.stackable
    ensures Forest(Join(s, r, p), r) && IsBox(Join(s, r, p), d)
    ensures Forest(MoveResult(s, r, p), MoveRank(s, r, p)) && IsBox(MoveResult(s, r, p), d)
    ensures DeepIn(MoveResult(s, r, p), MoveRank(s, r, p), f, d)
            == DeepIn(Join(s, r, p), r, f, d) + On(d in Chain(s, r, p.to), Added(s, r, f, p, true))
  {
    MoveForest(s, r, p);
    JoinForest(s, r, p);
    JoinDeep(s, r, f, p, d);
    AddRestDeep(s, r, f, p, d, Join(s, r, p));
  }

  lemma AddRestDeep(s: Store, r: seq<nat>, f: Measure, p: Plan, d: Id, j: Store)
    requires PlanOk(s, r, p) && s[Moving(s, p)].kind.stackable && j == Join(s, r, p)
    requires Forest(j, r) && IsBox(j, p.to) && IsBox(j, d) && Chain(j, r, p.to) == Chain(s, r, p.to)
    requires Forest(MoveResult(s, r, p), MoveRank(s, r, p))
    ensures IsBox(MoveResult(s, r, p), d)
    ensures DeepIn(MoveResult(s, r, p), MoveRank(s, r, p), f, d)
            == DeepIn(j, r, f, d) + On(d in Chain(s, r, p.to), Added(s, r, f, p, true))
  {
    MoveResultIs(s, r, p, j);
    if LeftOver(s, r, p) {
      var kind, n := s[Moving(s, p)].kind, p.m - Merged(s, r, p);
      assert Added(s, r, f, p, true) == if p.dropped then 0 else f(kind, n);
      RestDeep(j, r, f, kind, n, p.to, d, p.dropped, MoveResult(s, r, p), MoveRank(s, r, p));
    } else {
      assert Added(s, r, f, p, true) == 0;
    }
  }

  lemma RestDeep(j: Store, r: seq<nat>, f: Measure, kind: Kind, n: nat, to: Id, d: Id, dropped: bool, s': Store, r': seq<nat>)
    requires Forest(j, r) && IsBox(j, to) && IsBox(j, d) && Forest(s', r') && Forest(Spawn(j, kind, n), r + [0])
    requires dropped ==> s' == Spawn(j, kind, n) && r' == r + [0]
    requires !dropped ==> s' == Put(Spawn(j, kind, n), to, 0, |j|) && r' == Lifted(Spawn(j, kind, n), r + [0], to, |j|)
    ensures IsBox(s', d)
    ensures DeepIn(s', r', f, d) == DeepIn(j, r, f, d) + On(d in Chain(j, r, to), if dropped then 0 else f(kind, n))
  {
    SpawnedDeep(j, r, f, kind, n, to, d, dropped);
  }

  /** What a move of pieces comes down to once the stacks have joined. */
  lemma MoveResultIs(s: Store, r: seq<nat>, p: Plan, j: Store)
    requires PlanOk(s, r, p) && s[Moving(s, p)].kind.stackable && j == Join(s, r, p) && IsBox(j, p.to) && Forest(j, r)
    ensures !LeftOver(s, r, p) ==> MoveResult(s, r, p) == j && MoveRank(s, r, p) == r
    ensures LeftOver(s, r, p) ==>
              var s3 := Spawn(j, s[Moving(s, p)].kind, p.m - Merged(s, r, p));
              Forest(s3, r + [0])
              && (p.dropped ==> MoveResult(s, r, p) == s3 && MoveRank(s, r, p) == r + [0])
              && (!p.dropped ==> MoveResult(s, r, p) == Put(s3, p.to, 0, |j|) && MoveRank(s, r, p) == Lifted(s3, r + [0], p.to, |j|))
  {
    JoinBox(s, r, p);
    if LeftOver(s, r, p) {
      SpawnForest(j, r, s[Moving(s, p)].kind, p.m - Merged(s, r, p));
    }
  }

  lemma AddWholeDeep(s: Store, r: seq<nat>, f: Measure, p: Plan, d: Id)
    requires PlanOk(s, r, p) && IsBox(s, d) && !s[Moving(s, p)].kind.stackable
    ensures Forest(Join(s, r, p), r) && IsBox(Join(s, r, p), d)
    ensures Forest(MoveResult(s, r, p), MoveRank(s, r, p)) && IsBox(MoveResult(s, r, p), d)
    ensures DeepIn(MoveResult(s, r, p), MoveRank(s, r, p), f, d)
            == DeepIn(Join(s, r, p), r, f, d) + On(d in Chain(s, r, p.to), Added(s, r, f, p, true))
  {
    MoveForest(s, r, p);
    JoinForest(s, r, p);
    LeaveDeep(s, r, f, p, d);
    if !p.dropped {
      HeldIsBag(s, p.from, Moving(s, p));
      MovingKeepsContents(s, r, f, p);
      PutDeep(Join(s, r, p), r, f, p.to, 0, Moving(s, p), d);
    }
  }

  lemma AddDeep(s: Store, r: seq<nat>, f: Measure, p: Plan, d: Id)
    requires PlanOk(s, r, p) && IsBox(s, d)
    ensures Forest(Join(s, r, p), r) && IsBox(Join(s, r, p), d)
    ensures Forest(MoveResult(s, r, p), MoveRank(s, r, p)) && IsBox(MoveResult(s, r, p), d)
    ensures DeepIn(MoveResult(s, r, p), MoveRank(s, r, p), f, d)
            == DeepIn(Join(s, r, p), r, f, d) + On(d in Chain(s, r, p.to), Added(s, r, f, p, true))
  {
    if s[Moving(s, p)].kind.stackable {
      AddStackDeep(s, r, f, p, d);
    } else {
      AddWholeDeep(s, r, f, p, d);
    }
  }

  /**
    The effect of a move on the recursive sums: what leaves the source, leaves the whole chain
    of the source, and what arrives, arrives in the whole chain of the destination.
    */
  lemma MoveDeep(s: Store, r: seq<nat>, f: Measure, p: Plan, d: Id)
    requires PlanOk(s, r, p) && IsBox(s, d)
    ensures Forest(MoveResult(s, r, p), MoveRank(s, r, p)) && IsBox(MoveResult(s, r, p), d)
    ensures DeepIn(MoveResult(s, r, p), MoveRank(s, r, p), f, d)
            == DeepIn(s, r, f, d) - On(d in Chain(s, r, p.from), Loss(s, r, f, p, true))
               + On(d in Chain(s, r, p.to), Gain(s, r, f, p, true))
  {
    AddDeep(s, r, f, p, d);
    JoinDeep(s, r, f, p, d);
  }

  lemma SpawnedDeep(s: Store, r: seq<nat>, f: Measure, kind: Kind, n: nat, to: Id, d: Id, dropped: bool)
    requires Forest(s, r) && IsBox(s, to) && IsBox(s, d)
    ensures var s3 := Spawn(s, kind, n);
            Forest(s3, r + [0]) && |s| !in Chain(s3, r + [0], to)
            && (dropped ==> DeepIn(s3, r + [0], f, d) == DeepIn(s, r, f, d))
            && (!dropped ==>
                  Forest(Put(s3, to, 0, |s|), Lifted(s3, r + [0], to, |s|))
                  && DeepIn(Put(s3, to, 0, |s|), Lifted(s3, r + [0], to, |s|), f, d)
                     == DeepIn(s, r, f, d) + On(d in Chain(s, r, to), f(kind, n)))
  {
    SpawnForest(s, r, kind, n);
    SpawnDeep(s, r, f, kind, n, d);
    if !dropped {
      var s3 := Spawn(s, kind, n);
      PutDeep(s3, r + [0], f, to, 0, |s|, d);
      DeepLeaf(s3, r + [0], f, |s|);
    }
  }

  lemma LeaveTotal(s: Store, r: seq<nat>, f: Measure, p: Plan)
    requires PlanOk(s, r, p)
    ensures Total(Leave(s, r, p), f) == Total(s, f) - Loss(s, r, f, p, false)
  {
    var x := Moving(s, p);
    TakeForest(s, r, p.from, p.at);
    HeldBy(s, p.from, x);
    if Split(s, p) {
      TotalUpdate(s, f, x, s[x].(count := s[x].count - p.m));
    } else {
      TakeTotal(s, f, p.from, p.at);
    }
  }

  /** The effect of a move on the total over everything that is held. */
  lemma MoveTotal(s: Store, r: seq<nat>, f: Measure, p: Plan)
    requires PlanOk(s, r, p)
    ensures Total(MoveResult(s, r, p), f) == Total(s, f) - Loss(s, r, f, p, false) + Gain(s, r, f, p, false)
  {
    LeaveForest(s, r, p);
    JoinForest(s, r, p);
    JoinBox(s, r, p);
    LeaveTotal(s, r, f, p);
    var x, n, s1, s2 := Moving(s, p), Merged(s, r, p), Leave(s, r, p), Join(s, r, p);
    if n > 0 {
      var y := p.toItem.value;
      TotalUpdate(s1, f, y, s1[y].(kind := s[y].kind, count := s[y].count + n));
    }
    if LeftOver(s, r, p) {
      if s[x].kind.stackable {
        TotalAppend(s2, f, Node(s[x].kind, p.m - n, Nowhere, NoBox));
        if !p.dropped {
          PutTotal(Spawn(s2, s[x].kind, p.m - n), f, p.to, 0, |s2|);
        }
      } else if !p.dropped {
        PutTotal(s2, f, p.to, 0, x);
      }
    }
  }

  // ----- what every move keeps --------------------------------------------------------------

  /** Pieces are conserved, kind by kind, unless the addition was dropped. */
  lemma MoveConserves(s: Store, r: seq<nat>, p: Plan, k: Kind)
    requires PlanOk(s, r, p) && NothingDropped(s, r, p)
    ensures Total(MoveResult(s, r, p), CountOf(k)) == Total(s, CountOf(k))
  {
    MoveTotal(s, r, CountOf(k), p);
  }

  /** How many pieces of kind `k` a move carries, contents included. */
  ghost function Carried(s: Store, r: seq<nat>, p: Plan, k: Kind): int
    requires PlanOk(s, r, p)
  {
    var x := Moving(s, p);
    if s[x].kind.stackable then (if s[x].kind == k then p.m else 0)
    else CountOf(k)(s[x].kind, s[x].count) + DeepIn(s, r, CountOf(k), x)
  }

  /** Exactly the carried pieces leave the source's chain and enter the destination's. */
  lemma MoveCarries(s: Store, r: seq<nat>, p: Plan, k: Kind, d: Id)
    requires PlanOk(s, r, p) && NothingDropped(s, r, p) && IsBox(s, d)
    ensures Forest(MoveResult(s, r, p), MoveRank(s, r, p)) && IsBox(MoveResult(s, r, p), d)
    ensures DeepIn(MoveResult(s, r, p), MoveRank(s, r, p), CountOf(k), d)
            == DeepIn(s, r, CountOf(k), d) - On(d in Chain(s, r, p.from), Carried(s, r, p, k))
               + On(d in Chain(s, r, p.to), Carried(s, r, p, k))
  {
    MoveDeep(s, r, CountOf(k), p, d);
    CarriedIsLossAndGain(s, r, p, k);
  }

  lemma CarriedIsLossAndGain(s: Store, r: seq<nat>, p: Plan, k: Kind)
    requires PlanOk(s, r, p) && NothingDropped(s, r, p)
    ensures Loss(s, r, CountOf(k), p, true) == Carried(s, r, p, k)
    ensures Gain(s, r, CountOf(k), p, true) == Carried(s, r, p, k)
  {
    if s[Moving(s, p)].kind.stackable {
      StackableLeaf(s, r, CountOf(k), Moving(s, p));
    }
  }

  /** Every stack still holds 1 to 100 pieces. */
  lemma MoveStacks(s: Store, r: seq<nat>, p: Plan)
    requires PlanOk(s, r, p)
    ensures Stacks(MoveResult(s, r, p))
  {
    var x, n, s' := Moving(s, p), Merged(s, r, p), MoveResult(s, r, p);
    HeldBy(s, p.from, x);
    assert StackOk(s[x]);
    JoinBox(s, r, p);
    JoinStacks(s, r, p);
    forall y | 0 <= y < |s'| ensures StackOk(s'[y]) {
      if y < |s| { assert StackOk(Join(s, r, p)[y]); }
    }
  }

  lemma JoinStacks(s: Store, r: seq<nat>, p: Plan)
    requires PlanOk(s, r, p)
    ensures Stacks(Join(s, r, p))
  {
    var x, n := Moving(s, p), Merged(s, r, p);
    HeldBy(s, p.from, x);
    TakeForest(s, r, p.from, p.at);
    forall y | 0 <= y < |s| ensures StackOk(Join(s, r, p)[y]) {
      assert StackOk(s[y]) && StackOk(s[x]);
    }
  }

  /** No container but the destination grows, and that one by at most one item. */
  lemma MoveSizes(s: Store, r: seq<nat>, p: Plan, d: Id)
    requires PlanOk(s, r, p) && IsBox(s, d)
    ensures IsBox(MoveResult(s, r, p), d) && MoveResult(s, r, p)[d].box.capacity == s[d].box.capacity
    ensures MoveResult(s, r, p)[d].box.role == s[d].box.role && MoveResult(s, r, p)[d].box.unlocked == s[d].box.unlocked
    ensures |Items(MoveResult(s, r, p), d)|
            <= |Items(s, d)| + if d == p.to && LeftOver(s, r, p) && !p.dropped then 1 else 0
  {
    var x := Moving(s, p);
    JoinBox(s, r, p);
    TakeForest(s, r, p.from, p.at);
    assert |Items(Leave(s, r, p), d)| <= |Items(s, d)|;
    assert Items(Join(s, r, p), d) == Items(Leave(s, r, p), d);
  }

  // ----- the depot limit -------------------------------------------------------------------

  /** A container that stands on the ground is the top parent of all it holds. */
  lemma {:induction false} GroundIsTop(s: Store, r: seq<nat>, c: Id, d: Id)
    requires Forest(s, r) && c < |s| && d in Chain(s, r, c) && s[d].parent == Ground
    ensures TopParent(s, r, c) == d
    decreases Top(r) - r[c]
  {
    assert NodeOk(s, c) && RankOk(s, r, c);
    if c != d {
      assert s[c].parent.Inside?;
      GroundIsTop(s, r, s[c].parent.c, d);
      assert NodeOk(s, s[c].parent.c) && s[s[c].parent.c].parent != Nowhere;
    }
  }

  /** What has a root as its top parent is inside it. */
  lemma TopIsAbove(s: Store, r: seq<nat>, from: Id, x: Id, d: Id)
    requires Forest(s, r) && IsBox(s, from) && x in Items(s, from) && d < |s| && !s[d].parent.Inside?
    ensures x < |s| && (HasTopParent(s, r, x, d) ==> d in Chain(s, r, from))
  {
    HeldBy(s, from, x);
    assert NodeOk(s, x) && RankOk(s, r, x);
    assert Chain(s, r, x) == {x} + Chain(s, r, from);
  }

  /**
    The number of items in a depot never exceeds its limit by a move that was accepted,
    however deep in the depot the destination lies.  A stack that is split inside the depot
    counts as one more item; `count` is the number of pieces the caller asked to move.
    */
  lemma MoveWithinLimit(s: Store, r: seq<nat>, p: Plan, count: nat, d: Id)
    requires PlanOk(s, r, p) && IsBox(s, d) && s[d].box.role.Depot?
    requires d in Chain(s, r, p.to) ==> !DepotFull(s, r, d, Moving(s, p), count)
    requires LeftOver(s, r, p) && Split(s, p) ==> count != s[Moving(s, p)].count
    requires DeepIn(s, r, One, d) <= s[d].box.role.maxItems
    ensures Forest(MoveResult(s, r, p), MoveRank(s, r, p)) && IsBox(MoveResult(s, r, p), d)
    ensures DeepIn(MoveResult(s, r, p), MoveRank(s, r, p), One, d) <= s[d].box.role.maxItems
  {
    MoveDeep(s, r, One, p, d);
    var x := Moving(s, p);
    DeepOneNat(s, r, Items(s, x), x);
    if d in Chain(s, r, p.to) {
      assert NodeOk(s, d);
      TopIsAbove(s, r, p.from, x, d);
      if s[x].kind.stackable { StackableLeaf(s, r, One, x); }
    }
  }

  lemma DeepOneNat(s: Store, r: seq<nat>, xs: seq<Id>, c: Id)
    requires Forest(s, r) && c < |s| && xs == Items(s, c)
    ensures DeepIn(s, r, One, c) >= 0
  {
    ItemsRankLower(s, r, c);
    IdsCount(s, r, xs, r[c]);
  }

  // ----- the move ---------------------------------------------------------------------------

  /** Pieces of every kind are as many as before. */
  ghost predicate Conserved(s: Store, s': Store) {
    forall k :: Total(s', CountOf(k)) == Total(s, CountOf(k))
  }

  /** No container is filled beyond its capacity. */
  ghost predicate WithinCapacity(s: Store, s': Store) {
    forall d :: 0 <= d < |s| && s[d].box.Box? ==>
      && IsBox(s', d) && s'[d].box.capacity == s[d].box.capacity
      && (|Items(s', d)| <= |Items(s, d)| || |Items(s', d)| <= s[d].box.capacity)
  }

  /** No depot chest whose locker stands on the map, nor the chest `to`, is filled beyond its limit. */
  ghost predicate WithinDepotLimits(s: Store, r: seq<nat>, s': Store, r': seq<nat>, to: Option<Id>) {
    && Forest(s, r) && Forest(s', r')
    && forall d :: 0 <= d < |s| && s[d].box.Box? && s[d].box.role.Depot? && (s[d].parent == Ground || to == Some(d))
                   && DeepIn(s, r, One, d) <= s[d].box.role.maxItems ==>
         && IsBox(s', d) && s'[d].parent == s[d].parent && s'[d].box.role == s[d].box.role
         && DeepIn(s', r', One, d) <= s[d].box.role.maxItems
  }

  ghost predicate CarriesAt(s: Store, r: seq<nat>, s': Store, r': seq<nat>, p: Plan, k: Kind, d: Id)
    requires PlanOk(s, r, p) && Forest(s', r') && d < |s|
  {
    && d < |s'|
    && DeepIn(s', r', CountOf(k), d)
       == DeepIn(s, r, CountOf(k), d) - On(d in Chain(s, r, p.from), Carried(s, r, p, k))
          + On(d in Chain(s, r, p.to), Carried(s, r, p, k))
  }

  /** Exactly the planned pieces went from one chain to the other. */
  ghost predicate Carries(s: Store, r: seq<nat>, s': Store, r': seq<nat>, p: Plan) {
    && PlanOk(s, r, p) && Forest(s', r')
    && forall k, d :: 0 <= d < |s| && s[d].box.Box? ==> CarriesAt(s, r, s', r', p, k, d)
  }

  /** The answers of the queries leave room for what the move will add, and an index that `addThing` takes. */
  ghost predicate Settled(s: Store, r: seq<nat>, p: Plan, count: nat) {
    && PlanOk(s, r, p) && NothingDropped(s, r, p)
    && (LeftOver(s, r, p) ==> |Items(s, p.to)| < s[p.to].box.capacity)
    && !DepotFull(s, r, p.to, Moving(s, p), count)
    && !DepotFull(s, r, TopParent(s, r, p.to), Moving(s, p), count)
    && (LeftOver(s, r, p) && Split(s, p) ==> count != s[Moving(s, p)].count)
  }

  lemma AcceptedNotAbove(s: Store, r: seq<nat>, c: Id, index: int, x: Id, count: nat, flags: Flags)
    requires Forest(s, r) && IsBox(s, c) && x < |s| && Accepts(s, r, c, index, x, count, flags)
    ensures x !in Chain(s, r, c)
  {
    assert NodeOk(s, c);
  }

  lemma QueriesPlan(s: Store, r: seq<nat>, p: Plan, index: int, count: nat, flags: Flags)
    requires Forest(s, r) && Stacks(s) && IsBox(s, p.from) && IsBox(s, p.to) && p.at < |Items(s, p.from)|
    requires Moving(s, p) < |s| && Accepts(s, r, p.to, index, Moving(s, p), count, flags) && p.m >= 1
    requires s[Moving(s, p)].kind.stackable ==> p.m <= s[Moving(s, p)].count
    requires p.toItem.Some? ==> Destination(s, p.to, index, p.toItem.value) && p.toItem.value != Moving(s, p)
    ensures PlanOk(s, r, p)
  {
    AcceptedNotAbove(s, r, p.to, index, Moving(s, p), count, flags);
  }

  /** What the questions of `internalMoveItem` establish together when there is no `FLAG_NOLIMIT`. */
  lemma QueriesSettle(s: Store, r: seq<nat>, p: Plan, index: int, count: nat, flags: Flags)
    requires Forest(s, r) && Stacks(s) && IsBox(s, p.from) && IsBox(s, p.to) && p.at < |Items(s, p.from)|
    requires !flags.noLimit && WHEREEVER <= index && p.dropped == (index >= s[p.to].box.capacity)
    requires Moving(s, p) < |s| && Accepts(s, r, p.to, index, Moving(s, p), count, flags)
    requires p.toItem.Some? ==> Destination(s, p.to, index, p.toItem.value) && p.toItem.value != Moving(s, p)
    requires p.toItem == None && s[p.to].box.unlocked && index != WHEREEVER ==> |Items(s, p.to)| <= index < s[p.to].box.capacity
    requires var max := MaxCount(s, r, p.to, index, Moving(s, p), count, flags);
             p.m == if s[Moving(s, p)].kind.stackable then Min(count, max) else max
    requires p.m >= 1
    requires s[Moving(s, p)].kind.stackable ==> p.m <= s[Moving(s, p)].count
    ensures Settled(s, r, p, count)
  {
    var x := Moving(s, p);
    AcceptedNotAbove(s, r, p.to, index, x, count, flags);
    HeldBy(s, p.from, x);
    assert StackOk(s[x]);
    if p.toItem.Some? {
      HeldBy(s, p.to, p.toItem.value);
      assert StackOk(s[p.toItem.value]);
    }
  }

  /** The main result: a move whose queries were settled is safe in every respect. */
  lemma MoveIsSafe(s: Store, r: seq<nat>, p: Plan, count: nat)
    requires Settled(s, r, p, count)
    ensures Forest(MoveResult(s, r, p), MoveRank(s, r, p)) && Stacks(MoveResult(s, r, p))
    ensures Conserved(s, MoveResult(s, r, p))
    ensures WithinCapacity(s, MoveResult(s, r, p))
    ensures WithinDepotLimits(s, r, MoveResult(s, r, p), MoveRank(s, r, p), Some(p.to))
    ensures Carries(s, r, MoveResult(s, r, p), MoveRank(s, r, p), p)
  {
    MoveForest(s, r, p);
    MoveStacks(s, r, p);
    forall k ensures Total(MoveResult(s, r, p), CountOf(k)) == Total(s, CountOf(k)) {
      MoveConserves(s, r, p, k);
    }
    forall d | 0 <= d < |s| && s[d].box.Box?
      ensures && IsBox(MoveResult(s, r, p), d) && MoveResult(s, r, p)[d].box.capacity == s[d].box.capacity
              && (|Items(MoveResult(s, r, p), d)| <= |Items(s, d)|
                  || |Items(MoveResult(s, r, p), d)| <= s[d].box.capacity)
    {
      MoveSizes(s, r, p, d);
    }
    MoveDepotsSafe(s, r, p, count);
    MoveCarriesAll(s, r, p);
  }

  lemma MoveRoots(s: Store, r: seq<nat>, p: Plan, d: Id)
    requires PlanOk(s, r, p) && IsBox(s, d) && !s[d].parent.Inside?
    ensures IsBox(MoveResult(s, r, p), d) && MoveResult(s, r, p)[d].parent == s[d].parent
  {
    HeldBy(s, p.from, Moving(s, p));
    JoinBox(s, r, p);
    TakeForest(s, r, p.from, p.at);
    assert Join(s, r, p)[d].parent == s[d].parent;
  }

  lemma MoveDepotsSafe(s: Store, r: seq<nat>, p: Plan, count: nat)
    requires Settled(s, r, p, count)
    ensures WithinDepotLimits(s, r, MoveResult(s, r, p), MoveRank(s, r, p), Some(p.to))
  {
    MoveForest(s, r, p);
    forall d | 0 <= d < |s| && s[d].box.Box? && s[d].box.role.Depot? && (s[d].parent == Ground || d == p.to)
               && DeepIn(s, r, One, d) <= s[d].box.role.maxItems
      ensures && IsBox(MoveResult(s, r, p), d)
              && MoveResult(s, r, p)[d].parent == s[d].parent && MoveResult(s, r, p)[d].box.role == s[d].box.role
              && DeepIn(MoveResult(s, r, p), MoveRank(s, r, p), One, d) <= s[d].box.role.maxItems
    {
      assert NodeOk(s, d);
      if d != p.to && d in Chain(s, r, p.to) { GroundIsTop(s, r, p.to, d); }
      MoveWithinLimit(s, r, p, count, d);
      MoveSizes(s, r, p, d);
      MoveRoots(s, r, p, d);
    }
  }

  lemma MoveCarriesAll(s: Store, r: seq<nat>, p: Plan)
    requires PlanOk(s, r, p) && NothingDropped(s, r, p)
    ensures Carries(s, r, MoveResult(s, r, p), MoveRank(s, r, p), p)
  {
    MoveForest(s, r, p);
    forall k, d | 0 <= d < |s| && s[d].box.Box?
      ensures CarriesAt(s, r, MoveResult(s, r, p), MoveRank(s, r, p), p, k, d)
    {
      MoveCarries(s, r, p, k, d);
    }
  }

  /** Where a move was found to go: the container, the index, the stack there, and the flags left. */
  datatype Target = Target(to: Id, index: int, toItem: Option<Id>, flags: Flags)

  /**
    The way of an item: it stays with the container it was moved to, or goes on to the container that this one
    names, where the flags no longer count and any slot will do.
    */
  ghost predicate Reached(s: Store, to0: Id, index0: int, item: Id, flags0: Flags, t: Target) {
    && IsBox(s, to0) && item < |s|
    && if t.to == to0 then t.flags == flags0 && StepTo(s, to0, index0, item, flags0, to0, t.index, t.toItem)
       else
         && t.flags == NO_FLAGS && IsBox(s, t.to) && StepTo(s, to0, index0, item, flags0, t.to, WHEREEVER, None)
         && StepTo(s, t.to, WHEREEVER, item, NO_FLAGS, t.to, t.index, t.toItem)
  }

  /** The loop of `queryDestination` calls. */
  method ResolveDestination(w: World, to0: Id, index0: int, item: Id, flags0: Flags)
    returns (to: Id, index: int, toItem: Option<Id>, flags: Flags)
    requires w.Valid() && IsBox(w.nodes, to0) && item < |w.nodes| && WHEREEVER <= index0 && !flags0.childIsOwner
    ensures IsBox(w.nodes, to) && WHEREEVER <= index && (flags == flags0 || flags == NO_FLAGS)
    ensures toItem.Some? ==> Destination(w.nodes, to, index, toItem.value)
    ensures toItem == None && w.nodes[to].box.unlocked && index != WHEREEVER ==>
              |Items(w.nodes, to)| <= index < w.nodes[to].box.capacity
    ensures to != to0 ==> flags == NO_FLAGS && index0 != WHEREEVER
    ensures Reached(w.nodes, to0, index0, item, flags0, Target(to, index, toItem, flags))
  {
    to, flags := to0, flags0;
    var sub;
    sub, index, toItem := w.QueryDestination(to, index0, item, flags);
    StepMeans(w.nodes, w.rank, to, index0, item, flags, sub, index, toItem);
    var floorN := 0;
    while sub != to
      invariant floorN < MAP_MAX_LAYERS && (floorN > 0 ==> sub == to)
      invariant sub == to ==> Reached(w.nodes, to0, index0, item, flags0, Target(to, index, toItem, flags))
      invariant sub != to ==> to == to0 && StepTo(w.nodes, to0, index0, item, flags0, sub, WHEREEVER, None)
      invariant IsBox(w.nodes, to) && IsBox(w.nodes, sub) && WHEREEVER <= index
      invariant (flags == flags0 && to == to0) || (flags == NO_FLAGS && index0 != WHEREEVER)
      invariant index0 == WHEREEVER ==> sub == to
      invariant sub != to ==> index == WHEREEVER && toItem == None
      invariant toItem.Some? ==> Destination(w.nodes, to, index, toItem.value)
      invariant toItem == None && w.nodes[to].box.unlocked && index != WHEREEVER ==>
                  |Items(w.nodes, to)| <= index < w.nodes[to].box.capacity
      decreases MAP_MAX_LAYERS - floorN
    {
      to, flags := sub, NO_FLAGS;
      floorN := floorN + 1;
      if floorN >= MAP_MAX_LAYERS {
        break;
      }
      sub, index, toItem := w.QueryDestination(to, WHEREEVER, item, flags);
      StepMeans(w.nodes, w.rank, to, WHEREEVER, item, flags, sub, index, toItem);
    }
  }

  /** The questions of `internalMoveItem`: either the answer to give, or what to carry out. */
  method PlanMove(w: World, from: Id, to0: Id, index0: int, item: Id, count: nat, flags0: Flags, tradeItem: Option<Id>)
    returns (ret: ReturnValue, plan: Option<Plan>, target: Target)
    requires w.Valid() && IsBox(w.nodes, from) && IsBox(w.nodes, to0) && item < |w.nodes|
    requires WHEREEVER <= index0 && !flags0.childIsOwner
    ensures Resolved(w.nodes, to0, index0, item, flags0, target)
    ensures plan.Some? <==> target.toItem != Some(item) && CanMove(w.nodes, w.rank, from, target, item, count, tradeItem)
    ensures plan == None ==> (ret == NoError <==> target.toItem == Some(item))
    ensures plan.Some? ==>
              var p := plan.value;
              && PlanOk(w.nodes, w.rank, p) && p.from == from && p.to == target.to && p.toItem == target.toItem
              && Moving(w.nodes, p) == item && p.m == MoveCount(w.nodes, w.rank, target, item, count)
              && p.dropped == (target.index >= w.nodes[p.to].box.capacity)
              && (!flags0.noLimit ==> Settled(w.nodes, w.rank, p, count))
              && (w.nodes[item].kind.stackable ==> p.m <= count && (p.m < count ==> ret != NoError))
  {
    var to, index, toItem, flags := ResolveDestination(w, to0, index0, item, flags0);
    target := Target(to, index, toItem, flags);
    if toItem == Some(item) {
      return NoError, None, target;
    }
    var at, m;
    ret, at, m := AskMove(w, from, target, item, count, tradeItem);
    plan := None;
    if at >= 0 {
      var p := Plan(from, at, to, m, toItem, index >= w.nodes[to].box.capacity);
      QueriesPlan(w.nodes, w.rank, p, index, count, flags);
      if !flags.noLimit {
        QueriesSettle(w.nodes, w.rank, p, index, count, flags);
      }
      plan := Some(p);
    }
  }

  /** What following destinations leads to. */
  ghost predicate Resolved(s: Store, to0: Id, index0: int, item: Id, flags0: Flags, t: Target) {
    && Reached(s, to0, index0, item, flags0, t)
    && IsBox(s, t.to) && WHEREEVER <= t.index && (t.flags == flags0 || t.flags == NO_FLAGS)
    && (t.toItem.Some? ==> Destination(s, t.to, t.index, t.toItem.value))
    && (t.toItem == None && s[t.to].box.unlocked && t.index != WHEREEVER ==>
          |Items(s, t.to)| <= t.index < s[t.to].box.capacity)
    && (t.to != to0 ==> t.flags == NO_FLAGS && index0 != WHEREEVER)
  }

  /** How many pieces, or items, a move takes. */
  ghost function MoveCount(s: Store, r: seq<nat>, t: Target, item: Id, count: nat): int
    requires Forest(s, r) && IsBox(s, t.to) && item < |s| && WHEREEVER <= t.index
  {
    var max := MaxCount(s, r, t.to, t.index, item, count, t.flags);
    if s[item].kind.stackable then Min(count, max) else max
  }

  /** When a move goes through: accepted, with room, removable, and not into the item traded for it. */
  ghost predicate CanMove(s: Store, r: seq<nat>, from: Id, t: Target, item: Id, count: nat, tradeItem: Option<Id>)
    requires Forest(s, r) && IsBox(s, t.to) && item < |s| && WHEREEVER <= t.index
  {
    var m := MoveCount(s, r, t, item, count);
    && Accepts(s, r, t.to, t.index, item, count, t.flags)
    && item in Items(s, from) && m != 0 && (s[item].kind.stackable ==> m <= s[item].count)
    && (s[item].kind.moveable || t.flags.ignoreNotMoveable)
    && (tradeItem.Some? ==> tradeItem.value !in Chain(s, r, t.to))
  }

  /** The questions to the container that was found: where the item is and how much of it moves, or -1. */
  method AskMove(w: World, from: Id, target: Target, item: Id, count: nat, tradeItem: Option<Id>)
    returns (ret: ReturnValue, at: int, m: nat)
    requires w.Valid() && IsBox(w.nodes, from) && IsBox(w.nodes, target.to) && item < |w.nodes|
    requires WHEREEVER <= target.index && !target.flags.childIsOwner
    ensures at >= 0 <==> CanMove(w.nodes, w.rank, from, target, item, count, tradeItem)
    ensures at >= 0 ==> at < |Items(w.nodes, from)| && Items(w.nodes, from)[at] == item
    ensures at >= 0 ==> m == MoveCount(w.nodes, w.rank, target, item, count)
    ensures at >= 0 && w.nodes[item].kind.stackable && m < count ==> ret != NoError
    ensures at < 0 ==> ret != NoError
  {
    var to, index, flags := target.to, target.index, target.flags;
    at, m := -1, 0;
    ret := w.QueryAdd(to, index, item, count, flags);
    if ret != NoError {
      return;
    }
    var retMax, max := w.QueryMaxCount(to, index, item, count, flags);
    if retMax != NoError && max == 0 {
      ret := retMax;
      return;
    }
    m := if w.nodes[item].kind.stackable then Min(count, max) else max;
    ret := w.QueryRemove(from, item, m, flags);
    if ret != NoError {
      return;
    }
    if tradeItem.Some? {
      var within := w.IsWithin(to, tradeItem.value);
      if within {
        ret := NotEnoughRoom;
        return;
      }
    }
    at := w.GetThingIndex(from, item);
    if w.nodes[item].kind.stackable && max < count {
      ret := retMax;
    }
  }

  /**
    `Game::internalMoveItem` between containers.  `plan` is what was carried out, if anything was.
    Without `FLAG_NOLIMIT` every move is safe, whatever index, count and destination are given.
    */
  method InternalMoveItem(w: World, from: Id, to0: Id, index0: int, item: Id, count: nat, flags0: Flags,
                          tradeItem: Option<Id>)
    returns (ret: ReturnValue, plan: Option<Plan>, target: Target)
    requires w.Valid() && IsBox(w.nodes, from) && IsBox(w.nodes, to0) && item < |w.nodes|
    requires WHEREEVER <= index0 && !flags0.childIsOwner
    modifies w
    ensures w.Valid()
    ensures Resolved(old(w.nodes), to0, index0, item, flags0, target)
    ensures plan.Some? <==>
              target.toItem != Some(item) && CanMove(old(w.nodes), old(w.rank), from, target, item, count, tradeItem)
    ensures plan == None ==> (ret == NoError <==> target.toItem == Some(item))
    ensures plan == None ==> w.nodes == old(w.nodes) && w.rank == old(w.rank)
    ensures plan.Some? ==>
              && PlanOk(old(w.nodes), old(w.rank), plan.value)
              && plan.value.from == from && Moving(old(w.nodes), plan.value) == item
              && plan.value.to == target.to && plan.value.toItem == target.toItem
              && plan.value.m == MoveCount(old(w.nodes), old(w.rank), target, item, count)
              && plan.value.dropped == (target.index >= old(w.nodes[target.to].box.capacity))
              && w.nodes == MoveResult(old(w.nodes), old(w.rank), plan.value)
              && w.rank == MoveRank(old(w.nodes), old(w.rank), plan.value)
    ensures plan.Some? && old(w.nodes[item].kind.stackable) ==>
              plan.value.m <= count && (plan.value.m < count ==> ret != NoError)
    ensures !flags0.noLimit ==>
              && Conserved(old(w.nodes), w.nodes)
              && WithinCapacity(old(w.nodes), w.nodes)
              && WithinDepotLimits(old(w.nodes), old(w.rank), w.nodes, w.rank, Some(target.to))
    ensures !flags0.noLimit && plan.Some? ==> Carries(old(w.nodes), old(w.rank), w.nodes, w.rank, plan.value)
  {
    ret, plan, target := PlanMove(w, from, to0, index0, item, count, flags0, tradeItem);
    if plan.Some? {
      if !flags0.noLimit {
        MoveIsSafe(w.nodes, w.rank, plan.value, count);
      }
      Transfer(w, plan.value, target.index);
    }
  }

  /** The part of `internalMoveItem` that changes things. */
  method Transfer(w: World, p: Plan, index: int)
    requires w.Valid() && PlanOk(w.nodes, w.rank, p) && p.dropped == (index >= w.nodes[p.to].box.capacity)
    modifies w
    ensures w.Valid()
    ensures w.nodes == MoveResult(old(w.nodes), old(w.rank), p)
    ensures w.rank == MoveRank(old(w.nodes), old(w.rank), p)
  {
    ghost var s, r := w.nodes, w.rank;
    var item := Moving(w.nodes, p);
    var kind := w.nodes[item].kind;
    LeaveStep(w, p);
    if !kind.stackable {
      AddWhole(w, s, r, p, index, item);
    } else {
      var n := JoinStep(w, s, r, p, kind);
      if p.m - n > 0 {
        AddRest(w, s, r, p, index, kind, n);
      }
    }
  }

  method LeaveStep(w: World, p: Plan)
    requires w.Valid() && PlanOk(w.nodes, w.rank, p)
    modifies w
    ensures w.Valid() && w.rank == old(w.rank) && w.nodes == Leave(old(w.nodes), old(w.rank), p)
  {
    TakeForest(w.nodes, w.rank, p.from, p.at);
    w.RemoveThing(p.from, Moving(w.nodes, p), p.m);
  }

  method JoinStep(w: World, ghost s: Store, ghost r: seq<nat>, p: Plan, kind: Kind) returns (n: nat)
    requires w.Valid() && PlanOk(s, r, p) && w.rank == r && w.nodes == Leave(s, r, p)
    requires kind == s[Moving(s, p)].kind && kind.stackable
    modifies w
    ensures w.Valid() && w.rank == r && w.nodes == Join(s, r, p) && n == Merged(s, r, p)
  {
    LeaveForest(s, r, p);
    n := 0;
    if p.toItem.Some? && w.nodes[p.toItem.value].kind == kind {
      var y := p.toItem.value;
      assert StackOk(w.nodes[y]);
      n := Min(100 - w.nodes[y].count, p.m);
      w.UpdateThing(p.to, y, kind, w.nodes[y].count + n);
    }
  }

  method AddWhole(w: World, ghost s: Store, ghost r: seq<nat>, p: Plan, index: int, item: Id)
    requires w.Valid() && PlanOk(s, r, p) && w.rank == r && w.nodes == Leave(s, r, p)
    requires item == Moving(s, p) && !s[item].kind.stackable && p.dropped == (index >= s[p.to].box.capacity)
    modifies w
    ensures w.Valid() && w.nodes == MoveResult(s, r, p) && w.rank == MoveRank(s, r, p)
  {
    JoinForest(s, r, p);
    HeldIsBag(s, p.from, item);
    MoveSizes(s, r, p, p.to);
    w.AddThing(p.to, index, item);
  }

  method AddRest(w: World, ghost s: Store, ghost r: seq<nat>, p: Plan, index: int, kind: Kind, n: nat)
    requires w.Valid() && PlanOk(s, r, p) && w.rank == r && w.nodes == Join(s, r, p)
    requires kind == s[Moving(s, p)].kind && kind.stackable && n == Merged(s, r, p) && n < p.m
    requires p.dropped == (index >= s[p.to].box.capacity)
    modifies w
    ensures w.Valid() && w.nodes == MoveResult(s, r, p) && w.rank == MoveRank(s, r, p)
  {
    JoinForest(s, r, p);
    HeldBy(s, p.from, Moving(s, p));
    assert StackOk(s[Moving(s, p)]);
    SpawnForest(w.nodes, w.rank, kind, p.m - n);
    MoveSizes(s, r, p, p.to);
    var moveItem := w.CreateItem(kind, p.m - n);
    w.AddThing(p.to, index, moveItem);
  }

  // ----- whole runs -------------------------------------------------------------------------

  datatype Request = Request(from: Id, to: Id, index: int, item: Id, count: nat, ignoreAutoStack: bool, tradeItem: Option<Id>)

  /** A request that names things that exist. */
  predicate Possible(s: Store, q: Request) {
    IsBox(s, q.from) && IsBox(s, q.to) && q.item < |s| && WHEREEVER <= q.index
  }

  lemma StillPossible(s: Store, s': Store, q: Request)
    requires Possible(s, q) && WithinCapacity(s, s') && |s| <= |s'|
    ensures Possible(s', q)
  {}

  lemma DepotLimitsCompose(s: Store, r: seq<nat>, s1: Store, r1: seq<nat>, s2: Store, r2: seq<nat>, a: Option<Id>, b: Option<Id>)
    requires WithinDepotLimits(s, r, s1, r1, a) && WithinDepotLimits(s1, r1, s2, r2, b) && (a == None || a == b)
    ensures WithinDepotLimits(s, r, s2, r2, a)
  {}

  lemma MoveGrows(s: Store, r: seq<nat>, p: Plan)
    requires PlanOk(s, r, p)
    ensures |s| <= |MoveResult(s, r, p)|
  {}

  /** The same pieces, and no limit passed that was kept. */
  ghost predicate Sound(s: Store, r: seq<nat>, s': Store, r': seq<nat>) {
    && |s| <= |s'| && Conserved(s, s') && WithinCapacity(s, s') && WithinDepotLimits(s, r, s', r', None)
  }

  lemma SoundNext(s: Store, r: seq<nat>, s1: Store, r1: seq<nat>, s2: Store, r2: seq<nat>, to: Option<Id>)
    requires Sound(s, r, s1, r1) && |s1| <= |s2|
    requires Conserved(s1, s2) && WithinCapacity(s1, s2) && WithinDepotLimits(s1, r1, s2, r2, to)
    ensures Sound(s, r, s2, r2)
  {
    forall k ensures Total(s2, CountOf(k)) == Total(s, CountOf(k)) {
      assert Total(s1, CountOf(k)) == Total(s, CountOf(k));
    }
    DepotLimitsCompose(s, r, s1, r1, s2, r2, None, to);
  }

  method RunOne(w: World, ghost s: Store, ghost r: seq<nat>, q: Request) returns (ret: ReturnValue)
    requires w.Valid() && Sound(s, r, w.nodes, w.rank) && Possible(s, q)
    modifies w
    ensures w.Valid() && Sound(s, r, w.nodes, w.rank)
  {
    StillPossible(s, w.nodes, q);
    ghost var s1, r1 := w.nodes, w.rank;
    var flags := NO_FLAGS.(ignoreAutoStack := q.ignoreAutoStack);
    var plan, target;
    ret, plan, target := InternalMoveItem(w, q.from, q.to, q.index, q.item, q.count, flags, q.tradeItem);
    if plan.Some? { MoveGrows(s1, r1, plan.value); }
    SoundNext(s, r, s1, r1, w.nodes, w.rank, Some(target.to));
  }

  /** Any sequence of requests, granted or not, leaves a sound world with the same pieces in it. */
  method RunMoves(w: World, requests: seq<Request>) returns (answers: seq<ReturnValue>)
    requires w.Valid()
    requires forall i :: 0 <= i < |requests| ==> Possible(w.nodes, requests[i])
    modifies w
    ensures w.Valid() && |answers| == |requests|
    ensures Sound(old(w.nodes), old(w.rank), w.nodes, w.rank)
  {
    answers := [];
    for i := 0 to |requests|
      invariant w.Valid() && |answers| == i
      invariant Sound(old(w.nodes), old(w.rank), w.nodes, w.rank)
    {
      var ret := RunOne(w, old(w.nodes), old(w.rank), requests[i]);
      answers := answers + [ret];
    }
  }
}
