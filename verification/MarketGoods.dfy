/**
  What the market takes out of a player's depot chest and inbox, and what it delivers to an inbox
  (src/game.cpp:5132-5153, 5198-5227, 5418-5457).
  */
module MarketGoods {
  import opened Common
  import opened ItemForest
  import opened ItemSteps
  import opened ContainerWalk
  import opened Containers
  import opened ItemMoves
  import opened ItemAdds
  import Money

  datatype ItemType = ItemType(kind: Kind, wareId: nat, container: bool, maxItems: nat)

  /** `Item::items`: the types by id, ids by client id, and the kinds whose attributes keep them off the market. */
  datatype Catalogue = Catalogue(types: map<nat, ItemType>, byClient: map<nat, nat>, unmarketable: set<Kind>)

  /** Types are found under their id; a ware is sold by the piece or by the stack, not both. */
  ghost predicate CatalogueOk(cat: Catalogue) {
    && (forall id :: id in cat.types ==> cat.types[id].kind.id == id)
    && (forall a, b :: a in cat.types && b in cat.types && cat.types[a].wareId == cat.types[b].wareId != 0 ==>
          cat.types[a].kind.stackable == cat.types[b].kind.stackable)
  }

  function WareOf(cat: Catalogue, kind: Kind): nat {
    if kind.id in cat.types then cat.types[kind.id].wareId else 0
  }

  /** `Item::getItemCount`: items that do not stack are one piece. */
  function Pieces(kind: Kind, n: nat): nat { if kind.stackable then n else 1 }

  /** The pieces of one ware. */
  function Ware(cat: Catalogue, v: nat): Measure {
    (kind: Kind, n: nat) => if WareOf(cat, kind) == v then Pieces(kind, n) else 0
  }

  /** An item stacks if its type does. */
  ghost predicate Typed(s: Store, cat: Catalogue) {
    forall x :: 0 <= x < |s| ==> TypedAt(s[x].kind, cat)
  }

  ghost predicate TypedAt(kind: Kind, cat: Catalogue) {
    kind.id in cat.types ==> kind.stackable == cat.types[kind.id].kind.stackable
  }

  /** A player's depot chest, if one is open, and inbox. */
  datatype Lockers = Lockers(depot: Option<Id>, inbox: Id)

  ghost predicate IsRoot(s: Store, d: Id) {
    IsBox(s, d) && !s[d].parent.Inside?
  }

  ghost predicate Owns(s: Store, a: Lockers) {
    && IsRoot(s, a.inbox) && s[a.inbox].box.role == Mailbox
    && (a.depot.Some? ==> IsRoot(s, a.depot.value) && a.depot.value != a.inbox)
  }

  /** How much of a measure a player keeps in the two. */
  ghost function Stock(s: Store, r: seq<nat>, f: Measure, a: Lockers): int
    requires Forest(s, r) && Owns(s, a)
  {
    DeepIn(s, r, f, a.inbox) + if a.depot.Some? then DeepIn(s, r, f, a.depot.value) else 0
  }

  ghost predicate RootKept(s: Store, r: seq<nat>, s': Store, r': seq<nat>, f: Measure, a: Lockers, d: Id)
    requires Forest(s, r) && Forest(s', r') && IsRoot(s, d)
  {
    && IsRoot(s', d) && s'[d].box.role == s[d].box.role
    && (d != a.inbox && a.depot != Some(d) ==> DeepIn(s', r', f, d) == DeepIn(s, r, f, d))
  }

  ghost predicate RootsKept(s: Store, r: seq<nat>, s': Store, r': seq<nat>, f: Measure, a: Lockers)
    requires Forest(s, r) && Forest(s', r')
  {
    forall d :: 0 <= d < |s| && IsRoot(s, d) ==> RootKept(s, r, s', r', f, a, d)
  }

  /** One player's stock changed by `gain`; what everyone else keeps did not change. */
  ghost predicate StockMoved(s: Store, r: seq<nat>, s': Store, r': seq<nat>, f: Measure, a: Lockers, gain: int) {
    && Forest(s, r) && Forest(s', r') && Owns(s, a) && Owns(s', a)
    && RootsKept(s, r, s', r', f, a)
    && Stock(s', r', f, a) == Stock(s, r, f, a) + gain
  }

  lemma StockUnmoved(s: Store, r: seq<nat>, f: Measure, a: Lockers)
    requires Forest(s, r) && Owns(s, a)
    ensures StockMoved(s, r, s, r, f, a, 0)
  {}

  lemma StockMovedTwice(s: Store, r: seq<nat>, s1: Store, r1: seq<nat>, s2: Store, r2: seq<nat>,
                        f: Measure, a: Lockers, g: int, h: int)
    requires StockMoved(s, r, s1, r1, f, a, g) && StockMoved(s1, r1, s2, r2, f, a, h)
    ensures StockMoved(s, r, s2, r2, f, a, g + h)
  {
    forall d | 0 <= d < |s| && IsRoot(s, d) ensures RootKept(s, r, s2, r2, f, a, d) {
      assert RootKept(s, r, s1, r1, f, a, d) && RootKept(s1, r1, s2, r2, f, a, d);
    }
  }

  /** `k` pieces of ware `v` came to one player or left; no other ware and nobody else's stock changed. */
  ghost predicate WaresMoved(s: Store, r: seq<nat>, s': Store, r': seq<nat>, cat: Catalogue, a: Lockers, v: nat, k: int) {
    forall u: nat :: WareMoved(s, r, s', r', cat, a, v, k, u)
  }

  ghost predicate WareMoved(s: Store, r: seq<nat>, s': Store, r': seq<nat>, cat: Catalogue, a: Lockers, v: nat, k: int, u: nat) {
    StockMoved(s, r, s', r', Ware(cat, u), a, On(u == v, k))
  }

  lemma WaresUnmoved(s: Store, r: seq<nat>, cat: Catalogue, a: Lockers, v: nat)
    requires Forest(s, r) && Owns(s, a)
    ensures WaresMoved(s, r, s, r, cat, a, v, 0)
  {
    forall u: nat ensures WareMoved(s, r, s, r, cat, a, v, 0, u) {
      StockUnmoved(s, r, Ware(cat, u), a);
    }
  }

  lemma WaresMovedTwice(s: Store, r: seq<nat>, s1: Store, r1: seq<nat>, s2: Store, r2: seq<nat>,
                        cat: Catalogue, a: Lockers, v: nat, k: int, n: int)
    requires WaresMoved(s, r, s1, r1, cat, a, v, k) && WaresMoved(s1, r1, s2, r2, cat, a, v, n)
    ensures WaresMoved(s, r, s2, r2, cat, a, v, k + n)
  {
    var sum := k + n;
    forall u: nat ensures WareMoved(s, r, s2, r2, cat, a, v, sum, u) {
      assert WareMoved(s, r, s1, r1, cat, a, v, k, u) && WareMoved(s1, r1, s2, r2, cat, a, v, n, u);
      StockMovedTwice(s, r, s1, r1, s2, r2, Ware(cat, u), a, On(u == v, k), On(u == v, n));
    }
  }

  lemma WaresOwned(s: Store, r: seq<nat>, s': Store, r': seq<nat>, cat: Catalogue, a: Lockers, v: nat, k: int)
    requires WaresMoved(s, r, s', r', cat, a, v, k)
    ensures Forest(s, r) && Forest(s', r') && Owns(s, a) && Owns(s', a)
  {
    assert WareMoved(s, r, s', r', cat, a, v, k, 0);
  }

  // ----- items on offer -----------------------------------------------------------------------

  /** An item that holds nothing, somewhere in the depot chest or the inbox. */
  ghost predicate Kept(s: Store, r: seq<nat>, a: Lockers, x: Id)
    requires Forest(s, r)
  {
    && x < |s| && s[x].parent.Inside? && Items(s, x) == []
    && (a.inbox in Chain(s, r, x) || (a.depot.Some? && a.depot.value in Chain(s, r, x)))
  }

  /** The conditions of the search: the ware, a container must be empty and of its type's size, plain attributes. */
  ghost predicate Eligible(cat: Catalogue, n: Node, v: nat) {
    && !(n.box.Box? && n.box.items != [])
    && n.kind.id in cat.types && cat.types[n.kind.id].wareId == v
    && (n.box.Box? ==> cat.types[n.kind.id].container && n.box.capacity == cat.types[n.kind.id].maxItems)
    && n.kind !in cat.unmarketable
  }

  ghost predicate ListedAt(s: Store, r: seq<nat>, cat: Catalogue, v: nat, a: Lockers, x: Id)
    requires Forest(s, r)
  {
    Kept(s, r, a, x) && Eligible(cat, s[x], v)
  }

  /** A list of different items of the ware that the player keeps. */
  ghost predicate Listed(s: Store, r: seq<nat>, cat: Catalogue, v: nat, a: Lockers, xs: seq<Id>)
    requires Forest(s, r)
  {
    Distinct(xs) && forall j :: 0 <= j < |xs| ==> ListedAt(s, r, cat, v, a, xs[j])
  }

  function PiecesAt(s: Store, x: Id): nat { if x < |s| then Pieces(s[x].kind, s[x].count) else 0 }

  function PiecesOf(s: Store, xs: seq<Id>): nat {
    if xs == [] then 0 else PiecesAt(s, xs[0]) + PiecesOf(s, xs[1..])
  }

  /** Whether the player keeps at least `amount` pieces that can be offered. */
  ghost predicate CanSupply(s: Store, r: seq<nat>, cat: Catalogue, v: nat, a: Lockers, amount: nat)
    requires Forest(s, r)
  {
    exists xs :: Listed(s, r, cat, v, a, xs) && PiecesOf(s, xs) >= amount
  }

  lemma {:induction false} PiecesSplit(s: Store, xs: seq<Id>, i: nat)
    requires i < |xs|
    ensures PiecesOf(s, xs) == PiecesAt(s, xs[i]) + PiecesOf(s, xs[..i] + xs[i + 1..])
  {
    if i == 0 {
      assert xs[..0] + xs[1..] == xs[1..];
    } else {
      PiecesSplit(s, xs[1..], i - 1);
      assert (xs[..i] + xs[i + 1..])[1..] == xs[1..][..i - 1] + xs[1..][i..];
    }
  }

  /** Different items out of a list have no more pieces than the list. */
  lemma {:induction false} PiecesMost(s: Store, xs: seq<Id>, ys: seq<Id>)
    requires Distinct(xs) && forall x :: x in xs ==> x in ys
    ensures PiecesOf(s, xs) <= PiecesOf(s, ys)
  {
    if xs != [] {
      assert xs[0] in xs;
      var i :| 0 <= i < |ys| && ys[i] == xs[0];
      PiecesSplit(s, ys, i);
      DistinctTail(xs);
      var zs := ys[..i] + ys[i + 1..];
      forall x | x in xs[1..] ensures x in zs {
        assert x in xs;
        var j :| 0 <= j < |ys| && ys[j] == x;
        assert zs[if j < i then j else j - 1] == x;
      }
      PiecesMost(s, xs[1..], zs);
    }
  }

  // ----- the search ---------------------------------------------------------------------------

  /** The items met so far are `seen`, those to come are `left`, and `list` holds the eligible ones met. */
  ghost predicate Searching(s: Store, cat: Catalogue, v: nat, all: multiset<Id>, list: seq<Id>,
                            seen: multiset<Id>, left: multiset<Id>) {
    && seen + left == all
    && multiset(list) <= seen
    && (forall x :: x in seen && x < |s| && Eligible(cat, s[x], v) ==> x in list)
    && (forall j :: 0 <= j < |list| ==> list[j] < |s| && Eligible(cat, s[list[j]], v))
  }

  lemma SeeEligible(s: Store, cat: Catalogue, v: nat, all: multiset<Id>, list: seq<Id>, seen: multiset<Id>,
                    left: multiset<Id>, x: Id, left': multiset<Id>)
    requires Searching(s, cat, v, all, list, seen, left) && left == multiset{x} + left'
    requires x < |s| && Eligible(cat, s[x], v)
    ensures Searching(s, cat, v, all, [x] + list, seen + multiset{x}, left')
  {
    var list' := [x] + list;
    assert multiset(list') == multiset{x} + multiset(list);
    assert forall y :: y in list' <==> y == x || y in list;
    assert seen + multiset{x} + left' == seen + left;
  }

  lemma SeeOther(s: Store, cat: Catalogue, v: nat, all: multiset<Id>, list: seq<Id>, seen: multiset<Id>,
                 left: multiset<Id>, x: Id, left': multiset<Id>)
    requires Searching(s, cat, v, all, list, seen, left) && left == multiset{x} + left'
    requires x < |s| && !Eligible(cat, s[x], v)
    ensures Searching(s, cat, v, all, list, seen + multiset{x}, left')
  {
    assert seen + multiset{x} + left' == seen + left;
  }

  lemma SeeOne(s: Store, cat: Catalogue, v: nat, all: multiset<Id>, list: seq<Id>, seen: multiset<Id>,
               left: multiset<Id>, x: Id, left': multiset<Id>)
    requires Searching(s, cat, v, all, list, seen, left) && left == multiset{x} + left' && x < |s|
    ensures Searching(s, cat, v, all, if Eligible(cat, s[x], v) then [x] + list else list, seen + multiset{x}, left')
  {
    if Eligible(cat, s[x], v) {
      SeeEligible(s, cat, v, all, list, seen, left, x, left');
    } else {
      SeeOther(s, cat, v, all, list, seen, left, x, left');
    }
  }

  ghost function AllIn(s: Store, r: seq<nat>, a: Lockers): multiset<Id>
    requires Forest(s, r) && Owns(s, a) && a.depot.Some?
  {
    IdsIn(s, r, a.depot.value) + IdsIn(s, r, a.inbox)
  }

  /** Depot chest and inbox have no item in common. */
  lemma AllInOnce(s: Store, r: seq<nat>, a: Lockers, x: Id)
    requires Forest(s, r) && Owns(s, a) && a.depot.Some?
    ensures AllIn(s, r, a)[x] <= 1
    ensures x in AllIn(s, r, a) <==>
              x < |s| && s[x].parent.Inside? && (a.inbox in Chain(s, r, x) || a.depot.value in Chain(s, r, x))
  {
    HeldExactlyOnce(s, r, a.depot.value, x);
    HeldExactlyOnce(s, r, a.inbox, x);
    if x < |s| && a.inbox in Chain(s, r, x) && a.depot.value in Chain(s, r, x) {
      OneRoot(s, r, x, a.inbox, a.depot.value);
      assert false;
    }
  }

  lemma SearchIsListed(s: Store, r: seq<nat>, cat: Catalogue, v: nat, a: Lockers, list: seq<Id>,
                       seen: multiset<Id>, left: multiset<Id>)
    requires Forest(s, r) && Owns(s, a) && a.depot.Some?
    requires Searching(s, cat, v, AllIn(s, r, a), list, seen, left)
    ensures Listed(s, r, cat, v, a, list)
  {
    forall i, j | 0 <= i < j < |list| ensures list[i] != list[j] {
      if list[i] == list[j] {
        Money.TwiceInMultiset(list, i, j);
        AllInOnce(s, r, a, list[i]);
      }
    }
    forall j | 0 <= j < |list| ensures ListedAt(s, r, cat, v, a, list[j]) {
      AllInOnce(s, r, a, list[j]);
      assert list[j] in multiset(list);
    }
  }

  lemma SearchIsComplete(s: Store, r: seq<nat>, cat: Catalogue, v: nat, a: Lockers, list: seq<Id>,
                         seen: multiset<Id>, amount: nat)
    requires Forest(s, r) && Owns(s, a) && a.depot.Some?
    requires Searching(s, cat, v, AllIn(s, r, a), list, seen, multiset{}) && PiecesOf(s, list) < amount
    ensures !CanSupply(s, r, cat, v, a, amount)
  {
    forall xs | Listed(s, r, cat, v, a, xs) ensures PiecesOf(s, xs) < amount {
      forall x | x in xs ensures x in list {
        var j :| 0 <= j < |xs| && xs[j] == x;
        assert ListedAt(s, r, cat, v, a, xs[j]);
        AllInOnce(s, r, a, x);
        assert x in seen;
      }
      PiecesMost(s, xs, list);
    }
  }

  /** What is to come while the search is at position `i` of a container. */
  ghost function ToCome(s: Store, r: seq<nat>, container: Id, i: nat, queue: seq<Id>): multiset<Id>
    requires Forest(s, r) && container < |s| && i <= |Items(s, container)| && InStore(s, queue)
  {
    SuffixBelow(s, r, container, i);
    Ids(s, r, Items(s, container)[i..], r[container]) + IdsInAll(s, r, queue)
  }

  lemma StartSearch(s: Store, r: seq<nat>, a: Lockers)
    requires Forest(s, r) && Owns(s, a) && a.depot.Some?
    ensures IdsInAll(s, r, [a.depot.value, a.inbox]) == AllIn(s, r, a)
  {
    assert [a.depot.value, a.inbox][1..] == [a.inbox];
    assert [a.inbox][1..] == [];
    assert IdsInAll(s, r, [a.inbox]) == IdsIn(s, r, a.inbox) + IdsInAll(s, r, []);
  }

  /** The search has come to position `i` of a container; `budget` bounds the work to come. */
  ghost predicate SearchAt(s: Store, r: seq<nat>, cat: Catalogue, v: nat, all: multiset<Id>, list: seq<Id>,
                           seen: multiset<Id>, container: Id, i: nat, queue: seq<Id>, budget: nat)
    requires Forest(s, r)
  {
    && container < |s| && i <= |Items(s, container)| && InStore(s, queue)
    && Searching(s, cat, v, all, list, seen, ToCome(s, r, container, i, queue))
    && |ToCome(s, r, container, i, queue)| + |queue| <= budget
  }

  /** The same between two containers. */
  ghost predicate SearchQueue(s: Store, r: seq<nat>, cat: Catalogue, v: nat, all: multiset<Id>, list: seq<Id>,
                              seen: multiset<Id>, queue: seq<Id>)
    requires Forest(s, r)
  {
    InStore(s, queue) && Searching(s, cat, v, all, list, seen, IdsInAll(s, r, queue))
  }

  ghost function Work(s: Store, r: seq<nat>, queue: seq<Id>): nat
    requires Forest(s, r)
  {
    if InStore(s, queue) then |IdsInAll(s, r, queue)| + |queue| else 0
  }

  lemma EnterContainer(s: Store, r: seq<nat>, cat: Catalogue, v: nat, all: multiset<Id>, list: seq<Id>,
                       seen: multiset<Id>, queue: seq<Id>)
    requires Forest(s, r) && SearchQueue(s, r, cat, v, all, list, seen, queue) && queue != []
    ensures Work(s, r, queue) >= 1
    ensures SearchAt(s, r, cat, v, all, list, seen, queue[0], 0, queue[1..], Work(s, r, queue) - 1)
  {
    assert Items(s, queue[0])[0..] == Items(s, queue[0]);
  }

  lemma LeaveContainer(s: Store, r: seq<nat>, cat: Catalogue, v: nat, all: multiset<Id>, list: seq<Id>,
                       seen: multiset<Id>, container: Id, queue: seq<Id>, budget: nat)
    requires Forest(s, r) && container < |s|
    requires SearchAt(s, r, cat, v, all, list, seen, container, |Items(s, container)|, queue, budget)
    ensures SearchQueue(s, r, cat, v, all, list, seen, queue) && Work(s, r, queue) <= budget
  {
    assert ToCome(s, r, container, |Items(s, container)|, queue) == IdsInAll(s, r, queue);
  }

  lemma StopSearch(s: Store, r: seq<nat>, cat: Catalogue, v: nat, a: Lockers, list: seq<Id>,
                   seen: multiset<Id>, container: Id, i: nat, queue: seq<Id>, budget: nat, amount: nat)
    requires Forest(s, r) && Owns(s, a) && a.depot.Some? && PiecesOf(s, list) >= amount
    requires SearchAt(s, r, cat, v, AllIn(s, r, a), list, seen, container, i, queue, budget)
    ensures Listed(s, r, cat, v, a, list) && CanSupply(s, r, cat, v, a, amount)
  {
    SearchIsListed(s, r, cat, v, a, list, seen, ToCome(s, r, container, i, queue));
  }

  /** Queue the item if it holds anything; either way it is the only one to leave what is to come. */
  lemma MeetOne(s: Store, r: seq<nat>, container: Id, queue: seq<Id>, i: nat, x: Id, queue': seq<Id>)
    requires Forest(s, r) && container < |s| && InStore(s, queue) && i < |Items(s, container)|
    requires x == Items(s, container)[i] && queue' == if Items(s, x) != [] then queue + [x] else queue
    ensures x < |s| && InStore(s, queue')
    ensures ToCome(s, r, container, i, queue) == multiset{x} + ToCome(s, r, container, i + 1, queue')
  {
    IdsFront(s, r, container, i);
    if Items(s, x) != [] {
      IdsInAllAppend(s, r, queue, x);
    }
    Regroup(x, IdsIn(s, r, x), Ids(s, r, Items(s, container)[i + 1..], r[container]), IdsInAll(s, r, queue));
  }

  /**
    `Game::getMarketItemList`: enough pieces if the player has them, and no item more than needed.
    */
  method GetMarketItemList(s: Store, ghost r: seq<nat>, cat: Catalogue, v: nat, sufficient: nat, a: Lockers)
    returns (list: seq<Id>)
    requires Forest(s, r) && Stacks(s) && Owns(s, a) && a.depot.Some? && 1 <= sufficient <= 64000
    ensures Listed(s, r, cat, v, a, list)
    ensures list != [] <==> CanSupply(s, r, cat, v, a, sufficient)
    ensures list != [] ==> PiecesOf(s, list[1..]) < sufficient <= PiecesOf(s, list)
  {
    list := [];
    var count := 0;
    var containers := [a.depot.value, a.inbox];
    StartSearch(s, r, a);
    ghost var seen: multiset<Id> := multiset{};
    ghost var all := AllIn(s, r, a);
    while containers != []
      invariant SearchQueue(s, r, cat, v, all, list, seen, containers)
      invariant count == PiecesOf(s, list) < sufficient
      decreases Work(s, r, containers)
    {
      EnterContainer(s, r, cat, v, all, list, seen, containers);
      var container := containers[0];
      ghost var i, budget := 0, Work(s, r, containers) - 1;
      list, count, containers, seen, i :=
        SearchContainer(s, r, cat, v, sufficient, container, containers[1..], list, count, all, seen, budget);
      if count >= sufficient {
        StopSearch(s, r, cat, v, a, list, seen, container, i, containers, budget, sufficient);
        return;
      }
      LeaveContainer(s, r, cat, v, all, list, seen, container, containers, budget);
    }
    SearchIsComplete(s, r, cat, v, a, list, seen, sufficient);
    list := [];
  }

  lemma SearchStep(s: Store, r: seq<nat>, cat: Catalogue, v: nat, all: multiset<Id>, list: seq<Id>,
                   seen: multiset<Id>, container: Id, i: nat, queue: seq<Id>, budget: nat, x: Id,
                   list': seq<Id>, queue': seq<Id>)
    requires Forest(s, r) && SearchAt(s, r, cat, v, all, list, seen, container, i, queue, budget)
    requires i < |Items(s, container)| && x == Items(s, container)[i] && x < |s|
    requires list' == if Eligible(cat, s[x], v) then [x] + list else list
    requires queue' == if Items(s, x) != [] then queue + [x] else queue
    ensures SearchAt(s, r, cat, v, all, list', seen + multiset{x}, container, i + 1, queue', budget)
  {
    MeetOne(s, r, container, queue, i, x, queue');
    SeeOne(s, cat, v, all, list, seen, ToCome(s, r, container, i, queue), x, ToCome(s, r, container, i + 1, queue'));
  }

  /** The inner loop, over one container.  The 16-bit counter does not wrap. */
  method SearchContainer(s: Store, ghost r: seq<nat>, cat: Catalogue, v: nat, sufficient: nat, container: Id,
                         containers0: seq<Id>, list0: seq<Id>, count0: nat,
                         ghost all: multiset<Id>, ghost seen0: multiset<Id>, ghost budget: nat)
    returns (list: seq<Id>, count: nat, containers: seq<Id>, ghost seen: multiset<Id>, ghost at: nat)
    requires Forest(s, r) && Stacks(s) && sufficient <= 64000
    requires SearchAt(s, r, cat, v, all, list0, seen0, container, 0, containers0, budget)
    requires count0 == PiecesOf(s, list0) < sufficient
    ensures count == PiecesOf(s, list) && container < |s|
    ensures SearchAt(s, r, cat, v, all, list, seen, container, at, containers, budget)
    ensures count < sufficient ==> at == |Items(s, container)|
    ensures count >= sufficient ==> list != [] && PiecesOf(s, list[1..]) < sufficient
  {
    list, count, containers, seen, at := list0, count0, containers0, seen0, 0;
    for i := 0 to |Items(s, container)|
      invariant count == PiecesOf(s, list) < sufficient
      invariant SearchAt(s, r, cat, v, all, list, seen, container, i, containers, budget) && at == i
    {
      var x := Items(s, container)[i];
      HeldBy(s, container, x);
      var n, queue, found := s[x], containers, list;
      PiecesFront(s, x, list);
      if n.box.Box? && n.box.items != [] {
        queue := containers + [x];
      } else if n.kind.id in cat.types && cat.types[n.kind.id].wareId == v
                && (n.box.NoBox? || (cat.types[n.kind.id].container && n.box.capacity == cat.types[n.kind.id].maxItems))
                && n.kind !in cat.unmarketable {
        found, count := [x] + list, Counted(s, x, count);
      }
      SearchStep(s, r, cat, v, all, list, seen, container, i, containers, budget, x, found, queue);
      list, containers, seen, at := found, queue, seen + multiset{x}, i + 1;
      if count >= sufficient {
        return;
      }
    }
  }

  lemma PiecesFront(s: Store, x: Id, list: seq<Id>)
    ensures PiecesOf(s, [x] + list) == PiecesAt(s, x) + PiecesOf(s, list) && ([x] + list)[1..] == list
  {}

  /** Adding to the 16-bit counter. */
  function Counted(s: Store, x: Id, count: nat): (n: nat)
    requires Stacks(s) && x < |s| && s[x].parent.Inside? && count < 64000
    ensures n == count + PiecesAt(s, x)
  {
    assert StackOk(s[x]);
    (count + Pieces(s[x].kind, s[x].count)) % 0x1_0000
  }

  // ----- taking ---------------------------------------------------------------------------------

  lemma NothingAbove(s: Store, r: seq<nat>, x: Id, y: Id)
    requires Forest(s, r) && x < |s| && y < |s| && Items(s, x) == [] && x != y
    ensures x !in Chain(s, r, y)
  {
    ThroughAChild(s, r, x, y);
  }

  /** The one locker that an item is in is the only root whose contents change with it. */
  lemma LossAtRoot(s: Store, r: seq<nat>, a: Lockers, x: Id, d: Id)
    requires Forest(s, r) && Owns(s, a) && Kept(s, r, a, x) && IsRoot(s, d)
    ensures s[x].parent.c < |s|
    ensures d in Chain(s, r, s[x].parent.c) ==> d == a.inbox || a.depot == Some(d)
    ensures a.inbox in Chain(s, r, s[x].parent.c) || (a.depot.Some? && a.depot.value in Chain(s, r, s[x].parent.c))
    ensures !(a.inbox in Chain(s, r, s[x].parent.c) && a.depot.Some? && a.depot.value in Chain(s, r, s[x].parent.c))
  {
    assert NodeOk(s, x);
    var p := s[x].parent.c;
    var root := if a.inbox in Chain(s, r, x) then a.inbox else a.depot.value;
    assert x != root;
    assert root in Chain(s, r, p);
    if d in Chain(s, r, p) { OneRoot(s, r, p, d, root); }
    if a.depot.Some? && a.depot.value in Chain(s, r, p) { OneRoot(s, r, p, a.depot.value, root); }
    if a.inbox in Chain(s, r, p) { OneRoot(s, r, p, a.inbox, root); }
  }

  /** If everything above an item loses `loss` and nothing else changes, its owner's stock loses `loss`. */
  lemma LossMovesStock(s: Store, r: seq<nat>, s': Store, f: Measure, a: Lockers, x: Id, loss: int)
    requires Forest(s, r) && Forest(s', r) && |s'| == |s| && Owns(s, a) && Kept(s, r, a, x) && s[x].parent.c < |s|
    requires forall d :: 0 <= d < |s| && IsRoot(s, d) ==> IsRoot(s', d) && s'[d].box.role == s[d].box.role
    requires forall d :: 0 <= d < |s| && IsRoot(s, d) ==>
               DeepIn(s', r, f, d) == DeepIn(s, r, f, d) - On(d in Chain(s, r, s[x].parent.c), loss)
    ensures StockMoved(s, r, s', r, f, a, -loss)
  {
    forall d | 0 <= d < |s| && IsRoot(s, d) ensures RootKept(s, r, s', r, f, a, d) {
      LossAtRoot(s, r, a, x, d);
    }
    LossAtRoot(s, r, a, x, a.inbox);
  }

  lemma TakenWhole(s: Store, r: seq<nat>, f: Measure, a: Lockers, x: Id, p: Id, at: nat)
    requires Forest(s, r) && Owns(s, a) && Kept(s, r, a, x) && s[x].parent == Inside(p)
    requires p < |s| && at < |Items(s, p)| && Items(s, p)[at] == x
    ensures x != p && IsBox(s, p) && StockMoved(s, r, Take(s, p, at), r, f, a, -f(s[x].kind, s[x].count))
  {
    TakeForest(s, r, p, at);
    assert NodeOk(s, x) && RankOk(s, r, x);
    forall d | 0 <= d < |s| && IsRoot(s, d)
      ensures DeepIn(Take(s, p, at), r, f, d) == DeepIn(s, r, f, d) - On(d in Chain(s, r, p), f(s[x].kind, s[x].count))
    {
      TakeDeep(s, r, f, p, at, d);
    }
    LossMovesStock(s, r, Take(s, p, at), f, a, x, f(s[x].kind, s[x].count));
  }

  lemma TakenPart(s: Store, r: seq<nat>, f: Measure, a: Lockers, x: Id, n: nat)
    requires Forest(s, r) && Owns(s, a) && Kept(s, r, a, x) && n <= s[x].count
    requires f(s[x].kind, s[x].count) == f(s[x].kind, s[x].count - n) + f(s[x].kind, n)
    ensures StockMoved(s, r, SetItem(s, x, s[x].kind, s[x].count - n), r, f, a, -f(s[x].kind, n))
  {
    var s' := SetItem(s, x, s[x].kind, s[x].count - n);
    assert NodeOk(s, x);
    SetItemForest(s, r, x, s[x].kind, s[x].count - n);
    forall d | 0 <= d < |s| && IsRoot(s, d)
      ensures DeepIn(s', r, f, d) == DeepIn(s, r, f, d) - On(d in Chain(s, r, s[x].parent.c), f(s[x].kind, n))
    {
      SetItemDeep(s, r, f, x, s[x].kind, s[x].count - n, d);
    }
    LossMovesStock(s, r, s', f, a, x, f(s[x].kind, n));
  }

  /** Taking one item leaves the others where they are. */
  lemma OtherStays(s: Store, r: seq<nat>, s': Store, cat: Catalogue, v: nat, a: Lockers, x: Id, y: Id)
    requires Forest(s, r) && Forest(s', r) && |s'| == |s| && Kept(s, r, a, x) && ListedAt(s, r, cat, v, a, y) && x != y
    requires forall z :: 0 <= z < |s| && z != x ==> s'[z].parent == s[z].parent
    requires s[x].parent.c != y ==> s'[y] == s[y]
    ensures ListedAt(s', r, cat, v, a, y) && s'[y] == s[y]
  {
    assert NodeOk(s, x);
    NothingAbove(s, r, x, y);
    ChainStable(s, r, s', r, y);
  }

  ghost predicate OthersStay(s: Store, r: seq<nat>, s': Store, cat: Catalogue, v: nat, a: Lockers, x: Id)
    requires Forest(s, r) && Forest(s', r)
  {
    && |s'| == |s|
    && forall y :: 0 <= y < |s| && y != x && ListedAt(s, r, cat, v, a, y) ==> ListedAt(s', r, cat, v, a, y) && s'[y] == s[y]
  }

  lemma TakeLeavesOthers(s: Store, r: seq<nat>, s': Store, cat: Catalogue, v: nat, a: Lockers, x: Id)
    requires Forest(s, r) && Forest(s', r) && |s'| == |s| && Kept(s, r, a, x)
    requires forall z :: 0 <= z < |s| && z != x ==> s'[z].parent == s[z].parent
    requires forall y :: 0 <= y < |s| && y != x && y != s[x].parent.c ==> s'[y] == s[y]
    ensures OthersStay(s, r, s', cat, v, a, x)
  {
    forall y | 0 <= y < |s| && y != x && ListedAt(s, r, cat, v, a, y)
      ensures ListedAt(s', r, cat, v, a, y) && s'[y] == s[y]
    {
      OtherStays(s, r, s', cat, v, a, x, y);
    }
  }

  /** `n` pieces of a listed item are gone, and nothing else happened. */
  ghost predicate ItemRemoved(s: Store, r: seq<nat>, s': Store, cat: Catalogue, v: nat, a: Lockers, x: Id, n: nat)
    requires x < |s|
  {
    && Forest(s, r) && Forest(s', r)
    && WaresMoved(s, r, s', r, cat, a, v, 0 - n)
    && OthersStay(s, r, s', cat, v, a, x)
    && KindsKept(s, s', s[x].kind)
  }

  lemma WaresTaken(s: Store, r: seq<nat>, cat: Catalogue, v: nat, a: Lockers, x: Id, n: nat, p: Id, at: nat)
    requires Forest(s, r) && Owns(s, a) && ListedAt(s, r, cat, v, a, x) && s[x].parent == Inside(p)
    requires p < |s| && at < |Items(s, p)| && Items(s, p)[at] == x && n == PiecesAt(s, x)
    ensures x != p && IsBox(s, p) && WaresMoved(s, r, Take(s, p, at), r, cat, a, v, 0 - n)
  {
    TakeForest(s, r, p, at);
    var s', k := Take(s, p, at), 0 - n;
    forall u: nat ensures WareMoved(s, r, s', r, cat, a, v, k, u) {
      TakenWhole(s, r, Ware(cat, u), a, x, p, at);
    }
  }

  lemma RemovedWhole(s: Store, r: seq<nat>, cat: Catalogue, v: nat, a: Lockers, x: Id, n: nat, p: Id, at: nat)
    requires Forest(s, r) && Owns(s, a) && ListedAt(s, r, cat, v, a, x) && s[x].parent == Inside(p)
    requires p < |s| && at < |Items(s, p)| && Items(s, p)[at] == x && n == PiecesAt(s, x)
    ensures x != p && IsBox(s, p) && ItemRemoved(s, r, Take(s, p, at), cat, v, a, x, n)
  {
    TakeForest(s, r, p, at);
    var s' := Take(s, p, at);
    assert WaresMoved(s, r, s', r, cat, a, v, 0 - n) by { WaresTaken(s, r, cat, v, a, x, n, p, at); }
    TakeLeavesOthers(s, r, s', cat, v, a, x);
    assert KindsKept(s, s', s[x].kind);
  }

  lemma RemovedPart(s: Store, r: seq<nat>, cat: Catalogue, v: nat, a: Lockers, x: Id, n: nat)
    requires Forest(s, r) && Owns(s, a) && ListedAt(s, r, cat, v, a, x) && s[x].kind.stackable && n <= s[x].count
    ensures ItemRemoved(s, r, SetItem(s, x, s[x].kind, s[x].count - n), cat, v, a, x, n)
  {
    var s', k := SetItem(s, x, s[x].kind, s[x].count - n), 0 - n;
    SetItemForest(s, r, x, s[x].kind, s[x].count - n);
    forall u: nat ensures WareMoved(s, r, s', r, cat, a, v, k, u) {
      TakenPart(s, r, Ware(cat, u), a, x, n);
    }
    TakeLeavesOthers(s, r, SetItem(s, x, s[x].kind, s[x].count - n), cat, v, a, x);
  }

  lemma Removed(s: Store, r: seq<nat>, s': Store, cat: Catalogue, v: nat, a: Lockers, x: Id, n: nat, p: Id, at: nat)
    requires Forest(s, r) && Owns(s, a) && ListedAt(s, r, cat, v, a, x) && s[x].parent == Inside(p)
    requires IsBox(s, p) && x != p && at < |Items(s, p)| && Items(s, p)[at] == x && n <= PiecesAt(s, x)
    requires s' == if s[x].kind.stackable && n != s[x].count then SetItem(s, x, s[x].kind, s[x].count - n) else Take(s, p, at)
    requires s[x].kind.stackable || n == 1
    ensures ItemRemoved(s, r, s', cat, v, a, x, n)
  {
    if s[x].kind.stackable && n != s[x].count {
      RemovedPart(s, r, cat, v, a, x, n);
    } else {
      RemovedWhole(s, r, cat, v, a, x, n, p, at);
    }
  }

  /** `Game::internalRemoveItem`: part of a stack, or the whole item. */
  method InternalRemoveItem(w: World, x: Id, n: nat) returns (ghost p: Id, ghost at: nat)
    requires w.Valid() && x < |w.nodes| && w.nodes[x].parent.Inside?
    requires 1 <= n <= PiecesAt(w.nodes, x)
    modifies w
    ensures w.Valid() && w.rank == old(w.rank)
    ensures old(w.nodes[x].parent) == Inside(p) && IsBox(old(w.nodes), p) && x != p
    ensures at < |Items(old(w.nodes), p)| && Items(old(w.nodes), p)[at] == x
    ensures w.nodes == if old(w.nodes[x].kind.stackable) && n != old(w.nodes[x].count)
                       then SetItem(old(w.nodes), x, old(w.nodes[x].kind), old(w.nodes[x].count) - n)
                       else Take(old(w.nodes), p, at)
  {
    assert NodeOk(w.nodes, x);
    var cylinder := w.nodes[x].parent.c;
    var index := w.GetThingIndex(cylinder, x);
    p, at := cylinder, index;
    w.RemoveThing(cylinder, x, n);
  }

  method RemoveItem(w: World, cat: Catalogue, v: nat, a: Lockers, x: Id, n: nat)
    requires w.Valid() && Owns(w.nodes, a) && ListedAt(w.nodes, w.rank, cat, v, a, x)
    requires 1 <= n <= PiecesAt(w.nodes, x)
    modifies w
    ensures w.Valid() && w.rank == old(w.rank)
    ensures ItemRemoved(old(w.nodes), w.rank, w.nodes, cat, v, a, x, n)
  {
    ghost var s, r := w.nodes, w.rank;
    ghost var p, at := InternalRemoveItem(w, x, n);
    Removed(s, r, w.nodes, cat, v, a, x, n, p, at);
  }

  // ----- taking what was found ------------------------------------------------------------------

  /** `k` pieces of the ware are gone from the player's lockers, and the rest of the list is still there. */
  ghost predicate Drawn(s: Store, r: seq<nat>, s': Store, cat: Catalogue, v: nat, a: Lockers, list: seq<Id>, i: nat,
                        k: nat)
  {
    && Taken(s, r, s', cat, v, a, k)
    && (forall j :: i <= j < |list| ==> StillListed(s, r, s', cat, v, a, list[j]))
  }

  /** `k` pieces of the ware are gone, and nothing else. */
  ghost predicate Taken(s: Store, r: seq<nat>, s': Store, cat: Catalogue, v: nat, a: Lockers, k: nat) {
    && Forest(s, r) && Forest(s', r) && Owns(s', a) && |s'| == |s|
    && WaresMoved(s, r, s', r, cat, a, v, 0 - k)
    && SameKinds(s, s')
  }

  ghost predicate SameKinds(s: Store, s': Store) {
    |s'| == |s| && forall y :: 0 <= y < |s| ==> SameKind(s, s', y)
  }

  ghost predicate SameKind(s: Store, s': Store, y: Id)
    requires y < |s| == |s'|
  {
    s'[y].kind == s[y].kind
  }

  ghost predicate StillListed(s: Store, r: seq<nat>, s': Store, cat: Catalogue, v: nat, a: Lockers, x: Id)
    requires Forest(s', r) && |s'| == |s|
  {
    ListedAt(s', r, cat, v, a, x) && s'[x] == s[x]
  }

  lemma DrawnNext(s: Store, r: seq<nat>, s1: Store, s2: Store, cat: Catalogue, v: nat, a: Lockers, list: seq<Id>, i: nat,
                  k: nat, n: nat)
    requires Drawn(s, r, s1, cat, v, a, list, i, k) && i < |list| && Distinct(list) && list[i] < |s1|
    requires ItemRemoved(s1, r, s2, cat, v, a, list[i], n)
    ensures Drawn(s, r, s2, cat, v, a, list, i + 1, k + n)
  {
    WaresMovedTwice(s, r, s1, r, s2, r, cat, a, v, 0 - k, 0 - n);
    WaresOwned(s1, r, s2, r, cat, a, v, 0 - n);
    assert 0 - k + (0 - n) == 0 - (k + n);
    forall y | 0 <= y < |s| ensures SameKind(s, s2, y) {
      assert SameKind(s, s1, y) && KindKept(s1, s2, s1[list[i]].kind, y);
    }
    forall j | i + 1 <= j < |list| ensures StillListed(s, r, s2, cat, v, a, list[j]) {
      assert StillListed(s, r, s1, cat, v, a, list[j]);
    }
  }

  /** The pieces of a list from a position on. */
  function PiecesFrom(s: Store, list: seq<Id>, i: nat): nat
    decreases |list| - i
  {
    if i < |list| then PiecesAt(s, list[i]) + PiecesFrom(s, list, i + 1) else 0
  }

  lemma {:induction false} PiecesFromIs(s: Store, list: seq<Id>, i: nat)
    requires i <= |list|
    ensures PiecesFrom(s, list, i) == PiecesOf(s, list[i..])
    decreases |list| - i
  {
    if i < |list| {
      PiecesFromIs(s, list, i + 1);
      assert list[i..][1..] == list[i + 1..];
    }
  }

  /** The loop for wares that stack: pieces up to the amount. */
  method RemoveStacks(w: World, cat: Catalogue, v: nat, a: Lockers, list: seq<Id>, amount: nat)
    requires w.Valid() && Owns(w.nodes, a) && Listed(w.nodes, w.rank, cat, v, a, list)
    requires 1 <= amount <= PiecesFrom(w.nodes, list, 0)
    modifies w
    ensures w.Valid() && w.rank == old(w.rank)
    ensures Taken(old(w.nodes), w.rank, w.nodes, cat, v, a, amount)
  {
    ghost var s, r := w.nodes, w.rank;
    DrawnNothing(s, r, cat, v, a, list);
    var tmpAmount, i := amount, 0;
    ghost var k: nat := 0;
    while i < |list|
      invariant 0 <= i <= |list| && w.Valid() && w.rank == r
      invariant 1 <= tmpAmount <= PiecesFrom(s, list, i) && k + tmpAmount == amount
      invariant Drawn(s, r, w.nodes, cat, v, a, list, i, k)
    {
      var removeCount;
      removeCount, k := RemoveUpTo(w, s, r, cat, v, a, list, i, tmpAmount, k);
      tmpAmount := tmpAmount - removeCount;
      if tmpAmount == 0 {
        return;
      }
      i := i + 1;
    }
  }

  lemma DrawnNothing(s: Store, r: seq<nat>, cat: Catalogue, v: nat, a: Lockers, list: seq<Id>)
    requires Forest(s, r) && Owns(s, a) && Listed(s, r, cat, v, a, list)
    ensures Drawn(s, r, s, cat, v, a, list, 0, 0)
  {
    WaresUnmoved(s, r, cat, a, v);
    forall j | 0 <= j < |list| ensures StillListed(s, r, s, cat, v, a, list[j]) {
      assert ListedAt(s, r, cat, v, a, list[j]);
    }
  }

  /** Takes one item of the list, or as many pieces of it as are still needed. */
  method RemoveUpTo(w: World, ghost s: Store, ghost r: seq<nat>, cat: Catalogue, v: nat, a: Lockers, list: seq<Id>, i: nat,
                    needed: nat, ghost k: nat)
    returns (removeCount: nat, ghost k': nat)
    requires w.Valid() && i < |list| && Distinct(list) && 1 <= needed
    requires Drawn(s, r, w.nodes, cat, v, a, list, i, k) && w.rank == r
    modifies w
    ensures w.Valid() && w.rank == r && k' == k + removeCount && PiecesFrom(s, list, i) == PiecesAt(s, list[i]) + PiecesFrom(s, list, i + 1)
    ensures removeCount == Min(needed, PiecesAt(s, list[i])) && PiecesAt(s, list[i]) <= 100
    ensures Drawn(s, r, w.nodes, cat, v, a, list, i + 1, k')
  {
    var x := list[i];
    ghost var s1 := w.nodes;
    assert StillListed(s, r, s1, cat, v, a, x);
    assert StackOk(s1[x]);
    removeCount := Min(needed, Pieces(w.nodes[x].kind, w.nodes[x].count));
    RemoveItem(w, cat, v, a, x, removeCount);
    DrawnNext(s, r, s1, w.nodes, cat, v, a, list, i, k, removeCount);
    k' := k + removeCount;
  }

  /** The loop for other wares: every item of the list. */
  method RemoveAll(w: World, cat: Catalogue, v: nat, a: Lockers, list: seq<Id>, ghost amount: nat)
    requires w.Valid() && Owns(w.nodes, a) && Listed(w.nodes, w.rank, cat, v, a, list)
    requires amount == PiecesFrom(w.nodes, list, 0)
    modifies w
    ensures w.Valid() && w.rank == old(w.rank)
    ensures Taken(old(w.nodes), w.rank, w.nodes, cat, v, a, amount)
  {
    ghost var s, r := w.nodes, w.rank;
    DrawnNothing(s, r, cat, v, a, list);
    ghost var k: nat := 0;
    for i := 0 to |list|
      invariant w.Valid() && w.rank == r
      invariant Drawn(s, r, w.nodes, cat, v, a, list, i, k) && k + PiecesFrom(s, list, i) == amount
    {
      var removeCount;
      removeCount, k := RemoveUpTo(w, s, r, cat, v, a, list, i, 100, k);
    }
    assert k == amount;
  }

  lemma {:induction false} OnePieceEach(s: Store, r: seq<nat>, cat: Catalogue, v: nat, a: Lockers, xs: seq<Id>)
    requires Forest(s, r) && forall j :: 0 <= j < |xs| ==> ListedAt(s, r, cat, v, a, xs[j])
    requires Typed(s, cat) && forall id :: id in cat.types && cat.types[id].wareId == v ==> !cat.types[id].kind.stackable
    ensures PiecesOf(s, xs) == |xs|
  {
    if xs != [] {
      assert ListedAt(s, r, cat, v, a, xs[0]) && TypedAt(s[xs[0]].kind, cat);
      assert forall j :: 0 <= j < |xs[1..]| ==> xs[1..][j] == xs[j + 1];
      OnePieceEach(s, r, cat, v, a, xs[1..]);
    }
  }

  lemma JustEnough(s: Store, r: seq<nat>, cat: Catalogue, t: ItemType, a: Lockers, list: seq<Id>, amount: nat)
    requires Forest(s, r) && Listed(s, r, cat, t.wareId, a, list) && Typed(s, cat) && CatalogueOk(cat) && IsType(cat, t)
    requires !t.kind.stackable && t.wareId != 0 && list != [] && PiecesOf(s, list[1..]) < amount <= PiecesOf(s, list)
    ensures PiecesOf(s, list) == amount
  {
    forall j | 0 <= j < |list[1..]| ensures ListedAt(s, r, cat, t.wareId, a, list[1..][j]) {
      assert list[1..][j] == list[j + 1];
    }
    OnePieceEach(s, r, cat, t.wareId, a, list);
    OnePieceEach(s, r, cat, t.wareId, a, list[1..]);
  }

  predicate IsType(cat: Catalogue, t: ItemType) {
    t.kind.id in cat.types && cat.types[t.kind.id] == t
  }

  /** The items found leave the lockers, one way for wares that stack and another for those that do not. */
  method RemoveListed(w: World, cat: Catalogue, t: ItemType, amount: nat, a: Lockers, list: seq<Id>)
    requires w.Valid() && Owns(w.nodes, a) && Typed(w.nodes, cat) && CatalogueOk(cat)
    requires IsType(cat, t) && t.wareId != 0 && Listed(w.nodes, w.rank, cat, t.wareId, a, list)
    requires list != [] && 1 <= amount && PiecesOf(w.nodes, list[1..]) < amount <= PiecesOf(w.nodes, list)
    modifies w
    ensures w.Valid() && w.rank == old(w.rank)
    ensures Taken(old(w.nodes), w.rank, w.nodes, cat, t.wareId, a, amount)
  {
    PiecesFromIs(w.nodes, list, 0);
    assert list[0..] == list;
    if t.kind.stackable {
      RemoveStacks(w, cat, t.wareId, a, list, amount);
    } else {
      JustEnough(w.nodes, w.rank, cat, t, a, list, amount);
      RemoveAll(w, cat, t.wareId, a, list, amount);
    }
  }

  /** Search and removal: succeeds exactly when the player can supply the amount, and then takes exactly that. */
  method TakeGoods(w: World, cat: Catalogue, t: ItemType, amount: nat, a: Lockers) returns (ok: bool)
    requires w.Valid() && Owns(w.nodes, a) && a.depot.Some? && Typed(w.nodes, cat) && CatalogueOk(cat)
    requires IsType(cat, t) && t.wareId != 0 && 1 <= amount <= 64000
    modifies w
    ensures w.Valid() && Typed(w.nodes, cat)
    ensures ok <==> old(CanSupply(w.nodes, w.rank, cat, t.wareId, a, amount))
    ensures !ok ==> w.nodes == old(w.nodes) && w.rank == old(w.rank)
    ensures WaresMoved(old(w.nodes), old(w.rank), w.nodes, w.rank, cat, a, t.wareId, if ok then 0 - amount else 0)
  {
    ghost var s, r := w.nodes, w.rank;
    var list := GetMarketItemList(w.nodes, w.rank, cat, t.wareId, amount, a);
    if list == [] {
      WaresUnmoved(s, r, cat, a, t.wareId);
      return false;
    }
    RemoveListed(w, cat, t, amount, a, list);
    StillTyped(s, w.nodes, cat);
    return true;
  }

  lemma StillTyped(s: Store, s': Store, cat: Catalogue)
    requires Typed(s, cat) && SameKinds(s, s')
    ensures Typed(s', cat)
  {
    forall y | 0 <= y < |s'| ensures TypedAt(s'[y].kind, cat) {
      assert SameKind(s, s', y);
      assert TypedAt(s[y].kind, cat);
    }
  }

  // ----- delivering -------------------------------------------------------------------------------

  const NO_LIMIT := NO_FLAGS.(noLimit := true)

  lemma WareLinear(cat: Catalogue, u: nat, kind: Kind)
    requires kind.stackable
    ensures Linear(Ware(cat, u), kind)
  {}

  lemma Delivered(s: Store, r: seq<nat>, s2: Store, r2: seq<nat>, f: Measure, a: Lockers, kind: Kind, n: nat)
    requires Forest(s, r) && Owns(s, a)
    requires AddedTo(Spawn(s, kind, n), r + [0], s2, r2, a.inbox, |s|, f, NO_LIMIT)
    ensures StockMoved(s, r, s2, r2, f, a, f(kind, n))
  {
    var s1, r1 := Spawn(s, kind, n), r + [0];
    SpawnForest(s, r, kind, n);
    DeepLeaf(s1, r1, f, |s|);
    assert Chain(s, r, a.inbox) == {a.inbox};
    forall d | 0 <= d < |s| && IsRoot(s, d)
      ensures RootKept(s, r, s2, r2, f, a, d)
      ensures DeepIn(s2, r2, f, d) == DeepIn(s, r, f, d) + On(d == a.inbox, f(kind, n))
    {
      SpawnDeep(s, r, f, kind, n, d);
      assert KeptAt(s1, s2, d, kind);
      assert GainedAt(s1, r1, s2, r2, f, a.inbox, f(kind, n) + DeepIn(s1, r1, f, |s|), d);
    }
  }

  lemma NotDelivered(s: Store, r: seq<nat>, f: Measure, a: Lockers, kind: Kind, n: nat)
    requires Forest(s, r) && Owns(s, a)
    ensures StockMoved(s, r, Spawn(s, kind, n), r + [0], f, a, 0)
  {
    SpawnForest(s, r, kind, n);
    forall d | 0 <= d < |s| && IsRoot(s, d)
      ensures DeepIn(Spawn(s, kind, n), r + [0], f, d) == DeepIn(s, r, f, d)
    {
      SpawnDeep(s, r, f, kind, n, d);
    }
  }

  lemma TypedAfterAdd(s: Store, s1: Store, s2: Store, cat: Catalogue, kind: Kind, n: nat)
    requires Typed(s, cat) && TypedAt(kind, cat) && s1 == Spawn(s, kind, n) && KindsKept(s1, s2, kind)
    ensures Typed(s2, cat)
  {
    forall y | 0 <= y < |s2| ensures TypedAt(s2[y].kind, cat) {
      assert KindKept(s1, s2, kind, y);
      if y < |s| { assert TypedAt(s[y].kind, cat); }
    }
  }

  lemma DeliveredAll(s: Store, r: seq<nat>, s2: Store, r2: seq<nat>, cat: Catalogue, a: Lockers, t: ItemType, n: nat, k: int)
    requires Forest(s, r) && Owns(s, a) && IsType(cat, t) && k == Pieces(t.kind, n)
    requires Arrived(Spawn(s, t.kind, n), r + [0], s2, r2, a.inbox, |s|, NO_LIMIT)
    ensures WaresMoved(s, r, s2, r2, cat, a, t.wareId, k)
  {
    var s1, r1 := Spawn(s, t.kind, n), r + [0];
    forall u: nat ensures WareMoved(s, r, s2, r2, cat, a, t.wareId, k, u) {
      if t.kind.stackable { WareLinear(cat, u, t.kind); }
      assert Suits(Ware(cat, u), s1[|s|].kind);
      assert AddedTo(s1, r1, s2, r2, a.inbox, |s|, Ware(cat, u), NO_LIMIT);
      Delivered(s, r, s2, r2, Ware(cat, u), a, t.kind, n);
    }
  }

  lemma NotDeliveredAll(s: Store, r: seq<nat>, cat: Catalogue, a: Lockers, t: ItemType, n: nat)
    requires Forest(s, r) && Owns(s, a)
    ensures WaresMoved(s, r, Spawn(s, t.kind, n), r + [0], cat, a, t.wareId, 0)
  {
    var s1, r1 := Spawn(s, t.kind, n), r + [0];
    forall u: nat ensures WareMoved(s, r, s1, r1, cat, a, t.wareId, 0, u) {
      NotDelivered(s, r, Ware(cat, u), a, t.kind, n);
    }
  }

  /** One new item for the inbox; accepted exactly when it can be picked up. */
  method DeliverOne(w: World, cat: Catalogue, t: ItemType, n: nat, a: Lockers) returns (ok: bool)
    requires w.Valid() && Owns(w.nodes, a) && Typed(w.nodes, cat) && IsType(cat, t)
    requires t.kind.stackable ==> 1 <= n <= 100
    modifies w
    ensures w.Valid() && Typed(w.nodes, cat) && (ok <==> t.kind.pickupable)
    ensures WaresMoved(old(w.nodes), old(w.rank), w.nodes, w.rank, cat, a, t.wareId, if ok then Pieces(t.kind, n) else 0)
  {
    ghost var s, r := w.nodes, w.rank;
    NotDeliveredAll(s, r, cat, a, t, n);
    var x := w.CreateItem(t.kind, n);
    ghost var s1 := w.nodes;
    MailboxFits(s1, w.rank, a.inbox, x, NO_LIMIT);
    var ret := InternalAddItem(w, a.inbox, x, NO_LIMIT);
    ok := ret == NoError;
    TypedAfterAdd(s, s1, w.nodes, cat, t.kind, n);
    if ok {
      DeliveredAll(s, r, w.nodes, w.rank, cat, a, t, n, Pieces(t.kind, n));
    }
  }

  /** The loops that fill an inbox: all of the amount arrives, or, if it cannot be picked up, none of it. */
  method Deliver(w: World, cat: Catalogue, t: ItemType, amount: nat, a: Lockers)
    requires w.Valid() && Owns(w.nodes, a) && Typed(w.nodes, cat) && IsType(cat, t)
    modifies w
    ensures w.Valid() && Typed(w.nodes, cat)
    ensures WaresMoved(old(w.nodes), old(w.rank), w.nodes, w.rank, cat, a, t.wareId, if t.kind.pickupable then amount else 0)
  {
    ghost var s, r, k := w.nodes, w.rank, 0;
    WaresUnmoved(s, r, cat, a, t.wareId);
    var tmpAmount := amount;
    while tmpAmount > 0
      invariant 0 <= tmpAmount <= amount && w.Valid() && Typed(w.nodes, cat) && Owns(w.nodes, a)
      invariant k == if t.kind.pickupable then amount - tmpAmount else 0
      invariant WaresMoved(s, r, w.nodes, w.rank, cat, a, t.wareId, k)
    {
      var stackCount := if t.kind.stackable then Min(100, tmpAmount) else 1;
      ghost var s1, r1 := w.nodes, w.rank;
      var ok := DeliverOne(w, cat, t, stackCount, a);
      ghost var n: int := if ok then Pieces(t.kind, stackCount) else 0;
      WaresMovedTwice(s, r, s1, r1, w.nodes, w.rank, cat, a, t.wareId, k, n);
      WaresOwned(s1, r1, w.nodes, w.rank, cat, a, t.wareId, n);
      k := k + n;
      if !ok {
        break;
      }
      tmpAmount := tmpAmount - stackCount;
    }
  }
}
