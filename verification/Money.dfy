/**
  Paying with coins that lie anywhere in a container, and giving change (src/game.cpp:1461-1581).
  */
module Money {
  import opened Common
  import opened ItemForest
  import opened ItemSteps
  import opened ContainerWalk
  import opened Containers
  import opened ItemMoves
  import opened ItemAdds

  const ITEM_GOLD_COIN := 2148
  const ITEM_PLATINUM_COIN := 2152
  const ITEM_CRYSTAL_COIN := 2160

  /** `Item::getWorth` per piece. */
  function UnitWorth(kind: Kind): (worth: nat)
    ensures worth > 0 <==> kind.stackable && kind.id in {2148, 2152, 2160}
    ensures worth > 0 ==> worth in {1, 100, 10000}
  {
    if !kind.stackable then 0
    else if kind.id == ITEM_GOLD_COIN then 1
    else if kind.id == ITEM_PLATINUM_COIN then 100
    else if kind.id == ITEM_CRYSTAL_COIN then 10000
    else 0
  }

  function Worth(kind: Kind, n: nat): int { UnitWorth(kind) * n }

  lemma WorthLinear(kind: Kind)
    ensures Linear(Worth, kind)
  {
    forall a: nat, b: nat ensures Worth(kind, a + b) == Worth(kind, a) + Worth(kind, b) {
      assert UnitWorth(kind) * (a + b) == UnitWorth(kind) * a + UnitWorth(kind) * b;
    }
  }

  /** The kinds of item that `Item::CreateItem` makes for the three coin ids. */
  datatype Coins = Coins(gold: Kind, platinum: Kind, crystal: Kind)

  predicate CoinsOk(k: Coins) {
    && k.gold.stackable && k.gold.id == ITEM_GOLD_COIN
    && k.platinum.stackable && k.platinum.id == ITEM_PLATINUM_COIN
    && k.crystal.stackable && k.crystal.id == ITEM_CRYSTAL_COIN
  }

  // ----- giving ----------------------------------------------------------------------------

  /** Links stay, no stack shrinks, and stacks of coins dearer than `limit` stay as they are. */
  ghost predicate DearKept(s: Store, s': Store, limit: nat) {
    && |s| <= |s'|
    && forall y :: 0 <= y < |s| ==> DearKeptAt(s, s', y, limit)
  }

  ghost predicate DearKeptAt(s: Store, s': Store, y: Id, limit: nat)
    requires y < |s| <= |s'|
  {
    && s'[y].parent == s[y].parent && s'[y].kind == s[y].kind && s'[y].box.Box? == s[y].box.Box?
    && s[y].count <= s'[y].count && (UnitWorth(s[y].kind) > limit ==> s'[y].count == s[y].count)
  }

  /** What giving `amount` (less what was spilled) does to a holder. */
  ghost predicate Given(s: Store, r: seq<nat>, s': Store, r': seq<nat>, c: Id, amount: int, limit: nat) {
    && Forest(s, r) && Forest(s', r') && c < |s|
    && DearKept(s, s', limit)
    && Gained(s, r, s', r', Worth, c, amount)
  }

  lemma GivenNothing(s: Store, r: seq<nat>, c: Id, limit: nat)
    requires Forest(s, r) && c < |s|
    ensures Given(s, r, s, r, c, 0, limit)
  {
    forall y | 0 <= y < |s| ensures DearKeptAt(s, s, y, limit) {}
    forall d | 0 <= d < |s| && s[d].box.Box? ensures GainedAt(s, r, s, r, Worth, c, 0, d) {}
  }

  lemma GivenTwice(s: Store, r: seq<nat>, s1: Store, r1: seq<nat>, s2: Store, r2: seq<nat>, c: Id, a: int, b: int, limit: nat)
    requires Given(s, r, s1, r1, c, a, limit) && Given(s1, r1, s2, r2, c, b, limit)
    ensures Given(s, r, s2, r2, c, a + b, limit)
  {
    forall y | 0 <= y < |s| ensures DearKeptAt(s, s2, y, limit) && s1[y].box.Box? == s[y].box.Box? && s1[y].parent == s[y].parent {
      assert DearKeptAt(s, s1, y, limit) && DearKeptAt(s1, s2, y, limit);
    }
    ChainStable(s, r, s1, r1, c);
    GainsCompose(s, r, s1, r1, s2, r2, Worth, c, a, b);
  }

  lemma SpawnThenAdd(s: Store, r: seq<nat>, s2: Store, r2: seq<nat>, c: Id, kind: Kind, n: nat, flags: Flags)
    requires Forest(s, r) && IsBox(s, c) && UnitWorth(kind) > 0
    requires AddedTo(Spawn(s, kind, n), r + [0], s2, r2, c, |s|, Worth, flags)
    ensures Given(s, r, s2, r2, c, Worth(kind, n), UnitWorth(kind))
  {
    var s1, r1 := Spawn(s, kind, n), r + [0];
    SpawnForest(s, r, kind, n);
    SpawnKeeps(s, r, Worth, kind, n, c, |s|);
    DeepLeaf(s1, r1, Worth, |s|);
    forall y | 0 <= y < |s| ensures DearKeptAt(s, s2, y, UnitWorth(kind)) {
      assert KeptAt(s, s1, y, kind) && KeptAt(s1, s2, y, kind);
    }
    GainsCompose(s, r, s1, r1, s2, r2, Worth, c, 0, Worth(kind, n));
  }

  lemma SpawnOnly(s: Store, r: seq<nat>, c: Id, kind: Kind, n: nat)
    requires Forest(s, r) && IsBox(s, c)
    ensures Given(s, r, Spawn(s, kind, n), r + [0], c, 0, UnitWorth(kind))
  {
    SpawnKeeps(s, r, Worth, kind, n, c, |s|);
    forall y | 0 <= y < |s| ensures DearKeptAt(s, Spawn(s, kind, n), y, UnitWorth(kind)) {}
  }

  lemma GivenLimit(s: Store, r: seq<nat>, s': Store, r': seq<nat>, c: Id, amount: int, limit: nat, limit': nat)
    requires Given(s, r, s', r', c, amount, limit) && limit <= limit'
    ensures Given(s, r, s', r', c, amount, limit')
  {
    forall y | 0 <= y < |s| ensures DearKeptAt(s, s', y, limit') {
      assert DearKeptAt(s, s', y, limit);
    }
  }

  /** Whether the holder takes one more stack of coins. */
  ghost predicate Takes(s: Store, r: seq<nat>, c: Id, kind: Kind, count: nat, flags: Flags) {
    var s1, r1 := Spawn(s, kind, count), r + [0];
    Forest(s1, r1) && IsBox(s1, c) && Fits(s1, r1, c, |s|, flags)
  }

  datatype Stack = Stack(kind: Kind, count: nat)

  /** The stacks that an amount of money is handed out in. */
  ghost function StacksFor(k: Coins, money: nat): seq<Stack> {
    Crystals(k, money / 10000) + IfAny(k.platinum, money % 10000 / 100) + IfAny(k.gold, money % 100)
  }

  ghost function IfAny(kind: Kind, count: nat): seq<Stack> {
    if count != 0 then [Stack(kind, count)] else []
  }

  ghost function Crystals(k: Coins, n: nat): seq<Stack> {
    if n == 0 then []
    else if n <= 100 then [Stack(k.crystal, n)]
    else [Stack(k.crystal, 100)] + Crystals(k, n - 100)
  }

  /** One of the coins, in a stack of at most a hundred, and of less where dearer coins would do. */
  ghost predicate Denominated(k: Coins, t: Stack) {
    if t.kind == k.crystal then 1 <= t.count <= 100 else t.kind in {k.platinum, k.gold} && 1 <= t.count < 100
  }

  /** Dearer coins come first, and a second stack only after a full one. */
  ghost predicate InOrder(t: Stack, u: Stack) {
    UnitWorth(t.kind) >= UnitWorth(u.kind) && (t.kind == u.kind ==> t.count == 100)
  }

  lemma {:induction false} CrystalsAre(k: Coins, n: nat, i: nat)
    requires i < |Crystals(k, n)|
    ensures Crystals(k, n)[i].kind == k.crystal && 1 <= Crystals(k, n)[i].count <= 100
    ensures i + 1 < |Crystals(k, n)| ==> Crystals(k, n)[i].count == 100
  {
    if n > 100 && i > 0 {
      CrystalsAre(k, n - 100, i - 1);
    }
  }

  /** Dearest coins come first, and no cheaper ones are used where dearer ones would do. */
  lemma StacksAre(k: Coins, money: nat)
    requires CoinsOk(k)
    ensures forall i :: 0 <= i < |StacksFor(k, money)| ==> Denominated(k, StacksFor(k, money)[i])
    ensures forall i, j :: 0 <= i < j < |StacksFor(k, money)| ==> InOrder(StacksFor(k, money)[i], StacksFor(k, money)[j])
  {
    var ts, crystals := StacksFor(k, money), Crystals(k, money / 10000);
    forall i | 0 <= i < |ts|
      ensures Denominated(k, ts[i])
      ensures i < |crystals| ==> ts[i].kind == k.crystal && (i + 1 < |crystals| ==> ts[i].count == 100)
    {
      if i < |crystals| { CrystalsAre(k, money / 10000, i); }
    }
  }

  /** One stack arrives whole, or goes to the tile whole, exactly when the holder refuses it. */
  ghost predicate HandedOne(s: Store, r: seq<nat>, s': Store, r': seq<nat>, c: Id, t: Stack, flags: Flags, spilled: nat) {
    if Takes(s, r, c, t.kind, t.count, flags)
    then spilled == 0 && Arrived(Spawn(s, t.kind, t.count), r + [0], s', r', c, |s|, flags)
    else spilled == Worth(t.kind, t.count) && s' == Spawn(s, t.kind, t.count) && r' == r + [0]
  }

  /** Stacks are handed out one after the other; together the refused ones are worth `spilled`. */
  ghost predicate HandedOut(s: Store, r: seq<nat>, s': Store, r': seq<nat>, c: Id, ts: seq<Stack>, flags: Flags, spilled: nat) {
    exists states :: HandedThrough(Handed(s, r, 0), Handed(s', r', spilled), c, ts, flags, states)
  }

  /** The store while stacks are handed out, and what has been spilled. */
  datatype Handed = Handed(store: Store, rank: seq<nat>, spilled: nat)

  ghost predicate HandedThrough(from: Handed, to: Handed, c: Id, ts: seq<Stack>, flags: Flags, states: seq<Handed>) {
    && |states| == |ts| + 1 && states[0] == from && states[|ts|] == to
    && forall j :: 0 <= j < |ts| ==> HandedAt(c, ts, flags, states, j)
  }

  ghost predicate HandedAt(c: Id, ts: seq<Stack>, flags: Flags, states: seq<Handed>, j: nat)
    requires j < |ts| && j + 1 < |states|
  {
    var h, h' := states[j], states[j + 1];
    h.spilled <= h'.spilled && HandedOne(h.store, h.rank, h'.store, h'.rank, c, ts[j], flags, h'.spilled - h.spilled)
  }

  lemma NoneHanded(s: Store, r: seq<nat>, c: Id, flags: Flags)
    ensures HandedOut(s, r, s, r, c, [], flags, 0)
  {
    assert HandedThrough(Handed(s, r, 0), Handed(s, r, 0), c, [], flags, [Handed(s, r, 0)]);
  }

  lemma HandedMore(s: Store, r: seq<nat>, s1: Store, r1: seq<nat>, s2: Store, r2: seq<nat>, c: Id, ts: seq<Stack>, t: Stack,
                   flags: Flags, before: nat, more: nat)
    requires HandedOut(s, r, s1, r1, c, ts, flags, before) && HandedOne(s1, r1, s2, r2, c, t, flags, more)
    ensures HandedOut(s, r, s2, r2, c, ts + [t], flags, before + more)
  {
    var from, to := Handed(s, r, 0), Handed(s2, r2, before + more);
    var states :| HandedThrough(from, Handed(s1, r1, before), c, ts, flags, states);
    var ts', states' := ts + [t], states + [to];
    forall j | 0 <= j < |ts'| ensures HandedAt(c, ts', flags, states', j) {
      if j < |ts| { assert HandedAt(c, ts, flags, states, j); }
    }
    assert HandedThrough(from, to, c, ts', flags, states');
  }

  function Total(ts: seq<Stack>): int {
    if ts == [] then 0 else Total(ts[..|ts| - 1]) + Worth(ts[|ts| - 1].kind, ts[|ts| - 1].count)
  }

  lemma TotalMore(ts: seq<Stack>, t: Stack)
    ensures Total(ts + [t]) == Total(ts) + Worth(t.kind, t.count)
  {
    assert (ts + [t])[..|ts|] == ts;
  }

  /** What has been handed out so far: the stacks, and what they did to the holder. */
  ghost predicate HandedSoFar(s: Store, r: seq<nat>, s': Store, r': seq<nat>, c: Id, ts: seq<Stack>, flags: Flags, spilled: nat,
                              limit: nat) {
    && spilled <= Total(ts) && Given(s, r, s', r', c, Total(ts) - spilled, limit)
    && HandedOut(s, r, s', r', c, ts, flags, spilled)
  }

  lemma HandedNext(s: Store, r: seq<nat>, s1: Store, r1: seq<nat>, s2: Store, r2: seq<nat>, c: Id, ts: seq<Stack>, t: Stack,
                   flags: Flags, before: nat, more: nat, limit: nat)
    requires HandedSoFar(s, r, s1, r1, c, ts, flags, before, limit) && HandedOne(s1, r1, s2, r2, c, t, flags, more)
    requires more <= Worth(t.kind, t.count) && UnitWorth(t.kind) <= limit
    requires Given(s1, r1, s2, r2, c, Worth(t.kind, t.count) - more, UnitWorth(t.kind))
    ensures HandedSoFar(s, r, s2, r2, c, ts + [t], flags, before + more, limit)
  {
    var a, b := Total(ts) - before, Worth(t.kind, t.count) - more;
    TotalMore(ts, t);
    assert HandedOut(s, r, s2, r2, c, ts + [t], flags, before + more) by {
      HandedMore(s, r, s1, r1, s2, r2, c, ts, t, flags, before, more);
    }
    assert Given(s, r, s2, r2, c, a + b, limit) by {
      GivenLimit(s1, r1, s2, r2, c, b, UnitWorth(t.kind), limit);
      GivenTwice(s, r, s1, r1, s2, r2, c, a, b, limit);
    }
    assert a + b == Total(ts + [t]) - (before + more);
  }

  /** One stack of coins goes to the holder, or to the tile exactly when the holder refuses it. */
  method AddCoins(w: World, c: Id, kind: Kind, count: nat, flags: Flags) returns (spilled: nat)
    requires w.Valid() && IsBox(w.nodes, c) && !flags.childIsOwner
    requires UnitWorth(kind) > 0 && 1 <= count <= 100
    modifies w
    ensures w.Valid()
    ensures HandedOne(old(w.nodes), old(w.rank), w.nodes, w.rank, c, Stack(kind, count), flags, spilled)
    ensures spilled <= Worth(kind, count)
    ensures Given(old(w.nodes), old(w.rank), w.nodes, w.rank, c, Worth(kind, count) - spilled, UnitWorth(kind))
  {
    ghost var s, r := w.nodes, w.rank;
    SpawnOnly(s, r, c, kind, count);
    WorthLinear(kind);
    var x := w.CreateItem(kind, count);
    ghost var s1, r1 := w.nodes, w.rank;
    var ret := InternalAddItem(w, c, x, flags);
    if ret == NoError {
      assert Suits(Worth, kind);
      assert AddedTo(s1, r1, w.nodes, w.rank, c, x, Worth, flags);
      SpawnThenAdd(s, r, w.nodes, w.rank, c, kind, count, flags);
      spilled := 0;
    } else {
      spilled := UnitWorth(kind) * count;
    }
  }

  /**
    `Game::addMoney`: holder and tile together gain exactly `money`, and the tile those stacks that the holder
    refuses.  Beyond the bound the product of 32-bit numbers at src/game.cpp:1547 would wrap.
    */
  method AddMoney(w: World, c: Id, money: nat, flags: Flags, k: Coins) returns (spilled: nat)
    requires w.Valid() && IsBox(w.nodes, c) && !flags.childIsOwner && CoinsOk(k)
    requires money < 429497 * 10000
    modifies w
    ensures w.Valid() && spilled <= money
    ensures HandedOut(old(w.nodes), old(w.rank), w.nodes, w.rank, c, StacksFor(k, money), flags, spilled)
    ensures Given(old(w.nodes), old(w.rank), w.nodes, w.rank, c, money - spilled, money)
  {
    ghost var s, r, small := w.nodes, w.rank, StacksFor(k, money % 10000);
    GivenNothing(s, r, c, money);
    StacksSplit(k, money);
    var crystalCoins := money / 10000;
    ghost var crystals := Crystals(k, crystalCoins);
    spilled := AddCrystals(w, s, r, c, crystalCoins, flags, k, money);
    spilled := AddSmall(w, s, r, c, money - crystalCoins * 10000, flags, k, money, crystals, spilled);
    assert crystals + small == StacksFor(k, money);
    AllHanded(s, r, w.nodes, w.rank, c, k, money, crystals + small, flags, spilled);
  }

  /** The crystal coins, in stacks of a hundred. */
  method AddCrystals(w: World, ghost s: Store, ghost r: seq<nat>, c: Id, n: nat, flags: Flags, k: Coins, ghost money: nat)
    returns (spilled: nat)
    requires w.Valid() && IsBox(s, c) && !flags.childIsOwner && CoinsOk(k) && 10000 * n <= money
    requires w.nodes == s && w.rank == r && Given(s, r, s, r, c, 0, money)
    modifies w
    ensures w.Valid() && HandedSoFar(s, r, w.nodes, w.rank, c, Crystals(k, n), flags, spilled, money)
  {
    var crystalCoins := n;
    spilled := 0;
    ghost var all, done: seq<Stack> := Crystals(k, n), [];
    assert [] + Crystals(k, n) == Crystals(k, n);
    NoneHanded(s, r, c, flags);
    while crystalCoins > 0
      invariant w.Valid() && 0 <= crystalCoins <= n && all == done + Crystals(k, crystalCoins)
      invariant HandedSoFar(s, r, w.nodes, w.rank, c, done, flags, spilled, money)
    {
      var count := if crystalCoins <= 100 then crystalCoins else 100;
      spilled := GiveOn(w, s, r, c, k.crystal, count, flags, money, done, spilled);
      NextCrystals(k, crystalCoins, count, done);
      done := done + [Stack(k.crystal, count)];
      crystalCoins := crystalCoins - count;
    }
    assert done == all;
  }

  /** The platinum and the gold coins, a stack each. */
  method AddSmall(w: World, ghost s: Store, ghost r: seq<nat>, c: Id, rest0: nat, flags: Flags, k: Coins, ghost money: nat,
                  ghost done0: seq<Stack>, spilled0: nat)
    returns (spilled: nat)
    requires w.Valid() && IsBox(s, c) && !flags.childIsOwner && CoinsOk(k) && rest0 < 10000 && rest0 <= money
    requires HandedSoFar(s, r, w.nodes, w.rank, c, done0, flags, spilled0, money)
    modifies w
    ensures w.Valid() && HandedSoFar(s, r, w.nodes, w.rank, c, done0 + StacksFor(k, rest0), flags, spilled, money)
  {
    var platinumCoins := rest0 / 100;
    var rest := rest0 - platinumCoins * 100;
    SmallStacks(k, rest0, done0);
    spilled := AddBoth(w, s, r, c, platinumCoins, rest, flags, k, money, done0, spilled0);
  }

  /** So many of the two, refused or not. */
  method AddBoth(w: World, ghost s: Store, ghost r: seq<nat>, c: Id, platinumCoins: nat, goldCoins: nat, flags: Flags, k: Coins,
                 ghost money: nat, ghost done0: seq<Stack>, spilled0: nat)
    returns (spilled: nat)
    requires w.Valid() && IsBox(s, c) && !flags.childIsOwner && CoinsOk(k) && platinumCoins < 100 && goldCoins < 100
    requires (platinumCoins != 0 ==> 100 <= money) && (goldCoins != 0 ==> 1 <= money)
    requires HandedSoFar(s, r, w.nodes, w.rank, c, done0, flags, spilled0, money)
    modifies w
    ensures w.Valid()
    ensures HandedSoFar(s, r, w.nodes, w.rank, c, done0 + IfAny(k.platinum, platinumCoins) + IfAny(k.gold, goldCoins), flags,
                        spilled, money)
  {
    ghost var done1 := done0 + IfAny(k.platinum, platinumCoins);
    spilled := GiveAny(w, s, r, c, k.platinum, platinumCoins, flags, money, done0, spilled0);
    spilled := GiveAny(w, s, r, c, k.gold, goldCoins, flags, money, done1, spilled);
  }

  method GiveAny(w: World, ghost s: Store, ghost r: seq<nat>, c: Id, kind: Kind, count: nat, flags: Flags,
                 ghost money: nat, ghost done: seq<Stack>, before: nat)
    returns (spilled: nat)
    requires w.Valid() && HandedSoFar(s, r, w.nodes, w.rank, c, done, flags, before, money) && IsBox(s, c) && !flags.childIsOwner
    requires UnitWorth(kind) > 0 && (count != 0 ==> UnitWorth(kind) <= money) && count <= 100
    modifies w
    ensures w.Valid() && HandedSoFar(s, r, w.nodes, w.rank, c, done + IfAny(kind, count), flags, spilled, money)
  {
    if count != 0 {
      spilled := GiveOn(w, s, r, c, kind, count, flags, money, done, before);
    } else {
      spilled := before;
      assert done + IfAny(kind, count) == done;
    }
  }

  lemma AllHanded(s: Store, r: seq<nat>, s': Store, r': seq<nat>, c: Id, k: Coins, money: nat, ts: seq<Stack>, flags: Flags,
                  spilled: nat)
    requires HandedSoFar(s, r, s', r', c, ts, flags, spilled, money) && ts == StacksFor(k, money) && CoinsOk(k)
    ensures spilled <= money && Given(s, r, s', r', c, money - spilled, money)
    ensures HandedOut(s, r, s', r', c, StacksFor(k, money), flags, spilled)
  {
    StacksTotal(k, money);
  }

  lemma StacksSplit(k: Coins, money: nat)
    ensures StacksFor(k, money) == Crystals(k, money / 10000) + StacksFor(k, money % 10000)
    ensures money % 10000 == money - money / 10000 * 10000
  {
    var rest := money % 10000;
    assert rest / 10000 == 0 && rest % 10000 == rest && rest % 100 == money % 100;
    assert Crystals(k, 0) == [];
  }

  lemma SmallStacks(k: Coins, rest: nat, done: seq<Stack>)
    requires rest < 10000
    ensures done + StacksFor(k, rest) == done + IfAny(k.platinum, rest / 100) + IfAny(k.gold, rest - rest / 100 * 100)
    ensures rest / 100 < 100 && 0 <= rest - rest / 100 * 100 < 100 && (rest / 100 != 0 ==> rest >= 100)
  {
    assert Crystals(k, 0) == [];
  }

  lemma NextCrystals(k: Coins, n: nat, count: nat, done: seq<Stack>)
    requires n > 0 && count == if n <= 100 then n else 100
    ensures done + Crystals(k, n) == done + [Stack(k.crystal, count)] + Crystals(k, n - count)
  {
    assert Crystals(k, n) == [Stack(k.crystal, count)] + Crystals(k, n - count);
  }

  lemma {:induction false} TotalAppend(a: seq<Stack>, b: seq<Stack>)
    ensures Total(a + b) == Total(a) + Total(b)
  {
    if b == [] {
      assert a + b == a;
    } else {
      var front, t := b[..|b| - 1], b[|b| - 1];
      TotalAppend(a, front);
      TotalMore(a + front, t);
      assert a + b == a + front + [t];
    }
  }

  lemma {:induction false} CrystalsTotal(k: Coins, n: nat)
    requires CoinsOk(k)
    ensures Total(Crystals(k, n)) == 10000 * n
  {
    if n > 100 {
      CrystalsTotal(k, n - 100);
      TotalAppend([Stack(k.crystal, 100)], Crystals(k, n - 100));
      TotalMore([], Stack(k.crystal, 100));
    } else if n > 0 {
      TotalMore([], Stack(k.crystal, n));
    }
  }

  /** The stacks are worth the money. */
  lemma StacksTotal(k: Coins, money: nat)
    requires CoinsOk(k)
    ensures Total(StacksFor(k, money)) == money
  {
    var n, m := money % 10000 / 100, money % 100;
    CrystalsTotal(k, money / 10000);
    TotalMore([], Stack(k.platinum, n));
    TotalMore([], Stack(k.gold, m));
    TotalAppend(Crystals(k, money / 10000), IfAny(k.platinum, n));
    TotalAppend(Crystals(k, money / 10000) + IfAny(k.platinum, n), IfAny(k.gold, m));
    MoneyParts(money);
  }

  lemma MoneyParts(money: nat)
    ensures money == 10000 * (money / 10000) + 100 * (money % 10000 / 100) + money % 100
  {
    var rest := money % 10000;
    assert rest == 100 * (rest / 100) + rest % 100;
    assert rest % 100 == money % 100;
  }

  /** One more stack on top of what has been given so far. */
  method GiveOn(w: World, ghost s: Store, ghost r: seq<nat>, c: Id, kind: Kind, count: nat, flags: Flags,
                ghost money: nat, ghost done: seq<Stack>, before: nat)
    returns (spilled: nat)
    requires w.Valid() && HandedSoFar(s, r, w.nodes, w.rank, c, done, flags, before, money) && IsBox(s, c) && !flags.childIsOwner
    requires 0 < UnitWorth(kind) <= money && 1 <= count <= 100
    modifies w
    ensures w.Valid() && HandedSoFar(s, r, w.nodes, w.rank, c, done + [Stack(kind, count)], flags, spilled, money)
  {
    ghost var s1, r1 := w.nodes, w.rank;
    assert DearKeptAt(s, s1, c, money);
    var more := AddCoins(w, c, kind, count, flags);
    ghost var s2, r2 := w.nodes, w.rank;
    HandedNext(s, r, s1, r1, s2, r2, c, done, Stack(kind, count), flags, before, more, money);
    spilled := before + more;
  }

  // ----- counting --------------------------------------------------------------------------

  function Zeros(n: nat): (z: seq<int>)
    ensures |z| == n
  {
    seq(n, _ => 0)
  }

  /** What the stacks of a list are worth. */
  function WorthOf(s: Store, xs: seq<Id>): int
    requires InStore(s, xs)
  {
    Sum(s, Worth, Zeros(|s|), xs)
  }

  lemma TakeOut(ys: seq<Id>, i: nat)
    requires i < |ys|
    ensures multiset(ys) == multiset(ys[..i] + ys[i + 1..]) + multiset{ys[i]}
  {
    assert ys == ys[..i] + [ys[i]] + ys[i + 1..];
  }

  lemma RemoveSame(xs: seq<Id>, ys: seq<Id>, i: nat)
    requires xs != [] && i < |ys| && ys[i] == xs[0] && multiset(xs) == multiset(ys)
    ensures multiset(ys[..i] + ys[i + 1..]) == multiset(xs[1..])
  {
    TakeOut(ys, i);
    TakeOut(xs, 0);
    assert xs[..0] + xs[1..] == xs[1..];
    Cancel(multiset(ys[..i] + ys[i + 1..]), multiset(xs[1..]), xs[0]);
  }

  lemma Cancel(a: multiset<Id>, b: multiset<Id>, x: Id)
    requires a + multiset{x} == b + multiset{x}
    ensures a == b
  {
    forall y: Id ensures a[y] == b[y] {
      assert (a + multiset{x})[y] == (b + multiset{x})[y];
    }
  }

  lemma {:induction false} SumPermuted(s: Store, f: Measure, cache: seq<int>, xs: seq<Id>, ys: seq<Id>)
    requires |cache| == |s| && InStore(s, xs) && InStore(s, ys) && multiset(xs) == multiset(ys)
    ensures Sum(s, f, cache, xs) == Sum(s, f, cache, ys)
  {
    if xs == [] {
      assert |multiset(ys)| == 0;
    } else {
      assert xs[0] in multiset(ys);
      var i :| 0 <= i < |ys| && ys[i] == xs[0];
      SumSplit(s, f, cache, ys, i);
      RemoveSame(xs, ys, i);
      SumPermuted(s, f, cache, xs[1..], ys[..i] + ys[i + 1..]);
    }
  }

  /** Everything below a list, in some order. */
  ghost function Listing(s: Store, r: seq<nat>, xs: seq<Id>, bound: nat): (ys: seq<Id>)
    requires Forest(s, r) && Below(s, r, xs, bound)
    ensures InStore(s, ys)
    decreases bound, |xs|
  {
    if xs == [] then []
    else
      var x := xs[0];
      ItemsRankLower(s, r, x);
      assert forall j :: 0 <= j < |xs[1..]| ==> xs[1..][j] == xs[j + 1];
      [x] + Listing(s, r, Items(s, x), r[x]) + Listing(s, r, xs[1..], bound)
  }

  lemma {:induction false} ListingIds(s: Store, r: seq<nat>, xs: seq<Id>, bound: nat)
    requires Forest(s, r) && Below(s, r, xs, bound)
    ensures multiset(Listing(s, r, xs, bound)) == Ids(s, r, xs, bound)
    decreases bound, |xs|
  {
    if xs != [] {
      ItemsRankLower(s, r, xs[0]);
      assert forall j :: 0 <= j < |xs[1..]| ==> xs[1..][j] == xs[j + 1];
      ListingIds(s, r, Items(s, xs[0]), r[xs[0]]);
      ListingIds(s, r, xs[1..], bound);
    }
  }

  lemma SumThree(s: Store, f: Measure, x: Id, a: seq<Id>, b: seq<Id>)
    requires x < |s| && InStore(s, a) && InStore(s, b)
    ensures Sum(s, f, Zeros(|s|), [x] + a + b)
            == f(s[x].kind, s[x].count) + Sum(s, f, Zeros(|s|), a) + Sum(s, f, Zeros(|s|), b)
  {
    SumAppend(s, f, Zeros(|s|), [x] + a, b);
    assert ([x] + a)[1..] == a;
  }

  lemma {:induction false} ListingSum(s: Store, r: seq<nat>, f: Measure, xs: seq<Id>, bound: nat)
    requires Forest(s, r) && Below(s, r, xs, bound)
    ensures Sum(s, f, Zeros(|s|), Listing(s, r, xs, bound)) == Deep(s, r, f, xs, bound)
    decreases bound, |xs|
  {
    if xs != [] {
      ItemsRankLower(s, r, xs[0]);
      assert forall j :: 0 <= j < |xs[1..]| ==> xs[1..][j] == xs[j + 1];
      ListingSum(s, r, f, Items(s, xs[0]), r[xs[0]]);
      ListingSum(s, r, f, xs[1..], bound);
      SumThree(s, f, xs[0], Listing(s, r, Items(s, xs[0]), r[xs[0]]), Listing(s, r, xs[1..], bound));
    }
  }

  /** The items met on the way through a container are worth what the container holds. */
  lemma VisitedWorth(s: Store, r: seq<nat>, c: Id, visited: seq<Id>)
    requires Forest(s, r) && c < |s| && multiset(visited) == IdsIn(s, r, c)
    ensures InStore(s, visited) && WorthOf(s, visited) == DeepIn(s, r, Worth, c)
  {
    ItemsRankLower(s, r, c);
    ListingIds(s, r, Items(s, c), r[c]);
    ListingSum(s, r, Worth, Items(s, c), r[c]);
    var all := Listing(s, r, Items(s, c), r[c]);
    forall j | 0 <= j < |visited| ensures visited[j] < |s| {
      assert visited[j] in multiset(visited);
      assert visited[j] in all;
    }
    SumPermuted(s, Worth, Zeros(|s|), visited, all);
  }

  // ----- the sorted list of coins ------------------------------------------------------------

  function StackWorth(s: Store, x: Id): int
    requires x < |s|
  {
    Worth(s[x].kind, s[x].count)
  }

  ghost predicate Ascending(s: Store, xs: seq<Id>)
    requires InStore(s, xs)
  {
    forall i, j :: 0 <= i < j < |xs| ==> StackWorth(s, xs[i]) <= StackWorth(s, xs[j])
  }

  lemma InsertAscending(s: Store, xs: seq<Id>, i: nat, x: Id)
    requires InStore(s, xs) && x < |s| && i <= |xs| && Ascending(s, xs)
    requires forall j :: 0 <= j < i ==> StackWorth(s, xs[j]) <= StackWorth(s, x)
    requires forall j :: i <= j < |xs| ==> StackWorth(s, x) <= StackWorth(s, xs[j])
    ensures InStore(s, xs[..i] + [x] + xs[i..]) && Ascending(s, xs[..i] + [x] + xs[i..])
  {
    var ys := xs[..i] + [x] + xs[i..];
    assert forall j :: 0 <= j < |ys| ==> ys[j] == if j < i then xs[j] else if j == i then x else xs[j - 1];
  }

  lemma InsertKeeps(s: Store, xs: seq<Id>, i: nat, x: Id)
    requires InStore(s, xs) && x < |s| && i <= |xs| && Ascending(s, xs)
    requires forall j :: 0 <= j < i ==> StackWorth(s, xs[j]) <= StackWorth(s, x)
    requires forall j :: i <= j < |xs| ==> StackWorth(s, x) <= StackWorth(s, xs[j])
    ensures var ys := xs[..i] + [x] + xs[i..];
            InStore(s, ys) && Ascending(s, ys) && multiset(ys) == multiset(xs) + multiset{x}
            && WorthOf(s, ys) == WorthOf(s, xs) + StackWorth(s, x)
  {
    var ys := xs[..i] + [x] + xs[i..];
    InsertAscending(s, xs, i, x);
    assert ys[..i] + ys[i + 1..] == xs;
    TakeOut(ys, i);
    SumSplit(s, Worth, Zeros(|s|), ys, i);
  }

  /** `multimap::emplace`: after all entries that are not dearer. */
  method Emplace(s: Store, xs: seq<Id>, x: Id) returns (ys: seq<Id>)
    requires InStore(s, xs) && x < |s| && Ascending(s, xs)
    ensures InStore(s, ys) && Ascending(s, ys)
    ensures multiset(ys) == multiset(xs) + multiset{x}
    ensures WorthOf(s, ys) == WorthOf(s, xs) + StackWorth(s, x)
  {
    var i := |xs|;
    while i > 0 && StackWorth(s, xs[i - 1]) > StackWorth(s, x)
      invariant 0 <= i <= |xs|
      invariant forall j :: i <= j < |xs| ==> StackWorth(s, x) <= StackWorth(s, xs[j])
    {
      i := i - 1;
    }
    InsertKeeps(s, xs, i, x);
    ys := xs[..i] + [x] + xs[i..];
  }

  lemma WorthOfNext(s: Store, xs: seq<Id>, i: nat)
    requires InStore(s, xs) && i < |xs|
    ensures WorthOf(s, xs[..i + 1]) == WorthOf(s, xs[..i]) + StackWorth(s, xs[i])
    ensures multiset(xs[..i + 1]) == multiset(xs[..i]) + multiset{xs[i]}
  {
    assert xs[..i + 1] == xs[..i] + [xs[i]];
    SumAppend(s, Worth, Zeros(|s|), xs[..i], [xs[i]]);
    assert [xs[i]][1..] == [];
  }

  ghost predicate AllWorth(s: Store, xs: seq<Id>)
    requires InStore(s, xs)
  {
    forall j :: 0 <= j < |xs| ==> StackWorth(s, xs[j]) != 0
  }

  lemma AllWorthGrows(s: Store, xs: seq<Id>, x: Id, ys: seq<Id>)
    requires InStore(s, xs) && InStore(s, ys) && AllWorth(s, xs) && x < |s| && StackWorth(s, x) != 0
    requires multiset(ys) == multiset(xs) + multiset{x}
    ensures AllWorth(s, ys)
  {
    forall j | 0 <= j < |ys| ensures StackWorth(s, ys[j]) != 0 {
      assert ys[j] in multiset(ys);
      assert ys[j] in xs || ys[j] == x;
    }
  }

  /** The coins of a container, cheapest stacks first, and what they are worth. */
  method CollectCoins(s: Store, ghost r: seq<nat>, c: Id) returns (coins: seq<Id>, moneyCount: int)
    requires Forest(s, r) && Stacks(s) && c < |s|
    ensures InStore(s, coins) && Ascending(s, coins) && Distinct(coins)
    ensures forall j :: 0 <= j < |coins| ==> IsCoin(s, r, c, coins[j])
    ensures forall x: Id :: IsCoin(s, r, c, x) ==> x in coins
    ensures moneyCount == WorthOf(s, coins) == DeepIn(s, r, Worth, c)
  {
    var visited := GetItemsRecursive(s, r, c);
    VisitedWorth(s, r, c, visited);
    coins, moneyCount := SortCoins(s, visited);
    AllCollected(s, r, c, visited, coins, moneyCount);
  }

  /** Of the items met, those worth anything enter the ordered list. */
  method SortCoins(s: Store, visited: seq<Id>) returns (coins: seq<Id>, moneyCount: int)
    requires InStore(s, visited)
    ensures Collected(s, visited, |visited|, coins, moneyCount)
  {
    coins, moneyCount := [], 0;
    for i := 0 to |visited|
      invariant Collected(s, visited, i, coins, moneyCount)
    {
      var x := visited[i];
      if StackWorth(s, x) != 0 {
        var more := Emplace(s, coins, x);
        CollectedNext(s, visited, i, coins, moneyCount, more);
        coins, moneyCount := more, moneyCount + StackWorth(s, x);
      } else {
        NotCollected(s, visited, i, coins, moneyCount);
      }
    }
  }

  ghost predicate IsCoin(s: Store, r: seq<nat>, c: Id, x: Id)
    requires Forest(s, r)
  {
    && x < |s| && !s[x].box.Box? && s[x].parent.Inside?
    && UnitWorth(s[x].kind) > 0 && 1 <= s[x].count <= 100
    && x != c && c in Chain(s, r, x)
  }

  /** Of the first `i` items met, those worth anything are on the list. */
  ghost predicate Collected(s: Store, visited: seq<Id>, i: nat, coins: seq<Id>, moneyCount: int)
    requires InStore(s, visited) && i <= |visited|
  {
    && InStore(s, coins) && Ascending(s, coins) && AllWorth(s, coins)
    && moneyCount == WorthOf(s, coins) == WorthOf(s, visited[..i])
    && multiset(coins) <= multiset(visited[..i])
    && OnTheList(s, visited, i, coins)
  }

  ghost predicate OnTheList(s: Store, visited: seq<Id>, i: nat, coins: seq<Id>)
    requires InStore(s, visited) && i <= |visited|
  {
    forall j :: 0 <= j < i && StackWorth(s, visited[j]) != 0 ==> visited[j] in multiset(coins)
  }

  lemma CollectedNext(s: Store, visited: seq<Id>, i: nat, coins: seq<Id>, moneyCount: int, more: seq<Id>)
    requires InStore(s, visited) && i < |visited| && Collected(s, visited, i, coins, moneyCount)
    requires StackWorth(s, visited[i]) != 0 && InStore(s, more) && Ascending(s, more)
    requires multiset(more) == multiset(coins) + multiset{visited[i]}
    requires WorthOf(s, more) == WorthOf(s, coins) + StackWorth(s, visited[i])
    ensures Collected(s, visited, i + 1, more, moneyCount + StackWorth(s, visited[i]))
  {
    WorthOfNext(s, visited, i);
    AllWorthGrows(s, coins, visited[i], more);
  }

  lemma NotCollected(s: Store, visited: seq<Id>, i: nat, coins: seq<Id>, moneyCount: int)
    requires InStore(s, visited) && i < |visited| && Collected(s, visited, i, coins, moneyCount)
    requires StackWorth(s, visited[i]) == 0
    ensures Collected(s, visited, i + 1, coins, moneyCount)
  {
    WorthOfNext(s, visited, i);
  }

  lemma AllCollected(s: Store, r: seq<nat>, c: Id, visited: seq<Id>, coins: seq<Id>, moneyCount: int)
    requires Forest(s, r) && Stacks(s) && c < |s|
    requires InStore(s, visited) && Collected(s, visited, |visited|, coins, moneyCount)
    requires forall y: nat :: y < |s| ==> (y in visited <==> y != c && c in Chain(s, r, y))
    requires forall y: nat :: multiset(visited)[y] <= 1
    ensures Distinct(coins) && moneyCount == WorthOf(s, visited)
    ensures forall j :: 0 <= j < |coins| ==> IsCoin(s, r, c, coins[j])
    ensures forall x: Id :: IsCoin(s, r, c, x) ==> x in coins
  {
    assert visited[..|visited|] == visited;
    CoinsAreHeld(s, r, c, visited, coins);
    forall x: Id | IsCoin(s, r, c, x) ensures x in coins {
      assert x in visited;
      CoinOnTheList(s, visited, coins, x);
    }
  }

  lemma CoinOnTheList(s: Store, visited: seq<Id>, coins: seq<Id>, x: Id)
    requires InStore(s, visited) && OnTheList(s, visited, |visited|, coins)
    requires x in visited && UnitWorth(s[x].kind) > 0 && s[x].count >= 1
    ensures x in coins
  {
    var j :| 0 <= j < |visited| && visited[j] == x;
    assert StackWorth(s, visited[j]) != 0;
    assert x in multiset(coins);
  }

  lemma CoinsAreHeld(s: Store, r: seq<nat>, c: Id, visited: seq<Id>, coins: seq<Id>)
    requires Forest(s, r) && Stacks(s) && c < |s| && InStore(s, coins) && AllWorth(s, coins)
    requires forall y: nat :: y < |s| ==> (y in visited <==> y != c && c in Chain(s, r, y))
    requires forall y: nat :: multiset(visited)[y] <= 1
    requires multiset(coins) <= multiset(visited)
    ensures Distinct(coins)
    ensures forall j :: 0 <= j < |coins| ==> IsCoin(s, r, c, coins[j])
  {
    forall i, j | 0 <= i < j < |coins| ensures coins[i] != coins[j] {
      if coins[i] == coins[j] {
        TwiceInMultiset(coins, i, j);
      }
    }
    forall j | 0 <= j < |coins| ensures IsCoin(s, r, c, coins[j]) {
      var x := coins[j];
      assert x in multiset(coins);
      assert x in multiset(visited);
      assert x in visited;
      assert StackWorth(s, x) != 0;
      assert StackOk(s[x]) && NodeOk(s, x);
    }
  }

  lemma TwiceInMultiset(xs: seq<Id>, i: nat, j: nat)
    requires i < j < |xs| && xs[i] == xs[j]
    ensures multiset(xs)[xs[i]] >= 2
  {
    assert xs == xs[..i] + [xs[i]] + xs[i + 1..j] + [xs[j]] + xs[j + 1..];
  }

  // ----- taking ------------------------------------------------------------------------------

  /** What a coin's stack looks like when `n` pieces are gone, seen from the holder and from other coins. */
  ghost predicate Paid(s: Store, r: seq<nat>, s': Store, c: Id, x: Id, n: nat) {
    && Forest(s, r) && Forest(s', r) && c < |s| && x < |s|
    && IsBox(s', c)
    && DeepIn(s', r, Worth, c) == DeepIn(s, r, Worth, c) - Worth(s[x].kind, n)
    && forall y :: 0 <= y < |s| && y != x && IsCoin(s, r, c, y) ==> s'[y] == s[y] && IsCoin(s', r, c, y)
  }

  /** An item has left the container that it was in. */
  ghost predicate Gone(s: Store, s': Store, x: Id) {
    exists p: Id, at: nat :: GoneFrom(s, s', x, p, at)
  }

  ghost predicate GoneFrom(s: Store, s': Store, x: Id, p: Id, at: nat) {
    && IsBox(s, p) && at < |Items(s, p)| && Items(s, p)[at] == x && x < |s| && x != p
    && s' == Take(s, p, at)
  }

  /** So many pieces of a stack have left, and nothing else happened. */
  ghost predicate PiecesGone(s: Store, s': Store, x: Id, n: nat) {
    && x < |s| && n <= s[x].count
    && if n == s[x].count then Gone(s, s', x) else s' == SetItem(s, x, s[x].kind, s[x].count - n)
  }

  /** `Game::internalRemoveItem` for a coin. */
  method RemoveCoin(w: World, c: Id, x: Id, n: nat)
    requires w.Valid() && IsBox(w.nodes, c) && IsCoin(w.nodes, w.rank, c, x) && 1 <= n <= w.nodes[x].count
    modifies w
    ensures w.Valid() && w.rank == old(w.rank)
    ensures Paid(old(w.nodes), w.rank, w.nodes, c, x, n)
    ensures PiecesGone(old(w.nodes), w.nodes, x, n)
  {
    ghost var s, r := w.nodes, w.rank;
    assert NodeOk(s, x);
    var p := w.nodes[x].parent.c;
    var ret := w.QueryRemove(p, x, n, NO_FLAGS.(ignoreNotMoveable := true));
    var at := w.GetThingIndex(p, x);
    w.RemoveThing(p, x, n);
    if n == s[x].count {
      PaidWhole(s, r, c, x, p, at);
      assert GoneFrom(s, w.nodes, x, p, at);
    } else {
      PaidPart(s, r, c, x, p, n);
    }
  }

  lemma OtherCoinsStay(s: Store, r: seq<nat>, s': Store, c: Id, x: Id, y: Id)
    requires Forest(s, r) && Forest(s', r) && |s'| == |s| && c < |s| && IsCoin(s, r, c, x) && y != x && IsCoin(s, r, c, y)
    requires forall z :: 0 <= z < |s| && z != x ==> s'[z].parent == s[z].parent
    requires s'[y] == s[y]
    ensures IsCoin(s', r, c, y)
  {
    ChainStable(s, r, s', r, y);
  }

  lemma PaidWhole(s: Store, r: seq<nat>, c: Id, x: Id, p: Id, at: nat)
    requires Forest(s, r) && IsBox(s, c) && IsCoin(s, r, c, x) && s[x].parent == Inside(p)
    requires p < |s| && at < |Items(s, p)| && Items(s, p)[at] == x
    ensures x != p && IsBox(s, p) && Paid(s, r, Take(s, p, at), c, x, s[x].count)
  {
    TakeForest(s, r, p, at);
    assert NodeOk(s, x) && RankOk(s, r, x);
    TakeDeep(s, r, Worth, p, at, c);
    DeepLeaf(s, r, Worth, x);
    var s' := Take(s, p, at);
    forall y | 0 <= y < |s| && y != x && IsCoin(s, r, c, y) ensures s'[y] == s[y] && IsCoin(s', r, c, y) {
      OtherCoinsStay(s, r, s', c, x, y);
    }
  }

  lemma PaidPart(s: Store, r: seq<nat>, c: Id, x: Id, p: Id, n: nat)
    requires Forest(s, r) && IsBox(s, c) && IsCoin(s, r, c, x) && s[x].parent == Inside(p) && n < s[x].count
    ensures Paid(s, r, SetItem(s, x, s[x].kind, s[x].count - n), c, x, n)
  {
    var s' := SetItem(s, x, s[x].kind, s[x].count - n);
    SetItemForest(s, r, x, s[x].kind, s[x].count - n);
    assert NodeOk(s, x) && RankOk(s, r, x);
    SetItemDeep(s, r, Worth, x, s[x].kind, s[x].count - n, c);
    WorthLinear(s[x].kind);
    assert Worth(s[x].kind, (s[x].count - n) + n) == Worth(s[x].kind, s[x].count - n) + Worth(s[x].kind, n);
    forall y | 0 <= y < |s| && y != x && IsCoin(s, r, c, y) ensures s'[y] == s[y] && IsCoin(s', r, c, y) {
      OtherCoinsStay(s, r, s', c, x, y);
    }
  }

  /** Change is less than one piece of the stack that is broken into, so it cannot join that stack. */
  lemma ChangeIsSmall(unit: nat, count: nat, money: nat)
    requires unit in {1, 100, 10000} && 0 < money < unit * count
    ensures var n := (money + unit - 1) / unit;
            1 <= n <= count && money <= unit * n < money + unit
  {}

  /** The least number of pieces that is enough. */
  ghost function PiecesFor(unit: nat, money: nat): nat
    requires unit > 0
  {
    (money + unit - 1) / unit
  }

  /** What is paid too much with them. */
  ghost function Change(unit: nat, money: nat): int
    requires unit > 0
  {
    unit * PiecesFor(unit, money) - money
  }

  /**
    The change, less than a piece of the stack, is handed out, and spilled where the holder refuses it; then the
    pieces leave.
    */
  ghost predicate StackBroken(s: Store, r: seq<nat>, s': Store, r': seq<nat>, c: Id, x: Id, money: nat, flags: Flags, k: Coins,
                              spilled: nat) {
    && x < |s| && UnitWorth(s[x].kind) > 0
    && spilled <= Change(UnitWorth(s[x].kind), money) < UnitWorth(s[x].kind)
    && exists s1 ::
         && HandedOut(s, r, s1, r', c, StacksFor(k, Change(UnitWorth(s[x].kind), money)), flags, spilled)
         && PiecesGone(s1, s', x, PiecesFor(UnitWorth(s[x].kind), money))
  }

  lemma IsStackBroken(s: Store, r: seq<nat>, s1: Store, r1: seq<nat>, s2: Store, c: Id, x: Id, money: nat, n: nat, change: nat,
                      flags: Flags, k: Coins, spilled: nat)
    requires x < |s| && UnitWorth(s[x].kind) > 0 && n == PiecesFor(UnitWorth(s[x].kind), money)
    requires spilled <= change == Change(UnitWorth(s[x].kind), money) < UnitWorth(s[x].kind)
    requires HandedOut(s, r, s1, r1, c, StacksFor(k, change), flags, spilled) && PiecesGone(s1, s2, x, n)
    ensures StackBroken(s, r, s2, r1, c, x, money, flags, k, spilled)
  {}

  /** The pieces that are taken, and the change, when a stack is broken. */
  lemma BreakSizes(kind: Kind, count: nat, money: nat)
    requires UnitWorth(kind) > 0 && count >= 1 && 0 < money < Worth(kind, count)
    ensures var unit := UnitWorth(kind);
            var n := (money + unit - 1) / unit;
            && Worth(kind, count) / count == unit && 1 <= n <= count
            && PiecesFor(unit, money) == n && 0 <= Change(unit, money) == unit * n - money < unit && Worth(kind, n) == money + Change(unit, money)
            && Change(unit, money) < 10000
  {
    UnitIsQuotient(kind, count);
    ChangeIsSmall(UnitWorth(kind), count, money);
  }

  method BreakStack(w: World, c: Id, x: Id, money: nat, flags: Flags, k: Coins) returns (spilled: nat)
    requires w.Valid() && IsBox(w.nodes, c) && IsCoin(w.nodes, w.rank, c, x) && !flags.childIsOwner && CoinsOk(k)
    requires 0 < money < StackWorth(w.nodes, x)
    modifies w
    ensures w.Valid() && IsBox(w.nodes, c)
    ensures DeepIn(w.nodes, w.rank, Worth, c) + spilled == old(DeepIn(w.nodes, w.rank, Worth, c)) - money
    ensures StackBroken(old(w.nodes), old(w.rank), w.nodes, w.rank, c, x, money, flags, k, spilled)
    ensures OthersKept(old(w.nodes), old(w.rank), w.nodes, c, x)
  {
    ghost var s, r := w.nodes, w.rank;
    BreakSizes(s[x].kind, s[x].count, money);
    var unit := StackWorth(w.nodes, x) / w.nodes[x].count;
    var removeCount := (money + unit - 1) / unit;
    var change := unit * removeCount - money;
    spilled := AddMoney(w, c, change, flags, k);
    ghost var s1, r1 := w.nodes, w.rank;
    StillThere(s, r, s1, r1, c, x, change - spilled, change);
    RemoveCoin(w, c, x, removeCount);
    IsStackBroken(s, r, s1, r1, w.nodes, c, x, money, removeCount, change, flags, k, spilled);
    OthersAreKept(s, r, s1, r1, w.nodes, c, x, removeCount, change - spilled, change);
  }

  /** The other coins whose stacks are worth no less than this one are as before. */
  ghost predicate OthersKept(s: Store, r: seq<nat>, s': Store, c: Id, x: Id)
    requires Forest(s, r) && x < |s|
  {
    |s| <= |s'| && forall y: Id :: IsOther(s, r, c, x, y) ==> s'[y] == s[y]
  }

  ghost predicate IsOther(s: Store, r: seq<nat>, c: Id, x: Id, y: Id)
    requires Forest(s, r) && x < |s|
  {
    y != x && IsCoin(s, r, c, y) && StackWorth(s, x) <= StackWorth(s, y)
  }

  /** Change cannot join them: they are full, or their coins dearer than the change. */
  lemma CoinStays(s: Store, r: seq<nat>, s1: Store, r1: seq<nat>, c: Id, x: Id, y: Id, amount: int, limit: nat)
    requires Given(s, r, s1, r1, c, amount, limit) && Stacks(s1) && IsCoin(s, r, c, x) && limit < UnitWorth(s[x].kind)
    requires IsOther(s, r, c, x, y)
    ensures s1[y] == s[y] && IsCoin(s1, r1, c, y)
  {
    assert DearKeptAt(s, s1, y, limit);
    FullOrDear(s[x].kind, s[x].count, s[y].kind, s[y].count);
    assert StackOk(s1[y]);
    forall d | d in Chain(s, r, y) ensures s1[d].parent == s[d].parent {
      assert DearKeptAt(s, s1, d, limit);
    }
    ChainStable(s, r, s1, r1, y);
  }

  lemma FullOrDear(kind: Kind, count: nat, other: Kind, n: nat)
    requires UnitWorth(kind) > 0 && UnitWorth(other) > 0 && 1 <= count && 1 <= n <= 100 && Worth(kind, count) <= Worth(other, n)
    ensures n == 100 || UnitWorth(other) >= UnitWorth(kind)
  {}

  lemma OthersAreKept(s: Store, r: seq<nat>, s1: Store, r1: seq<nat>, s2: Store, c: Id, x: Id, n: nat, amount: int, limit: nat)
    requires Given(s, r, s1, r1, c, amount, limit) && Stacks(s1) && IsCoin(s, r, c, x) && limit < UnitWorth(s[x].kind)
    requires Paid(s1, r1, s2, c, x, n) && |s1| <= |s2|
    ensures OthersKept(s, r, s2, c, x)
  {
    forall y: Id | IsOther(s, r, c, x, y) ensures s2[y] == s[y] {
      CoinStays(s, r, s1, r1, c, x, y, amount, limit);
    }
  }

  lemma UnitIsQuotient(kind: Kind, count: nat)
    requires UnitWorth(kind) > 0 && count >= 1
    ensures Worth(kind, count) / count == UnitWorth(kind) && UnitWorth(kind) in {1, 100, 10000}
  {
    TimesOver(UnitWorth(kind), count);
  }

  lemma TimesOver(u: nat, n: nat)
    requires n >= 1
    ensures u * n / n == u
  {
    var q, r := u * n / n, u * n % n;
    assert n * (u - q) == r;
    if u > q {
      ProductAtLeast(n, u - q);
      assert false;
    }
  }

  lemma ProductAtLeast(n: nat, d: nat)
    requires d >= 1
    ensures n * d >= n
  {
    assert n * d == n * (d - 1) + n;
    ProductNotNegative(n, d - 1);
  }

  lemma ProductNotNegative(a: nat, b: nat)
    ensures 0 <= a * b
  {}

  lemma StillThere(s: Store, r: seq<nat>, s': Store, r': seq<nat>, c: Id, x: Id, amount: int, limit: nat)
    requires Given(s, r, s', r', c, amount, limit) && IsBox(s, c) && IsCoin(s, r, c, x) && limit < UnitWorth(s[x].kind)
    ensures IsBox(s', c) && IsCoin(s', r', c, x) && s'[x].count == s[x].count && s'[x].kind == s[x].kind
    ensures DeepIn(s', r', Worth, c) == DeepIn(s, r, Worth, c) + amount
  {
    assert DearKeptAt(s, s', x, limit) && DearKeptAt(s, s', c, limit);
    assert GainedAt(s, r, s', r', Worth, c, amount, c);
    forall d | d in Chain(s, r, x) ensures s'[d].parent == s[d].parent {
      assert DearKeptAt(s, s', d, limit);
    }
    ChainStable(s, r, s', r', x);
  }

  ghost predicate CoinsLeft(s: Store, s': Store, r: seq<nat>, c: Id, coins: seq<Id>, i: nat) {
    && Forest(s', r) && |s'| == |s| && InStore(s, coins)
    && forall j :: i <= j < |coins| ==> s'[coins[j]] == s[coins[j]] && IsCoin(s', r, c, coins[j])
  }

  /**
    `Game::removeMoney`: succeeds exactly when the container holds enough, and then container and tile
    together are poorer by exactly `money`.  It is paid with the cheapest stacks; the tile gets change only, less
    than a piece of the stack that was broken.
    */
  method RemoveMoney(w: World, c: Id, money0: nat, flags: Flags, k: Coins) returns (ok: bool, spilled: nat)
    requires w.Valid() && IsBox(w.nodes, c) && !flags.childIsOwner && CoinsOk(k)
    modifies w
    ensures w.Valid() && IsBox(w.nodes, c)
    ensures ok <==> money0 == 0 || old(DeepIn(w.nodes, w.rank, Worth, c)) >= money0
    ensures !ok || money0 == 0 ==> w.nodes == old(w.nodes) && spilled == 0
    ensures ok ==> DeepIn(w.nodes, w.rank, Worth, c) + spilled == old(DeepIn(w.nodes, w.rank, Worth, c)) - money0
    ensures ok && money0 > 0 ==>
              exists coins, i ::
                && AllCoins(old(w.nodes), old(w.rank), c, coins)
                && PaidWith(old(w.nodes), old(w.rank), w.nodes, w.rank, c, coins, i, money0, flags, k, spilled)
  {
    spilled := 0;
    if money0 == 0 {
      return true, 0;
    }
    var coins, moneyCount := CollectCoins(w.nodes, w.rank, c);
    if moneyCount < money0 {
      return false, 0;
    }
    StartPaying(w.nodes, w.rank, c, coins, money0);
    ghost var last;
    ok, spilled, last := Pay(w, c, money0, flags, k, coins);
  }

  /** The coins that are paid with: all that the holder has, the cheapest stacks first. */
  ghost predicate AllCoins(s: Store, r: seq<nat>, c: Id, coins: seq<Id>)
    requires Forest(s, r) && c < |s|
  {
    && InStore(s, coins) && Ascending(s, coins) && Distinct(coins)
    && (forall j :: 0 <= j < |coins| ==> IsCoin(s, r, c, coins[j]))
    && (forall x: Id :: IsCoin(s, r, c, x) ==> x in coins)
  }

  /** The first stacks of the list have left, one after the other. */
  ghost predicate FirstGone(s: Store, s': Store, coins: seq<Id>, i: nat)
    requires i <= |coins|
  {
    exists states :: GoneThrough(s, s', coins, i, states)
  }

  ghost predicate GoneThrough(s: Store, s': Store, coins: seq<Id>, i: nat, states: seq<Store>)
    requires i <= |coins|
  {
    && |states| == i + 1 && states[0] == s && states[i] == s'
    && forall j :: 0 <= j < i ==> GoneAt(states, coins, j)
  }

  ghost predicate GoneAt(states: seq<Store>, coins: seq<Id>, j: nat)
    requires j + 1 < |states| && j < |coins|
  {
    Gone(states[j], states[j + 1], coins[j])
  }

  lemma NoneGone(s: Store, coins: seq<Id>)
    ensures FirstGone(s, s, coins, 0)
  {
    assert GoneThrough(s, s, coins, 0, [s]);
  }

  lemma OneMoreGone(s: Store, s1: Store, s2: Store, coins: seq<Id>, i: nat)
    requires i < |coins| && FirstGone(s, s1, coins, i) && Gone(s1, s2, coins[i])
    ensures FirstGone(s, s2, coins, i + 1)
  {
    var states :| GoneThrough(s, s1, coins, i, states);
    var more := states + [s2];
    forall j | 0 <= j < i + 1 ensures GoneAt(more, coins, j) {
      if j < i { assert GoneAt(states, coins, j); }
    }
    assert GoneThrough(s, s2, coins, i + 1, more);
  }

  /**
    The stacks before `i` are not enough, and have left.  With stack `i` they are enough; it has left, too, or it
    was broken for the rest.  The stacks after it are as before.
    */
  ghost predicate PaidWith(s: Store, r: seq<nat>, s': Store, r': seq<nat>, c: Id, coins: seq<Id>, i: nat, money: nat,
                           flags: Flags, k: Coins, spilled: nat)
    requires InStore(s, coins)
  {
    && i < |coins| && WorthOf(s, coins[..i]) < money <= WorthOf(s, coins[..i + 1])
    && LaterKept(s, s', coins, i + 1)
    && exists s1 ::
         FirstGone(s, s1, coins, i) && LastPaid(s1, r, s', r', c, coins[i], money - WorthOf(s, coins[..i]), flags, k, spilled)
  }

  ghost predicate LaterKept(s: Store, s': Store, coins: seq<Id>, i: nat)
    requires InStore(s, coins)
  {
    |s| <= |s'| && forall j :: i <= j < |coins| ==> s'[coins[j]] == s[coins[j]]
  }

  ghost predicate LastPaid(s: Store, r: seq<nat>, s': Store, r': seq<nat>, c: Id, x: Id, rest: nat, flags: Flags, k: Coins,
                           spilled: nat) {
    && x < |s|
    && if rest == StackWorth(s, x) then Gone(s, s', x) && r' == r && spilled == 0
       else StackBroken(s, r, s', r', c, x, rest, flags, k, spilled)
  }

  /** The loop over the sorted coins. */
  method Pay(w: World, c: Id, money0: nat, flags: Flags, k: Coins, coins: seq<Id>)
    returns (ok: bool, spilled: nat, ghost last: nat)
    requires w.Valid() && !flags.childIsOwner && CoinsOk(k)
    requires Paying(w.nodes, w.nodes, w.rank, c, coins, 0, money0, money0)
    modifies w
    ensures w.Valid() && ok
    ensures Settled(old(w.nodes), old(w.rank), w.nodes, w.rank, c, coins, last, money0, flags, k, spilled)
  {
    ghost var s, r := w.nodes, w.rank;
    ok, spilled, last := true, 0, 0;
    var money: int, i := money0, 0;
    var done := false;
    while i < |coins| && !done
      invariant 0 <= i <= |coins| && w.Valid()
      invariant PayState(s, r, w.nodes, w.rank, c, coins, i, last, money0, money, flags, k, done, spilled)
    {
      last := i;
      var worth;
      done, worth, spilled := PayStack(w, s, r, c, coins, i, money0, money, flags, k);
      money := money - worth;
      i := i + 1;
    }
    if !done { NotYetPaid(s, w.nodes, r, c, coins, i, money0, money); }
  }

  /** Between two rounds: everything is paid, or the loop goes on. */
  ghost predicate PayState(s: Store, r: seq<nat>, s': Store, r': seq<nat>, c: Id, coins: seq<Id>, i: nat, last: nat,
                           money0: nat, money: int, flags: Flags, k: Coins, done: bool, spilled: nat) {
    if done then Settled(s, r, s', r', c, coins, last, money0, flags, k, spilled)
    else r' == r && spilled == 0 && Paying(s, s', r, c, coins, i, money0, money)
  }

  /** One stack: it leaves whole, or is broken if it is worth more than what is still to be paid. */
  method PayStack(w: World, ghost s: Store, ghost r: seq<nat>, c: Id, coins: seq<Id>, i: nat, ghost money0: nat, money: nat,
                  flags: Flags, k: Coins)
    returns (done: bool, worth: nat, spilled: nat)
    requires w.Valid() && w.rank == r && !flags.childIsOwner && CoinsOk(k) && i < |coins|
    requires Paying(s, w.nodes, r, c, coins, i, money0, money)
    modifies w
    ensures w.Valid()
    ensures PayState(s, r, w.nodes, w.rank, c, coins, i + 1, i, money0, money - worth, flags, k, done, spilled)
  {
    var x := coins[i];
    ghost var s1 := w.nodes;
    NextCoin(s, s1, r, c, coins, i, money0, money);
    worth, spilled := StackWorth(w.nodes, x), 0;
    done := worth >= money;
    if worth > money {
      spilled := BreakStack(w, c, x, money, flags, k);
      ghost var s2, r2 := w.nodes, w.rank;
      PaidBroken(s, s1, s2, r, r2, c, coins, i, money0, money, flags, k, spilled);
    } else {
      RemoveCoin(w, c, x, w.nodes[x].count);
      ghost var s2 := w.nodes;
      if worth == money {
        PaidExactly(s, s1, s2, r, c, coins, i, money0, money, flags, k);
      } else {
        PaidOne(s, s1, s2, r, c, coins, i, money0, money, worth);
      }
    }
  }

  /** Everything is paid, and the last stack that was needed is number `i`. */
  ghost predicate Settled(s: Store, r: seq<nat>, s': Store, r': seq<nat>, c: Id, coins: seq<Id>, i: nat, money: nat,
                          flags: Flags, k: Coins, spilled: nat) {
    && Forest(s, r) && Forest(s', r') && InStore(s, coins) && IsBox(s, c) && IsBox(s', c)
    && DeepIn(s', r', Worth, c) + spilled == DeepIn(s, r, Worth, c) - money
    && PaidWith(s, r, s', r', c, coins, i, money, flags, k, spilled)
  }

  /** The loop: what is still to be paid, and that the coins left are worth at least as much. */
  ghost predicate Paying(s: Store, s': Store, r: seq<nat>, c: Id, coins: seq<Id>, i: nat, money0: nat, money: int) {
    && Forest(s, r) && CoinsLeft(s, s', r, c, coins, i) && IsBox(s, c) && IsBox(s', c) && i <= |coins|
    && Distinct(coins) && Ascending(s, coins)
    && 0 < money <= WorthOf(s, coins[i..])
    && DeepIn(s', r, Worth, c) == DeepIn(s, r, Worth, c) - (money0 - money)
    && money0 - money == WorthOf(s, coins[..i]) && FirstGone(s, s', coins, i)
  }

  lemma StartPaying(s: Store, r: seq<nat>, c: Id, coins: seq<Id>, money: nat)
    requires Forest(s, r) && IsBox(s, c) && InStore(s, coins) && 0 < money <= WorthOf(s, coins)
    requires Distinct(coins) && Ascending(s, coins)
    requires forall j :: 0 <= j < |coins| ==> IsCoin(s, r, c, coins[j])
    ensures Paying(s, s, r, c, coins, 0, money, money)
  {
    assert coins[..0] == [] && coins[0..] == coins;
    NoneGone(s, coins);
  }

  lemma NotYetPaid(s: Store, s': Store, r: seq<nat>, c: Id, coins: seq<Id>, i: nat, money0: nat, money: int)
    requires Paying(s, s', r, c, coins, i, money0, money)
    ensures i < |coins|
  {}

  lemma NextCoin(s: Store, s': Store, r: seq<nat>, c: Id, coins: seq<Id>, i: nat, money0: nat, money: int)
    requires Paying(s, s', r, c, coins, i, money0, money) && i < |coins|
    ensures s'[coins[i]] == s[coins[i]] && IsCoin(s', r, c, coins[i])
    ensures WorthOf(s, coins[i..]) == StackWorth(s', coins[i]) + WorthOf(s, coins[i + 1..])
    ensures WorthOf(s, coins[..i + 1]) == WorthOf(s, coins[..i]) + StackWorth(s', coins[i])
  {
    assert coins[i..][1..] == coins[i + 1..];
    WorthOfNext(s, coins, i);
  }

  lemma PaidBroken(s: Store, s1: Store, s2: Store, r: seq<nat>, r2: seq<nat>, c: Id, coins: seq<Id>, i: nat, money0: nat,
                   money: nat, flags: Flags, k: Coins, spilled: nat)
    requires Paying(s, s1, r, c, coins, i, money0, money) && i < |coins| && StackWorth(s1, coins[i]) > money
    requires OthersKept(s1, r, s2, c, coins[i])
    requires Forest(s2, r2) && IsBox(s2, c) && DeepIn(s2, r2, Worth, c) + spilled == DeepIn(s1, r, Worth, c) - money
    requires StackBroken(s1, r, s2, r2, c, coins[i], money, flags, k, spilled)
    ensures Settled(s, r, s2, r2, c, coins, i, money0, flags, k, spilled)
  {
    NextCoin(s, s1, r, c, coins, i, money0, money);
    assert LaterKept(s, s2, coins, i + 1) by {
      forall j | i + 1 <= j < |coins| ensures s2[coins[j]] == s[coins[j]] {
        assert IsOther(s1, r, c, coins[i], coins[j]);
      }
    }
    assert LastPaid(s1, r, s2, r2, c, coins[i], money, flags, k, spilled);
    IsSettled(s, s1, s2, r, r2, c, coins, i, money0, money, flags, k, spilled);
  }

  lemma PaidExactly(s: Store, s1: Store, s2: Store, r: seq<nat>, c: Id, coins: seq<Id>, i: nat, money0: nat, money: nat,
                    flags: Flags, k: Coins)
    requires Paying(s, s1, r, c, coins, i, money0, money) && i < |coins| && StackWorth(s1, coins[i]) == money
    requires |s2| == |s1| && Paid(s1, r, s2, c, coins[i], s1[coins[i]].count) && Gone(s1, s2, coins[i])
    ensures Settled(s, r, s2, r, c, coins, i, money0, flags, k, 0)
  {
    assert LaterKept(s, s2, coins, i + 1) by { OthersLeft(s, s1, s2, r, c, coins, i); }
    assert LastPaid(s1, r, s2, r, c, coins[i], money, flags, k, 0);
    IsSettled(s, s1, s2, r, r, c, coins, i, money0, money, flags, k, 0);
  }

  lemma IsSettled(s: Store, s1: Store, s2: Store, r: seq<nat>, r2: seq<nat>, c: Id, coins: seq<Id>, i: nat, money0: nat,
                  money: nat, flags: Flags, k: Coins, spilled: nat)
    requires Paying(s, s1, r, c, coins, i, money0, money) && i < |coins| && StackWorth(s1, coins[i]) >= money
    requires LaterKept(s, s2, coins, i + 1) && LastPaid(s1, r, s2, r2, c, coins[i], money, flags, k, spilled)
    requires Forest(s2, r2) && IsBox(s2, c) && DeepIn(s2, r2, Worth, c) + spilled == DeepIn(s1, r, Worth, c) - money
    ensures Settled(s, r, s2, r2, c, coins, i, money0, flags, k, spilled)
  {
    NextCoin(s, s1, r, c, coins, i, money0, money);
    var rest := money0 - WorthOf(s, coins[..i]);
    assert rest == money;
  }

  lemma PaidOne(s: Store, s1: Store, s2: Store, r: seq<nat>, c: Id, coins: seq<Id>, i: nat, money0: nat, money: int, worth: int)
    requires Paying(s, s1, r, c, coins, i, money0, money) && i < |coins| && |s2| == |s1|
    requires Paid(s1, r, s2, c, coins[i], s1[coins[i]].count) && Gone(s1, s2, coins[i])
    requires worth == StackWorth(s1, coins[i]) < money
    ensures Paying(s, s2, r, c, coins, i + 1, money0, money - worth)
  {
    NextCoin(s, s1, r, c, coins, i, money0, money);
    assert CoinsLeft(s, s2, r, c, coins, i + 1) by { OthersLeft(s, s1, s2, r, c, coins, i); }
    OneMoreGone(s, s1, s2, coins, i);
  }

  lemma OthersLeft(s: Store, s1: Store, s2: Store, r: seq<nat>, c: Id, coins: seq<Id>, i: nat)
    requires CoinsLeft(s, s1, r, c, coins, i) && i < |coins| && Distinct(coins) && |s2| == |s1|
    requires Paid(s1, r, s2, c, coins[i], s1[coins[i]].count)
    ensures CoinsLeft(s, s2, r, c, coins, i + 1)
  {}
}
