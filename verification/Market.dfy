/**
  The market: offers whose price or goods are held in escrow until somebody accepts, their owner cancels,
  or they expire (src/game.cpp:5069-5404, src/iomarket.cpp:117-189, 222-292).
  */
module Market {
  import opened Common
  import opened ItemForest
  import opened Containers
  import opened ItemMoves
  import opened MarketGoods
  import opened Sums

  datatype Side = Buy | Sell

  /** A row of `market_offers`. */
  datatype Offer = Offer(owner: nat, side: Side, itemId: nat, amount: nat, price: nat, created: int)

  /** A row of an earlier SELECT over the table. */
  datatype Row = Row(id: nat, offer: Offer)

  /** The processing of a query's result: its rows, and the table before. */
  datatype Expiry = Expiry(rows: seq<Row>, offers: seq<Option<Offer>>)

  datatype Account = Account(balance: nat, inMarket: bool, premium: bool)

  datatype Config = Config(premiumOnly: bool, maxOffers: nat, duration: int)

  function BalanceOf(a: Account): int { a.balance }

  /** The money an open offer holds. */
  function EscrowOf(o: Option<Offer>): int {
    if o.Some? && o.value.side == Buy then o.value.price * o.value.amount else 0
  }

  function TypeWare(cat: Catalogue, id: nat): nat {
    if id in cat.types then cat.types[id].wareId else 0
  }

  /** The pieces of a ware an open offer holds. */
  function GoodsOf(cat: Catalogue, u: nat): Option<Offer> -> int {
    (o: Option<Offer>) => if o.Some? && o.value.side == Sell && TypeWare(cat, o.value.itemId) == u then o.value.amount else 0
  }

  /** The ids of a player's open offers. */
  ghost function OffersOf(offers: seq<Option<Offer>>, p: nat): set<nat> {
    set id | 0 <= id < |offers| && offers[id].Some? && offers[id].value.owner == p
  }

  // ----- what players keep ------------------------------------------------------------------------

  ghost predicate Apart(a: Lockers, b: Lockers) {
    && a.inbox != b.inbox && b.depot != Some(a.inbox) && a.depot != Some(b.inbox)
    && (a.depot.Some? ==> a.depot != b.depot)
  }

  /** Everyone has lockers of their own. */
  ghost predicate LockersOk(s: Store, lockers: seq<Lockers>) {
    && (forall i :: 0 <= i < |lockers| ==> Owns(s, lockers[i]))
    && (forall i, j :: 0 <= i < |lockers| && 0 <= j < |lockers| && i != j ==> Apart(lockers[i], lockers[j]))
  }

  /** What the first `k` players keep. */
  ghost function Stocks(s: Store, r: seq<nat>, f: Measure, lockers: seq<Lockers>, k: nat): int
    requires Forest(s, r) && LockersOk(s, lockers) && k <= |lockers|
  {
    if k == 0 then 0 else Stocks(s, r, f, lockers, k - 1) + Stock(s, r, f, lockers[k - 1])
  }

  lemma OtherLockers(s: Store, r: seq<nat>, s': Store, r': seq<nat>, f: Measure, a: Lockers, gain: int, b: Lockers)
    requires StockMoved(s, r, s', r', f, a, gain) && Owns(s, b) && Apart(a, b)
    ensures Owns(s', b) && Stock(s', r', f, b) == Stock(s, r, f, b)
  {
    assert RootKept(s, r, s', r', f, a, b.inbox);
    if b.depot.Some? {
      assert RootKept(s, r, s', r', f, a, b.depot.value);
    }
  }

  lemma LockersStay(s: Store, r: seq<nat>, s': Store, r': seq<nat>, f: Measure, lockers: seq<Lockers>, p: nat, gain: int)
    requires LockersOk(s, lockers) && p < |lockers| && StockMoved(s, r, s', r', f, lockers[p], gain)
    ensures LockersOk(s', lockers)
  {
    forall i | 0 <= i < |lockers| ensures Owns(s', lockers[i]) {
      if i != p { OtherLockers(s, r, s', r', f, lockers[p], gain, lockers[i]); }
    }
  }

  lemma {:induction false} StocksMoved(s: Store, r: seq<nat>, s': Store, r': seq<nat>, f: Measure, lockers: seq<Lockers>,
                                       p: nat, gain: int, k: nat)
    requires LockersOk(s, lockers) && LockersOk(s', lockers) && p < |lockers| && k <= |lockers|
    requires StockMoved(s, r, s', r', f, lockers[p], gain)
    ensures Stocks(s', r', f, lockers, k) == Stocks(s, r, f, lockers, k) + On(p < k, gain)
  {
    if k > 0 {
      StocksMoved(s, r, s', r', f, lockers, p, gain, k - 1);
      if k - 1 != p { OtherLockers(s, r, s', r', f, lockers[p], gain, lockers[k - 1]); }
    }
  }

  /** What all players keep of a ware. */
  ghost function WareTotal(s: Store, r: seq<nat>, cat: Catalogue, lockers: seq<Lockers>, u: nat): int
    requires Forest(s, r) && LockersOk(s, lockers)
  {
    Stocks(s, r, Ware(cat, u), lockers, |lockers|)
  }

  lemma AllStocksMoved(s: Store, r: seq<nat>, s': Store, r': seq<nat>, cat: Catalogue, lockers: seq<Lockers>,
                       p: nat, v: nat, k: int)
    requires LockersOk(s, lockers) && p < |lockers| && WaresMoved(s, r, s', r', cat, lockers[p], v, k)
    ensures Forest(s, r) && Forest(s', r') && LockersOk(s', lockers)
    ensures forall u: nat :: WareTotal(s', r', cat, lockers, u) == WareTotal(s, r, cat, lockers, u) + On(u == v, k)
  {
    assert WareMoved(s, r, s', r', cat, lockers[p], v, k, 0);
    LockersStay(s, r, s', r', Ware(cat, 0), lockers, p, On(0 == v, k));
    forall u: nat
      ensures WareTotal(s', r', cat, lockers, u) == WareTotal(s, r, cat, lockers, u) + On(u == v, k)
    {
      assert WareMoved(s, r, s', r', cat, lockers[p], v, k, u);
      StocksMoved(s, r, s', r', Ware(cat, u), lockers, p, On(u == v, k), |lockers|);
    }
  }

  lemma EachStockMoved(s: Store, r: seq<nat>, s': Store, r': seq<nat>, cat: Catalogue, lockers: seq<Lockers>,
                       p: nat, v: nat, k: int)
    requires Forest(s, r) && Forest(s', r') && LockersOk(s, lockers) && LockersOk(s', lockers)
    requires p < |lockers| && WaresMoved(s, r, s', r', cat, lockers[p], v, k)
    ensures forall q: nat, u: nat :: q < |lockers| ==>
              Stock(s', r', Ware(cat, u), lockers[q]) == Stock(s, r, Ware(cat, u), lockers[q]) + On(q == p && u == v, k)
  {
    forall q: nat, u: nat | q < |lockers|
      ensures Stock(s', r', Ware(cat, u), lockers[q]) == Stock(s, r, Ware(cat, u), lockers[q]) + On(q == p && u == v, k)
    {
      assert WareMoved(s, r, s', r', cat, lockers[p], v, k, u);
      if q != p { OtherLockers(s, r, s', r', Ware(cat, u), lockers[p], On(u == v, k), lockers[q]); }
    }
  }

  // ----- offers ------------------------------------------------------------------------------------

  predicate OfferOk(o: Offer, cat: Catalogue, players: nat) {
    && o.owner < players && o.itemId in cat.types && cat.types[o.itemId].wareId != 0
    && 1 <= o.amount <= 64000 && 1 <= o.price <= 999999999
  }

  ghost predicate OffersOk(offers: seq<Option<Offer>>, cat: Catalogue, players: nat) {
    && |offers| >= 1 && offers[0] == None
    && forall i :: 0 <= i < |offers| && offers[i].Some? ==> OfferOk(offers[i].value, cat, players)
  }

  /** What a row selected earlier still says about the table: everything but the amount, which may have shrunk. */
  ghost predicate RowOk(row: Row, offers: seq<Option<Offer>>, cat: Catalogue, players: nat) {
    && row.id < |offers| && OfferOk(row.offer, cat, players)
    && (offers[row.id].Some? ==>
          && offers[row.id].value.amount <= row.offer.amount
          && offers[row.id].value == row.offer.(amount := offers[row.id].value.amount))
  }

  ghost predicate RowsOk(rows: seq<Row>, offers: seq<Option<Offer>>, cat: Catalogue, players: nat) {
    && (forall i :: 0 <= i < |rows| ==> RowOk(rows[i], offers, cat, players))
    && (forall i, j :: 0 <= i < j < |rows| ==> rows[i].id != rows[j].id)
  }

  /** The amount selected earlier is still the amount in the table. */
  ghost predicate RowFresh(row: Row, offers: seq<Option<Offer>>) {
    row.id < |offers| && offers[row.id].Some? ==> offers[row.id].value.amount == row.offer.amount
  }

  /** So it is for the first `k` rows about offers to buy. */
  ghost predicate BuysFresh(rows: seq<Row>, k: nat, offers: seq<Option<Offer>>)
    requires k <= |rows|
  {
    forall i :: 0 <= i < k && rows[i].offer.side == Buy ==> RowFresh(rows[i], offers)
  }

  /** And for those about offers to sell a ware. */
  ghost predicate SellsFresh(rows: seq<Row>, k: nat, offers: seq<Option<Offer>>, cat: Catalogue, u: nat)
    requires k <= |rows|
  {
    forall i :: 0 <= i < k && rows[i].offer.side == Sell && TypeWare(cat, rows[i].offer.itemId) == u ==>
      RowFresh(rows[i], offers)
  }

  /** The expiry query: all open offers created up to a date, as they are now. */
  function Selected(offers: seq<Option<Offer>>, date: int, k: nat): (rows: seq<Row>)
    requires k <= |offers|
    ensures forall i :: 0 <= i < |rows| ==>
              rows[i].id < k && offers[rows[i].id] == Some(rows[i].offer) && rows[i].offer.created <= date
    ensures forall i, j :: 0 <= i < j < |rows| ==> rows[i].id != rows[j].id
    ensures forall id :: 0 <= id < k && offers[id].Some? && offers[id].value.created <= date ==> Row(id, offers[id].value) in rows
  {
    if k == 0 then []
    else
      var rows := Selected(offers, date, k - 1);
      if offers[k - 1].Some? && offers[k - 1].value.created <= date then rows + [Row(k - 1, offers[k - 1].value)] else rows
  }

  /** Everything that is sold can be picked up, so that an inbox takes it. */
  ghost predicate PickupableWares(cat: Catalogue) {
    forall id :: id in cat.types && cat.types[id].wareId != 0 ==> cat.types[id].kind.pickupable
  }

  lemma OneMoreOffer(offers: seq<Option<Offer>>, p: nat, i: nat)
    requires i < |offers|
    ensures |OffersOf(offers[..i + 1], p)|
            == |OffersOf(offers[..i], p)| + if offers[i].Some? && offers[i].value.owner == p then 1 else 0
  {
    var next := if offers[i].Some? && offers[i].value.owner == p then {i} else {};
    assert OffersOf(offers[..i + 1], p) == OffersOf(offers[..i], p) + next;
  }

  ghost function Credit(players: seq<Account>, p: nat, amount: int): seq<Account>
    requires p < |players| && players[p].balance + amount >= 0
  {
    players[p := players[p].(balance := players[p].balance + amount)]
  }

  ghost predicate PendingOk(pending: seq<seq<Row>>, offers: seq<Option<Offer>>, cat: Catalogue, players: nat) {
    forall i :: 0 <= i < |pending| ==> RowsOk(pending[i], offers, cat, players)
  }

  /** An offer can only shrink or go. */
  ghost predicate Shrunk(o: Option<Offer>, o': Option<Offer>) {
    o'.Some? ==> o.Some? && o'.value.amount <= o.value.amount && o'.value == o.value.(amount := o'.value.amount)
  }

  lemma PendingKept(pending: seq<seq<Row>>, offers: seq<Option<Offer>>, offers': seq<Option<Offer>>, cat: Catalogue, players: nat)
    requires PendingOk(pending, offers, cat, players) && |offers| <= |offers'|
    requires forall i :: 0 <= i < |offers| ==> Shrunk(offers[i], offers'[i])
    ensures PendingOk(pending, offers', cat, players)
  {
    forall i | 0 <= i < |pending| ensures RowsOk(pending[i], offers', cat, players) {
      RowsKept(pending[i], offers, offers', cat, players);
    }
  }

  lemma RowsKept(rows: seq<Row>, offers: seq<Option<Offer>>, offers': seq<Option<Offer>>, cat: Catalogue, players: nat)
    requires RowsOk(rows, offers, cat, players) && |offers| <= |offers'|
    requires forall i :: 0 <= i < |offers| ==> Shrunk(offers[i], offers'[i])
    ensures RowsOk(rows, offers', cat, players)
  {
    forall i | 0 <= i < |rows| ensures RowOk(rows[i], offers', cat, players) {
      assert RowOk(rows[i], offers, cat, players) && Shrunk(offers[rows[i].id], offers'[rows[i].id]);
    }
  }

  /** The fee: one per cent, but at least 20 and at most 1000. */
  function Fee(raw: nat): (fee: nat)
    ensures 20 <= fee <= 1000 && (fee > raw ==> fee == 20) && (fee < raw ==> fee == 1000)
  {
    if raw < 20 then 20 else if raw > 1000 then 1000 else raw
  }

  /** `Items::getItemIdByClientId`. */
  function TypeByClient(cat: Catalogue, spriteId: nat): Option<ItemType> {
    if spriteId in cat.byClient && cat.byClient[spriteId] in cat.types then Some(cat.types[cat.byClient[spriteId]]) else None
  }

  /** The type under which a client's item is sold. */
  ghost function SoldAs(cat: Catalogue, spriteId: nat): Option<ItemType> {
    if spriteId !in cat.byClient || cat.byClient[spriteId] !in cat.types then None
    else
      var itt := cat.types[cat.byClient[spriteId]];
      if itt.wareId == 0 || itt.wareId !in cat.byClient || cat.byClient[itt.wareId] !in cat.types then None
      else
        var it := cat.types[cat.byClient[itt.wareId]];
        if it.wareId == 0 then None else Some(it)
  }

  /** What a new offer takes from the bank account. */
  ghost function Cost(side: Side, price: nat, amount: nat, raw: nat): nat {
    Fee(raw) + if side == Buy then price * amount else 0
  }

  // ----- what the steps do to the sums ---------------------------------------------------------------

  lemma PaysInto(players: seq<Account>, p: nat, x: int)
    requires p < |players| && players[p].balance + x >= 0
    ensures SumBy(Credit(players, p, x), BalanceOf) == SumBy(players, BalanceOf) + x
  {
    SumByUpdate(players, BalanceOf, p, players[p].(balance := players[p].balance + x));
  }

  lemma OfferAdded(offers: seq<Option<Offer>>, o: Offer, cat: Catalogue, u: nat)
    ensures SumBy(offers + [Some(o)], EscrowOf) == SumBy(offers, EscrowOf) + EscrowOf(Some(o))
    ensures SumBy(offers + [Some(o)], GoodsOf(cat, u)) == SumBy(offers, GoodsOf(cat, u)) + GoodsOf(cat, u)(Some(o))
  {
    SumByAppend(offers, EscrowOf, Some(o));
    SumByAppend(offers, GoodsOf(cat, u), Some(o));
  }

  lemma OfferChanged(offers: seq<Option<Offer>>, id: nat, o: Option<Offer>, cat: Catalogue, u: nat)
    requires id < |offers|
    ensures SumBy(offers[id := o], EscrowOf) == SumBy(offers, EscrowOf) - EscrowOf(offers[id]) + EscrowOf(o)
    ensures SumBy(offers[id := o], GoodsOf(cat, u))
            == SumBy(offers, GoodsOf(cat, u)) - GoodsOf(cat, u)(offers[id]) + GoodsOf(cat, u)(o)
  {
    SumByUpdate(offers, EscrowOf, id, o);
    SumByUpdate(offers, GoodsOf(cat, u), id, o);
  }

  /** The table after `amount` pieces of an offer are accepted. */
  ghost function Accepted(offers: seq<Option<Offer>>, id: nat, amount: nat): seq<Option<Offer>>
    requires id < |offers| && offers[id].Some? && amount <= offers[id].value.amount
  {
    var o := offers[id].value;
    offers[id := if amount == o.amount then None else Some(o.(amount := o.amount - amount))]
  }

  lemma EscrowShrinks(o: Offer, amount: nat, o': Option<Offer>)
    requires amount <= o.amount && o' == if amount == o.amount then None else Some(o.(amount := o.amount - amount))
    ensures EscrowOf(Some(o)) - EscrowOf(o') == On(o.side == Buy, o.price * amount)
  {
    Excess(o.price, o.amount, amount);
  }

  lemma AcceptedSums(offers: seq<Option<Offer>>, id: nat, amount: nat, cat: Catalogue, u: nat)
    requires id < |offers| && offers[id].Some? && amount <= offers[id].value.amount
    ensures var o := offers[id].value;
            && SumBy(Accepted(offers, id, amount), EscrowOf)
               == SumBy(offers, EscrowOf) - On(o.side == Buy, o.price * amount)
            && SumBy(Accepted(offers, id, amount), GoodsOf(cat, u))
               == SumBy(offers, GoodsOf(cat, u)) - On(o.side == Sell && TypeWare(cat, o.itemId) == u, amount)
  {
    var o := offers[id].value;
    var o' := if amount == o.amount then None else Some(o.(amount := o.amount - amount));
    OfferChanged(offers, id, o', cat, u);
    EscrowShrinks(o, amount, o');
  }

  lemma AcceptedSumsAll(offers: seq<Option<Offer>>, id: nat, amount: nat, cat: Catalogue)
    requires id < |offers| && offers[id].Some? && amount <= offers[id].value.amount
    ensures var o := offers[id].value;
            && SumBy(Accepted(offers, id, amount), EscrowOf)
               == SumBy(offers, EscrowOf) - On(o.side == Buy, o.price * amount)
            && forall u: nat ::
                 SumBy(Accepted(offers, id, amount), GoodsOf(cat, u))
                 == SumBy(offers, GoodsOf(cat, u)) - On(o.side == Sell && TypeWare(cat, o.itemId) == u, amount)
  {
    AcceptedSums(offers, id, amount, cat, 0);
    var o, offers' := offers[id].value, Accepted(offers, id, amount);
    forall u: nat
      ensures SumBy(offers', GoodsOf(cat, u))
              == SumBy(offers, GoodsOf(cat, u)) - On(o.side == Sell && TypeWare(cat, o.itemId) == u, amount)
    {
      AcceptedSums(offers, id, amount, cat, u);
    }
  }

  lemma AcceptedOk(offers: seq<Option<Offer>>, id: nat, amount: nat, cat: Catalogue, players: nat, pending: seq<seq<Row>>)
    requires OffersOk(offers, cat, players) && PendingOk(pending, offers, cat, players)
    requires id < |offers| && offers[id].Some? && amount <= offers[id].value.amount
    ensures OffersOk(Accepted(offers, id, amount), cat, players)
    ensures PendingOk(pending, Accepted(offers, id, amount), cat, players)
  {
    PendingKept(pending, offers, Accepted(offers, id, amount), cat, players);
  }

  /** The condition of the lookup by date and the low 16 bits of the id. */
  ghost predicate Fits(offers: seq<Option<Offer>>, created: int, counter: nat, id: nat) {
    id < |offers| && offers[id].Some? && offers[id].value.created == created && id % 65536 == counter
  }

  /** A row that fits, or 0 if none does. */
  ghost predicate Lookup(offers: seq<Option<Offer>>, created: int, counter: nat, id: nat) {
    if id == 0 then forall j: nat :: !Fits(offers, created, counter, j) else Fits(offers, created, counter, id)
  }

  /** The accounts after an offer is accepted: the price goes to the seller, out of escrow or from the buyer. */
  ghost predicate PaidOut(before: seq<Account>, after: seq<Account>, p: nat, o: Offer, amount: nat) {
    && p < |before| && o.owner < |before|
    && if o.side == Buy then after == Credit(before, p, o.price * amount)
       else o.price * amount <= before[p].balance
            && after == Credit(Credit(before, p, 0 - o.price * amount), o.owner, o.price * amount)
  }

  /**
    What a player's stock of a ware gains when `p` accepts an offer: an offer to sell sends the goods to `p`; an
    offer to buy takes them from `p` and sends them to its owner.
    */
  ghost function HandedOver(cat: Catalogue, o: Offer, p: nat, amount: nat, q: nat, u: nat): int {
    if o.side == Sell then On(q == p, Arriving(cat, o.itemId, amount, u))
    else On(q == o.owner, Arriving(cat, o.itemId, amount, u)) - On(q == p && TypeWare(cat, o.itemId) == u, amount)
  }

  /** How much of what is sent to an inbox does not arrive. */
  ghost function Lost(cat: Catalogue, itemId: nat, amount: nat, u: nat): nat {
    if itemId in cat.types && cat.types[itemId].wareId == u && !cat.types[itemId].kind.pickupable then amount else 0
  }

  /** And how much does. */
  ghost function Arriving(cat: Catalogue, itemId: nat, amount: nat, u: nat): nat {
    if itemId in cat.types && cat.types[itemId].wareId == u && cat.types[itemId].kind.pickupable then amount else 0
  }

  /** A total does not shrink, and stays the same exactly when a condition holds. */
  ghost predicate Grown(before: int, after: int, kept: bool) {
    after >= before && (after == before <==> kept)
  }

  /** What processing a row pays into an account, if the offer is still in the table. */
  ghost function RefundOf(row: Row, offers: seq<Option<Offer>>, q: nat): int {
    On(row.id < |offers| && offers[row.id].Some? && row.offer.side == Buy && row.offer.owner == q,
       row.offer.price * row.offer.amount)
  }

  ghost function Refunds(rows: seq<Row>, k: nat, offers: seq<Option<Offer>>, q: nat): int
    requires k <= |rows|
  {
    if k == 0 then 0 else Refunds(rows, k - 1, offers, q) + RefundOf(rows[k - 1], offers, q)
  }

  /** And what it sends to an inbox. */
  ghost function ReturnOf(cat: Catalogue, row: Row, offers: seq<Option<Offer>>, q: nat, u: nat): int {
    On(row.id < |offers| && offers[row.id].Some? && row.offer.side == Sell && row.offer.owner == q,
       Arriving(cat, row.offer.itemId, row.offer.amount, u))
  }

  ghost function Returns(cat: Catalogue, rows: seq<Row>, k: nat, offers: seq<Option<Offer>>, q: nat, u: nat): int
    requires k <= |rows|
  {
    if k == 0 then 0 else Returns(cat, rows, k - 1, offers, q, u) + ReturnOf(cat, rows[k - 1], offers, q, u)
  }

  /** The accounts after the first `k` rows. */
  ghost predicate Refunded(before: seq<Account>, after: seq<Account>, rows: seq<Row>, k: nat, offers: seq<Option<Offer>>)
    requires k <= |rows|
  {
    |after| == |before| && forall q :: 0 <= q < |before| ==> RefundedTo(before[q], after[q], Refunds(rows, k, offers, q))
  }

  ghost predicate RefundedTo(a: Account, b: Account, amount: int) {
    b.balance == a.balance + amount && b.inMarket == a.inMarket && b.premium == a.premium
  }

  lemma RefundedNext(before: seq<Account>, players: seq<Account>, players': seq<Account>, rows: seq<Row>, i: nat,
                     offers0: seq<Option<Offer>>, offers: seq<Option<Offer>>)
    requires i < |rows| && Refunded(before, players, rows, i, offers0) && |players'| == |players|
    requires |offers| == |offers0| && rows[i].id < |offers| && offers[rows[i].id] == offers0[rows[i].id]
    requires forall q :: 0 <= q < |players| ==> RefundedTo(players[q], players'[q], RefundOf(rows[i], offers, q))
    ensures Refunded(before, players', rows, i + 1, offers0)
  {
    forall q | 0 <= q < |before| ensures RefundedTo(before[q], players'[q], Refunds(rows, i + 1, offers0, q)) {
      assert RefundedTo(before[q], players[q], Refunds(rows, i, offers0, q));
      assert RefundedTo(players[q], players'[q], RefundOf(rows[i], offers, q));
    }
  }

  /** The first `k` rows have been processed. */
  ghost predicate Closed(offers0: seq<Option<Offer>>, offers: seq<Option<Offer>>, rows: seq<Row>, k: nat)
    requires k <= |rows|
  {
    |offers| == |offers0|
    && forall id :: 0 <= id < |offers| ==> offers[id] == if IsAmong(rows, k, id) then None else offers0[id]
  }

  ghost predicate IsAmong(rows: seq<Row>, k: nat, id: nat)
    requires k <= |rows|
  {
    exists j :: 0 <= j < k && rows[j].id == id
  }

  lemma ClosedNext(offers0: seq<Option<Offer>>, offers: seq<Option<Offer>>, rows: seq<Row>, i: nat)
    requires i < |rows| && Closed(offers0, offers, rows, i) && rows[i].id < |offers|
    requires forall a, b :: 0 <= a < b < |rows| ==> rows[a].id != rows[b].id
    ensures offers[rows[i].id] == offers0[rows[i].id]
    ensures Closed(offers0, offers[rows[i].id := None], rows, i + 1)
  {
    assert !IsAmong(rows, i, rows[i].id);
    forall id | 0 <= id < |offers| ensures IsAmong(rows, i + 1, id) <==> IsAmong(rows, i, id) || id == rows[i].id {
      assert rows[i].id == id ==> IsAmong(rows, i + 1, id);
    }
  }

  lemma FreshNext(rows: seq<Row>, offers: seq<Option<Offer>>, cat: Catalogue, u: nat, i: nat)
    requires i < |rows|
    ensures BuysFresh(rows, i + 1, offers) <==>
              BuysFresh(rows, i, offers) && (rows[i].offer.side == Buy ==> RowFresh(rows[i], offers))
    ensures SellsFresh(rows, i + 1, offers, cat, u) <==>
              SellsFresh(rows, i, offers, cat, u)
              && (rows[i].offer.side == Sell && TypeWare(cat, rows[i].offer.itemId) == u ==> RowFresh(rows[i], offers))
  {}

  lemma RowExcess(row: Row, offers: seq<Option<Offer>>, cat: Catalogue, players: nat)
    requires RowOk(row, offers, cat, players) && offers[row.id].Some?
    ensures row.offer.price * row.offer.amount >= row.offer.price * offers[row.id].value.amount
    ensures row.offer.price * row.offer.amount == row.offer.price * offers[row.id].value.amount <==> RowFresh(row, offers)
  {
    Excess(row.offer.price, row.offer.amount, offers[row.id].value.amount);
  }

  lemma PendingTail(pending: seq<seq<Row>>, offers: seq<Option<Offer>>, cat: Catalogue, players: nat)
    requires PendingOk(pending, offers, cat, players) && pending != []
    ensures RowsOk(pending[0], offers, cat, players) && PendingOk(pending[1..], offers, cat, players)
  {}

  lemma NextRow(offers0: seq<Option<Offer>>, offers: seq<Option<Offer>>, rows: seq<Row>, i: nat,
                cat: Catalogue, players: nat)
    requires i < |rows| && Closed(offers0, offers, rows, i) && RowsOk(rows, offers, cat, players)
    ensures RowOk(rows[i], offers, cat, players) && RowFresh(rows[i], offers) == RowFresh(rows[i], offers0)
    ensures |offers| == |offers0| && offers[rows[i].id] == offers0[rows[i].id]
    ensures Closed(offers0, offers[rows[i].id := None], rows, i + 1)
    ensures RowsOk(rows, offers[rows[i].id := None], cat, players)
    ensures BuysFresh(rows, i + 1, offers0) <==>
              BuysFresh(rows, i, offers0) && (rows[i].offer.side == Buy ==> RowFresh(rows[i], offers0))
    ensures forall u: nat ::
              SellsFresh(rows, i + 1, offers0, cat, u) <==>
                SellsFresh(rows, i, offers0, cat, u)
                && (rows[i].offer.side == Sell && TypeWare(cat, rows[i].offer.itemId) == u ==> RowFresh(rows[i], offers0))
  {
    assert RowOk(rows[i], offers, cat, players);
    ClosedNext(offers0, offers, rows, i);
    FreshNext(rows, offers0, cat, 0, i);
    forall u: nat
      ensures SellsFresh(rows, i + 1, offers0, cat, u) <==>
                SellsFresh(rows, i, offers0, cat, u)
                && (rows[i].offer.side == Sell && TypeWare(cat, rows[i].offer.itemId) == u ==> RowFresh(rows[i], offers0))
    {
      FreshNext(rows, offers0, cat, u, i);
    }
    RowsKept(rows, offers, offers[rows[i].id := None], cat, players);
  }

  class Exchange {
    const world: World
    const cat: Catalogue
    const config: Config
    const lockers: seq<Lockers>

    var players: seq<Account>
    var offers: seq<Option<Offer>>    // a row's id is its index; rows that are gone are None
    var pending: seq<seq<Row>>        // results of the expiry query that wait to be processed
    ghost var fees: nat
    ghost var trace: seq<Expiry>      // the results that were processed, each with the table at that time

    ghost predicate Valid()
      reads this, world
    {
      && world.Valid() && CatalogueOk(cat) && Typed(world.nodes, cat)
      && |lockers| == |players| && LockersOk(world.nodes, lockers)
      && OffersOk(offers, cat, |players|) && PendingOk(pending, offers, cat, |players|)
    }

    /** All money: in bank accounts, in open buy offers, and taken as fees. */
    ghost function Money(): int
      reads this
    {
      SumBy(players, BalanceOf) + SumBy(offers, EscrowOf) + fees
    }

    ghost function InLockers(u: nat): int
      requires Valid()
      reads this, world
    {
      WareTotal(world.nodes, world.rank, cat, lockers, u)
    }

    /** All pieces of a ware: in depot chests and inboxes, and in open sell offers. */
    ghost function Goods(u: nat): int
      requires Valid()
      reads this, world
    {
      InLockers(u) + SumBy(offers, GoodsOf(cat, u))
    }

    /** The pieces of a ware that one player keeps. */
    ghost function StockOf(q: nat, u: nat): int
      requires Valid() && q < |lockers|
      reads this, world
    {
      Stock(world.nodes, world.rank, Ware(cat, u), lockers[q])
    }

    constructor (world: World, cat: Catalogue, config: Config, lockers: seq<Lockers>, players: seq<Account>)
      requires world.Valid() && CatalogueOk(cat) && Typed(world.nodes, cat)
      requires |lockers| == |players| && LockersOk(world.nodes, lockers)
      ensures Valid() && this.world == world && this.players == players && this.lockers == lockers
      ensures this.cat == cat && this.config == config && offers == [None] && pending == [] && trace == []
      ensures Money() == SumBy(players, BalanceOf)
      ensures forall u: nat :: Goods(u) == InLockers(u)
    {
      this.world, this.cat, this.config, this.lockers, this.players := world, cat, config, lockers, players;
      offers, pending, fees, trace := [None], [], 0, [];
      new;
      assert offers[1..] == [];
    }

    // ----- elementary steps ---------------------------------------------------------------------

    method TakeFrom(p: nat, t: ItemType, amount: nat) returns (ok: bool)
      requires Valid() && p < |players| && lockers[p].depot.Some?
      requires IsType(cat, t) && t.wareId != 0 && 1 <= amount <= 64000
      modifies world
      ensures Valid()
      ensures ok <==> old(CanSupply(world.nodes, world.rank, cat, t.wareId, lockers[p], amount))
      ensures !ok ==> world.nodes == old(world.nodes) && world.rank == old(world.rank)
      ensures forall u: nat :: Goods(u) == old(Goods(u)) - On(ok && u == t.wareId, amount)
      ensures forall q: nat, u: nat :: q < |lockers| ==> StockOf(q, u) == old(StockOf(q, u)) - On(ok && q == p && u == t.wareId, amount)
    {
      ghost var s, r := world.nodes, world.rank;
      ok := TakeGoods(world, cat, t, amount, lockers[p]);
      ghost var k := if ok then 0 - amount else 0;
      AllStocksMoved(s, r, world.nodes, world.rank, cat, lockers, p, t.wareId, k);
      EachStockMoved(s, r, world.nodes, world.rank, cat, lockers, p, t.wareId, k);
    }

    method DeliverTo(p: nat, itemId: nat, amount: nat)
      requires Valid() && p < |players| && itemId in cat.types
      modifies world
      ensures Valid()
      ensures forall u: nat :: Goods(u) == old(Goods(u)) + On(u == cat.types[itemId].wareId, amount) - Lost(cat, itemId, amount, u)
      ensures forall q: nat, u: nat :: q < |lockers| ==> StockOf(q, u) == old(StockOf(q, u)) + On(q == p, Arriving(cat, itemId, amount, u))
    {
      ghost var s, r := world.nodes, world.rank;
      var t := cat.types[itemId];
      Deliver(world, cat, t, amount, lockers[p]);
      ghost var k := if t.kind.pickupable then amount else 0;
      AllStocksMoved(s, r, world.nodes, world.rank, cat, lockers, p, t.wareId, k);
      EachStockMoved(s, r, world.nodes, world.rank, cat, lockers, p, t.wareId, k);
    }

    /** `amount` comes to a bank account, or leaves it; the part `fee` of it stays with the market. */
    method Transfer(p: nat, amount: int, fee: nat)
      requires Valid() && p < |players| && players[p].balance + amount >= 0
      modifies this`players, this`fees
      ensures Valid() && players == Credit(old(players), p, amount)
      ensures Money() == old(Money()) + amount + fee && forall u: nat :: Goods(u) == old(Goods(u))
      ensures forall q: nat, u: nat :: q < |lockers| ==> StockOf(q, u) == old(StockOf(q, u))
    {
      PaysInto(players, p, amount);
      players := players[p := players[p].(balance := players[p].balance + amount)];
      fees := fees + fee;
    }

    /** `IOMarket::createOffer`. */
    method InsertOffer(o: Offer)
      requires Valid() && OfferOk(o, cat, |players|)
      modifies this`offers
      ensures Valid() && offers == old(offers) + [Some(o)]
      ensures Money() == old(Money()) + EscrowOf(Some(o)) && forall u: nat :: Goods(u) == old(Goods(u)) + GoodsOf(cat, u)(Some(o))
      ensures forall q: nat, u: nat :: q < |lockers| ==> StockOf(q, u) == old(StockOf(q, u))
    {
      forall u: nat
        ensures SumBy(offers + [Some(o)], GoodsOf(cat, u)) == SumBy(offers, GoodsOf(cat, u)) + GoodsOf(cat, u)(Some(o))
      {
        OfferAdded(offers, o, cat, u);
      }
      OfferAdded(offers, o, cat, 0);
      PendingKept(pending, offers, offers + [Some(o)], cat, |players|);
      offers := offers + [Some(o)];
    }

    /** `IOMarket::acceptOffer` and `deleteOffer`: the offer shrinks, or goes when nothing is left of it. */
    method ShrinkOffer(id: nat, amount: nat)
      requires Valid() && id < |offers| && offers[id].Some? && amount <= offers[id].value.amount
      modifies this`offers
      ensures Valid() && offers == Accepted(old(offers), id, amount)
      ensures var o := old(offers[id].value);
              && Money() == old(Money()) - On(o.side == Buy, o.price * amount)
              && forall u: nat :: Goods(u) == old(Goods(u)) - On(o.side == Sell && TypeWare(cat, o.itemId) == u, amount)
      ensures forall q: nat, u: nat :: q < |lockers| ==> StockOf(q, u) == old(StockOf(q, u))
    {
      AcceptedSumsAll(offers, id, amount, cat);
      AcceptedOk(offers, id, amount, cat, |players|, pending);
      var o := offers[id].value;
      offers := offers[id := if amount == o.amount then None else Some(o.(amount := o.amount - amount))];
    }

    // ----- the operations ------------------------------------------------------------------------

    /** The checks that do not concern the player's means. */
    ghost predicate Admitted(p: nat, spriteId: nat, amount: nat, price: nat)
      reads this
    {
      && 1 <= amount <= 64000 && 1 <= price <= 999999999
      && p < |players| && players[p].inMarket && (config.premiumOnly ==> players[p].premium)
      && SoldAs(cat, spriteId).Some? && (!SoldAs(cat, spriteId).value.kind.stackable ==> amount <= 2000)
      && (config.maxOffers != 0 ==> |OffersOf(offers, p)| < config.maxOffers)
    }

    /** When `playerCreateMarketOffer` goes through. */
    ghost predicate CanCreate(p: nat, side: Side, spriteId: nat, amount: nat, price: nat, raw: nat)
      requires Valid()
      reads this, world
    {
      && Admitted(p, spriteId, amount, price)
      && HasMeans(p, side, SoldAs(cat, spriteId).value, amount, Cost(side, price, amount, raw))
    }

    /** The player has the money and, to sell, the goods. */
    ghost predicate HasMeans(p: nat, side: Side, t: ItemType, amount: nat, cost: nat)
      requires Valid() && p < |players|
      reads this, world
    {
      && cost <= players[p].balance
      && (side == Sell ==>
            lockers[p].depot.Some? && CanSupply(world.nodes, world.rank, cat, t.wareId, lockers[p], amount))
    }

    /** The checks before the fee is computed. */
    method Admit(p: nat, spriteId: nat, amount: nat, price: nat) returns (it: Option<ItemType>)
      ensures it == if Admitted(p, spriteId, amount, price) then SoldAs(cat, spriteId) else None
    {
      if amount == 0 || amount > 64000 || price == 0 || price > 999999999 || p >= |players| || !players[p].inMarket {
        return None;
      }
      if config.premiumOnly && !players[p].premium {
        return None;
      }
      it := FindWare(spriteId);
      if it == None || (!it.value.kind.stackable && amount > 2000) {
        return None;
      }
      var count := GetPlayerOfferCount(p);
      if config.maxOffers != 0 && count >= config.maxOffers {
        return None;
      }
    }

    /** The two lookups, of the client's item and of the ware it stands for. */
    method FindWare(spriteId: nat) returns (it: Option<ItemType>)
      ensures it == SoldAs(cat, spriteId)
    {
      it := TypeByClient(cat, spriteId);
      if it == None || it.value.wareId == 0 {
        return None;
      }
      it := TypeByClient(cat, it.value.wareId);
      if it == None || it.value.wareId == 0 {
        return None;
      }
    }

    /** `IOMarket::getPlayerOfferCount`. */
    method GetPlayerOfferCount(p: nat) returns (count: nat)
      ensures count == |OffersOf(offers, p)|
    {
      count := 0;
      for i := 0 to |offers|
        invariant count == |OffersOf(offers[..i], p)|
      {
        OneMoreOffer(offers, p, i);
        if offers[i].Some? && offers[i].value.owner == p {
          count := count + 1;
        }
      }
      assert offers[..|offers|] == offers;
    }

    /**
      `Game::playerCreateMarketOffer` for the two kinds of offer.  `raw` is one per cent of the price,
      as computed.  The fee leaves the account for good; price and goods go into escrow.
      */
    method CreateOffer(p: nat, side: Side, spriteId: nat, amount: nat, price: nat, raw: nat, now: int)
      returns (ok: bool)
      requires Valid()
      modifies this`players, this`offers, this`fees, world
      ensures Valid()
      ensures ok <==> old(CanCreate(p, side, spriteId, amount, price, raw))
      ensures !ok ==> players == old(players) && offers == old(offers)
      ensures !ok || side == Buy ==> world.nodes == old(world.nodes) && world.rank == old(world.rank)
      ensures ok ==>
                && SoldAs(cat, spriteId).Some? && p < old(|players|) && Cost(side, price, amount, raw) <= old(players[p].balance)
                && offers == old(offers) + [Some(Offer(p, side, SoldAs(cat, spriteId).value.kind.id, amount, price, now))]
                && players == Credit(old(players), p, 0 - Cost(side, price, amount, raw))
      ensures Money() == old(Money()) && forall u: nat :: Goods(u) == old(Goods(u))
      ensures forall q: nat, u: nat :: q < |lockers| ==>
                StockOf(q, u) == old(StockOf(q, u)) - On(ok && side == Sell && q == p && u == SoldAs(cat, spriteId).value.wareId, amount)
    {
      ok := false;
      var it := Admit(p, spriteId, amount, price);
      if it.Some? {
        ok := OpenOffer(p, side, it.value, amount, price, raw, now);
      }
    }

    /** The part of it that concerns the player's means. */
    method OpenOffer(p: nat, side: Side, t: ItemType, amount: nat, price: nat, raw: nat, now: int) returns (ok: bool)
      requires Valid() && p < |players| && IsType(cat, t) && t.wareId != 0 && 1 <= amount <= 64000 && 1 <= price <= 999999999
      modifies this`players, this`offers, this`fees, world
      ensures Valid()
      ensures ok <==> old(HasMeans(p, side, t, amount, Cost(side, price, amount, raw)))
      ensures !ok ==> players == old(players) && offers == old(offers)
      ensures !ok || side == Buy ==> world.nodes == old(world.nodes) && world.rank == old(world.rank)
      ensures ok ==>
                && Cost(side, price, amount, raw) <= old(players[p].balance)
                && offers == old(offers) + [Some(Offer(p, side, t.kind.id, amount, price, now))]
                && players == Credit(old(players), p, 0 - Cost(side, price, amount, raw))
      ensures Money() == old(Money()) && forall u: nat :: Goods(u) == old(Goods(u))
      ensures forall q: nat, u: nat :: q < |lockers| ==> StockOf(q, u) == old(StockOf(q, u)) - On(ok && side == Sell && q == p && u == t.wareId, amount)
    {
      var fee := Fee(raw);
      var cost := if side == Sell then fee else price * amount + fee;
      ok := CollectMeans(p, side, t, amount, cost);
      if ok {
        PlaceOffer(Offer(p, side, t.kind.id, amount, price, now), cost, fee);
      }
    }

    /** Refuses what the player cannot afford, and takes the goods of an offer to sell. */
    method CollectMeans(p: nat, side: Side, t: ItemType, amount: nat, cost: nat) returns (ok: bool)
      requires Valid() && p < |players| && IsType(cat, t) && t.wareId != 0 && 1 <= amount <= 64000
      modifies world
      ensures Valid()
      ensures ok <==> old(HasMeans(p, side, t, amount, cost))
      ensures !ok || side == Buy ==> world.nodes == old(world.nodes) && world.rank == old(world.rank)
      ensures forall u: nat :: Goods(u) == old(Goods(u)) - On(ok && side == Sell && u == t.wareId, amount)
      ensures forall q: nat, u: nat :: q < |lockers| ==> StockOf(q, u) == old(StockOf(q, u)) - On(ok && side == Sell && q == p && u == t.wareId, amount)
    {
      ok := cost <= players[p].balance && (side == Sell ==> lockers[p].depot.Some?);
      if ok && side == Sell {
        ok := TakeFrom(p, t, amount);
      }
    }

    /** The cost leaves the account and the offer enters the table. */
    method PlaceOffer(o: Offer, cost: nat, fee: nat)
      requires Valid() && OfferOk(o, cat, |players|) && cost <= players[o.owner].balance
      modifies this`players, this`offers, this`fees
      ensures Valid() && offers == old(offers) + [Some(o)] && players == Credit(old(players), o.owner, 0 - cost)
      ensures Money() == old(Money()) - cost + fee + EscrowOf(Some(o))
      ensures forall u: nat :: Goods(u) == old(Goods(u)) + GoodsOf(cat, u)(Some(o))
      ensures forall q: nat, u: nat :: q < |lockers| ==> StockOf(q, u) == old(StockOf(q, u))
    {
      Transfer(o.owner, 0 - cost, fee);
      InsertOffer(o);
    }

    /** `IOMarket::getOfferByCounter`: some offer that fits, or 0. */
    method GetOfferByCounter(timestamp: int, counter: nat) returns (id: nat)
      requires Valid()
      ensures Lookup(offers, timestamp - config.duration, counter, id)
    {
      var created := timestamp - config.duration;
      for i := 0 to |offers|
        invariant forall j: nat :: j < i ==> !Fits(offers, created, counter, j)
      {
        if offers[i].Some? && offers[i].value.created == created && i % 65536 == counter {
          return i;
        }
      }
      id := 0;
    }

    /** `Game::playerCancelMarketOffer`: the owner gets back what the offer holds. */
    method CancelOffer(p: nat, timestamp: int, counter: nat) returns (ok: bool, id: nat)
      requires Valid()
      modifies this`players, this`offers, this`fees, world
      ensures Valid() && Lookup(old(offers), timestamp - config.duration, counter, id)
      ensures ok <==> id != 0 && p < old(|players|) && old(players[p].inMarket) && old(offers[id].value.owner) == p
      ensures !ok ==> players == old(players) && offers == old(offers) && world.nodes == old(world.nodes)
      ensures ok ==> offers == old(offers)[id := None]
      ensures ok ==> var o := old(offers[id].value);
                     players == if o.side == Buy then Credit(old(players), p, o.price * o.amount) else old(players)
      ensures Money() == old(Money())
      ensures forall u: nat :: Goods(u) == old(Goods(u)) - if ok && old(offers[id].value.side) == Sell
                                          then old(Lost(cat, offers[id].value.itemId, offers[id].value.amount, u)) else 0
      ensures forall q: nat, u: nat :: q < |lockers| ==>
                StockOf(q, u) == old(StockOf(q, u)) + if ok && old(offers[id].value.side) == Sell && q == p
                                                      then old(Arriving(cat, offers[id].value.itemId, offers[id].value.amount, u)) else 0
    {
      ok := false;
      id := GetOfferByCounter(timestamp, counter);
      if p >= |players| || !players[p].inMarket || id == 0 || offers[id].value.owner != p {
        return;
      }
      var o := offers[id].value;
      if o.side == Buy {
        Transfer(p, o.price * o.amount, 0);
      } else {
        DeliverTo(p, o.itemId, o.amount);
      }
      ShrinkOffer(id, o.amount);
      ok := true;
    }

    /** Accepting an offer to buy: the goods go to its owner's inbox, the price comes out of escrow. */
    method SellTo(p: nat, id: nat, amount: nat) returns (ok: bool)
      requires Valid() && id < |offers| && offers[id].Some? && offers[id].value.side == Buy
      requires p < |players| && 1 <= amount <= offers[id].value.amount
      modifies this`players, this`offers, this`fees, world
      ensures Valid()
      ensures ok <==> old(CanSell(p, id, amount))
      ensures !ok ==> players == old(players) && offers == old(offers) && world.nodes == old(world.nodes)
      ensures ok ==> offers == Accepted(old(offers), id, amount)
                     && PaidOut(old(players), players, p, old(offers[id].value), amount)
      ensures Money() == old(Money())
      ensures forall u: nat :: Goods(u) == old(Goods(u)) - if ok then old(Lost(cat, offers[id].value.itemId, amount, u)) else 0
      ensures forall q: nat, u: nat :: q < |lockers| ==>
                StockOf(q, u) == old(StockOf(q, u)) + if ok then old(HandedOver(cat, offers[id].value, p, amount, q, u)) else 0
    {
      ok := false;
      var o := offers[id].value;
      if lockers[p].depot == None {
        return;
      }
      ok := TakeFrom(p, cat.types[o.itemId], amount);
      if ok {
        SettleSale(p, id, amount);
      }
    }

    method SettleSale(p: nat, id: nat, amount: nat)
      requires Valid() && id < |offers| && offers[id].Some? && offers[id].value.side == Buy
      requires p < |players| && 1 <= amount <= offers[id].value.amount
      modifies this`players, this`offers, this`fees, world
      ensures Valid() && offers == Accepted(old(offers), id, amount)
      ensures players == Credit(old(players), p, old(offers[id].value.price) * amount)
      ensures Money() == old(Money())
      ensures var itemId := old(offers[id].value.itemId);
              forall u: nat :: Goods(u) == old(Goods(u)) + On(u == TypeWare(cat, itemId), amount) - Lost(cat, itemId, amount, u)
      ensures var o := old(offers[id].value);
              forall q: nat, u: nat :: q < |lockers| ==>
                StockOf(q, u) == old(StockOf(q, u)) + On(q == o.owner, Arriving(cat, o.itemId, amount, u))
    {
      var o := offers[id].value;
      Transfer(p, o.price * amount, 0);
      DeliverTo(o.owner, o.itemId, amount);
      ShrinkOffer(id, amount);
    }

    /** Accepting an offer to sell: the goods come out of escrow, the price goes to its owner. */
    method BuyFrom(p: nat, id: nat, amount: nat) returns (ok: bool)
      requires Valid() && id < |offers| && offers[id].Some? && offers[id].value.side == Sell
      requires p < |players| && 1 <= amount <= offers[id].value.amount
      modifies this`players, this`offers, this`fees, world
      ensures Valid()
      ensures ok <==> old(offers[id].value.price) * amount <= old(players[p].balance)
      ensures !ok ==> players == old(players) && offers == old(offers) && world.nodes == old(world.nodes)
      ensures ok ==> offers == Accepted(old(offers), id, amount)
                     && PaidOut(old(players), players, p, old(offers[id].value), amount)
      ensures Money() == old(Money())
      ensures forall u: nat :: Goods(u) == old(Goods(u)) - if ok then old(Lost(cat, offers[id].value.itemId, amount, u)) else 0
      ensures forall q: nat, u: nat :: q < |lockers| ==>
                StockOf(q, u) == old(StockOf(q, u)) + if ok then old(HandedOver(cat, offers[id].value, p, amount, q, u)) else 0
    {
      var o := offers[id].value;
      var totalPrice := o.price * amount;
      ok := totalPrice <= players[p].balance;
      if !ok {
        return;
      }
      Transfer(p, -totalPrice, 0);
      DeliverTo(p, o.itemId, amount);
      Transfer(o.owner, totalPrice, 0);
      ShrinkOffer(id, amount);
    }

    ghost predicate CanSell(p: nat, id: nat, amount: nat)
      requires Valid() && id < |offers| && offers[id].Some? && p < |players|
      reads this, world
    {
      lockers[p].depot.Some?
      && CanSupply(world.nodes, world.rank, cat, TypeWare(cat, offers[id].value.itemId), lockers[p], amount)
    }

    /** When `playerAcceptMarketOffer` goes through, for the offer that was found. */
    ghost predicate CanAccept(p: nat, id: nat, amount: nat)
      requires Valid() && id < |offers| && offers[id].Some?
      reads this, world
    {
      && p < |players| && players[p].inMarket && 1 <= amount <= offers[id].value.amount
      && if offers[id].value.side == Buy then CanSell(p, id, amount)
         else offers[id].value.price * amount <= players[p].balance
    }

    /** `Game::playerAcceptMarketOffer`: goods go one way and the price the other. */
    method AcceptOffer(p: nat, timestamp: int, counter: nat, amount: nat) returns (ok: bool, id: nat)
      requires Valid()
      modifies this`players, this`offers, this`fees, world
      ensures Valid() && Lookup(old(offers), timestamp - config.duration, counter, id)
      ensures ok <==> id != 0 && old(CanAccept(p, id, amount))
      ensures !ok ==> players == old(players) && offers == old(offers) && world.nodes == old(world.nodes)
      ensures ok ==> offers == Accepted(old(offers), id, amount)
                     && PaidOut(old(players), players, p, old(offers[id].value), amount)
      ensures Money() == old(Money())
      ensures forall u: nat :: Goods(u) == old(Goods(u)) - if ok then old(Lost(cat, offers[id].value.itemId, amount, u)) else 0
      ensures forall q: nat, u: nat :: q < |lockers| ==>
                StockOf(q, u) == old(StockOf(q, u)) + if ok then old(HandedOver(cat, offers[id].value, p, amount, q, u)) else 0
    {
      ok := false;
      id := GetOfferByCounter(timestamp, counter);
      if amount == 0 || amount > 64000 || p >= |players| || !players[p].inMarket || id == 0 || amount > offers[id].value.amount {
        return;
      }
      if offers[id].value.side == Buy {
        ok := SellTo(p, id, amount);
      } else {
        ok := BuyFrom(p, id, amount);
      }
    }

    /** The query of `IOMarket::checkExpiredOffers`; its result is processed later. */
    method CheckExpiredOffers(now: int)
      requires Valid()
      modifies this`pending
      ensures Valid() && pending == old(pending) + [Selected(offers, now - config.duration, |offers|)]
      ensures Money() == old(Money()) && forall u: nat :: Goods(u) == old(Goods(u))
    {
      var rows := Selected(offers, now - config.duration, |offers|);
      forall i | 0 <= i < |rows| ensures RowOk(rows[i], offers, cat, |players|) {}
      pending := pending + [rows];
    }

    /**
      `IOMarket::processExpiredOffers`.  The owners are refunded what the query saw, so nothing is created
      or lost if and only if no amount changed between the query and now.
      */
    method ProcessExpiredOffers()
      requires Valid() && pending != []
      modifies this`players, this`offers, this`fees, this`pending, this`trace, world
      ensures Valid() && pending == old(pending[1..])
      ensures Closed(old(offers), offers, old(pending[0]), |old(pending[0])|)
      ensures Refunded(old(players), players, old(pending[0]), |old(pending[0])|, old(offers))
      ensures forall q: nat, u: nat :: q < |lockers| ==>
                StockOf(q, u) == old(StockOf(q, u)) + Returns(cat, old(pending[0]), |old(pending[0])|, old(offers), q, u)
      ensures Grown(old(Money()), Money(), old(BuysFresh(pending[0], |pending[0]|, offers)))
      ensures PickupableWares(cat) ==>
                forall u: nat :: Grown(old(Goods(u)), Goods(u), old(SellsFresh(pending[0], |pending[0]|, offers, cat, u)))
      ensures trace == old(trace) + [Expiry(old(pending[0]), old(offers))]
    {
      var rows := pending[0];
      PendingTail(pending, offers, cat, |players|);
      pending := pending[1..];
      trace := trace + [Expiry(rows, offers)];
      ExpireRows(rows);
    }

    method ExpireRows(rows: seq<Row>)
      requires Valid() && RowsOk(rows, offers, cat, |players|)
      modifies this`players, this`offers, this`fees, world
      ensures Valid() && Closed(old(offers), offers, rows, |rows|)
      ensures Refunded(old(players), players, rows, |rows|, old(offers))
      ensures forall q: nat, u: nat :: q < |lockers| ==>
                StockOf(q, u) == old(StockOf(q, u)) + Returns(cat, rows, |rows|, old(offers), q, u)
      ensures Grown(old(Money()), Money(), BuysFresh(rows, |rows|, old(offers)))
      ensures PickupableWares(cat) ==> forall u: nat :: Grown(old(Goods(u)), Goods(u), SellsFresh(rows, |rows|, old(offers), cat, u))
    {
      ghost var offers0, money := offers, Money();
      for i := 0 to |rows|
        invariant Valid() && Refunded(old(players), players, rows, i, offers0)
        invariant forall q: nat, u: nat :: q < |lockers| ==>
                    StockOf(q, u) == old(StockOf(q, u)) + Returns(cat, rows, i, offers0, q, u)
        invariant RowsOk(rows, offers, cat, |players|) && Closed(offers0, offers, rows, i)
        invariant Grown(money, Money(), BuysFresh(rows, i, offers0))
        invariant PickupableWares(cat) ==> forall u: nat :: Grown(old(Goods(u)), Goods(u), SellsFresh(rows, i, offers0, cat, u))
      {
        NextRow(offers0, offers, rows, i, cat, |players|);
        ghost var players1, offers1 := players, offers;
        ExpireRow(rows[i]);
        RefundedNext(old(players), players1, players, rows, i, offers0, offers1);
      }
    }

    /** One row of the result: what is created, if the amount changed since the query. */
    method ExpireRow(row: Row)
      requires Valid() && RowOk(row, offers, cat, |players|)
      modifies this`players, this`offers, this`fees, world
      ensures Valid() && offers == old(offers)[row.id := None] && |players| == old(|players|)
      ensures forall q :: 0 <= q < |players| ==> RefundedTo(old(players[q]), players[q], old(RefundOf(row, offers, q)))
      ensures forall q: nat, u: nat :: q < |lockers| ==> StockOf(q, u) == old(StockOf(q, u)) + old(ReturnOf(cat, row, offers, q, u))
      ensures Grown(old(Money()), Money(), row.offer.side == Buy ==> old(RowFresh(row, offers)))
      ensures PickupableWares(cat) ==>
                forall u: nat ::
                  Grown(old(Goods(u)), Goods(u),
                        row.offer.side == Sell && TypeWare(cat, row.offer.itemId) == u ==> old(RowFresh(row, offers)))
    {
      if offers[row.id].Some? { RowExcess(row, offers, cat, |players|); }
      ExpireOne(row);
    }

    /** One row of the result: the offer goes, and its owner gets what the row says. */
    method ExpireOne(row: Row)
      requires Valid() && RowOk(row, offers, cat, |players|)
      modifies this`players, this`offers, this`fees, world
      ensures Valid() && offers == old(offers)[row.id := None]
      ensures Money() == old(Money()) + if old(offers[row.id].Some? && row.offer.side == Buy)
                                        then row.offer.price * row.offer.amount - row.offer.price * old(offers[row.id].value.amount)
                                        else 0
      ensures forall u: nat :: Goods(u) == old(Goods(u))
                          + if old(offers[row.id].Some? && row.offer.side == Sell)
                            then On(TypeWare(cat, row.offer.itemId) == u, row.offer.amount - old(offers[row.id].value.amount))
                                 - Lost(cat, row.offer.itemId, row.offer.amount, u)
                            else 0
      ensures players == if old(offers[row.id].Some?) && row.offer.side == Buy
                         then Credit(old(players), row.offer.owner, row.offer.price * row.offer.amount) else old(players)
      ensures forall q: nat, u: nat :: q < |lockers| ==> StockOf(q, u) == old(StockOf(q, u)) + old(ReturnOf(cat, row, offers, q, u))
    {
      if offers[row.id] == None {
        assert offers[row.id := None] == offers;
        return;
      }
      var o := offers[row.id].value;
      ShrinkOffer(row.id, o.amount);
      if row.offer.side == Sell {
        DeliverTo(row.offer.owner, row.offer.itemId, row.offer.amount);
      } else {
        Transfer(row.offer.owner, row.offer.price * row.offer.amount, 0);
      }
    }

    // ----- runs ------------------------------------------------------------------------------------

    /**
      Over every run, money stays the same exactly when every result that was processed saw the amounts that
      expired offers to buy still had; and so do the pieces of every ware, provided that inboxes take them.
      */
    method Run(steps: seq<Step>)
      requires Valid()
      modifies this, world
      ensures Valid() && old(trace) <= trace
      ensures |trace| + |pending| == |old(trace)| + |old(pending)| + Queries(steps)
      ensures Grown(old(Money()), Money(), AllBuysFresh(trace, |old(trace)|))
      ensures PickupableWares(cat) ==>
                forall u: nat :: Grown(old(Goods(u)), Goods(u), AllSellsFresh(trace, |old(trace)|, cat, u))
    {
      ghost var before := trace;
      assert steps[..0] == [];
      for i := 0 to |steps|
        invariant Valid() && before <= trace && |trace| + |pending| == |before| + |old(pending)| + Queries(steps[..i])
        invariant Grown(old(Money()), Money(), AllBuysFresh(trace, |before|))
        invariant PickupableWares(cat) ==>
                    forall u: nat :: Grown(old(Goods(u)), Goods(u), AllSellsFresh(trace, |before|, cat, u))
      {
        QueriesNext(steps, i);
        ghost var t := trace;
        Do(steps[i]);
        TraceNext(t, trace, |before|, cat);
      }
      assert steps[..|steps|] == steps;
    }

    /** If every query is processed before anything else happens, money and all goods stay the same. */
    method RunPromptly(steps: seq<Step>)
      requires Valid() && pending == [] && Prompt(steps)
      modifies this, world
      ensures Valid() && pending == [] && Money() == old(Money())
      ensures PickupableWares(cat) ==> forall u: nat :: Goods(u) == old(Goods(u))
    {
      for i := 0 to |steps|
        invariant Valid() && AtOnce(pending, offers, i > 0 && steps[i - 1].CheckExpired?) && Money() == old(Money())
        invariant PickupableWares(cat) ==> forall u: nat :: Goods(u) == old(Goods(u))
      {
        DoPromptly(steps[i], i > 0 && steps[i - 1].CheckExpired?);
      }
    }

    method DoPromptly(step: Step, waits: bool)
      requires Valid() && AtOnce(pending, offers, waits) && (waits ==> step == ProcessExpired)
      modifies this, world
      ensures Valid() && AtOnce(pending, offers, step.CheckExpired?) && Money() == old(Money())
      ensures PickupableWares(cat) ==> forall u: nat :: Goods(u) == old(Goods(u))
    {
      if waits {
        RowsFreshMeans(pending[0], offers, cat);
      }
      Do(step);
    }

    /** One step, and what it may create. */
    method Do(step: Step)
      requires Valid()
      modifies this, world
      ensures Valid()
      ensures trace == if Processes(step, old(pending)) then old(trace) + [Expiry(old(pending[0]), old(offers))] else old(trace)
      ensures Grown(old(Money()), Money(), Processes(step, old(pending)) ==> old(BuysFresh(pending[0], |pending[0]|, offers)))
      ensures PickupableWares(cat) ==>
                forall u: nat ::
                  Grown(old(Goods(u)), Goods(u),
                        Processes(step, old(pending)) ==> old(SellsFresh(pending[0], |pending[0]|, offers, cat, u)))
      ensures step.CheckExpired? ==>
                offers == old(offers) && pending == old(pending) + [Selected(offers, step.now - config.duration, |offers|)]
      ensures !step.CheckExpired? ==> pending == if Processes(step, old(pending)) then old(pending[1..]) else old(pending)
    {
      if Processes(step, pending) {
        ProcessExpiredOffers();
      } else if step.CheckExpired? {
        CheckExpiredOffers(step.now);
      } else if step != ProcessExpired {
        Deal(step);
      }
    }

    /** The steps that players take. */
    method Deal(step: Step)
      requires Valid() && step != ProcessExpired && !step.CheckExpired?
      modifies this`players, this`offers, this`fees, world
      ensures Valid() && Money() == old(Money())
      ensures PickupableWares(cat) ==> forall u: nat :: Goods(u) == old(Goods(u))
    {
      match step
      case Create(p, side, sprite, amount, price, raw, now) =>
        var ok := CreateOffer(p, side, sprite, amount, price, raw, now);
      case Cancel(p, timestamp, counter) =>
        var ok, id := CancelOffer(p, timestamp, counter);
      case Accept(p, timestamp, counter, amount) =>
        var ok, id := AcceptOffer(p, timestamp, counter, amount);
    }

    /**
      A run that creates money: an offer to buy two pieces expires, one piece is sold to it after the query
      and before its result is processed, and the owner is refunded for two.
      */
    method LateSaleCreatesMoney(buyer: nat, seller: nat, sprite: nat, price: nat, raw: nat, now: int)
      requires Valid() && pending == [] && CanCreate(buyer, Buy, sprite, 2, price, raw)
      requires forall id :: 0 <= id < |offers| && offers[id].Some? ==> offers[id].value.created != now
      requires seller < |players| && players[seller].inMarket && lockers[seller].depot.Some?
      requires CanSupply(world.nodes, world.rank, cat, SoldAs(cat, sprite).value.wareId, lockers[seller], 1)
      modifies this, world
      ensures Valid() && Money() > old(Money())
    {
      var id := |offers|;
      var ok := CreateOffer(buyer, Buy, sprite, 2, price, raw, now);
      LateSale(id, seller, now);
    }

    method LateSale(id: nat, seller: nat, now: int)
      requires Valid() && pending == [] && id < |offers| && offers[id].Some? && seller < |players|
      requires offers[id].value.side == Buy && offers[id].value.amount == 2
      requires OnlyFrom(offers, now, id)
      requires CanAccept(seller, id, 1)
      modifies this, world
      ensures Valid() && Money() > old(Money())
    {
      CheckExpiredOffers(now + config.duration);
      ghost var rows := pending[0];
      ghost var i := IndexOfRow(rows, Row(id, offers[id].value));
      SellOne(id, seller, now);
      StaleRow(rows, i, offers);
      ProcessExpiredOffers();
    }

    method SellOne(id: nat, seller: nat, now: int)
      requires Valid() && id < |offers| && offers[id].Some? && OnlyFrom(offers, now, id) && CanAccept(seller, id, 1)
      modifies this`players, this`offers, this`fees, world
      ensures Valid() && offers == Accepted(old(offers), id, 1) && Money() == old(Money())
    {
      assert Fits(offers, now, id % 65536, id);
      var sold, found := AcceptOffer(seller, now + config.duration, id % 65536, 1);
    }
  }

  // ----- an instance -----------------------------------------------------------------------------------

  const PIECE := Kind(1, 0, true, true, true, false, 10)
  const SMALL_CATALOGUE := Catalogue(map[1 := ItemType(PIECE, 5, false, 0)], map[5 := 1], {})

  /** A seller's depot chest with one piece in it, the seller's inbox and the buyer's inbox. */
  function SmallStore(): Store {
    [Node(Kind(2, 0, false, true, true, false, 0), 1, Nowhere, Box(Depot(100), 30, true, [3])),
     Node(Kind(3, 0, false, true, true, false, 0), 1, Nowhere, Box(Mailbox, 30, false, [])),
     Node(Kind(3, 0, false, true, true, false, 0), 1, Nowhere, Box(Mailbox, 30, false, [])),
     Node(PIECE, 1, Inside(0), NoBox)]
  }

  lemma SmallForest()
    ensures Forest(SmallStore(), [1, 0, 0, 0]) && Stacks(SmallStore())
    ensures Consistent(SmallStore(), OwnWeight, [10, 0, 0, 0])
  {
    var s, r := SmallStore(), [1, 0, 0, 0];
    SmallLinks();
    assert RankOk(s, r, 0) && RankOk(s, r, 1) && RankOk(s, r, 2) && RankOk(s, r, 3);
    assert StackOk(s[0]) && StackOk(s[1]) && StackOk(s[2]) && StackOk(s[3]);
    SmallWeights();
  }

  lemma SmallLinks()
    ensures Linked(SmallStore())
  {
    var s := SmallStore();
    assert Items(s, 0) == [3] && Items(s, 1) == [] && Items(s, 2) == [] && Items(s, 3) == [];
    assert NodeOk(s, 0) && NodeOk(s, 1) && NodeOk(s, 2) && NodeOk(s, 3);
  }

  lemma SmallWeights()
    ensures Consistent(SmallStore(), OwnWeight, [10, 0, 0, 0])
  {
    var s := SmallStore();
    assert Items(s, 0) == [3] && Items(s, 1) == [] && Items(s, 2) == [] && [3][1..] == [];
    assert Sum(s, OwnWeight, [10, 0, 0, 0], [3]) == 10 + Sum(s, OwnWeight, [10, 0, 0, 0], []);
    assert SumsUp(s, OwnWeight, [10, 0, 0, 0], 0, 0);
    assert SumsUp(s, OwnWeight, [10, 0, 0, 0], 1, 0);
    assert SumsUp(s, OwnWeight, [10, 0, 0, 0], 2, 0);
  }

  lemma SmallSupply()
    ensures Forest(SmallStore(), [1, 0, 0, 0])
    ensures CanSupply(SmallStore(), [1, 0, 0, 0], SMALL_CATALOGUE, 5, Lockers(Some(0), 1), 1)
  {
    SmallForest();
    var s, r := SmallStore(), [1, 0, 0, 0];
    assert NodeOk(s, 3) && RankOk(s, r, 3);
    assert Chain(s, r, 0) == {0};
    assert Chain(s, r, 3) == {3} + Chain(s, r, 0);
    assert ListedAt(s, r, SMALL_CATALOGUE, 5, Lockers(Some(0), 1), 3);
    assert [3][1..] == [];
    assert PiecesOf(s, [3]) == 1 + PiecesOf(s, []);
    assert Listed(s, r, SMALL_CATALOGUE, 5, Lockers(Some(0), 1), [3]);
  }

  /** The run of `LateSaleCreatesMoney` from a market that has just opened: 10000 gold become more. */
  method MoneyFromNothing() returns (e: Exchange)
    ensures fresh(e) && e.Valid() && e.Money() > 10000
  {
    SmallForest();
    SmallSupply();
    var world := new World.Of(SmallStore(), [10, 0, 0, 0], [1, 0, 0, 0]);
    var lockers := [Lockers(None, 2), Lockers(Some(0), 1)];
    var players := [Account(10000, true, false), Account(0, true, false)];
    SmallSums(players);
    SmallMarket(lockers);
    e := new Exchange(world, SMALL_CATALOGUE, Config(false, 0, 10), lockers, players);
    e.LateSaleCreatesMoney(0, 1, 5, 100, 2, 0);
  }

  lemma SmallSums(players: seq<Account>)
    requires players == [Account(10000, true, false), Account(0, true, false)]
    ensures SumBy(players, BalanceOf) == 10000
  {
    assert players[1..] == [Account(0, true, false)] && players[1..][1..] == [];
    assert SumBy(players[1..], BalanceOf) == 0 + SumBy(players[1..][1..], BalanceOf);
  }

  lemma SmallMarket(lockers: seq<Lockers>)
    requires lockers == [Lockers(None, 2), Lockers(Some(0), 1)]
    ensures CatalogueOk(SMALL_CATALOGUE) && Typed(SmallStore(), SMALL_CATALOGUE) && LockersOk(SmallStore(), lockers)
    ensures SoldAs(SMALL_CATALOGUE, 5) == Some(ItemType(PIECE, 5, false, 0))
  {}

  /** No other open offer is from the same moment. */
  ghost predicate OnlyFrom(offers: seq<Option<Offer>>, now: int, id: nat) {
    forall j :: 0 <= j < |offers| && offers[j].Some? ==> (offers[j].value.created == now <==> j == id)
  }

  ghost function IndexOfRow(rows: seq<Row>, row: Row): (i: nat)
    requires row in rows
    ensures i < |rows| && rows[i] == row
  {
    var i :| 0 <= i < |rows| && rows[i] == row; i
  }

  lemma StaleRow(rows: seq<Row>, i: nat, offers: seq<Option<Offer>>)
    requires i < |rows| && rows[i].offer.side == Buy && rows[i].id < |offers| && offers[rows[i].id].Some?
    requires offers[rows[i].id].value.amount != rows[i].offer.amount
    ensures !BuysFresh(rows, |rows|, offers)
  {
    assert !RowFresh(rows[i], offers);
  }

  datatype Step =
    | Create(p: nat, side: Side, sprite: nat, amount: nat, price: nat, raw: nat, now: int)
    | Cancel(p: nat, timestamp: int, counter: nat)
    | Accept(p: nat, timestamp: int, counter: nat, amount: nat)
    | CheckExpired(now: int)
    | ProcessExpired

  /** Every query is processed before anything else happens. */
  ghost predicate Prompt(steps: seq<Step>) {
    forall i :: 0 <= i < |steps| && steps[i].CheckExpired? ==> i + 1 < |steps| && steps[i + 1] == ProcessExpired
  }

  /** At most one result waits, and it says what the table says. */
  ghost predicate AtOnce(pending: seq<seq<Row>>, offers: seq<Option<Offer>>, waits: bool) {
    if waits then |pending| == 1 && RowsFresh(pending[0], offers) else pending == []
  }

  ghost predicate RowsFresh(rows: seq<Row>, offers: seq<Option<Offer>>) {
    forall i :: 0 <= i < |rows| ==> RowFresh(rows[i], offers)
  }

  /** From position `k` of the trace on. */
  ghost predicate AllBuysFresh(trace: seq<Expiry>, k: nat) {
    forall j :: k <= j < |trace| ==> BuysFresh(trace[j].rows, |trace[j].rows|, trace[j].offers)
  }

  ghost predicate AllSellsFresh(trace: seq<Expiry>, k: nat, cat: Catalogue, u: nat) {
    forall j :: k <= j < |trace| ==> SellsFresh(trace[j].rows, |trace[j].rows|, trace[j].offers, cat, u)
  }

  lemma RowsFreshMeans(rows: seq<Row>, offers: seq<Option<Offer>>, cat: Catalogue)
    requires RowsFresh(rows, offers)
    ensures BuysFresh(rows, |rows|, offers) && forall u: nat :: SellsFresh(rows, |rows|, offers, cat, u)
  {}

  /** Whether a step processes a result. */
  predicate Processes(step: Step, pending: seq<seq<Row>>) {
    step == ProcessExpired && pending != []
  }

  lemma TraceNext(t: seq<Expiry>, t': seq<Expiry>, k: nat, cat: Catalogue)
    requires k <= |t| && t <= t' && |t'| <= |t| + 1
    ensures AllBuysFresh(t', k) <==>
              AllBuysFresh(t, k) && (|t'| > |t| ==> BuysFresh(t'[|t|].rows, |t'[|t|].rows|, t'[|t|].offers))
    ensures forall u: nat ::
              AllSellsFresh(t', k, cat, u) <==>
                AllSellsFresh(t, k, cat, u) && (|t'| > |t| ==> SellsFresh(t'[|t|].rows, |t'[|t|].rows|, t'[|t|].offers, cat, u))
  {
    assert forall j :: k <= j < |t| ==> t'[j] == t[j];
  }

  function Queries(steps: seq<Step>): nat {
    if steps == [] then 0 else Queries(steps[..|steps| - 1]) + if steps[|steps| - 1].CheckExpired? then 1 else 0
  }

  lemma QueriesNext(steps: seq<Step>, i: nat)
    requires i < |steps|
    ensures Queries(steps[..i + 1]) == Queries(steps[..i]) + if steps[i].CheckExpired? then 1 else 0
  {
    assert steps[..i + 1][..i] == steps[..i];
  }

  /** No account holds more than all the money there is, so accounts fit 64 bits if the total does. */
  lemma BalanceWithinTotal(e: Exchange, p: nat)
    requires p < |e.players|
    ensures 0 <= e.players[p].balance <= e.Money()
  {
    SumByAtLeast(e.players, BalanceOf, p);
    forall i | 0 <= i < |e.offers| ensures EscrowOf(e.offers[i]) >= 0 {
      if e.offers[i].Some? { Excess(e.offers[i].value.price, e.offers[i].value.amount, 0); }
    }
    SumByAtLeast(e.offers, EscrowOf, |e.offers|);
  }

  lemma Excess(price: nat, a: nat, b: nat)
    requires b <= a
    ensures price * a - price * b == price * (a - b) && price * (a - b) >= 0
    ensures price >= 1 && price * (a - b) == 0 ==> a == b
  {
    assert price * (a - b) >= 0;
    if price >= 1 && a > b { assert price * (a - b) == (a - b) + (price - 1) * (a - b); }
  }
}
