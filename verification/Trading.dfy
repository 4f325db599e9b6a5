/**
  Trade between two players: request, counter-offer, acceptance by both, transfer, and cancellation at any time
  (src/game.cpp:2625-2810, 2893-2935).
  */
module Trading {
  import opened Common
  import opened ItemForest
  import opened ContainerWalk
  import opened Containers

  /** `tradestate_t`. */
  datatype State = Idle | Initiated | Accepted | Acknowledged | Transferring

  datatype Trader = Trader(state: State, item: Option<Id>, partner: Option<nat>)

  const IDLE := Trader(Idle, None, None)

  // ----- what every reachable state satisfies -----------------------------------------------------

  /** Who has a partner trades, one item between the two at least, and never both have accepted. */
  ghost predicate TraderOk(ts: seq<Trader>, a: nat)
    requires a < |ts|
  {
    && (ts[a].state == Idle <==> ts[a].partner == None)
    && (ts[a].state == Idle ==> ts[a].item == None)
    && (ts[a].state == Initiated ==> ts[a].item.Some?)
    && (ts[a].state == Acknowledged ==> ts[a].item == None)
    && (ts[a].partner.Some? ==>
          var b := ts[a].partner.value;
          && b < |ts| && b != a && ts[b].partner == Some(a)
          && (ts[a].item.Some? || ts[b].item.Some?)
          && !(ts[a].state == Accepted && ts[b].state == Accepted)
          && (ts[a].state == Transferring <==> ts[b].state == Transferring))
  }

  ghost predicate TradersOk(ts: seq<Trader>) {
    forall a :: 0 <= a < |ts| ==> TraderOk(ts, a)
  }

  /** Whether `x` is what trader `a` offers; during the transfer nothing is on offer any more. */
  ghost predicate Offers(t: Trader, x: Id) {
    t.item == Some(x) && t.state != Transferring
  }

  /** The register of traded items holds exactly the items on offer, each with the one who offers it. */
  ghost predicate Registered(ts: seq<Trader>, tradeItems: map<Id, nat>) {
    && (forall x :: x in tradeItems ==> tradeItems[x] < |ts| && Offers(ts[tradeItems[x]], x))
    && (forall a :: 0 <= a < |ts| && ts[a].item.Some? && Offers(ts[a], ts[a].item.value) ==>
          ts[a].item.value in tradeItems && tradeItems[ts[a].item.value] == a)
  }

  /** A transfer that began: what the two had on offer, and who of them had accepted without an offer of their own. */
  datatype Exchange = Exchange(item: Option<Id>, partnerItem: Option<Id>, offerless: bool, partnerOfferless: bool)

  /** Both items are there exactly if both traders had made an offer before they accepted. */
  ghost predicate ExchangeOk(e: Exchange) {
    && (e.item.Some? <==> !e.offerless) && (e.partnerItem.Some? <==> !e.partnerOfferless)
    && !(e.offerless && e.partnerOfferless)
  }

  /** Those who have accepted without an offer are the ones who have accepted and have no item. */
  ghost predicate OfferlessOk(ts: seq<Trader>, offerless: set<nat>) {
    forall a :: 0 <= a < |ts| ==> OfferlessAt(ts, offerless, a)
  }

  ghost predicate OfferlessAt(ts: seq<Trader>, offerless: set<nat>, a: nat)
    requires a < |ts|
  {
    ts[a].state == Accepted ==> (a in offerless <==> ts[a].item == None)
  }

  /**
    What `playerAcceptTrade` reads of the items before it exchanges them: the slot of one item, if the other is what
    its owner wears as a backpack, be that nothing.
    */
  ghost predicate ReadsMissing(item: Option<Id>, partnerItem: Option<Id>, backpack: Option<Id>, partnerBackpack: Option<Id>) {
    (partnerBackpack == partnerItem && item == None) || (backpack == item && partnerItem == None)
  }

  /** A missing item is read exactly when one trader offers nothing and the other one offers his backpack. */
  lemma MissingReadIff(e: Exchange, backpack: Option<Id>, partnerBackpack: Option<Id>)
    requires ExchangeOk(e)
    ensures ReadsMissing(e.item, e.partnerItem, backpack, partnerBackpack)
            <==> (e.offerless && partnerBackpack == e.partnerItem) || (e.partnerOfferless && backpack == e.item)
  {}

  /** Traders that did not change, with partners that did not change, are still all right. */
  lemma OthersOk(ts: seq<Trader>, ts': seq<Trader>, a: nat, b: nat)
    requires TradersOk(ts) && |ts'| == |ts| && a < |ts| && b < |ts|
    requires forall c :: 0 <= c < |ts| && c != a && c != b ==> ts'[c] == ts[c]
    requires ts[a].partner == None || ts[a].partner == Some(b)
    requires ts[b].partner == None || ts[b].partner == Some(a)
    requires TraderOk(ts', a) && TraderOk(ts', b)
    ensures TradersOk(ts')
  {
    forall c | 0 <= c < |ts| ensures TraderOk(ts', c) {
      assert TraderOk(ts, c);
      if c != a && c != b && ts[c].partner.Some? {
        assert TraderOk(ts, ts[c].partner.value);
      }
    }
  }

  ghost function PartnerOf(ts: seq<Trader>, a: nat): nat
    requires a < |ts|
  {
    if ts[a].partner.Some? then ts[a].partner.value else a
  }

  ghost function Without(m: map<Id, nat>, x: Option<Id>): map<Id, nat> {
    if x.Some? then m - {x.value} else m
  }

  /** Both traders of a pair go idle and their items leave the register. */
  lemma EndPair(ts: seq<Trader>, tradeItems: map<Id, nat>, a: nat, b: nat)
    requires TradersOk(ts) && Registered(ts, tradeItems) && a < |ts| && b < |ts| && ts[a].partner == Some(b)
    requires ts[a].state != Transferring
    ensures TradersOk(ts[a := IDLE][b := IDLE]) && Undisturbed(ts, ts[a := IDLE][b := IDLE])
    ensures Registered(ts[a := IDLE][b := IDLE], Without(Without(tradeItems, ts[a].item), ts[b].item))
  {
    assert TraderOk(ts, a) && TraderOk(ts, b);
    OthersOk(ts, ts[a := IDLE][b := IDLE], a, b);
    StillRegistered(ts, ts[a := IDLE][b := IDLE], tradeItems, a, b);
  }

  /** If two partners stop offering anything, the register without their items is exact again. */
  lemma StillRegistered(ts: seq<Trader>, ts': seq<Trader>, tradeItems: map<Id, nat>, a: nat, b: nat)
    requires TradersOk(ts) && Registered(ts, tradeItems) && |ts'| == |ts| && a < |ts| && b < |ts| && ts[a].partner == Some(b)
    requires forall c :: 0 <= c < |ts| && c != a && c != b ==> ts'[c] == ts[c]
    requires forall x :: !Offers(ts'[a], x) && !Offers(ts'[b], x)
    requires ts[a].state != Transferring
    ensures Registered(ts', Without(Without(tradeItems, ts[a].item), ts[b].item))
  {
    assert TraderOk(ts, a) && TraderOk(ts, b);
    var m := Without(Without(tradeItems, ts[a].item), ts[b].item);
    forall c | 0 <= c < |ts'| && ts'[c].item.Some? && Offers(ts'[c], ts'[c].item.value)
      ensures ts'[c].item.value in m && m[ts'[c].item.value] == c
    {
      var x := ts'[c].item.value;
      assert !Offers(ts'[a], x) && !Offers(ts'[b], x);
      assert Offers(ts[c], x);
    }
  }

  /** Every reference taken is either still in the register or was given back, once. */
  ghost predicate FloorOk(ts: seq<Trader>, tradeItems: map<Id, nat>, started: multiset<Id>, released: multiset<Id>,
                          offerless: set<nat>, exchanges: seq<Exchange>) {
    && TradersOk(ts) && Registered(ts, tradeItems)
    && started == released + multiset(tradeItems.Keys)
    && OfferlessOk(ts, offerless) && LogOk(exchanges)
  }

  /** Both items of a pair leave the register and the transfer is noted. */
  lemma TransferKeeps(ts: seq<Trader>, tradeItems: map<Id, nat>, started: multiset<Id>, released: multiset<Id>,
                      offerless: set<nat>, exchanges: seq<Exchange>, a: nat, b: nat, ts': seq<Trader>,
                      tradeItems': map<Id, nat>, released': multiset<Id>, exchanges': seq<Exchange>)
    requires FloorOk(ts, tradeItems, started, released, offerless, exchanges)
    requires a < |ts| && b < |ts| && ts[a].partner == Some(b)
    requires ts[a].state in {Acknowledged, Initiated} && ts[b].state == Accepted
    requires a in offerless <==> ts[a].state == Acknowledged
    requires ts' == InTransfer(ts, a, b) && tradeItems' == Without(Without(tradeItems, ts[a].item), ts[b].item)
    requires exchanges' == exchanges + [ExchangeOf(ts, a, b, offerless)]
    requires started == released' + multiset(tradeItems'.Keys)
    ensures FloorOk(ts', tradeItems', started, released', offerless, exchanges') && Undisturbed(ts, ts')
    ensures ts'[a].item.Some? && ts'[b].item.Some? <==> a !in offerless && b !in offerless
  {
    TransferOk(ts, tradeItems, a, b);
    BothOffered(ts, offerless, a, b);
    LogMore(exchanges, ExchangeOf(ts, a, b, offerless));
  }

  lemma OnlyLastCounts(ts: seq<Trader>, a: nat, b: nat, p: Trader, q: Trader, p': Trader, q': Trader)
    requires a < |ts| && b < |ts| && a != b
    ensures ts[a := p][b := q][a := p'][b := q'] == ts[a := p'][b := q']
  {}

  class TradeFloor {
    var traders: seq<Trader>
    var tradeItems: map<Id, nat>
    ghost var started: multiset<Id>     // references taken when trades start
    ghost var released: multiset<Id>    // references given back
    ghost var offerless: set<nat>       // traders who last accepted without an offer of their own
    ghost var exchanges: seq<Exchange>  // transfers that have begun

    ghost predicate Valid()
      reads this
    {
      FloorOk(traders, tradeItems, started, released, offerless, exchanges)
    }

    constructor (players: nat)
      ensures Valid() && |traders| == players && started == multiset{} && exchanges == []
      ensures forall a :: 0 <= a < players ==> traders[a] == IDLE
    {
      traders, tradeItems := seq(players, _ => IDLE), map[];
      started, released := multiset{}, multiset{};
      offerless, exchanges := {}, [];
    }

    /** Takes an item out of the register and gives its reference back, if it is there. */
    method Release(x: Option<Id>)
      requires started == released + multiset(tradeItems.Keys)
      modifies this`tradeItems, this`released
      ensures tradeItems == Without(old(tradeItems), x) && (x == None ==> released == old(released))
      ensures started == released + multiset(tradeItems.Keys)
    {
      if x.Some? && x.value in tradeItems {
        KeysWithout(tradeItems, x.value);
        released := released + multiset{x.value};
        tradeItems := tradeItems - {x.value};
      }
    }

    method ReleaseBoth(x: Option<Id>, y: Option<Id>)
      requires started == released + multiset(tradeItems.Keys)
      modifies this`tradeItems, this`released
      ensures tradeItems == Without(Without(old(tradeItems), x), y) && started == released + multiset(tradeItems.Keys)
    {
      Release(x);
      Release(y);
    }

    /** Neither is the item on offer already, nor does it hold an item on offer or lie inside one. */
    ghost predicate Unrelated(s: Store, r: seq<nat>, x: Id)
      requires Forest(s, r) && x < |s|
      reads this
    {
      forall y :: y in tradeItems ==> Separate(s, r, x, y)
    }

    /** The loop over the register in `playerRequestTrade`. */
    method IsUnrelated(s: Store, ghost r: seq<nat>, x: Id) returns (ok: bool)
      requires Forest(s, r) && x < |s| && forall y :: y in tradeItems ==> y < |s|
      ensures ok <==> Unrelated(s, r, x)
    {
      var keys := tradeItems.Keys;
      while keys != {}
        invariant keys <= tradeItems.Keys
        invariant forall y :: y in tradeItems && y !in keys ==> Separate(s, r, x, y)
      {
        var y :| y in keys;
        if x == y {
          return false;
        }
        var holds := IsHoldingItem(s, r, x, y);
        if holds {
          return false;
        }
        holds := IsHoldingItem(s, r, y, x);
        if holds {
          return false;
        }
        keys := keys - {y};
      }
      ok := true;
    }

    /**
      `playerRequestTrade` and `internalStartTrade`.  `allowed` stands for the questions of distance, sight and
      ownership and for the script that is asked.
      */
    method RequestTrade(s: Store, ghost r: seq<nat>, a: nat, b: nat, x: Id, allowed: bool) returns (ok: bool)
      requires Valid() && Forest(s, r) && x < |s| && (forall y :: y in tradeItems ==> y < |s|)
      requires a < |traders| && b < |traders|
      modifies this
      ensures Valid()
      ensures ok <==>
                && allowed && a != b && old(Unrelated(s, r, x)) && DeepIn(s, r, One, x) + 1 <= 100
                && old(traders[a].state == Idle || (traders[a].state == Acknowledged && traders[a].partner == Some(b)))
                && old(traders[b].state == Idle || traders[b].partner == Some(a))
      ensures !ok ==> traders == old(traders) && tradeItems == old(tradeItems) && started == old(started)
      ensures released == old(released)
      ensures ok ==> traders == Opened(old(traders), a, b, x)
      ensures Undisturbed(old(traders), traders) && offerless == old(offerless) && exchanges == old(exchanges)
      ensures ok ==> x !in old(tradeItems) && tradeItems == old(tradeItems)[x := a] && started == old(started) + multiset{x}
    {
      ok := false;
      if a == b || !allowed {
        return;
      }
      var unrelated := IsUnrelated(s, r, x);
      if !unrelated {
        return;
      }
      var holding := GetItemHoldingCount(s, r, x);
      if holding + 1 > 100 {
        return;
      }
      ok := InternalStartTrade(a, b, x);
    }

    /** `internalStartTrade`: the partner is told, or already has an offer of their own. */
    method InternalStartTrade(a: nat, b: nat, x: Id) returns (ok: bool)
      requires Valid() && a < |traders| && b < |traders| && a != b && x !in tradeItems
      modifies this`traders, this`tradeItems, this`started
      ensures Valid() && Undisturbed(old(traders), traders)
      ensures ok <==>
                && old(traders[a].state == Idle || (traders[a].state == Acknowledged && traders[a].partner == Some(b)))
                && old(traders[b].state == Idle || traders[b].partner == Some(a))
      ensures !ok ==> traders == old(traders) && tradeItems == old(tradeItems) && started == old(started)
      ensures ok ==> traders == Opened(old(traders), a, b, x)
                     && tradeItems == old(tradeItems)[x := a] && started == old(started) + multiset{x}
    {
      ok := false;
      if traders[a].state != Idle && !(traders[a].state == Acknowledged && traders[a].partner == Some(b)) {
        return;
      }
      if traders[b].state != Idle && traders[b].partner != Some(a) {
        return;
      }
      ok := true;
      OpenedOk(traders, tradeItems, a, b, x);
      assert OfferlessAt(traders, offerless, b);
      OfferlessOthers(traders, Opened(traders, a, b, x), offerless, a, b);
      KeysWith(tradeItems, x, a);
      started := started + multiset{x};
      tradeItems := tradeItems[x := a];
      if traders[b].state == Idle {
        traders := traders[b := Trader(Acknowledged, None, Some(a))];
      }
      traders := traders[a := Trader(Initiated, Some(x), Some(b))];
    }

    /**
      `playerAcceptTrade` up to the transfer.  `reachable` is the question of sight, `agreed` the script's answer
      when both have accepted.
      */
    method AcceptTrade(a: nat, reachable: bool, agreed: bool) returns (transfers: bool)
      requires Valid() && a < |traders|
      modifies this
      ensures Valid() && started == old(started)
      ensures Undisturbed(old(traders), traders) && tradeItems.Keys <= old(tradeItems.Keys)
      ensures transfers <==> reachable && agreed && BothReady(old(traders), a)
      ensures offerless == if reachable && old(traders[a].state) in {Acknowledged, Initiated}
                           then WithOrWithout(old(offerless), a, old(traders[a].state) == Acknowledged) else old(offerless)
      ensures !transfers ==> exchanges == old(exchanges)
      ensures transfers ==>
                var b := PartnerOf(old(traders), a);
                b < old(|traders|) && exchanges == old(exchanges) + [ExchangeOf(old(traders), a, b, offerless)]
      ensures old(traders[a].state) !in {Acknowledged, Initiated} || !reachable ==>
                traders == old(traders) && tradeItems == old(tradeItems)
      ensures old(traders[a].state) in {Acknowledged, Initiated} && reachable && !BothReady(old(traders), a) ==>
                traders == old(traders)[a := old(traders[a]).(state := Accepted)] && tradeItems == old(tradeItems)
      ensures reachable && BothReady(old(traders), a) ==>
                var b := PartnerOf(old(traders), a);
                && b < old(|traders|)
                && tradeItems == Without(Without(old(tradeItems), old(traders[a].item)), old(traders[b].item))
                && traders == if agreed
                              then InTransfer(old(traders), a, b)
                              else old(traders)[a := IDLE][b := IDLE]
    {
      transfers := false;
      assert TraderOk(traders, a);
      if traders[a].state != Acknowledged && traders[a].state != Initiated {
        return;
      }
      var b := traders[a].partner.value;
      if !reachable {
        return;
      }
      NoteAccept(traders, offerless, a, b);
      offerless := WithOrWithout(offerless, a, traders[a].state == Acknowledged);
      if traders[b].state != Accepted {
        AcceptedOk(traders, tradeItems, a, b);
        traders := traders[a := traders[a].(state := Accepted)];
        return;
      }
      if !agreed {
        EndBoth(a, b);
        return;
      }
      BeginTransfer(a, b);
      transfers := true;
    }

    /**
      Both items leave the register before they change hands.  Both are there exactly if neither trader has accepted
      without an offer of their own.
      */
    method BeginTransfer(a: nat, b: nat)
      requires Valid() && a < |traders| && b < |traders| && traders[a].partner == Some(b)
      requires traders[a].state in {Acknowledged, Initiated} && traders[b].state == Accepted
      requires a in offerless <==> traders[a].state == Acknowledged
      modifies this`traders, this`tradeItems, this`released, this`exchanges
      ensures Valid() && Undisturbed(old(traders), traders)
      ensures traders == InTransfer(old(traders), a, b)
      ensures traders[a].item.Some? && traders[b].item.Some? <==> a !in offerless && b !in offerless
      ensures exchanges == old(exchanges) + [ExchangeOf(old(traders), a, b, offerless)]
      ensures tradeItems == Without(Without(old(tradeItems), old(traders[a].item)), old(traders[b].item))
    {
      ghost var ts, m, r0, log := traders, tradeItems, released, exchanges + [ExchangeOf(traders, a, b, offerless)];
      ghost var log0 := exchanges;
      var after := traders[a := traders[a].(state := Transferring)][b := traders[b].(state := Transferring)];
      ReleaseBoth(traders[a].item, traders[b].item);
      ghost var m1, r1 := tradeItems, released;
      TransferKeeps(ts, m, started, r0, offerless, log0, a, b, after, m1, r1, log);
      traders, exchanges := after, log;
    }

    /** The end of `playerAcceptTrade`: whether or not the items could be exchanged, the trade is over. */
    method FinishTrade(a: nat)
      requires Valid() && a < |traders|
      modifies this
      ensures Valid() && started == old(started) && tradeItems == old(tradeItems)
      ensures offerless == old(offerless) && exchanges == old(exchanges)
      ensures old(traders[a].state) != Transferring ==> traders == old(traders)
      ensures old(traders[a].state) == Transferring ==>
                var b := PartnerOf(old(traders), a);
                b < old(|traders|) && traders == old(traders)[a := IDLE][b := IDLE]
    {
      if traders[a].state == Transferring {
        assert TraderOk(traders, a);
        var b := traders[a].partner.value;
        FinishOk(traders, tradeItems, a, b);
        OfferlessOthers(traders, traders[a := IDLE][b := IDLE], offerless, a, b);
        traders := traders[a := IDLE][b := IDLE];
      }
    }

    /** `internalCloseTrade`: ends the trade for both, unless the transfer is under way. */
    method CloseTrade(a: nat)
      requires Valid() && a < |traders|
      modifies this`traders, this`tradeItems, this`released
      ensures Valid()
      ensures Undisturbed(old(traders), traders) && tradeItems.Keys <= old(tradeItems.Keys)
      ensures old(traders[a].state) in {Idle, Transferring} ==>
                traders == old(traders) && tradeItems == old(tradeItems) && released == old(released)
      ensures old(traders[a].state) !in {Idle, Transferring} ==>
                var b := PartnerOf(old(traders), a);
                && b < old(|traders|) && traders == old(traders)[a := IDLE][b := IDLE]
                && tradeItems == Without(Without(old(tradeItems), old(traders[a].item)), old(traders[b].item))
    {
      assert TraderOk(traders, a);
      var tradePartner := traders[a].partner;
      if (tradePartner.Some? && traders[tradePartner.value].state == Transferring) || traders[a].state == Transferring {
        return;
      }
      if tradePartner == None {
        assert traders[a := IDLE] == traders;
        Release(traders[a].item);
        traders := traders[a := IDLE];
      } else {
        EndBoth(a, tradePartner.value);
      }
    }

    // ----- runs ---------------------------------------------------------------------------------

    /**
      Over every run: the state stays as described above; a transfer that is under way is not disturbed by
      anything but its own end; when all are idle, every reference taken has been given back exactly once; and every
      transfer had both its items exactly if both traders had made an offer before they accepted.
      */
    method Run(steps: seq<Step>, n: nat)
      requires Valid() && forall x :: x in tradeItems ==> x < n
      requires forall i :: 0 <= i < |steps| ==> StepOk(steps[i], |traders|, n)
      modifies this
      ensures Valid() && |traders| == old(|traders|)
      ensures forall c :: 0 <= c < |traders| ==> Uninterrupted(old(traders), traders, c, steps)
      ensures (forall a :: 0 <= a < |traders| ==> traders[a].state == Idle) ==> tradeItems == map[] && started == released
      ensures old(exchanges) <= exchanges && forall i :: 0 <= i < |exchanges| ==> ExchangeOk(exchanges[i])
    {
      ghost var before := traders;
      for i := 0 to |steps|
        invariant Valid() && |traders| == old(|traders|) && forall x :: x in tradeItems ==> x < n
        invariant forall c :: 0 <= c < |traders| ==> Uninterrupted(before, traders, c, steps)
        invariant old(exchanges) <= exchanges
      {
        assert StepOk(steps[i], |traders|, n);
        ghost var between := traders;
        Do(steps[i], n);
        forall c | 0 <= c < |traders| ensures Uninterrupted(before, traders, c, steps) {
          assert Uninterrupted(before, between, c, steps) && Uninterrupted(between, traders, c, [steps[i]]);
        }
      }
      if forall a :: 0 <= a < |traders| ==> traders[a].state == Idle {
        AllIdle(traders, tradeItems);
      }
    }

    method Do(step: Step, n: nat)
      requires Valid() && (forall x :: x in tradeItems ==> x < n) && StepOk(step, |traders|, n)
      modifies this
      ensures Valid() && |traders| == old(|traders|) && forall x :: x in tradeItems ==> x < n
      ensures old(exchanges) <= exchanges
      ensures forall c :: 0 <= c < |traders| ==> Uninterrupted(old(traders), traders, c, [step])
    {
      match step
      case Request(s, r, a, b, x, allowed) =>
        var ok := RequestTrade(s, r, a, b, x, allowed);
      case Accept(a, reachable, agreed) =>
        var transfers := AcceptTrade(a, reachable, agreed);
      case Finish(a) =>
        assert TraderOk(traders, a);
        FinishTrade(a);
      case Close(a) =>
        CloseTrade(a);
    }

    /**
      A run to a transfer with one item only: `b` accepts the offer of `a` without a counter-offer, then `a` accepts.
      Any two idle traders can do so.
      */
    method OneSided(s: Store, ghost r: seq<nat>, a: nat, b: nat, x: Id)
      requires Valid() && Forest(s, r) && x < |s| && (forall y :: y in tradeItems ==> y < |s|)
      requires a < |traders| && b < |traders| && a != b && traders[a].state == Idle && traders[b].state == Idle
      requires Unrelated(s, r, x) && DeepIn(s, r, One, x) + 1 <= 100
      modifies this
      ensures Valid() && exchanges == old(exchanges) + [Exchange(Some(x), None, false, true)]
      ensures traders == old(traders)[a := Trader(Transferring, Some(x), Some(b))][b := Trader(Transferring, None, Some(a))]
    {
      ghost var ts := traders;
      Offer(s, r, a, b, x);
      BareAcceptance(a, b, x);
      OnlyLastCounts(ts, a, b, Trader(Initiated, Some(x), Some(b)), Trader(Acknowledged, None, Some(a)),
                     Trader(Transferring, Some(x), Some(b)), Trader(Transferring, None, Some(a)));
    }

    /** `b` accepts without an offer, and then `a` accepts. */
    method BareAcceptance(a: nat, b: nat, x: Id)
      requires Valid() && a < |traders| && b < |traders| && a != b
      requires traders[a] == Trader(Initiated, Some(x), Some(b)) && traders[b] == Trader(Acknowledged, None, Some(a))
      modifies this
      ensures Valid() && exchanges == old(exchanges) + [Exchange(Some(x), None, false, true)]
      ensures traders == old(traders)[a := Trader(Transferring, Some(x), Some(b))][b := Trader(Transferring, None, Some(a))]
    {
      AcceptBare(a, b, x);
      AcceptLast(a, b, x);
    }

    method AcceptBare(a: nat, b: nat, x: Id)
      requires Valid() && a < |traders| && b < |traders| && a != b
      requires traders[a] == Trader(Initiated, Some(x), Some(b)) && traders[b] == Trader(Acknowledged, None, Some(a))
      modifies this
      ensures Valid() && exchanges == old(exchanges) && b in offerless && started == old(started)
      ensures traders == old(traders)[b := Trader(Accepted, None, Some(a))]
    {
      var transfers := AcceptTrade(b, true, true);
    }

    method AcceptLast(a: nat, b: nat, x: Id)
      requires Valid() && a < |traders| && b < |traders| && a != b && b in offerless
      requires traders[a] == Trader(Initiated, Some(x), Some(b)) && traders[b] == Trader(Accepted, None, Some(a))
      modifies this
      ensures Valid() && exchanges == old(exchanges) + [Exchange(Some(x), None, false, true)]
      ensures traders == old(traders)[a := Trader(Transferring, Some(x), Some(b))][b := Trader(Transferring, None, Some(a))]
    {
      var transfers := AcceptTrade(a, true, true);
    }

    /**
      A run to a transfer with both items: `a` offers `x` to `b`, `b` answers with `y`, and both accept, in either
      order.  Any two idle traders can do so.
      */
    method TwoSided(s: Store, ghost r: seq<nat>, a: nat, b: nat, x: Id, y: Id, aLast: bool)
      requires Valid() && Forest(s, r) && x < |s| && y < |s| && (forall z :: z in tradeItems ==> z < |s|)
      requires a < |traders| && b < |traders| && a != b && traders[a].state == Idle && traders[b].state == Idle
      requires Unrelated(s, r, x) && Unrelated(s, r, y) && Separate(s, r, y, x)
      requires DeepIn(s, r, One, x) + 1 <= 100 && DeepIn(s, r, One, y) + 1 <= 100
      modifies this
      ensures Valid() && tradeItems == old(tradeItems)
      ensures exchanges == old(exchanges) + [if aLast then Exchange(Some(x), Some(y), false, false)
                                             else Exchange(Some(y), Some(x), false, false)]
      ensures traders == old(traders)[a := Trader(Transferring, Some(x), Some(b))][b := Trader(Transferring, Some(y), Some(a))]
    {
      ghost var ts := traders;
      OfferAndCounter(s, r, a, b, x, y);
      ghost var ts1 := traders;
      ghost var m, m1 := old(tradeItems), tradeItems;
      if aLast {
        AcceptBoth(b, a);
      } else {
        AcceptBoth(a, b);
      }
      BackAgain(ts, ts1, traders, m, m1, tradeItems, a, b, x, y);
    }

    /** The offer and the answer. */
    method OfferAndCounter(s: Store, ghost r: seq<nat>, a: nat, b: nat, x: Id, y: Id)
      requires Valid() && Forest(s, r) && x < |s| && y < |s| && (forall z :: z in tradeItems ==> z < |s|)
      requires a < |traders| && b < |traders| && a != b && traders[a].state == Idle && traders[b].state == Idle
      requires Unrelated(s, r, x) && Unrelated(s, r, y) && Separate(s, r, y, x)
      requires DeepIn(s, r, One, x) + 1 <= 100 && DeepIn(s, r, One, y) + 1 <= 100
      modifies this
      ensures Valid() && exchanges == old(exchanges) && x != y && x !in old(tradeItems) && y !in old(tradeItems)
      ensures tradeItems == old(tradeItems)[x := a][y := b]
      ensures traders == old(traders)[a := Trader(Initiated, Some(x), Some(b))][b := Trader(Initiated, Some(y), Some(a))]
    {
      Offer(s, r, a, b, x);
      assert Unrelated(s, r, y);
      Answer(s, r, b, a, x, y);
    }

    /** The first offer of two idle traders. */
    method Offer(s: Store, ghost r: seq<nat>, a: nat, b: nat, x: Id)
      requires Valid() && Forest(s, r) && x < |s| && (forall z :: z in tradeItems ==> z < |s|)
      requires a < |traders| && b < |traders| && a != b && traders[a].state == Idle && traders[b].state == Idle
      requires Unrelated(s, r, x) && DeepIn(s, r, One, x) + 1 <= 100
      modifies this
      ensures Valid() && exchanges == old(exchanges) && x !in old(tradeItems) && tradeItems == old(tradeItems)[x := a]
      ensures traders == old(traders)[a := Trader(Initiated, Some(x), Some(b))][b := Trader(Acknowledged, None, Some(a))]
    {
      var ok := RequestTrade(s, r, a, b, x, true);
    }

    /** The counter-offer. */
    method Answer(s: Store, ghost r: seq<nat>, b: nat, a: nat, ghost x: Id, y: Id)
      requires Valid() && Forest(s, r) && y < |s| && (forall z :: z in tradeItems ==> z < |s|)
      requires a < |traders| && b < |traders| && a != b && traders[b] == Trader(Acknowledged, None, Some(a))
      requires traders[a] == Trader(Initiated, Some(x), Some(b))
      requires Unrelated(s, r, y) && DeepIn(s, r, One, y) + 1 <= 100
      modifies this
      ensures Valid() && exchanges == old(exchanges) && y !in old(tradeItems) && tradeItems == old(tradeItems)[y := b]
      ensures traders == old(traders)[b := Trader(Initiated, Some(y), Some(a))]
    {
      var ok := RequestTrade(s, r, b, a, y, true);
    }

    /** Two who have both made an offer accept, first `b` and then `a`. */
    method AcceptBoth(b: nat, a: nat)
      requires Valid() && a < |traders| && b < |traders| && a != b
      requires traders[a].state == Initiated && traders[b].state == Initiated
      requires traders[a].partner == Some(b) && traders[b].partner == Some(a)
      modifies this
      ensures Valid() && exchanges == old(exchanges) + [Exchange(old(traders[a].item), old(traders[b].item), false, false)]
      ensures tradeItems == Without(Without(old(tradeItems), old(traders[a].item)), old(traders[b].item))
      ensures traders == old(traders)[a := old(traders[a]).(state := Transferring)][b := old(traders[b]).(state := Transferring)]
    {
      AcceptOne(b, a);
      AcceptOther(a, b);
    }

    /** The first of two who have both made an offer accepts. */
    method AcceptOne(a: nat, ghost b: nat)
      requires Valid() && a < |traders| && b < |traders| && traders[a].partner == Some(b)
      requires traders[a].state == Initiated && traders[b].state == Initiated
      modifies this
      ensures Valid() && exchanges == old(exchanges) && a !in offerless && tradeItems == old(tradeItems)
      ensures traders == old(traders)[a := old(traders[a]).(state := Accepted)]
    {
      var transfers := AcceptTrade(a, true, true);
    }

    /** And so does the second one. */
    method AcceptOther(a: nat, b: nat)
      requires Valid() && a < |traders| && b < |traders| && a != b && b !in offerless
      requires traders[a].state == Initiated && traders[a].partner == Some(b) && traders[b].state == Accepted
      modifies this
      ensures Valid() && exchanges == old(exchanges) + [Exchange(old(traders[a].item), old(traders[b].item), false, false)]
      ensures tradeItems == Without(Without(old(tradeItems), old(traders[a].item)), old(traders[b].item))
      ensures traders == old(traders)[a := old(traders[a]).(state := Transferring)][b := old(traders[b]).(state := Transferring)]
    {
      var transfers := AcceptTrade(a, true, true);
    }

    /** Who asks a player who trades with somebody else is refused, whatever is offered. */
    method ThirdRefused(s: Store, ghost r: seq<nat>, a: nat, b: nat, x: Id, allowed: bool)
      requires Valid() && Forest(s, r) && x < |s| && (forall y :: y in tradeItems ==> y < |s|)
      requires a < |traders| && b < |traders| && traders[b].partner.Some? && traders[b].partner != Some(a)
      modifies this
      ensures Valid() && traders == old(traders) && tradeItems == old(tradeItems) && exchanges == old(exchanges)
      ensures started == old(started) && released == old(released)
    {
      assert TraderOk(traders, b);
      var ok := RequestTrade(s, r, a, b, x, allowed);
    }

    method EndBoth(a: nat, b: nat)
      requires Valid() && a < |traders| && b < |traders| && traders[a].partner == Some(b) && traders[a].state != Transferring
      modifies this`traders, this`tradeItems, this`released
      ensures Valid() && traders == old(traders)[a := IDLE][b := IDLE]
      ensures Undisturbed(old(traders), traders) && tradeItems.Keys <= old(tradeItems.Keys)
      ensures tradeItems == Without(Without(old(tradeItems), old(traders[a].item)), old(traders[b].item))
    {
      var after := traders[a := IDLE][b := IDLE];
      EndPair(traders, tradeItems, a, b);
      OfferlessOthers(traders, after, offerless, a, b);
      ReleaseBoth(traders[a].item, traders[b].item);
      traders := after;
    }
  }

  /** Both items have entered the register and left it again, and only the two traders have changed. */
  lemma BackAgain(ts: seq<Trader>, ts1: seq<Trader>, ts2: seq<Trader>, m: map<Id, nat>, m1: map<Id, nat>, m2: map<Id, nat>,
                  a: nat, b: nat, x: Id, y: Id)
    requires a < |ts| == |ts1| && b < |ts| && a != b
    requires ts1 == ts[a := Trader(Initiated, Some(x), Some(b))][b := Trader(Initiated, Some(y), Some(a))]
    requires
      || ts2 == ts1[a := ts1[a].(state := Transferring)][b := ts1[b].(state := Transferring)]
      || ts2 == ts1[b := ts1[b].(state := Transferring)][a := ts1[a].(state := Transferring)]
    requires x !in m && y !in m && m1 == m[x := a][y := b]
    requires m2 == Without(Without(m1, Some(x)), Some(y)) || m2 == Without(Without(m1, Some(y)), Some(x))
    ensures ts2 == ts[a := Trader(Transferring, Some(x), Some(b))][b := Trader(Transferring, Some(y), Some(a))]
    ensures m2 == m
  {}

  datatype Step =
    | Request(s: Store, r: seq<nat>, a: nat, b: nat, x: Id, allowed: bool)
    | Accept(a: nat, reachable: bool, agreed: bool)
    | Finish(a: nat)
    | Close(a: nat)

  /** The step concerns traders there are, and the items as they lie at the time. */
  ghost predicate StepOk(step: Step, traders: nat, n: nat) {
    && step.a < traders
    && (step.Request? ==> step.b < traders && Forest(step.s, step.r) && |step.s| == n && step.x < n)
  }

  lemma OffererNotIdle(ts: seq<Trader>, tradeItems: map<Id, nat>, x: Id)
    requires TradersOk(ts) && Registered(ts, tradeItems) && x in tradeItems
    ensures tradeItems[x] < |ts| && ts[tradeItems[x]].state != Idle
  {
    assert TraderOk(ts, tradeItems[x]);
  }

  lemma AllIdle(ts: seq<Trader>, tradeItems: map<Id, nat>)
    requires TradersOk(ts) && Registered(ts, tradeItems) && forall a :: 0 <= a < |ts| ==> ts[a].state == Idle
    ensures tradeItems == map[]
  {
    if x :| x in tradeItems {
      OffererNotIdle(ts, tradeItems, x);
      assert false;
    }
    assert tradeItems.Keys == {};
  }

  /** A trader whose transfer is under way has not changed, unless the steps end this transfer. */
  ghost predicate Uninterrupted(ts: seq<Trader>, ts': seq<Trader>, c: nat, steps: seq<Step>)
    requires c < |ts| == |ts'|
  {
    (ts[c].state == Transferring && Finish(c) !in steps && Finish(PartnerOf(ts, c)) !in steps) ==> ts'[c] == ts[c]
  }

  /** Traders whose transfer is under way do not change. */
  ghost predicate Undisturbed(ts: seq<Trader>, ts': seq<Trader>) {
    |ts'| == |ts| && forall c :: 0 <= c < |ts| && ts[c].state == Transferring ==> ts'[c] == ts[c]
  }

  /** No item is offered twice at the same time. */
  lemma OfferedOnce(ts: seq<Trader>, tradeItems: map<Id, nat>, a: nat, b: nat, x: Id)
    requires Registered(ts, tradeItems) && a < |ts| && b < |ts| && Offers(ts[a], x) && Offers(ts[b], x)
    ensures a == b
  {
    assert ts[a].item.value == x && ts[b].item.value == x;
  }

  ghost predicate Separate(s: Store, r: seq<nat>, x: Id, y: Id)
    requires Forest(s, r) && x < |s|
  {
    y < |s| && y != x && x !in Chain(s, r, y) && y !in Chain(s, r, x)
  }

  /** The partner of `a` has already accepted, and `a` may. */
  ghost predicate BothReady(ts: seq<Trader>, a: nat)
    requires a < |ts|
  {
    && ts[a].state in {Acknowledged, Initiated}
    && PartnerOf(ts, a) < |ts| && ts[PartnerOf(ts, a)].state == Accepted
  }

  ghost function WithOrWithout(xs: set<nat>, x: nat, with: bool): set<nat> {
    if with then xs + {x} else xs - {x}
  }

  ghost function ExchangeOf(ts: seq<Trader>, a: nat, b: nat, offerless: set<nat>): Exchange
    requires a < |ts| && b < |ts|
  {
    Exchange(ts[a].item, ts[b].item, a in offerless, b in offerless)
  }

  /** Noting how `a` accepts is right whatever becomes of the trade. */
  lemma NoteAccept(ts: seq<Trader>, offerless: set<nat>, a: nat, b: nat)
    requires TradersOk(ts) && OfferlessOk(ts, offerless) && a < |ts| && b < |ts| && ts[a].state in {Acknowledged, Initiated}
    ensures var noted := WithOrWithout(offerless, a, ts[a].state == Acknowledged);
            && OfferlessOk(ts, noted) && OfferlessOk(ts[a := ts[a].(state := Accepted)], noted)
            && OfferlessOk(ts[a := IDLE][b := IDLE], noted) && OfferlessOk(InTransfer(ts, a, b), noted)
  {
    assert TraderOk(ts, a);
    var noted := WithOrWithout(offerless, a, ts[a].state == Acknowledged);
    var accepted, idle, moving := ts[a := ts[a].(state := Accepted)], ts[a := IDLE][b := IDLE], InTransfer(ts, a, b);
    forall c | 0 <= c < |ts|
      ensures OfferlessAt(ts, noted, c) && OfferlessAt(accepted, noted, c) && OfferlessAt(idle, noted, c) && OfferlessAt(moving, noted, c)
    {
      assert OfferlessAt(ts, offerless, c);
    }
  }

  lemma OfferlessOthers(ts: seq<Trader>, ts': seq<Trader>, offerless: set<nat>, a: nat, b: nat)
    requires OfferlessOk(ts, offerless) && |ts'| == |ts| && a < |ts| && b < |ts|
    requires forall c :: 0 <= c < |ts| && c != a && c != b ==> ts'[c] == ts[c]
    requires OfferlessAt(ts', offerless, a) && OfferlessAt(ts', offerless, b)
    ensures OfferlessOk(ts', offerless)
  {
    forall c | 0 <= c < |ts| ensures OfferlessAt(ts', offerless, c) {
      assert OfferlessAt(ts, offerless, c);
    }
  }

  ghost predicate LogOk(log: seq<Exchange>) {
    forall i :: 0 <= i < |log| ==> ExchangeOk(log[i])
  }

  lemma LogMore(log: seq<Exchange>, e: Exchange)
    requires LogOk(log) && ExchangeOk(e)
    ensures LogOk(log + [e])
  {}

  lemma BothOffered(ts: seq<Trader>, offerless: set<nat>, a: nat, b: nat)
    requires TradersOk(ts) && OfferlessOk(ts, offerless) && a < |ts| && b < |ts| && ts[a].partner == Some(b)
    requires ts[a].state in {Acknowledged, Initiated} && ts[b].state == Accepted
    requires a in offerless <==> ts[a].state == Acknowledged
    ensures ExchangeOk(ExchangeOf(ts, a, b, offerless))
    ensures OfferlessOk(InTransfer(ts, a, b), offerless)
    ensures var ts' := InTransfer(ts, a, b);
            ts'[a].item.Some? && ts'[b].item.Some? <==> a !in offerless && b !in offerless
  {
    assert TraderOk(ts, a) && OfferlessAt(ts, offerless, b);
    OfferlessOthers(ts, InTransfer(ts, a, b), offerless, a, b);
  }

  /** The traders after `a` offers `x` to `b`. */
  ghost function Opened(ts: seq<Trader>, a: nat, b: nat, x: Id): seq<Trader>
    requires a < |ts| && b < |ts|
  {
    var ts1 := if ts[b].state == Idle then ts[b := Trader(Acknowledged, None, Some(a))] else ts;
    ts1[a := Trader(Initiated, Some(x), Some(b))]
  }

  lemma OpenedOk(ts: seq<Trader>, tradeItems: map<Id, nat>, a: nat, b: nat, x: Id)
    requires TradersOk(ts) && Registered(ts, tradeItems) && a < |ts| && b < |ts| && a != b && x !in tradeItems
    requires ts[a].state == Idle || (ts[a].state == Acknowledged && ts[a].partner == Some(b))
    requires ts[b].state == Idle || ts[b].partner == Some(a)
    ensures Undisturbed(ts, Opened(ts, a, b, x))
    ensures TradersOk(Opened(ts, a, b, x)) && Registered(Opened(ts, a, b, x), tradeItems[x := a])
  {
    assert TraderOk(ts, a) && TraderOk(ts, b);
    OthersOk(ts, Opened(ts, a, b, x), a, b);
  }

  ghost function InTransfer(ts: seq<Trader>, a: nat, b: nat): seq<Trader>
    requires a < |ts| && b < |ts|
  {
    ts[a := ts[a].(state := Transferring)][b := ts[b].(state := Transferring)]
  }

  lemma AcceptedOk(ts: seq<Trader>, tradeItems: map<Id, nat>, a: nat, b: nat)
    requires TradersOk(ts) && Registered(ts, tradeItems) && a < |ts| && b < |ts| && ts[a].partner == Some(b)
    requires ts[a].state != Transferring && ts[b].state != Accepted
    ensures var ts' := ts[a := ts[a].(state := Accepted)];
            TradersOk(ts') && Undisturbed(ts, ts') && Registered(ts', tradeItems)
  {
    assert TraderOk(ts, a) && TraderOk(ts, b);
    OthersOk(ts, ts[a := ts[a].(state := Accepted)], a, b);
  }

  lemma TransferOk(ts: seq<Trader>, tradeItems: map<Id, nat>, a: nat, b: nat)
    requires TradersOk(ts) && Registered(ts, tradeItems) && a < |ts| && b < |ts| && ts[a].partner == Some(b)
    requires ts[a].state != Transferring
    ensures var ts' := InTransfer(ts, a, b);
            TradersOk(ts') && Undisturbed(ts, ts') && Registered(ts', Without(Without(tradeItems, ts[a].item), ts[b].item))
  {
    assert TraderOk(ts, a) && TraderOk(ts, b);
    var ts' := InTransfer(ts, a, b);
    OthersOk(ts, ts', a, b);
    StillRegistered(ts, ts', tradeItems, a, b);
  }

  lemma FinishOk(ts: seq<Trader>, tradeItems: map<Id, nat>, a: nat, b: nat)
    requires TradersOk(ts) && Registered(ts, tradeItems) && a < |ts| && b < |ts| && ts[a].partner == Some(b)
    requires ts[a].state == Transferring
    ensures TradersOk(ts[a := IDLE][b := IDLE]) && Registered(ts[a := IDLE][b := IDLE], tradeItems)
  {
    assert TraderOk(ts, a) && TraderOk(ts, b);
    OthersOk(ts, ts[a := IDLE][b := IDLE], a, b);
  }

  lemma KeysWith(m: map<Id, nat>, x: Id, a: nat)
    requires x !in m
    ensures multiset(m[x := a].Keys) == multiset(m.Keys) + multiset{x}
  {
    assert m[x := a].Keys == m.Keys + {x};
  }

  lemma KeysWithout(m: map<Id, nat>, x: Id)
    requires x in m
    ensures multiset(m.Keys) == multiset((m - {x}).Keys) + multiset{x}
  {
    assert m.Keys == (m - {x}).Keys + {x};
  }
}
