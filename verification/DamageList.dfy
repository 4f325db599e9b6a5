/**
  Damage over time: the list of hits that adds up to a drawn amount (src/condition.cpp:1034-1110, 1324-1342).
  */
module DamageList {

  const EVENT_CREATURE_THINK_INTERVAL := 1000

  function Abs(a: int): (n: nat)
    ensures n == a || n == -a
  {
    if a < 0 then -a else a
  }

  function AbsReal(a: real): real { if a < 0.0 then -a else a }

  /** How far `sum` is from the target, relative to the target. */
  function Miss(sum: int, med: int): real
    requires med > 0
  {
    AbsReal(1.0 - sum as real / med as real)
  }

  /** The loop test `x1 < x2`, in exact arithmetic; with a target of 0 both sides are infinite. */
  predicate AnotherHitIsCloser(sum: int, i: int, med: nat) {
    med > 0 && Miss(sum + i, med) < Miss(sum, med)
  }

  /** Another hit of `i` comes closer exactly when more than half of it is still missing. */
  lemma CloserMeansHalfMissing(sum: int, i: int, med: nat)
    requires i > 0
    ensures AnotherHitIsCloser(sum, i, med) <==> med > 0 && 2 * (med - sum) > i
  {
    if med > 0 {
      MissesCompare(sum, sum + i, med);
    }
  }

  lemma MissesCompare(a: int, b: int, med: int)
    requires med > 0
    ensures Miss(b, med) < Miss(a, med) <==> Abs(med - b) < Abs(med - a)
  {
    MissIs(b, med);
    MissIs(a, med);
    QuotientsCompare(Abs(med - b), Abs(med - a), med);
  }

  /** The miss is what is missing, or too much, in proportion to the target. */
  lemma MissIs(sum: int, med: int)
    requires med > 0
    ensures Miss(sum, med) == Abs(med - sum) as real / med as real
  {
    var m, x, n := med as real, Miss(sum, med), Abs(med - sum);
    Quotient(sum, med);
    MissTimesTarget(sum as real / m, sum, med);
    Quotient(n, med);
    Cancel(x, n as real / m, m);
  }

  lemma Cancel(x: real, y: real, m: real)
    requires m > 0.0 && x * m == y * m
    ensures x == y
  {
    assert (x - y) * m == 0.0;
  }

  lemma QuotientsCompare(k: int, l: int, med: int)
    requires med > 0
    ensures k as real / med as real < l as real / med as real <==> k < l
  {
    Quotient(k, med);
    Quotient(l, med);
    ScaleLess(k as real / med as real, l as real / med as real, med as real, k, l);
  }

  lemma Quotient(sum: int, med: int)
    requires med > 0
    ensures (sum as real / med as real) * med as real == sum as real
  {}

  lemma MissTimesTarget(q: real, sum: int, med: int)
    requires med > 0 && q * med as real == sum as real
    ensures AbsReal(1.0 - q) * med as real == Abs(med - sum) as real
  {
    assert (1.0 - q) * med as real == (med - sum) as real;
    SameSign(1.0 - q, med as real);
  }

  lemma SameSign(x: real, m: real)
    requires m > 0.0
    ensures x < 0.0 <==> x * m < 0.0
  {
    if x >= 0.0 { assert x * m >= 0.0; }
  }

  lemma ScaleLess(a: real, b: real, m: real, x: int, y: int)
    requires m > 0.0 && a * m == x as real && b * m == y as real
    ensures a < b <==> x < y
  {
    if a < b { assert (b - a) * m > 0.0; }
    if b <= a { assert (a - b) * m >= 0.0; }
  }

  function Total(list: seq<int>): int {
    if list == [] then 0 else Total(list[..|list| - 1]) + list[|list| - 1]
  }

  lemma TotalNext(list: seq<int>, v: int)
    ensures Total(list + [v]) == Total(list) + v
  {
    assert (list + [v])[..|list|] == list;
  }

  /** 1 + 2 + ... + k. */
  function Triangle(k: nat): nat {
    if k == 0 then 0 else Triangle(k - 1) + k
  }

  lemma {:induction false} TriangleClosed(k: nat)
    ensures 2 * Triangle(k) == k * (k + 1)
  {
    if k > 0 {
      TriangleClosed(k - 1);
      assert k * (k + 1) == (k - 1) * k + 2 * k;
    }
  }

  lemma {:induction false} Triangles(i: nat, k: nat)
    requires i <= k
    ensures Triangle(i) <= Triangle(k)
  {
    if i < k { Triangles(i, k - 1); }
  }

  /** Hits do not get stronger, and every strength from `start` down to `low` occurs. */
  ghost predicate Tapers(list: seq<int>, start: int, low: int) {
    && (forall j :: 0 <= j < |list| ==> low <= list[j] <= start)
    && (forall j, k :: 0 <= j < k < |list| ==> list[j] >= list[k])
    && (forall v :: low <= v <= start ==> v in list)
  }

  lemma MulMono(s: nat, a: int, b: int)
    requires a <= b
    ensures s * a <= s * b
  {
    assert s * (b - a) >= 0;
  }

  /** Cancels a positive factor. */
  lemma Divide(s: nat, a: int, b: int)
    requires s >= 1 && s * a >= s * b
    ensures a >= b
  {
    if a < b {
      MulMono(s, a + 1, b);
      assert false;
    }
  }

  lemma DivLower(a: nat, b: nat, q: nat)
    requires b >= 1 && q == a / b
    ensures b * q <= a < b * q + b
  {
    assert a == b * (a / b) + a % b;
  }

  lemma DivNonNegative(n: nat, a: nat, s: nat)
    requires s >= 1
    ensures n * a / s >= 0
  {
    MulMono(n, 0, a);
  }

  lemma DivExact(s: nat, a: nat)
    requires s >= 1
    ensures s * a / s == a
  {
    var q := s * a / s;
    DivLower(s * a, s, q);
    Divide(s, a, q);
    if a > q {
      MulMono(s, q + 1, a);
      assert false;
    }
  }

  /** The target of a round leaves enough for the rounds after it. */
  lemma TargetLeavesRoom(amount: nat, start: nat, i: nat, med: nat)
    requires 1 <= i <= start && med == (start + 1 - i) * amount / start
    requires amount >= Triangle(start)
    ensures 2 * (amount - med) >= i * i - 1
  {
    var n := start + 1 - i;
    DivLower(n * amount, start, med);
    TriangleClosed(start);
    RoomScaled(amount, start, i, med);
    Divide(start, 2 * (amount - med), (i - 1) * (start + 1));
    MulMono(i - 1, i + 1, start + 1);
    assert (i - 1) * (i + 1) == i * i - 1;
  }

  lemma RoomScaled(amount: nat, start: nat, i: nat, med: nat)
    requires 1 <= i <= start && start * med <= (start + 1 - i) * amount
    requires 2 * amount >= start * (start + 1)
    ensures start * (2 * (amount - med)) >= start * ((i - 1) * (start + 1))
  {
    calc {
      start * (2 * (amount - med));
    ==
      2 * (start * amount - start * med);
    >=
      2 * (start * amount - (start + 1 - i) * amount);
    == { assert start * amount - (start + 1 - i) * amount == (i - 1) * amount; }
      (i - 1) * (2 * amount);
    >= { MulMono(i - 1, start * (start + 1), 2 * amount); }
      (i - 1) * (start * (start + 1));
    == { Assoc(i - 1, start, start + 1); }
      start * ((i - 1) * (start + 1));
    }
  }

  lemma Assoc(a: int, b: int, c: int)
    ensures a * (b * c) == b * (a * c)
  {}

  // ----- the list -------------------------------------------------------------------------------

  /** What the hits of strength `i` and more are to amount to: their share of the strengths, rounded down. */
  ghost function Target(amount: nat, start: nat, i: nat): int
    requires 1 <= i <= start
  {
    (start + 1 - i) * amount / start
  }

  /** The hits of strength `i` and more. */
  ghost function HitsFrom(list: seq<int>, i: int): int {
    if list == [] then 0
    else HitsFrom(list[..|list| - 1], i) + if list[|list| - 1] >= i then list[|list| - 1] else 0
  }

  /** They come as close to the target as another hit can bring them; only a first hit may go further beyond it. */
  ghost predicate OnTarget(list: seq<int>, amount: nat, start: nat, i: nat)
    requires 1 <= i <= start
  {
    && 2 * (Target(amount, start, i) - HitsFrom(list, i)) <= i
    && (2 * (HitsFrom(list, i) - Target(amount, start, i)) < i || multiset(list)[i] == 1)
  }

  /** All rounds of a strength above `low` are on target. */
  ghost predicate OnTargets(list: seq<int>, amount: nat, start: nat, low: nat) {
    forall i :: low < i <= start ==> OnTarget(list, amount, start, i)
  }

  ghost function Times(i: int, n: nat): (hits: seq<int>)
    ensures |hits| == n && forall j :: 0 <= j < n ==> hits[j] == i
  {
    seq(n, _ => i)
  }

  lemma HitsFromNext(list: seq<int>, v: int, i: int)
    ensures HitsFrom(list + [v], i) == HitsFrom(list, i) + if v >= i then v else 0
  {
    assert (list + [v])[..|list|] == list;
  }

  lemma {:induction false} HitsFromAll(list: seq<int>, i: int)
    requires forall j :: 0 <= j < |list| ==> list[j] >= i
    ensures HitsFrom(list, i) == Total(list)
  {
    if list != [] { HitsFromAll(list[..|list| - 1], i); }
  }

  lemma {:induction false} WeakerHits(list: seq<int>, v: int, n: nat, i: int)
    requires v < i
    ensures HitsFrom(list + Times(v, n), i) == HitsFrom(list, i)
    ensures multiset(list + Times(v, n))[i] == multiset(list)[i]
  {
    if n == 0 {
      assert list + Times(v, 0) == list;
    } else {
      WeakerHits(list, v, n - 1, i);
      HitsFromNext(list + Times(v, n - 1), v, i);
      assert list + Times(v, n) == list + Times(v, n - 1) + [v];
    }
  }

  lemma {:induction false} HowManyHits(list: seq<int>, i: int, n: nat)
    requires forall j :: 0 <= j < |list| ==> list[j] > i
    ensures multiset(list + Times(i, n))[i] == n
  {
    if n == 0 {
      assert list + Times(i, 0) == list;
      assert i !in multiset(list);
    } else {
      HowManyHits(list, i, n - 1);
      assert list + Times(i, n) == list + Times(i, n - 1) + [i];
    }
  }

  /** A round does not touch the rounds before it. */
  lemma RoundDone(list: seq<int>, n: nat, list': seq<int>, amount: nat, start: nat, i: nat)
    requires 1 <= i <= start && list' == list + Times(i, n) && Tapers(list, start, i + 1) && OnTargets(list, amount, start, i)
    requires var med := Target(amount, start, i);
             2 * (med - Total(list')) <= i && (2 * (Total(list') - med) < i || n == 1)
    ensures OnTargets(list', amount, start, i - 1)
  {
    HitsFromAll(list', i);
    HowManyHits(list, i, n);
    forall v | i - 1 < v <= start ensures OnTarget(list', amount, start, v) {
      if v > i {
        assert OnTarget(list, amount, start, v);
        WeakerHits(list, i, n, v);
      }
    }
  }

  /** The target of the round of strength `i`. */
  method RoundTarget(amount: nat, start: nat, i: nat) returns (med: nat)
    requires 1 <= i <= start
    ensures med == Target(amount, start, i)
  {
    var n := start + 1 - i;
    DivNonNegative(n, amount, start);
    med := n * amount / start;
  }

  /** The strengths down to `i + 1` are among the hits, and the amount, if it suffices for all, still does for the rest. */
  ghost predicate Budget(amount: nat, start: nat, i: nat, sum: int) {
    && sum + Triangle(i) >= Triangle(start)
    && (amount >= Triangle(start) ==> sum + Triangle(i) <= amount)
  }

  lemma BudgetFirst(amount: nat, start: nat, i: nat, sum: int)
    requires 1 <= i <= start && Budget(amount, start, i, sum)
    ensures Budget(amount, start, i - 1, sum + i) && sum >= 0
  {
    Triangles(i, start);
  }

  lemma BudgetKept(amount: nat, start: nat, i: nat, med: nat, sum: int)
    requires 1 <= i <= start && Budget(amount, start, i - 1, sum)
    requires med == Target(amount, start, i) && 2 * (med - sum) > i
    ensures Budget(amount, start, i - 1, sum + i)
  {
    TriangleBefore(i);
    if amount >= Triangle(start) {
      assert 2 * (amount - med) >= i * i - 1 by { TargetLeavesRoom(amount, start, i, med); }
    }
  }

  lemma TriangleBefore(i: nat)
    requires i >= 1
    ensures 2 * Triangle(i - 1) == i * i - i
  {
    TriangleClosed(i - 1);
  }

  /** The last target is the amount itself. */
  lemma AmountReached(list: seq<int>, amount: nat, start: nat)
    requires start >= 1 && Tapers(list, start, 1) && OnTargets(list, amount, start, 0)
    ensures Total(list) >= amount
  {
    assert OnTarget(list, amount, start, 1);
    DivExact(start, amount);
    HitsFromAll(list, 1);
  }

  lemma TapersNext(list: seq<int>, start: int, i: int, low: int)
    requires Tapers(list, start, low) && i <= start && (low == i || low == i + 1)
    ensures Tapers(list + [i], start, i)
  {
    var list' := list + [i];
    assert list'[|list|] == i;
    forall v | i <= v <= start ensures v in list' {
      if v != i { assert v in list; }
    }
  }

  /** One round of hits of strength `i`, at least one. */
  method HitsOf(i: nat, med: nat, sum0: int, list0: seq<int>, ghost amount: nat, ghost start: nat)
    returns (sum: int, list: seq<int>, ghost n: nat)
    requires 1 <= i <= start
    requires med == Target(amount, start, i) && Budget(amount, start, i, sum0)
    requires sum0 == Total(list0) && Tapers(list0, start, i + 1)
    ensures HitTimes(list0, i, n, list, sum, start) && Budget(amount, start, i - 1, sum)
    ensures 2 * (med - sum) <= i && (2 * (sum - med) < i || n == 1)
  {
    FirstHit(list0, start, i);
    BudgetFirst(amount, start, i, sum0);
    sum, list, n := sum0 + i, list0 + [i], 1;
    var another := CheckRatios(sum, i, med);
    while another
      invariant HitTimes(list0, i, n, list, sum, start) && Budget(amount, start, i - 1, sum)
      invariant sum > 0 && (2 * (sum - med) < i || n == 1)
      invariant another <==> med > 0 && 2 * (med - sum) > i
      decreases med - sum
    {
      NextHit(list0, i, n, list, sum, start);
      BudgetKept(amount, start, i, med, sum);
      sum, list, n := sum + i, list + [i], n + 1;
      another := CheckRatios(sum, i, med);
    }
  }

  /** The test `x1 < x2` of the loop. */
  method CheckRatios(sum: int, i: int, med: nat) returns (another: bool)
    requires i > 0
    ensures another <==> med > 0 && 2 * (med - sum) > i
  {
    CloserMeansHalfMissing(sum, i, med);
    another := AnotherHitIsCloser(sum, i, med);
  }

  /** So far the round has `n` hits. */
  ghost predicate HitTimes(list0: seq<int>, i: nat, n: nat, list: seq<int>, sum: int, start: nat) {
    n >= 1 && list == list0 + Times(i, n) && sum == Total(list) && Tapers(list, start, i)
  }

  lemma FirstHit(list0: seq<int>, start: nat, i: nat)
    requires i <= start && Tapers(list0, start, i + 1)
    ensures HitTimes(list0, i, 1, list0 + [i], Total(list0) + i, start)
  {
    TotalNext(list0, i);
    TapersNext(list0, start, i, i + 1);
    assert Times(i, 1) == [i];
  }

  lemma NextHit(list0: seq<int>, i: nat, n: nat, list: seq<int>, sum: int, start: nat)
    requires i <= start && HitTimes(list0, i, n, list, sum, start)
    ensures HitTimes(list0, i, n + 1, list + [i], sum + i, start)
  {
    TotalNext(list, i);
    TapersNext(list, start, i, i);
    assert Times(i, n + 1) == Times(i, n) + [i];
  }

  /**
    `ConditionDamage::generateDamageList`.  The hits taper off through every strength down to 1, never fall
    short of the amount, and hit it exactly when it is at least the sum of all strengths.  Those of each strength and
    more come as close to their share of the amount as hits of that strength can.
    */
  method GenerateDamageList(amount0: int, start: int) returns (list: seq<int>)
    ensures start <= 0 ==> list == []
    ensures start > 0 ==> IsDamageList(list, Abs(amount0), start)
  {
    list := [];
    if start <= 0 {
      return;
    }
    var amount := Abs(amount0);
    var sum, i := 0, start;
    NoRounds(amount, start);
    while i > 0
      invariant 0 <= i <= start && AfterRounds(list, sum, amount, start, i)
    {
      sum, list := Round(i, sum, list, amount, start);
      i := i - 1;
    }
    AllRounds(list, sum, amount, start);
  }

  /** One round: the target, and the hits. */
  method Round(i: nat, sum0: int, list0: seq<int>, amount: nat, start: nat) returns (sum: int, list: seq<int>)
    requires 1 <= i <= start && AfterRounds(list0, sum0, amount, start, i)
    ensures AfterRounds(list, sum, amount, start, i - 1)
  {
    var med := RoundTarget(amount, start, i);
    ghost var n;
    sum, list, n := HitsOf(i, med, sum0, list0, amount, start);
    NextRound(list0, list, sum, amount, start, i, n);
  }

  /** What `generateDamageList` promises of a list. */
  ghost predicate IsDamageList(list: seq<int>, amount: nat, start: int) {
    && start > 0 && Tapers(list, start, 1) && OnTargets(list, amount, start, 0)
    && Total(list) >= amount && (Total(list) == amount <==> amount >= Triangle(start))
  }

  ghost predicate AfterRounds(list: seq<int>, sum: int, amount: nat, start: nat, i: nat) {
    sum == Total(list) && Tapers(list, start, i + 1) && OnTargets(list, amount, start, i) && Budget(amount, start, i, sum)
  }

  lemma NoRounds(amount: nat, start: nat)
    ensures AfterRounds([], 0, amount, start, start)
  {}

  lemma NextRound(before: seq<int>, list: seq<int>, sum: int, amount: nat, start: nat, i: nat, n: nat)
    requires 1 <= i <= start && Tapers(before, start, i + 1) && OnTargets(before, amount, start, i)
    requires HitTimes(before, i, n, list, sum, start) && Budget(amount, start, i - 1, sum)
    requires var med := Target(amount, start, i); 2 * (med - sum) <= i && (2 * (sum - med) < i || n == 1)
    ensures AfterRounds(list, sum, amount, start, i - 1)
  {
    RoundDone(before, n, list, amount, start, i);
  }

  lemma AllRounds(list: seq<int>, sum: int, amount: nat, start: nat)
    requires start >= 1 && AfterRounds(list, sum, amount, start, 0)
    ensures IsDamageList(list, amount, start)
  {
    AmountReached(list, amount, start);
  }

  // ----- the condition ----------------------------------------------------------------------------

  datatype IntervalInfo = IntervalInfo(timeLeft: int, value: int, interval: int)

  function Intervals(hits: seq<IntervalInfo>): int {
    if hits == [] then 0 else Intervals(hits[..|hits| - 1]) + hits[|hits| - 1].interval
  }

  function Values(hits: seq<IntervalInfo>): (vs: seq<int>)
    ensures |vs| == |hits|
  {
    seq(|hits|, i requires 0 <= i < |hits| => hits[i].value)
  }

  function Negated(list: seq<int>): (vs: seq<int>)
    ensures |vs| == |list|
  {
    seq(|list|, i requires 0 <= i < |list| => -list[i])
  }

  lemma HitNext(hits: seq<IntervalInfo>, hit: IntervalInfo)
    ensures Intervals(hits + [hit]) == Intervals(hits) + hit.interval
    ensures Values(hits + [hit]) == Values(hits) + [hit.value]
  {
    assert (hits + [hit])[..|hits|] == hits;
  }

  function Repeat(hit: IntervalInfo, n: nat): seq<IntervalInfo> {
    seq(n, _ => hit)
  }

  class ConditionDamage {
    var ticks: int
    var damageList: seq<IntervalInfo>
    var periodDamage: int
    var tickInterval: int
    var maxDamage: int
    var startDamage: int

    constructor (tickInterval: int, maxDamage: int, startDamage: int)
      ensures ticks == 0 && damageList == [] && periodDamage == 0
      ensures this.tickInterval == tickInterval && this.maxDamage == maxDamage && this.startDamage == startDamage
    {
      this.tickInterval, this.maxDamage, this.startDamage := tickInterval, maxDamage, startDamage;
      ticks, damageList, periodDamage := 0, [], 0;
    }

    /** `addDamage`: `rounds` hits, each a whole think interval apart at least; -1 rounds mean periodic damage. */
    method AddDamage(rounds: int, time0: int, value: int) returns (ok: bool)
      requires ticks >= -1
      modifies this
      ensures maxDamage == old(maxDamage) && startDamage == old(startDamage)
      ensures rounds == -1 ==> ok && periodDamage == value && ticks == -1 && damageList == old(damageList)
      ensures rounds != -1 ==> periodDamage == old(periodDamage) && tickInterval == old(tickInterval)
                               && ok == (old(periodDamage) <= 0)
      ensures rounds != -1 && !ok ==> ticks == old(ticks) && damageList == old(damageList)
      ensures rounds != -1 && ok ==>
                var time := if time0 > EVENT_CREATURE_THINK_INTERVAL then time0 else EVENT_CREATURE_THINK_INTERVAL;
                && damageList == old(damageList) + Repeat(IntervalInfo(time, value, time), if rounds > 0 then rounds else 0)
                && (old(ticks) == -1 ==> ticks == -1)
                && (old(ticks) >= 0 ==> ticks - Intervals(damageList) == old(ticks - Intervals(damageList)) && ticks >= 0)
    {
      var time := if time0 > EVENT_CREATURE_THINK_INTERVAL then time0 else EVENT_CREATURE_THINK_INTERVAL;
      if rounds == -1 {
        periodDamage, tickInterval, ticks := value, time, -1;
        return true;
      }
      if periodDamage > 0 {
        return false;
      }
      var i := 0;
      ghost var hit := IntervalInfo(time, value, time);
      while i < rounds
        invariant 0 <= i && (i <= rounds || i == 0)
        invariant damageList == old(damageList) + Repeat(hit, i)
        invariant old(ticks) == -1 ==> ticks == -1
        invariant old(ticks) >= 0 ==> ticks - Intervals(damageList) == old(ticks - Intervals(damageList)) && ticks >= 0
        invariant periodDamage == old(periodDamage) && tickInterval == old(tickInterval)
        invariant maxDamage == old(maxDamage) && startDamage == old(startDamage)
      {
        HitNext(damageList, IntervalInfo(time, value, time));
        assert Repeat(hit, i + 1) == Repeat(hit, i) + [hit];
        damageList := damageList + [IntervalInfo(time, value, time)];
        if ticks != -1 {
          ticks := ticks + time;
        }
        i := i + 1;
      }
      ok := true;
    }

    /**
      `init`, for an amount drawn between the minimal and the maximal damage.  A fresh condition lasts exactly as
      long as its hits take, and the hits are those of the damage list.
      */
    method Init(amount: int) returns (ok: bool)
      modifies this
      ensures old(periodDamage != 0 || damageList != []) ==>
                ok && damageList == old(damageList) && ticks == old(ticks) && periodDamage == old(periodDamage)
      ensures old(periodDamage == 0 && damageList == []) ==>
                && ticks == Intervals(damageList) && periodDamage == 0
                && startDamage == (if amount == 0 then old(startDamage) else Strongest(old(startDamage), maxDamage, amount))
                && ok == (damageList != []) == (amount != 0 && startDamage > 0)
                && (ok ==> IsDamageList(Negated(Values(damageList)), Abs(amount), startDamage))
                && forall j :: 0 <= j < |damageList| ==> IsHit(damageList[j], tickInterval)
    {
      if periodDamage != 0 {
        return true;
      }
      if damageList != [] {
        return true;
      }
      ticks := 0;
      if amount != 0 {
        if startDamage > maxDamage {
          startDamage := maxDamage;
        } else if startDamage == 0 {
          var twentieth := Ceil20(amount);
          startDamage := if twentieth > 1 then twentieth else 1;
        }
        var list := GenerateDamageList(amount, startDamage);
        AddAll(list);
        assert Negated(Negated(list)) == list;
      }
      ok := damageList != [];
    }

    /** The loop of `init` over the generated list. */
    method AddAll(list: seq<int>)
      requires damageList == [] && ticks == 0 && periodDamage == 0
      modifies this
      ensures Values(damageList) == Negated(list) && ticks == Intervals(damageList)
      ensures forall j :: 0 <= j < |damageList| ==> IsHit(damageList[j], tickInterval)
      ensures tickInterval == old(tickInterval)
      ensures periodDamage == 0 && maxDamage == old(maxDamage) && startDamage == old(startDamage)
    {
      for i := 0 to |list|
        invariant Values(damageList) == Negated(list[..i]) && ticks == Intervals(damageList) && ticks >= 0
        invariant forall j :: 0 <= j < |damageList| ==> IsHit(damageList[j], tickInterval)
        invariant tickInterval == old(tickInterval)
        invariant periodDamage == 0 && maxDamage == old(maxDamage) && startDamage == old(startDamage)
      {
        ghost var before := damageList;
        var ok := AddDamage(1, tickInterval, -list[i]);
        assert damageList == before + [damageList[|before|]];
        HitNext(before, damageList[|before|]);
        assert Negated(list[..i + 1]) == Negated(list[..i]) + [-list[i]];
      }
      assert list[..|list|] == list;
    }
  }

  /** `std::ceil(amount / 20.0)`. */
  function Ceil20(amount: int): (n: int)
    ensures 20 * (n - 1) < amount <= 20 * n
  {
    -((-amount) / 20)
  }

  /** The strongest hit, if it is given: no stronger than the maximal damage; otherwise a twentieth of the amount. */
  ghost function Strongest(start: int, most: int, amount: int): int {
    if start > most then most else if start != 0 then start else if amount <= 20 then 1 else Ceil20(amount)
  }

  /** A hit that comes after the condition's interval, or after a think interval if that is longer. */
  ghost predicate IsHit(hit: IntervalInfo, interval: int) {
    hit.interval == hit.timeLeft == if interval > EVENT_CREATURE_THINK_INTERVAL then interval else EVENT_CREATURE_THINK_INTERVAL
  }
}
