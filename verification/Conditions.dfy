/**
  Conditions that change a creature's speed, skills and stats while they last
  (src/condition.cpp:371-565, 1411-1468; src/creature.cpp:1133-1328; src/game.cpp:3695-3701).
  */
module Conditions {
  import opened Sums

  const HASTE := 16
  const PARALYZE := 32
  const ATTRIBUTES := 524288

  /** What a condition stores of its effect; the modifiers are those of skills, special skills and stats in a row. */
  datatype Effect = Plain | Speed(delta: int) | Modifiers(mods: seq<int>, percents: seq<int>)

  datatype Condition = Condition(kind: nat, id: int, subId: nat, ticks: int, endTime: int, effect: Effect)

  /** The kind of a condition decides its class. */
  ghost predicate ConditionOk(c: Condition, n: nat) {
    && (c.effect.Speed? <==> c.kind == HASTE || c.kind == PARALYZE)
    && (c.effect.Modifiers? <==> c.kind == ATTRIBUTES)
    && (c.effect.Modifiers? ==> |c.effect.mods| == n && |c.effect.percents| == n)
  }

  ghost predicate SameKey(a: Condition, b: Condition) {
    a.kind == b.kind && a.id == b.id && a.subId == b.subId
  }

  ghost function SpeedOf(c: Condition): int {
    if c.effect.Speed? then c.effect.delta else 0
  }

  ghost function ModOf(i: nat): Condition -> int {
    (c: Condition) => if c.effect.Modifiers? && i < |c.effect.mods| then c.effect.mods[i] else 0
  }

  ghost predicate ConditionsOk(cs: seq<Condition>, n: nat) {
    && (forall i :: 0 <= i < |cs| ==> ConditionOk(cs[i], n))
    && (forall i, j :: 0 <= i < j < |cs| ==> !SameKey(cs[i], cs[j]))
  }

  /** For players, a percentage overrules the modifier that was set. */
  ghost function Scaled(mods: seq<int>, percents: seq<int>, scaled: seq<int>, player: bool): (r: seq<int>)
    requires |mods| == |percents| == |scaled|
    ensures |r| == |mods|
  {
    seq(|mods|, i requires 0 <= i < |mods| => if player && percents[i] != 0 then scaled[i] else mods[i])
  }

  /** `Condition::updateCondition`: whether a new condition may replace one with the same key. */
  ghost predicate Updatable(prev: Condition, c: Condition, now: int) {
    && !(prev.ticks == -1 && c.ticks > 0)
    && !(c.ticks >= 0 && prev.endTime > now + c.ticks)
  }

  /** The values that are not part of the condition itself: a drawn speed, and percentages of the player's base values. */
  datatype Draw = Draw(speed: int, scaled: seq<int>)

  /** What is stored when a condition takes effect. */
  ghost function Taken(e: Effect, d: Draw, player: bool): Effect
    requires e.Modifiers? ==> |e.mods| == |e.percents| == |d.scaled|
  {
    match e
    case Plain => Plain
    case Speed(delta) => Speed(if delta == 0 then d.speed else delta)
    case Modifiers(mods, percents) => Modifiers(Scaled(mods, percents, d.scaled, player), percents)
  }

  // ----- lists ---------------------------------------------------------------------------------------

  ghost function Without(cs: seq<Condition>, i: nat): seq<Condition>
    requires i < |cs|
  {
    cs[..i] + cs[i + 1..]
  }

  lemma WithoutOk(cs: seq<Condition>, i: nat, n: nat)
    requires i < |cs| && ConditionsOk(cs, n)
    ensures ConditionsOk(Without(cs, i), n)
  {
    var ds := Without(cs, i);
    assert forall k :: 0 <= k < |ds| ==> ds[k] == if k < i then cs[k] else cs[k + 1];
  }

  /** The conditions that a removal leaves. */
  ghost function Others(cs: seq<Condition>, hit: Condition -> bool): seq<Condition> {
    if cs == [] then []
    else if hit(cs[0]) then Others(cs[1..], hit)
    else [cs[0]] + Others(cs[1..], hit)
  }

  /** What the loop that removes conditions does at position `i` does not change the outcome. */
  lemma OthersSkip(cs: seq<Condition>, i: nat, hit: Condition -> bool)
    requires i < |cs|
    ensures hit(cs[i]) ==> Without(cs, i)[..i] + Others(Without(cs, i)[i..], hit) == cs[..i] + Others(cs[i..], hit)
    ensures !hit(cs[i]) ==> cs[..i + 1] + Others(cs[i + 1..], hit) == cs[..i] + Others(cs[i..], hit)
  {
    assert cs[i..][1..] == cs[i + 1..];
    assert Without(cs, i)[..i] == cs[..i] && Without(cs, i)[i..] == cs[i + 1..];
    assert cs[..i + 1] == cs[..i] + [cs[i]];
  }

  function OfKind(kind: nat): Condition -> bool {
    (c: Condition) => c.kind == kind
  }

  function OfKindAndId(kind: nat, id: int): Condition -> bool {
    (c: Condition) => c.kind == kind && c.id == id
  }

  ghost predicate ActiveAt(c: Condition, kind: nat, now: int) {
    c.kind == kind && c.subId == 0 && (c.endTime >= now || c.ticks == -1)
  }

  ghost predicate Has(cs: seq<Condition>, kind: nat, suppressed: set<nat>, now: int) {
    kind !in suppressed && exists i :: 0 <= i < |cs| && ActiveAt(cs[i], kind, now)
  }

  /** What becomes of the conditions when one of a kind has joined them. */
  ghost function AfterAdd(cs: seq<Condition>, kind: nat, delayed: bool, suppressed: set<nat>, now: int): seq<Condition> {
    if kind == PARALYZE && Has(cs, HASTE, suppressed, now) then Others(cs, OfKind(HASTE))
    else if kind == HASTE && Has(cs, PARALYZE, suppressed, now) && !delayed then Others(cs, OfKind(PARALYZE))
    else cs
  }

  lemma {:induction false} OthersMiss(cs: seq<Condition>, hit: Condition -> bool)
    ensures forall c :: c in Others(cs, hit) <==> c in cs && !hit(c)
  {
    if cs != [] {
      OthersMiss(cs[1..], hit);
      assert cs == [cs[0]] + cs[1..];
    }
  }

  /** What is left of the conditions after they are executed for an interval. */
  ghost function Survivors(cs: seq<Condition>, interval: nat, now: int, done: set<int>): seq<Condition> {
    if cs == [] then []
    else if Lasts(cs[0], now, done) then [Aged(cs[0], interval)] + Survivors(cs[1..], interval, now, done)
    else Survivors(cs[1..], interval, now, done)
  }

  /** A condition goes on until its time is up; `done` are the ids of other conditions that end for reasons of their own. */
  ghost predicate Lasts(c: Condition, now: int, done: set<int>) {
    (c.ticks == -1 || c.endTime >= now) && (c.effect == Plain ==> c.id !in done)
  }

  ghost function Aged(c: Condition, interval: nat): Condition {
    if c.ticks == -1 then c else c.(ticks := if c.ticks > interval then c.ticks - interval else 0)
  }

  // ----- sums -------------------------------------------------------------------------------------------

  /** The modifiers are those without conditions plus what the conditions store, if they apply at all. */
  ghost predicate Balanced(cs: seq<Condition>, applies: bool, varSpeed: int, mods: seq<int>, speed0: int, mods0: seq<int>) {
    && |mods| == |mods0|
    && varSpeed == speed0 + SumBy(cs, SpeedOf)
    && forall i :: 0 <= i < |mods| ==> BalancedAt(cs, applies, mods, mods0, i)
  }

  ghost predicate BalancedAt(cs: seq<Condition>, applies: bool, mods: seq<int>, mods0: seq<int>, i: nat)
    requires i < |mods| == |mods0|
  {
    mods[i] == mods0[i] + if applies then SumBy(cs, ModOf(i)) else 0
  }

  /** The modifiers moved by what a condition stores, `sign` times. */
  ghost predicate Moved(mods: seq<int>, mods': seq<int>, e: Effect, applies: bool, sign: int) {
    |mods'| == |mods| && forall i :: 0 <= i < |mods| ==> MovedAt(mods, mods', e, applies, sign, i)
  }

  ghost predicate MovedAt(mods: seq<int>, mods': seq<int>, e: Effect, applies: bool, sign: int, i: nat)
    requires i < |mods| == |mods'|
  {
    mods'[i] == mods[i] + if applies && e.Modifiers? && i < |e.mods| then sign * e.mods[i] else 0
  }

  lemma AppendBalances(cs: seq<Condition>, c: Condition, applies: bool, varSpeed: int, mods: seq<int>, mods': seq<int>,
                       speed0: int, mods0: seq<int>)
    requires Balanced(cs, applies, varSpeed, mods, speed0, mods0) && Moved(mods, mods', c.effect, applies, 1)
    ensures Balanced(cs + [c], applies, varSpeed + SpeedOf(c), mods', speed0, mods0)
  {
    SumByAppend(cs, SpeedOf, c);
    forall i | 0 <= i < |mods'| ensures BalancedAt(cs + [c], applies, mods', mods0, i) {
      assert BalancedAt(cs, applies, mods, mods0, i) && MovedAt(mods, mods', c.effect, applies, 1, i);
      SumByAppend(cs, ModOf(i), c);
    }
  }

  lemma RemoveBalances(cs: seq<Condition>, k: nat, applies: bool, varSpeed: int, mods: seq<int>, mods': seq<int>,
                       speed0: int, mods0: seq<int>)
    requires k < |cs| && Balanced(cs, applies, varSpeed, mods, speed0, mods0) && Moved(mods, mods', cs[k].effect, applies, -1)
    ensures Balanced(Without(cs, k), applies, varSpeed - SpeedOf(cs[k]), mods', speed0, mods0)
  {
    SumByRemove(cs, SpeedOf, k);
    forall i | 0 <= i < |mods'| ensures BalancedAt(Without(cs, k), applies, mods', mods0, i) {
      assert BalancedAt(cs, applies, mods, mods0, i) && MovedAt(mods, mods', cs[k].effect, applies, -1, i);
      SumByRemove(cs, ModOf(i), k);
    }
  }

  /** Exchanging a condition: the old one's effect goes, the new one's comes. */
  lemma UpdateBalances(cs: seq<Condition>, k: nat, c: Condition, applies: bool, varSpeed: int, mods: seq<int>,
                       mods1: seq<int>, mods': seq<int>, speed0: int, mods0: seq<int>)
    requires k < |cs| && Balanced(cs, applies, varSpeed, mods, speed0, mods0)
    requires Moved(mods, mods1, cs[k].effect, applies, -1) && Moved(mods1, mods', c.effect, applies, 1)
    ensures Balanced(cs[k := c], applies, varSpeed - SpeedOf(cs[k]) + SpeedOf(c), mods', speed0, mods0)
  {
    SumByUpdate(cs, SpeedOf, k, c);
    var cs' := cs[k := c];
    forall i | 0 <= i < |mods'| ensures BalancedAt(cs', applies, mods', mods0, i) {
      assert BalancedAt(cs, applies, mods, mods0, i);
      assert MovedAt(mods, mods1, cs[k].effect, applies, -1, i) && MovedAt(mods1, mods', c.effect, applies, 1, i);
      SumByUpdate(cs, ModOf(i), k, c);
    }
  }

  /** Without conditions nothing is modified. */
  lemma NoneBalanced(applies: bool, varSpeed: int, mods: seq<int>, speed0: int, mods0: seq<int>)
    requires Balanced([], applies, varSpeed, mods, speed0, mods0)
    ensures varSpeed == speed0 && mods == mods0
  {
    forall i | 0 <= i < |mods| ensures mods[i] == mods0[i] {
      assert BalancedAt([], applies, mods, mods0, i);
    }
  }

  class Creature {
    const isPlayer: bool
    const size: nat                 // of the modifiers

    var conditions: seq<Condition>
    var varSpeed: int
    var mods: seq<int>
    ghost var speed0: int           // what the two would be without conditions
    ghost var mods0: seq<int>

    ghost predicate Valid()
      reads this
    {
      && |mods| == size
      && ConditionsOk(conditions, size)
      && Balanced(conditions, isPlayer, varSpeed, mods, speed0, mods0)
    }

    constructor (isPlayer: bool, size: nat)
      ensures Valid() && conditions == [] && this.isPlayer == isPlayer && this.size == size
    {
      this.isPlayer, this.size := isPlayer, size;
      conditions, varSpeed, mods := [], 0, seq(size, _ => 0);
      speed0, mods0 := 0, seq(size, _ => 0);
    }

    /** Equipment changes a modifier regardless of conditions. */
    method Equip(i: nat, x: int)
      requires Valid() && i < size
      modifies this`mods, this`mods0
      ensures Valid() && mods == old(mods)[i := old(mods[i]) + x] && mods0 == old(mods0)[i := old(mods0[i]) + x]
    {
      ghost var mods', mods0' := mods[i := mods[i] + x], mods0[i := mods0[i] + x];
      forall j | 0 <= j < size ensures BalancedAt(conditions, isPlayer, mods', mods0', j) {
        assert BalancedAt(conditions, isPlayer, mods, mods0, j);
      }
      mods, mods0 := mods[i := mods[i] + x], mods0[i := mods0[i] + x];
    }

    /** `updateSkills`, `updateStats` and the loops of `endCondition`. */
    method MoveModifiers(e: Effect, sign: int)
      requires |mods| == size && (e.Modifiers? ==> |e.mods| == size)
      modifies this`mods
      ensures Moved(old(mods), mods, e, isPlayer, sign)
    {
      if !isPlayer || !e.Modifiers? {
        forall i | 0 <= i < |mods| ensures MovedAt(mods, mods, e, isPlayer, sign, i) {}
        return;
      }
      ghost var before := mods;
      for i := 0 to size
        invariant |mods| == size
        invariant forall j :: 0 <= j < i ==> mods[j] == before[j] + sign * e.mods[j]
        invariant forall j :: i <= j < size ==> mods[j] == before[j]
      {
        if e.mods[i] != 0 {
          mods := mods[i := mods[i] + sign * e.mods[i]];
        }
      }
      forall j | 0 <= j < size ensures MovedAt(before, mods, e, isPlayer, sign, j) {}
    }

    /** `startCondition`: the effect that is stored is the effect that is applied. */
    method StartCondition(c: Condition, now: int, d: Draw) returns (started: Condition)
      requires Valid() && ConditionOk(c, size) && |d.scaled| == size
      modifies this`varSpeed, this`mods
      ensures started == Started(c, now, d, isPlayer)
      ensures ConditionOk(started, size) && |mods| == size
      ensures Balanced(conditions + [started], isPlayer, varSpeed, mods, speed0, mods0)
    {
      started := c;
      if started.ticks > 0 {
        started := started.(endTime := started.ticks + now);
      }
      var effect := TakeEffect(c.effect, d);
      started := started.(effect := effect);
      ghost var before := mods;
      MoveModifiers(effect, 1);
      AppendBalances(conditions, started, isPlayer, varSpeed, before, mods, speed0, mods0);
      if effect.Speed? {
        varSpeed := varSpeed + effect.delta;
      }
    }

    /** A speed that is not given is drawn; `updatePercentSkills` and `updatePercentStats` for players. */
    method TakeEffect(e: Effect, d: Draw) returns (taken: Effect)
      requires e.Modifiers? ==> |e.mods| == |e.percents| == |d.scaled|
      ensures taken == Taken(e, d, isPlayer)
    {
      taken := e;
      if e.Speed? && e.delta == 0 {
        taken := Speed(d.speed);
      }
      if e.Modifiers? && isPlayer {
        var mods := e.mods;
        for i := 0 to |mods|
          invariant |mods| == |e.mods|
          invariant forall j :: 0 <= j < |mods| ==> mods[j] == if j < i && e.percents[j] != 0 then d.scaled[j] else e.mods[j]
        {
          if e.percents[i] != 0 {
            mods := mods[i := d.scaled[i]];
          }
        }
        assert mods == Scaled(e.mods, e.percents, d.scaled, true);
        taken := Modifiers(mods, e.percents);
      } else if e.Modifiers? {
        assert e.mods == Scaled(e.mods, e.percents, d.scaled, false);
      }
    }

    /** Erases a condition and takes its effect back (`endCondition`). */
    method RemoveAt(k: nat)
      requires Valid() && k < |conditions|
      modifies this`conditions, this`varSpeed, this`mods
      ensures Valid() && conditions == Without(old(conditions), k)
    {
      var c := conditions[k];
      ghost var cs, before := conditions, mods;
      WithoutOk(conditions, k, size);
      conditions := conditions[..k] + conditions[k + 1..];
      MoveModifiers(c.effect, -1);
      RemoveBalances(cs, k, isPlayer, varSpeed, before, mods, speed0, mods0);
      if c.effect.Speed? {
        varSpeed := varSpeed - c.effect.delta;
      }
    }

    /** `Creature::getCondition` by key. */
    method GetCondition(c: Condition) returns (k: int)
      ensures k == -1 ==> forall i :: 0 <= i < |conditions| ==> !SameKey(conditions[i], c)
      ensures k != -1 ==> 0 <= k < |conditions| && SameKey(conditions[k], c)
    {
      for i := 0 to |conditions|
        invariant forall j :: 0 <= j < i ==> !SameKey(conditions[j], c)
      {
        if conditions[i].kind == c.kind && conditions[i].id == c.id && conditions[i].subId == c.subId {
          return i;
        }
      }
      k := -1;
    }

    /** `addCondition` of a condition that is already there: the new effect replaces the old one, or nothing happens. */
    method Refresh(k: nat, c: Condition, now: int, d: Draw)
      requires Valid() && k < |conditions| && SameKey(conditions[k], c) && ConditionOk(c, size) && |d.scaled| == size
      modifies this`conditions, this`varSpeed, this`mods
      ensures Valid()
      ensures conditions == if Refreshes(old(conditions[k]), c, now)
                            then old(conditions)[k := Refreshed(old(conditions[k]), c, now, d, isPlayer)] else old(conditions)
    {
      var prev := conditions[k];
      if prev.effect.Speed? && prev.ticks == -1 && c.ticks > 0 {
        return;
      }
      if !prev.effect.Speed? {
        var updatable := UpdateCondition(prev, c, now);
        if !updatable {
          return;
        }
      }
      var effect := TakeEffect(c.effect, d);
      Exchange(k, prev.(ticks := c.ticks, endTime := c.ticks + now, effect := effect));
    }

    /** `Condition::updateCondition`. */
    method UpdateCondition(prev: Condition, c: Condition, now: int) returns (ok: bool)
      requires prev.kind == c.kind
      ensures ok <==> Updatable(prev, c, now)
    {
      if prev.ticks == -1 && c.ticks > 0 {
        return false;
      }
      if c.ticks >= 0 && prev.endTime > now + c.ticks {
        return false;
      }
      ok := true;
    }

    /** The effect of a condition goes, and another one's comes. */
    method Exchange(k: nat, next: Condition)
      requires Valid() && k < |conditions| && SameKey(conditions[k], next) && ConditionOk(next, size)
      modifies this`conditions, this`varSpeed, this`mods
      ensures Valid() && conditions == old(conditions)[k := next]
    {
      var prev := conditions[k];
      ghost var before := mods;
      MoveModifiers(prev.effect, -1);
      ghost var between := mods;
      MoveModifiers(next.effect, 1);
      UpdateBalances(conditions, k, next, isPlayer, varSpeed, before, between, mods, speed0, mods0);
      if next.effect.Speed? {
        var change := next.effect.delta - prev.effect.delta;
        if change != 0 {
          varSpeed := varSpeed + change;
        }
      }
      conditions := conditions[k := next];
    }

    /** `Creature::hasCondition` for the default sub-id. */
    method HasCondition(kind: nat, suppressed: set<nat>, now: int) returns (has: bool)
      ensures has <==> Has(conditions, kind, suppressed, now)
    {
      if kind in suppressed {
        return false;
      }
      for i := 0 to |conditions|
        invariant forall j :: 0 <= j < i ==> !ActiveAt(conditions[j], kind, now)
      {
        var c := conditions[i];
        if c.kind == kind && c.subId == 0 && (c.endTime >= now || c.ticks == -1) {
          return true;
        }
      }
      has := false;
    }

    /**
      `Creature::addCondition`.  `delayed` says that the creature has still to finish a step, `starts` whether a
      condition of another class agrees to start.
      */
    method AddCondition(c: Condition, force: bool, delayed: bool, starts: bool, suppressed: set<nat>, now: int, d: Draw)
      returns (added: bool)
      requires Valid() && ConditionOk(c, size) && |d.scaled| == size
      modifies this`conditions, this`varSpeed, this`mods
      ensures Valid()
      ensures added <==> !(!force && c.kind == HASTE && Has(old(conditions), PARALYZE, suppressed, now) && delayed)
                         && (Known(old(conditions), c) || c.effect != Plain || starts)
      ensures !added ==> conditions == old(conditions) && varSpeed == old(varSpeed) && mods == old(mods)
      ensures added && Known(old(conditions), c) ==> RefreshedIn(old(conditions), conditions, c, now, d, isPlayer)
      ensures added && !Known(old(conditions), c) ==>
                conditions == AfterAdd(old(conditions) + [Started(c, now, d, isPlayer)], c.kind, delayed, suppressed, now)
    {
      var paralyzed := HasCondition(PARALYZE, suppressed, now);
      if !force && c.kind == HASTE && paralyzed && delayed {
        return false;
      }
      var k := GetCondition(c);
      if k != -1 {
        Refresh(k, c, now, d);
        return true;
      }
      if c.effect == Plain && !starts {
        return false;
      }
      var started := StartCondition(c, now, d);
      conditions := conditions + [started];
      OnAddCondition(c.kind, delayed, suppressed, now);
      added := true;
    }

    /** `Creature::onAddCondition`: haste ends paralysis, unless that is delayed, and paralysis ends haste. */
    method OnAddCondition(kind: nat, delayed: bool, suppressed: set<nat>, now: int)
      requires Valid()
      modifies this`conditions, this`varSpeed, this`mods
      ensures Valid() && conditions == AfterAdd(old(conditions), kind, delayed, suppressed, now)
    {
      var hasted := HasCondition(HASTE, suppressed, now);
      var paralyzed := HasCondition(PARALYZE, suppressed, now);
      if kind == PARALYZE && hasted {
        RemoveCondition(HASTE, false, delayed);
      } else if kind == HASTE && paralyzed {
        RemoveCondition(PARALYZE, false, delayed);
      }
    }

    /** The loop of the functions that remove conditions. */
    method RemoveAll(hit: Condition -> bool)
      requires Valid()
      modifies this`conditions, this`varSpeed, this`mods
      ensures Valid() && conditions == Others(old(conditions), hit)
    {
      var i := 0;
      ghost var cs := conditions;
      assert conditions[..0] + Others(conditions[0..], hit) == Others(cs, hit);
      while i < |conditions|
        invariant 0 <= i <= |conditions| && Valid()
        invariant conditions[..i] + Others(conditions[i..], hit) == Others(cs, hit)
        decreases |conditions| - i
      {
        OthersSkip(conditions, i, hit);
        if hit(conditions[i]) {
          RemoveAt(i);
        } else {
          i := i + 1;
        }
      }
      assert conditions[i..] == [];
    }

    /** `Creature::removeCondition` by kind; paralysis waits until the creature has finished its step. */
    method RemoveCondition(kind: nat, force: bool, delayed: bool)
      requires Valid()
      modifies this`conditions, this`varSpeed, this`mods
      ensures Valid()
      ensures !force && kind == PARALYZE && delayed ==>
                conditions == old(conditions) && varSpeed == old(varSpeed) && mods == old(mods)
      ensures force || kind != PARALYZE || !delayed ==>
                && conditions == Others(old(conditions), OfKind(kind))
                && forall c :: c in conditions <==> c in old(conditions) && c.kind != kind
    {
      if !force && kind == PARALYZE && delayed {
        return;
      }
      OthersMiss(conditions, OfKind(kind));
      RemoveAll(OfKind(kind));
    }

    /** `Creature::removeCondition` by kind and id. */
    method RemoveConditionById(kind: nat, id: int, force: bool, delayed: bool)
      requires Valid()
      modifies this`conditions, this`varSpeed, this`mods
      ensures Valid()
      ensures !force && kind == PARALYZE && delayed ==> conditions == old(conditions)
      ensures force || kind != PARALYZE || !delayed ==>
                && conditions == Others(old(conditions), OfKindAndId(kind, id))
                && forall c :: c in conditions <==> c in old(conditions) && !(c.kind == kind && c.id == id)
    {
      if !force && kind == PARALYZE && delayed {
        return;
      }
      var hit := OfKindAndId(kind, id);
      OthersMiss(conditions, hit);
      RemoveAll(hit);
    }

    /** `Creature::executeConditions`: conditions age, and those whose time is up end. */
    method ExecuteConditions(interval: nat, now: int, done: set<int>)
      requires Valid()
      modifies this`conditions, this`varSpeed, this`mods
      ensures Valid() && conditions == Survivors(old(conditions), interval, now, done)
    {
      var i := 0;
      ghost var cs := conditions;
      assert conditions[..0] + Survivors(conditions[0..], interval, now, done) == Survivors(cs, interval, now, done);
      while i < |conditions|
        invariant 0 <= i <= |conditions| && Valid()
        invariant conditions[..i] + Survivors(conditions[i..], interval, now, done) == Survivors(cs, interval, now, done)
        decreases |conditions| - i
      {
        ghost var before := conditions;
        assert before[i..][1..] == before[i + 1..];
        var lasts, c := ExecuteCondition(conditions[i], interval, now, done);
        if lasts {
          SameEffectBalances(conditions, i, c, isPlayer, varSpeed, mods, speed0, mods0);
          conditions := conditions[i := c];
          assert conditions[..i + 1] == before[..i] + [Aged(before[i], interval)] && conditions[i + 1..] == before[i + 1..];
          i := i + 1;
        } else {
          RemoveAt(i);
          assert conditions[..i] == before[..i] && conditions[i..] == before[i + 1..];
        }
      }
      assert conditions[i..] == [];
    }

    /** `Condition::executeCondition`: one condition after the interval, and whether it goes on. */
    method ExecuteCondition(c: Condition, interval: nat, now: int, done: set<int>) returns (lasts: bool, aged: Condition)
      ensures (lasts <==> Lasts(c, now, done)) && aged == Aged(c, interval)
    {
      aged := c;
      if c.ticks != -1 {
        var ticks := c.ticks - interval;
        aged := c.(ticks := if ticks > 0 then ticks else 0);
      }
      lasts := (c.ticks == -1 || c.endTime >= now) && !(c.effect.Plain? && c.id in done);
    }

    /** Over every run the modifiers are in balance; once no condition is left, none of them has left a trace. */
    method Run(steps: seq<Step>)
      requires Valid()
      requires forall i :: 0 <= i < |steps| && steps[i].Add? ==>
                 ConditionOk(steps[i].c, size) && |steps[i].d.scaled| == size
      modifies this
      ensures Valid()
      ensures conditions == [] ==> varSpeed == speed0 && mods == mods0
      ensures speed0 == old(speed0)
      ensures (forall i :: 0 <= i < |steps| ==> !steps[i].Wear?) ==> mods0 == old(mods0)
    {
      for i := 0 to |steps|
        invariant Valid() && speed0 == old(speed0)
        invariant (forall j :: 0 <= j < i ==> !steps[j].Wear?) ==> mods0 == old(mods0)
      {
        match steps[i]
        case Add(c, force, delayed, starts, suppressed, now, d) =>
          var added := AddCondition(c, force, delayed, starts, suppressed, now, d);
        case Remove(kind, force, delayed) => RemoveCondition(kind, force, delayed);
        case RemoveById(kind, id, force, delayed) => RemoveConditionById(kind, id, force, delayed);
        case Execute(interval, now, done) => ExecuteConditions(interval, now, done);
        case Wear(j, x) => if j < size { Equip(j, x); }
      }
      if conditions == [] {
        NoneBalanced(isPlayer, varSpeed, mods, speed0, mods0);
      }
    }
  }

  datatype Step =
    | Add(c: Condition, force: bool, delayed: bool, starts: bool, suppressed: set<nat>, now: int, d: Draw)
    | Remove(kind: nat, force: bool, delayed: bool)
    | RemoveById(kind: nat, id: int, force: bool, delayed: bool)
    | Execute(interval: nat, now: int, done: set<int>)
    | Wear(j: nat, x: int)

  /** A condition when it starts. */
  ghost function Started(c: Condition, now: int, d: Draw, player: bool): Condition
    requires c.effect.Modifiers? ==> |c.effect.mods| == |c.effect.percents| == |d.scaled|
  {
    c.(endTime := if c.ticks > 0 then c.ticks + now else c.endTime, effect := Taken(c.effect, d, player))
  }

  ghost predicate Known(cs: seq<Condition>, c: Condition) {
    exists i :: 0 <= i < |cs| && SameKey(cs[i], c)
  }

  /** The condition with the same key is replaced if the rules for it allow, and nothing else changes. */
  ghost predicate RefreshedIn(cs: seq<Condition>, cs': seq<Condition>, c: Condition, now: int, d: Draw,
                              player: bool)
    requires c.effect.Modifiers? ==> |c.effect.mods| == |c.effect.percents| == |d.scaled|
  {
    && |cs'| == |cs|
    && forall i :: 0 <= i < |cs| ==>
         cs'[i] == if SameKey(cs[i], c) && Refreshes(cs[i], c, now) then Refreshed(cs[i], c, now, d, player) else cs[i]
  }

  /** Speed conditions ask less before they replace each other than others do. */
  ghost predicate Refreshes(prev: Condition, c: Condition, now: int) {
    if prev.effect.Speed? then !(prev.ticks == -1 && c.ticks > 0) else Updatable(prev, c, now)
  }

  ghost function Refreshed(prev: Condition, c: Condition, now: int, d: Draw, player: bool): Condition
    requires c.effect.Modifiers? ==> |c.effect.mods| == |c.effect.percents| == |d.scaled|
  {
    prev.(ticks := c.ticks, endTime := c.ticks + now, effect := Taken(c.effect, d, player))
  }

  lemma SameEffectBalances(cs: seq<Condition>, k: nat, c: Condition, applies: bool, varSpeed: int, mods: seq<int>,
                           speed0: int, mods0: seq<int>)
    requires k < |cs| && Balanced(cs, applies, varSpeed, mods, speed0, mods0) && c.effect == cs[k].effect
    ensures Balanced(cs[k := c], applies, varSpeed, mods, speed0, mods0)
  {
    SumByUpdate(cs, SpeedOf, k, c);
    var cs' := cs[k := c];
    forall i | 0 <= i < |mods| ensures BalancedAt(cs', applies, mods, mods0, i) {
      assert BalancedAt(cs, applies, mods, mods0, i);
      SumByUpdate(cs, ModOf(i), k, c);
    }
  }
}
