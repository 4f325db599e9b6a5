/**
  The wheel of four buckets that lets items decay (src/game.cpp:4412-4486, 4580-4588; src/game.h:74-75).
  */
module DecayWheel {

  type Id = nat

  const INTERVAL := 250
  const BUCKETS := 4
  const TURN := INTERVAL * BUCKETS

  datatype Timer = Timer(duration: nat, decaying: bool)

  /** When an item was put on the wheel, in ticks, and with which duration. */
  datatype Placement = Placement(tick: nat, duration: nat)

  /** An item decayed some ticks after it was put on the wheel. */
  datatype Decay = Decay(x: Id, placed: Placement, after: nat)

  // ----- timing --------------------------------------------------------------------------------------

  datatype Verdict = Decays | NextBucket | Stays

  /** What a visit to the bucket means for an item. */
  function Visit(duration: nat): Verdict {
    if duration <= TURN then Decays
    else if duration - TURN >= TURN then Stays
    else if (duration - TURN + INTERVAL / 2) / 1000 % BUCKETS == 0 then Decays
    else NextBucket
  }

  /** The ticks until bucket `j` is visited. */
  function Distance(lastBucket: nat, j: nat): (n: nat)
    requires lastBucket < BUCKETS && j < BUCKETS
    ensures 1 <= n <= BUCKETS
  {
    if j > lastBucket then j - lastBucket else j + BUCKETS - lastBucket
  }

  /** The ticks until an item decays that lies `distance` ticks ahead. */
  function Due(duration: nat, distance: nat): (n: nat)
    ensures n >= distance
    decreases duration
  {
    match Visit(duration)
    case Decays => distance
    case NextBucket => distance + 1
    case Stays => distance + Due(duration - TURN, BUCKETS)
  }

  /** The ticks from the placement to the decay. */
  function TicksFor(duration: nat): nat {
    if duration < TURN then 1 else Due(duration, BUCKETS)
  }

  lemma {:induction false} DueInFull(duration: nat)
    requires duration >= 1000
    ensures Due(duration, 4) == 4 * (duration / 1000) + if duration % 1000 >= 875 then 1 else 0
  {
    VisitCases(duration);
    Thousands(duration);
    if duration >= 2000 {
      DueInFull(duration - 1000);
    }
  }

  lemma VisitCases(duration: nat)
    ensures Visit(duration) == if duration < 1875 then Decays else if duration < 2000 then NextBucket else Stays
  {}

  lemma Thousands(duration: nat)
    requires duration >= 1000
    ensures duration < 2000 ==> duration / 1000 == 1 && duration % 1000 == duration - 1000
    ensures (duration - 1000) / 1000 == duration / 1000 - 1 && (duration - 1000) % 1000 == duration % 1000
  {}

  /** A duration of a turn or more is kept to within 875 ms, never exceeded; a shorter one ends with the next tick. */
  lemma TimingBounds(duration: nat)
    ensures duration >= TURN ==> duration - 875 < INTERVAL * TicksFor(duration) <= duration
    ensures duration < TURN ==> TicksFor(duration) == 1
  {
    if duration >= TURN {
      DueInFull(duration);
    }
  }

  /** The bounds are sharp: on time for full turns, 874 ms early for 874 ms more. */
  lemma TimingBoundsMet(duration: nat)
    requires duration >= TURN
    ensures INTERVAL * TicksFor(duration) == duration <==> duration % TURN == 0
    ensures INTERVAL * TicksFor(duration) == duration - 874 <==> duration % TURN == 874
  {
    DueInFull(duration);
  }

  // ----- where items are -------------------------------------------------------------------------------

  ghost function OnWheel(buckets: seq<seq<Id>>): multiset<Id>
    requires |buckets| == BUCKETS
  {
    multiset(buckets[0]) + multiset(buckets[1]) + multiset(buckets[2]) + multiset(buckets[3])
  }

  lemma OnWheelUpdate(buckets: seq<seq<Id>>, j: nat, xs: seq<Id>)
    requires |buckets| == BUCKETS && j < BUCKETS
    ensures OnWheel(buckets[j := xs]) + multiset(buckets[j]) == OnWheel(buckets) + multiset(xs)
  {}

  /** Exactly the decaying items are somewhere, each in one place. */
  ghost predicate OncePlaced(items: seq<Timer>, all: multiset<Id>) {
    forall x: Id :: OnceAt(items, all, x)
  }

  ghost predicate OnceAt(items: seq<Timer>, all: multiset<Id>, x: Id) {
    all[x] == if x < |items| && items[x].decaying then 1 else 0
  }

  /** An item in bucket `j` is on schedule. */
  ghost predicate OnTime(t: Timer, p: Placement, ticks: nat, distance: nat) {
    t.duration > 0 && p.tick <= ticks && ticks - p.tick + Due(t.duration, distance) == TicksFor(p.duration)
  }

  ghost predicate BucketOnTime(items: seq<Timer>, placed: seq<Placement>, ticks: nat, distance: nat, xs: seq<Id>) {
    |placed| == |items| && forall i :: 0 <= i < |xs| ==> xs[i] < |items| && OnTime(items[xs[i]], placed[xs[i]], ticks, distance)
  }

  ghost predicate WheelOnTime(items: seq<Timer>, placed: seq<Placement>, ticks: nat, lastBucket: nat, buckets: seq<seq<Id>>)
    requires lastBucket < BUCKETS && |buckets| == BUCKETS
  {
    forall j :: 0 <= j < BUCKETS ==> BucketOnTime(items, placed, ticks, Distance(lastBucket, j), buckets[j])
  }

  /** Whatever has decayed did so on schedule. */
  ghost predicate HistoryOk(history: seq<Decay>) {
    forall i :: 0 <= i < |history| ==> history[i].after == TicksFor(history[i].placed.duration)
  }

  ghost predicate Waiting(items: seq<Timer>, xs: seq<Id>) {
    forall i :: 0 <= i < |xs| ==> xs[i] < |items| && items[xs[i]].duration > 0
  }

  /** The items of the bucket under inspection that are still to be looked at. */
  ghost predicate Unvisited(items: seq<Timer>, placed: seq<Placement>, ticks: nat, rest: seq<Id>) {
    rest == [] || (ticks >= 1 && BucketOnTime(items, placed, ticks - 1, 1, rest))
  }

  /** What holds at all times; `rest` is empty except while a bucket is inspected. */
  ghost predicate WheelOk(buckets: seq<seq<Id>>, lastBucket: nat, toDecay: seq<Id>, items: seq<Timer>,
                          placed: seq<Placement>, ticks: nat, rest: seq<Id>) {
    && |buckets| == BUCKETS && lastBucket < BUCKETS && |placed| == |items|
    && OncePlaced(items, OnWheel(buckets) + multiset(toDecay) + multiset(rest))
    && Waiting(items, toDecay)
    && WheelOnTime(items, placed, ticks, lastBucket, buckets)
    && Unvisited(items, placed, ticks, rest)
  }

  // ----- small steps ---------------------------------------------------------------------------------

  /** Changing an item that is nowhere else keeps the schedule of all others. */
  lemma OthersOnTime(items: seq<Timer>, placed: seq<Placement>, ticks: nat, distance: nat, xs: seq<Id>, x: Id, t: Timer, p: Placement)
    requires BucketOnTime(items, placed, ticks, distance, xs) && x < |items| && x !in xs
    ensures BucketOnTime(items[x := t], placed[x := p], ticks, distance, xs)
  {}

  lemma WheelOthersOnTime(items: seq<Timer>, placed: seq<Placement>, ticks: nat, lastBucket: nat, buckets: seq<seq<Id>>,
                          x: Id, t: Timer, p: Placement)
    requires lastBucket < BUCKETS && |buckets| == BUCKETS && |placed| == |items| && x < |items|
    requires WheelOnTime(items, placed, ticks, lastBucket, buckets) && OnWheel(buckets)[x] == 0
    ensures WheelOnTime(items[x := t], placed[x := p], ticks, lastBucket, buckets)
  {
    forall j | 0 <= j < BUCKETS
      ensures BucketOnTime(items[x := t], placed[x := p], ticks, Distance(lastBucket, j), buckets[j])
    {
      assert multiset(buckets[j])[x] == 0;
      OthersOnTime(items, placed, ticks, Distance(lastBucket, j), buckets[j], x, t, p);
    }
  }

  lemma RestOthersOnTime(items: seq<Timer>, placed: seq<Placement>, ticks: nat, rest: seq<Id>, x: Id, t: Timer, p: Placement)
    requires Unvisited(items, placed, ticks, rest) && x < |items| && |placed| == |items| && x !in rest
    ensures Unvisited(items[x := t], placed[x := p], ticks, rest)
  {
    if rest != [] { OthersOnTime(items, placed, ticks - 1, 1, rest, x, t, p); }
  }

  lemma AddedOnTime(items: seq<Timer>, placed: seq<Placement>, ticks: nat, lastBucket: nat, buckets: seq<seq<Id>>, j: nat, x: Id)
    requires lastBucket < BUCKETS && |buckets| == BUCKETS && |placed| == |items| && x < |items| && j < BUCKETS
    requires WheelOnTime(items, placed, ticks, lastBucket, buckets)
    requires OnTime(items[x], placed[x], ticks, Distance(lastBucket, j))
    ensures WheelOnTime(items, placed, ticks, lastBucket, buckets[j := buckets[j] + [x]])
  {
    forall k | 0 <= k < BUCKETS
      ensures BucketOnTime(items, placed, ticks, Distance(lastBucket, k), buckets[j := buckets[j] + [x]][k])
    {
      assert BucketOnTime(items, placed, ticks, Distance(lastBucket, k), buckets[k]);
    }
  }

  lemma Placed(items: seq<Timer>, all: multiset<Id>, x: Id, t: Timer)
    requires OncePlaced(items, all) && x < |items| && !items[x].decaying && t.decaying
    ensures OncePlaced(items[x := t], all + multiset{x})
  {
    var items', all' := items[x := t], all + multiset{x};
    forall y: Id ensures OnceAt(items', all', y) {
      assert OnceAt(items, all, y);
    }
  }

  lemma Unplaced(items: seq<Timer>, all: multiset<Id>, x: Id, t: Timer)
    requires OncePlaced(items, all + multiset{x}) && x < |items| && !t.decaying
    ensures OncePlaced(items[x := t], all)
  {
    var items' := items[x := t];
    forall y: Id ensures OnceAt(items', all, y) {
      assert OnceAt(items, all + multiset{x}, y);
    }
  }

  lemma NowhereElse(items: seq<Timer>, all: multiset<Id>, x: Id)
    requires OncePlaced(items, all + multiset{x})
    ensures all[x] == 0
  {
    assert OnceAt(items, all + multiset{x}, x);
  }

  lemma Front(xs: seq<Id>)
    requires xs != []
    ensures multiset(xs) == multiset(xs[1..]) + multiset{xs[0]}
  {
    assert xs == [xs[0]] + xs[1..];
  }

  // ----- what the steps of the program keep -------------------------------------------------------------

  lemma GrowKeeps(buckets: seq<seq<Id>>, lastBucket: nat, toDecay: seq<Id>, items: seq<Timer>,
                  placed: seq<Placement>, ticks: nat, t: Timer, p: Placement)
    requires WheelOk(buckets, lastBucket, toDecay, items, placed, ticks, []) && !t.decaying
    ensures WheelOk(buckets, lastBucket, toDecay, items + [t], placed + [p], ticks, [])
  {
    var all := OnWheel(buckets) + multiset(toDecay) + multiset([]);
    var items' := items + [t];
    forall y: Id ensures OnceAt(items', all, y) {
      assert OnceAt(items, all, y);
    }
    forall j | 0 <= j < BUCKETS
      ensures BucketOnTime(items + [t], placed + [p], ticks, Distance(lastBucket, j), buckets[j])
    {
      assert BucketOnTime(items, placed, ticks, Distance(lastBucket, j), buckets[j]);
    }
  }

  /** An item that is nowhere starts to wait. */
  lemma StartKeeps(buckets: seq<seq<Id>>, lastBucket: nat, toDecay: seq<Id>, items: seq<Timer>,
                   placed: seq<Placement>, ticks: nat, rest: seq<Id>, x: Id, d: nat)
    requires WheelOk(buckets, lastBucket, toDecay, items, placed, ticks, rest)
    requires x < |items| && !items[x].decaying && d > 0
    ensures WheelOk(buckets, lastBucket, [x] + toDecay, items[x := Timer(d, true)], placed, ticks, rest)
  {
    var all := OnWheel(buckets) + multiset(toDecay) + multiset(rest);
    assert OnceAt(items, all, x);
    assert OnWheel(buckets)[x] == 0 && multiset(rest)[x] == 0;
    assert placed[x := placed[x]] == placed;
    WheelOthersOnTime(items, placed, ticks, lastBucket, buckets, x, Timer(d, true), placed[x]);
    RestOthersOnTime(items, placed, ticks, rest, x, Timer(d, true), placed[x]);
    Placed(items, all, x, Timer(d, true));
    Front([x] + toDecay);
    assert ([x] + toDecay)[1..] == toDecay;
    assert all + multiset{x} == OnWheel(buckets) + multiset([x] + toDecay) + multiset(rest);
  }

  /** The bucket that an item is put into at first. */
  function FirstBucket(lastBucket: nat, duration: nat): nat {
    if duration >= TURN then lastBucket else (lastBucket + 1 + duration / 1000) % BUCKETS
  }

  lemma FirstOnTime(lastBucket: nat, t: Timer, ticks: nat)
    requires lastBucket < BUCKETS && t.duration > 0
    ensures FirstBucket(lastBucket, t.duration) < BUCKETS
    ensures OnTime(t, Placement(ticks, t.duration), ticks, Distance(lastBucket, FirstBucket(lastBucket, t.duration)))
  {}

  lemma FirstWaiting(buckets: seq<seq<Id>>, lastBucket: nat, toDecay: seq<Id>, items: seq<Timer>,
                     placed: seq<Placement>, ticks: nat)
    requires WheelOk(buckets, lastBucket, toDecay, items, placed, ticks, []) && toDecay != []
    ensures toDecay[0] < |items| && items[toDecay[0]].duration > 0
    ensures |placed| == |items| && |buckets| == BUCKETS && lastBucket < BUCKETS
    ensures FirstBucket(lastBucket, items[toDecay[0]].duration) < BUCKETS
  {}

  lemma MoveFirst(buckets: seq<seq<Id>>, toDecay: seq<Id>, items: seq<Timer>, j: nat)
    requires |buckets| == BUCKETS && j < BUCKETS && toDecay != []
    requires OncePlaced(items, OnWheel(buckets) + multiset(toDecay) + multiset([]))
    ensures OnWheel(buckets)[toDecay[0]] == 0
    ensures OncePlaced(items, OnWheel(buckets[j := buckets[j] + [toDecay[0]]]) + multiset(toDecay[1..]) + multiset([]))
  {
    var x := toDecay[0];
    Front(toDecay);
    var all := OnWheel(buckets) + multiset(toDecay[1..]);
    assert OnWheel(buckets) + multiset(toDecay) + multiset([]) == all + multiset{x};
    NowhereElse(items, all, x);
    Pushed(buckets, j, x);
    assert OnWheel(buckets[j := buckets[j] + [x]]) + multiset(toDecay[1..]) + multiset([]) == all + multiset{x};
  }

  /** The first waiting item is put on the wheel. */
  lemma PlaceKeeps(buckets: seq<seq<Id>>, lastBucket: nat, toDecay: seq<Id>, items: seq<Timer>,
                   placed: seq<Placement>, ticks: nat, x: Id, j: nat, p: Placement)
    requires WheelOk(buckets, lastBucket, toDecay, items, placed, ticks, []) && toDecay != [] && x == toDecay[0]
    requires x < |items| && j == FirstBucket(lastBucket, items[x].duration) && j < BUCKETS
    requires p == Placement(ticks, items[x].duration)
    ensures WheelOk(buckets[j := buckets[j] + [x]], lastBucket, toDecay[1..], items, placed[x := p], ticks, [])
  {
    FirstOnTime(lastBucket, items[x], ticks);
    MoveFirst(buckets, toDecay, items, j);
    assert items[x := items[x]] == items;
    WheelOthersOnTime(items, placed, ticks, lastBucket, buckets, x, items[x], p);
    AddedOnTime(items, placed[x := p], ticks, lastBucket, buckets, j, x);
  }

  lemma Pushed(buckets: seq<seq<Id>>, j: nat, x: Id)
    requires |buckets| == BUCKETS && j < BUCKETS
    ensures OnWheel(buckets[j := buckets[j] + [x]]) == OnWheel(buckets) + multiset{x}
  {}

  // ----- a tick -----------------------------------------------------------------------------------------

  function NextOf(lastBucket: nat): (b: nat)
    ensures b < BUCKETS
  {
    (lastBucket + 1) % BUCKETS
  }

  /** One tick later every other bucket is one tick nearer. */
  lemma Nearer(t: Timer, p: Placement, ticks: nat, distance: nat)
    requires OnTime(t, p, ticks, distance) && distance >= 2
    ensures OnTime(t, p, ticks + 1, distance - 1)
  {}

  lemma NearerAll(items: seq<Timer>, placed: seq<Placement>, ticks: nat, distance: nat, xs: seq<Id>)
    requires BucketOnTime(items, placed, ticks, distance, xs) && distance >= 2
    ensures BucketOnTime(items, placed, ticks + 1, distance - 1, xs)
  {
    forall i | 0 <= i < |xs| ensures OnTime(items[xs[i]], placed[xs[i]], ticks + 1, distance - 1) {
      Nearer(items[xs[i]], placed[xs[i]], ticks, distance);
    }
  }

  lemma TurnDistance(lastBucket: nat, j: nat)
    requires lastBucket < BUCKETS && j < BUCKETS
    ensures j != NextOf(lastBucket) ==> Distance(NextOf(lastBucket), j) == Distance(lastBucket, j) - 1
    ensures j == NextOf(lastBucket) ==> Distance(lastBucket, j) == 1
  {}

  lemma TurnOnTime(buckets: seq<seq<Id>>, lastBucket: nat, items: seq<Timer>, placed: seq<Placement>, ticks: nat, b: nat)
    requires lastBucket < BUCKETS && |buckets| == BUCKETS && b == NextOf(lastBucket)
    requires WheelOnTime(items, placed, ticks, lastBucket, buckets)
    ensures WheelOnTime(items, placed, ticks + 1, b, buckets[b := []])
    ensures Unvisited(items, placed, ticks + 1, buckets[b])
  {
    forall j | 0 <= j < BUCKETS
      ensures BucketOnTime(items, placed, ticks + 1, Distance(b, j), buckets[b := []][j])
    {
      TurnDistance(lastBucket, j);
      assert BucketOnTime(items, placed, ticks, Distance(lastBucket, j), buckets[j]);
      if j != b {
        NearerAll(items, placed, ticks, Distance(lastBucket, j), buckets[j]);
      }
    }
    TurnDistance(lastBucket, b);
    assert BucketOnTime(items, placed, ticks, Distance(lastBucket, b), buckets[b]);
  }

  lemma TurnOnce(buckets: seq<seq<Id>>, toDecay: seq<Id>, b: nat)
    requires |buckets| == BUCKETS && b < BUCKETS
    ensures OnWheel(buckets[b := []]) + multiset(toDecay) + multiset(buckets[b])
            == OnWheel(buckets) + multiset(toDecay) + multiset([])
  {
    OnWheelUpdate(buckets, b, []);
  }

  /** The wheel turns: the next bucket is taken out for inspection. */
  lemma EmptyWheel(buckets: seq<seq<Id>>)
    requires buckets == [[], [], [], []]
    ensures WheelOk(buckets, 0, [], [], [], 0, [])
  {
    assert OnWheel(buckets) + multiset([]) + multiset([]) == multiset{};
  }

  lemma TurnKeeps(buckets: seq<seq<Id>>, lastBucket: nat, toDecay: seq<Id>, items: seq<Timer>,
                  placed: seq<Placement>, ticks: nat, b: nat, buckets': seq<seq<Id>>, rest: seq<Id>, ticks': nat)
    requires WheelOk(buckets, lastBucket, toDecay, items, placed, ticks, []) && b == NextOf(lastBucket)
    requires buckets' == buckets[b := []] && rest == buckets[b] && ticks' == ticks + 1
    ensures WheelOk(buckets', b, toDecay, items, placed, ticks', rest)
  {
    TurnOnTime(buckets, lastBucket, items, placed, ticks, b);
    TurnOnce(buckets, toDecay, b);
  }

  /** The items of `decayed` were added to the history, in order. */
  ghost predicate Logged(before: seq<Decay>, after: seq<Decay>, decayed: seq<Id>, placed: seq<Placement>) {
    && |after| == |before| + |decayed| && before <= after
    && forall i :: 0 <= i < |decayed| ==> LoggedAt(after[|before| + i], decayed[i], placed)
  }

  ghost predicate LoggedAt(e: Decay, x: Id, placed: seq<Placement>) {
    x < |placed| && e == OnSchedule(x, placed[x])
  }

  /** The decay of an item that was put on the wheel as `p`, when it is due. */
  ghost function OnSchedule(x: Id, p: Placement): Decay {
    Decay(x, p, TicksFor(p.duration))
  }

  lemma FirstUnvisited(items: seq<Timer>, placed: seq<Placement>, ticks: nat, rest: seq<Id>)
    requires Unvisited(items, placed, ticks, rest) && rest != []
    ensures rest[0] < |items| == |placed| && ticks >= 1 && OnTime(items[rest[0]], placed[rest[0]], ticks - 1, 1)
    ensures Unvisited(items, placed, ticks, rest[1..])
  {}

  lemma RestOnce(buckets: seq<seq<Id>>, toDecay: seq<Id>, items: seq<Timer>, rest: seq<Id>)
    requires |buckets| == BUCKETS && rest != [] && OncePlaced(items, OnWheel(buckets) + multiset(toDecay) + multiset(rest))
    ensures var all := OnWheel(buckets) + multiset(toDecay) + multiset(rest[1..]);
            && OncePlaced(items, all + multiset{rest[0]})
            && OnWheel(buckets)[rest[0]] == 0 && rest[0] !in toDecay && rest[0] !in rest[1..]
  {
    Front(rest);
    var all := OnWheel(buckets) + multiset(toDecay) + multiset(rest[1..]);
    assert all + multiset{rest[0]} == OnWheel(buckets) + multiset(toDecay) + multiset(rest);
    NowhereElse(items, all, rest[0]);
    assert multiset(toDecay)[rest[0]] == 0 && multiset(rest[1..])[rest[0]] == 0;
  }

  /** The first item of the inspected bucket leaves the wheel. */
  lemma LeaveKeeps(buckets: seq<seq<Id>>, lastBucket: nat, toDecay: seq<Id>, items: seq<Timer>,
                   placed: seq<Placement>, ticks: nat, rest: seq<Id>, x: Id, t: Timer)
    requires WheelOk(buckets, lastBucket, toDecay, items, placed, ticks, rest) && rest != [] && x == rest[0]
    requires x < |items| && !t.decaying
    ensures WheelOk(buckets, lastBucket, toDecay, items[x := t], placed, ticks, rest[1..])
  {
    RestOnce(buckets, toDecay, items, rest);
    FirstUnvisited(items, placed, ticks, rest);
    assert placed[x := placed[x]] == placed;
    WheelOthersOnTime(items, placed, ticks, lastBucket, buckets, x, t, placed[x]);
    RestOthersOnTime(items, placed, ticks, rest[1..], x, t, placed[x]);
    Unplaced(items, OnWheel(buckets) + multiset(toDecay) + multiset(rest[1..]), x, t);
  }

  lemma SameFlag(items: seq<Timer>, all: multiset<Id>, x: Id, t: Timer)
    requires OncePlaced(items, all) && x < |items| && t.decaying == items[x].decaying
    ensures OncePlaced(items[x := t], all)
  {
    var items' := items[x := t];
    forall y: Id ensures OnceAt(items', all, y) {
      assert OnceAt(items, all, y);
    }
  }

  /** The first item of the inspected bucket goes to a bucket where it is on time. */
  lemma MoveKeeps(buckets: seq<seq<Id>>, lastBucket: nat, toDecay: seq<Id>, items: seq<Timer>,
                  placed: seq<Placement>, ticks: nat, rest: seq<Id>, x: Id, t: Timer, j: nat)
    requires WheelOk(buckets, lastBucket, toDecay, items, placed, ticks, rest) && rest != [] && x == rest[0]
    requires x < |items| && t.decaying == items[x].decaying && j < BUCKETS
    requires OnTime(t, placed[x], ticks, Distance(lastBucket, j))
    ensures WheelOk(buckets[j := buckets[j] + [x]], lastBucket, toDecay, items[x := t], placed, ticks, rest[1..])
  {
    RestOnce(buckets, toDecay, items, rest);
    FirstUnvisited(items, placed, ticks, rest);
    assert placed[x := placed[x]] == placed;
    WheelOthersOnTime(items, placed, ticks, lastBucket, buckets, x, t, placed[x]);
    RestOthersOnTime(items, placed, ticks, rest[1..], x, t, placed[x]);
    AddedOnTime(items[x := t], placed, ticks, lastBucket, buckets, j, x);
    Pushed(buckets, j, x);
    var all := OnWheel(buckets) + multiset(toDecay) + multiset(rest[1..]);
    assert OnWheel(buckets[j := buckets[j] + [x]]) + multiset(toDecay) + multiset(rest[1..]) == all + multiset{x};
    SameFlag(items, all + multiset{x}, x, t);
  }

  /** What is due after the visit. */
  lemma VisitOnTime(t: Timer, p: Placement, ticks: nat, b: nat)
    requires OnTime(t, p, ticks, 1) && b < BUCKETS
    ensures Visit(t.duration) == Decays ==> ticks + 1 - p.tick == TicksFor(p.duration)
    ensures Visit(t.duration) == NextBucket ==>
              t.duration >= TURN && OnTime(t.(duration := t.duration - TURN), p, ticks + 1, Distance(b, NextOf(b)))
    ensures Visit(t.duration) == Stays ==>
              t.duration >= TURN && OnTime(t.(duration := t.duration - TURN), p, ticks + 1, Distance(b, b))
  {
    if Visit(t.duration) == NextBucket {
      assert Visit(t.duration - TURN) == Decays;
    }
  }

  // ----- where an item is followed to ---------------------------------------------------------------------

  ghost predicate InBuckets(buckets: seq<seq<Id>>, x: Id) {
    exists j :: 0 <= j < |buckets| && x in buckets[j]
  }

  /**
    An item placed as `p` is still on the wheel with that placement, or has decayed from that placement when it
    was due, after the first `since` decays.
    */
  ghost predicate Followed(buckets: seq<seq<Id>>, placed: seq<Placement>, rest: seq<Id>, history: seq<Decay>, since: nat,
                           x: Id, p: Placement) {
    && since <= |history|
    && ((x < |placed| && placed[x] == p && (InBuckets(buckets, x) || x in rest)) || OnSchedule(x, p) in history[since..])
  }

  /** Every item that can decay is followed from one state to the other, whenever that began. */
  ghost predicate Follows(b: seq<seq<Id>>, p: seq<Placement>, r: seq<Id>, h: seq<Decay>,
                          b': seq<seq<Id>>, p': seq<Placement>, r': seq<Id>, h': seq<Decay>, stuck: set<Id>) {
    forall since: nat, x: Id, at: Placement ::
      x !in stuck && Followed(b, p, r, h, since, x, at) ==> Followed(b', p', r', h', since, x, at)
  }

  lemma FollowsOn(b: seq<seq<Id>>, p: seq<Placement>, r: seq<Id>, h: seq<Decay>,
                  b1: seq<seq<Id>>, p1: seq<Placement>, r1: seq<Id>, h1: seq<Decay>,
                  b2: seq<seq<Id>>, p2: seq<Placement>, r2: seq<Id>, h2: seq<Decay>, stuck: set<Id>)
    requires Follows(b, p, r, h, b1, p1, r1, h1, stuck) && Follows(b1, p1, r1, h1, b2, p2, r2, h2, stuck)
    ensures Follows(b, p, r, h, b2, p2, r2, h2, stuck)
  {}

  lemma PushKeepsBuckets(b: seq<seq<Id>>, j: nat, x: Id, y: Id)
    requires j < |b|
    ensures InBuckets(b[j := b[j] + [x]], y) <==> InBuckets(b, y) || y == x
  {
    var b' := b[j := b[j] + [x]];
    if InBuckets(b, y) {
      var k :| 0 <= k < |b| && y in b[k];
      assert y in b'[k];
    }
    if y == x { assert y in b'[j]; }
    if InBuckets(b', y) && y != x {
      var k :| 0 <= k < |b'| && y in b'[k];
      assert y in b[k];
    }
  }

  lemma FirstOrRest(rest: seq<Id>, y: Id)
    requires rest != []
    ensures y in rest <==> y == rest[0] || y in rest[1..]
  {
    assert rest == [rest[0]] + rest[1..];
  }

  /** The first item of the inspected bucket leaves: it was stuck, or it decayed on time. */
  lemma FollowLeave(b: seq<seq<Id>>, p: seq<Placement>, rest: seq<Id>, h: seq<Decay>, h': seq<Decay>, stuck: set<Id>)
    requires rest != [] && rest[0] < |p|
    requires if rest[0] in stuck then h' == h else h' == h + [OnSchedule(rest[0], p[rest[0]])]
    ensures Follows(b, p, rest, h, b, p, rest[1..], h', stuck)
  {
    forall since: nat, x: Id, at: Placement | x !in stuck && Followed(b, p, rest, h, since, x, at)
      ensures Followed(b, p, rest[1..], h', since, x, at)
    {
      FirstOrRest(rest, x);
      if h' != h { assert h'[since..] == h[since..] + [OnSchedule(rest[0], p[rest[0]])]; }
    }
  }

  lemma FollowMove(b: seq<seq<Id>>, p: seq<Placement>, rest: seq<Id>, h: seq<Decay>, j: nat, stuck: set<Id>)
    requires rest != [] && j < |b|
    ensures Follows(b, p, rest, h, b[j := b[j] + [rest[0]]], p, rest[1..], h, stuck)
  {
    var b' := b[j := b[j] + [rest[0]]];
    forall since: nat, x: Id, at: Placement | x !in stuck && Followed(b, p, rest, h, since, x, at)
      ensures Followed(b', p, rest[1..], h, since, x, at)
    {
      FirstOrRest(rest, x);
      PushKeepsBuckets(b, j, rest[0], x);
    }
  }

  lemma FollowTurn(b: seq<seq<Id>>, p: seq<Placement>, h: seq<Decay>, j: nat, stuck: set<Id>)
    requires j < |b|
    ensures Follows(b, p, [], h, b[j := []], p, b[j], h, stuck)
  {
    var b' := b[j := []];
    forall since: nat, x: Id, at: Placement | x !in stuck && Followed(b, p, [], h, since, x, at)
      ensures Followed(b', p, b[j], h, since, x, at)
    {
      if InBuckets(b, x) {
        var k :| 0 <= k < |b| && x in b[k];
        if k != j { assert x in b'[k]; }
      }
    }
  }

  lemma FollowPlace(b: seq<seq<Id>>, p: seq<Placement>, h: seq<Decay>, j: nat, x: Id, at: Placement, stuck: set<Id>)
    requires j < |b| && x < |p| && !InBuckets(b, x)
    ensures Follows(b, p, [], h, b[j := b[j] + [x]], p[x := at], [], h, stuck)
  {
    var b', p' := b[j := b[j] + [x]], p[x := at];
    forall since: nat, y: Id, a: Placement | y !in stuck && Followed(b, p, [], h, since, y, a)
      ensures Followed(b', p', [], h, since, y, a)
    {
      PushKeepsBuckets(b, j, x, y);
    }
  }

  /** Every item of the list still waits, or has been placed now with the duration it has. */
  ghost predicate PlacedOrWaiting(was: seq<Id>, toDecay: seq<Id>, items: seq<Timer>, b: seq<seq<Id>>, p: seq<Placement>, ticks: nat) {
    forall x: Id :: x in was ==> PlacedOr(toDecay, items, b, p, ticks, x)
  }

  ghost predicate PlacedOr(toDecay: seq<Id>, items: seq<Timer>, b: seq<seq<Id>>, p: seq<Placement>, ticks: nat, x: Id) {
    x < |items| == |p| && (x in toDecay || (p[x] == Placement(ticks, items[x].duration) && InBuckets(b, x)))
  }

  lemma AllWait(toDecay: seq<Id>, items: seq<Timer>, b: seq<seq<Id>>, p: seq<Placement>, ticks: nat)
    requires Waiting(items, toDecay) && |p| == |items|
    ensures PlacedOrWaiting(toDecay, toDecay, items, b, p, ticks)
  {}

  lemma StillPlaced(was: seq<Id>, toDecay: seq<Id>, items: seq<Timer>, b: seq<seq<Id>>, p: seq<Placement>, ticks: nat, j: nat)
    requires PlacedOrWaiting(was, toDecay, items, b, p, ticks) && toDecay != [] && toDecay[0] < |items| == |p| && j < |b|
    ensures var x := toDecay[0];
            PlacedOrWaiting(was, toDecay[1..], items, b[j := b[j] + [x]], p[x := Placement(ticks, items[x].duration)], ticks)
  {
    var x := toDecay[0];
    var b', p', tail := b[j := b[j] + [x]], p[x := Placement(ticks, items[x].duration)], toDecay[1..];
    forall y: Id | y in was ensures PlacedOr(tail, items, b', p', ticks, y) {
      assert PlacedOr(toDecay, items, b, p, ticks, y);
      FirstOrRest(toDecay, y);
      PushKeepsBuckets(b, j, x, y);
    }
  }

  lemma WaitingNotInBuckets(buckets: seq<seq<Id>>, lastBucket: nat, toDecay: seq<Id>, items: seq<Timer>,
                            placed: seq<Placement>, ticks: nat, x: Id)
    requires WheelOk(buckets, lastBucket, toDecay, items, placed, ticks, []) && x in toDecay
    ensures !InBuckets(buckets, x)
  {
    if InBuckets(buckets, x) {
      var j :| 0 <= j < |buckets| && x in buckets[j];
      InOneBucket(buckets, lastBucket, toDecay, items, placed, ticks, j, j, x);
      assert false;
    }
  }

  class Wheel {
    var buckets: seq<seq<Id>>
    var lastBucket: nat
    var toDecay: seq<Id>
    var items: seq<Timer>
    ghost var ticks: nat
    ghost var placed: seq<Placement>
    ghost var history: seq<Decay>

    ghost predicate Valid()
      reads this
    {
      WheelOk(buckets, lastBucket, toDecay, items, placed, ticks, []) && HistoryOk(history)
    }

    constructor ()
      ensures Valid() && items == [] && history == []
    {
      buckets, lastBucket, toDecay, items := [[], [], [], []], 0, [], [];
      ticks, placed, history := 0, [], [];
      new;
      EmptyWheel(buckets);
    }

    /** A new item, with the time it will take to decay. */
    method NewItem(duration: nat) returns (x: Id)
      requires Valid()
      modifies this`items, this`placed
      ensures Valid() && x == old(|items|) && items == old(items) + [Timer(duration, false)] && old(placed) <= placed
    {
      x := |items|;
      GrowKeeps(buckets, lastBucket, toDecay, items, placed, ticks, Timer(duration, false), Placement(0, 0));
      items, placed := items + [Timer(duration, false)], placed + [Placement(0, 0)];
    }

    /** `Game::startDecay`; an item with no time left decays at once. */
    method StartDecay(x: Id, canDecay: bool) returns (atOnce: bool)
      requires Valid() && x < |items|
      modifies this`items, this`toDecay
      ensures Valid()
      ensures atOnce <==> canDecay && !old(items[x].decaying) && old(items[x].duration) == 0
      ensures canDecay && !old(items[x].decaying) && old(items[x].duration) > 0 ==>
                toDecay == [x] + old(toDecay) && items == old(items)[x := old(items[x]).(decaying := true)]
      ensures !canDecay || old(items[x].decaying) || old(items[x].duration) == 0 ==>
                toDecay == old(toDecay) && items == old(items)
    {
      atOnce := false;
      if !canDecay || items[x].decaying {
        return;
      }
      if items[x].duration > 0 {
        StartKeeps(buckets, lastBucket, toDecay, items, placed, ticks, [], x, items[x].duration);
        items := items[x := items[x].(decaying := true)];
        toDecay := [x] + toDecay;
      } else {
        atOnce := true;
      }
    }

    /**
      The end of `internalAddItem`, which does not ask whether the item already decays: all stays well if and
      only if it does not, or has no duration.
      */
    method Enlist(x: Id)
      requires Valid() && x < |items|
      modifies this`items, this`toDecay
      ensures Valid() <==> !old(items[x].decaying) || old(items[x].duration) == 0
      ensures old(items[x].duration) > 0 ==>
                toDecay == [x] + old(toDecay) && items == old(items)[x := old(items[x]).(decaying := true)]
      ensures old(items[x].duration) == 0 ==> toDecay == old(toDecay) && items == old(items)
    {
      if items[x].duration > 0 {
        if items[x].decaying {
          TwiceIsWrong(buckets, toDecay, items, x);
        } else {
          StartKeeps(buckets, lastBucket, toDecay, items, placed, ticks, [], x, items[x].duration);
        }
        items := items[x := items[x].(decaying := true)];
        toDecay := [x] + toDecay;
      }
    }

    /** The end of `Game::cleanup`: waiting items are put on the wheel, with the duration they have now. */
    method Cleanup()
      requires Valid()
      modifies this`buckets, this`toDecay, this`placed
      ensures Valid() && toDecay == []
      ensures Follows(old(buckets), old(placed), [], history, buckets, placed, [], history, {})
      ensures forall x :: x in old(toDecay) ==> OnWheelSince(x, Placement(ticks, items[x].duration))
    {
      ghost var was, b, p := toDecay, buckets, placed;
      FollowsSame(buckets, placed, [], history, {});
      AllWait(toDecay, items, buckets, placed, ticks);
      while toDecay != []
        invariant Valid() && Follows(b, p, [], history, buckets, placed, [], history, {})
        invariant PlacedOrWaiting(was, toDecay, items, buckets, placed, ticks)
        decreases |toDecay|
      {
        ghost var b1, p1, t1 := buckets, placed, toDecay;
        PlaceFirst();
        ghost var j := FirstBucket(lastBucket, items[t1[0]].duration);
        FollowPlace(b1, p1, history, j, t1[0], Placement(ticks, items[t1[0]].duration), {});
        FollowsOn(b, p, [], history, b1, p1, [], history, buckets, placed, [], history, {});
        StillPlaced(was, t1, items, b1, p1, ticks, j);
      }
      forall x | x in was ensures OnWheelSince(x, Placement(ticks, items[x].duration)) {
        assert PlacedOr(toDecay, items, buckets, placed, ticks, x);
      }
    }

    /** The item has been on the wheel since it was placed as `p`. */
    ghost predicate OnWheelSince(x: Id, p: Placement)
      reads this
    {
      x < |placed| && placed[x] == p && InBuckets(buckets, x)
    }

    /** Long durations go to the bucket just visited, all others to the next one. */
    method PlaceFirst()
      requires Valid() && toDecay != []
      modifies this`buckets, this`toDecay, this`placed
      ensures Valid() && toDecay == old(toDecay[1..])
      ensures var x := old(toDecay[0]);
              && x < |items| == old(|placed|) && old(|buckets|) == BUCKETS && lastBucket < BUCKETS
              && var j := FirstBucket(lastBucket, items[x].duration);
                 && j < BUCKETS && buckets == old(buckets)[j := old(buckets)[j] + [x]]
                 && placed == old(placed)[x := Placement(ticks, items[x].duration)]
      ensures !InBuckets(old(buckets), old(toDecay[0]))
    {
      FirstWaiting(buckets, lastBucket, toDecay, items, placed, ticks);
      var x := toDecay[0];
      var dur := items[x].duration;
      var j := FirstBucket(lastBucket, dur);
      PlaceKeeps(buckets, lastBucket, toDecay, items, placed, ticks, x, j, Placement(ticks, dur));
      WaitingNotInBuckets(buckets, lastBucket, toDecay, items, placed, ticks, x);
      buckets := buckets[j := buckets[j] + [x]];
      placed := placed[x := Placement(ticks, dur)];
      toDecay := toDecay[1..];
    }

    /**
      `Game::checkDecay`.  `stuck` are the items that cannot decay now; `after` gives the duration with which
      an item continues, if what it decays to decays in turn.
      */
    method CheckDecay(stuck: set<Id>, after: map<Id, nat>) returns (decayed: seq<Id>)
      requires Valid()
      modifies this
      ensures Valid() && ticks == old(ticks) + 1 && lastBucket == NextOf(old(lastBucket)) && toDecay == []
      ensures |items| == old(|items|) && old(|buckets|) == BUCKETS
      ensures Logged(old(history), history, decayed, old(placed))
      ensures DecaysOf(old(buckets)[lastBucket], old(items), stuck, decayed)
      ensures forall x :: x in decayed && Continues(after, x) ==> OnWheelSince(x, Placement(ticks, after[x]))
      ensures Follows(old(buckets), old(placed), [], old(history), buckets, placed, [], history, stuck)
    {
      ghost var b, p, h := buckets, placed, history;
      var rest := Turn();
      FollowTurn(b, p, h, lastBucket, stuck);
      ghost var b1 := buckets;
      decayed := InspectAll(rest, stuck, after);
      FollowsOn(b, p, [], h, b1, p, rest, h, buckets, p, [], history, stuck);
      ghost var b2, h2, was, timers := buckets, history, toDecay, items;
      Cleanup();
      forall x | x in decayed && Continues(after, x) ensures OnWheelSince(x, Placement(ticks, after[x])) {
        assert RestartedAt(after, was, timers, x);
      }
      FollowsFewer(b2, p, [], h2, buckets, placed, [], h2, stuck);
      FollowsOn(b, p, [], h, b2, p, [], h2, buckets, placed, [], history, stuck);
    }

    method Turn() returns (rest: seq<Id>)
      requires Valid()
      modifies this`buckets, this`lastBucket, this`ticks
      ensures WheelOk(buckets, lastBucket, toDecay, items, placed, ticks, rest)
      ensures ticks == old(ticks) + 1 && lastBucket == NextOf(old(lastBucket))
      ensures old(|buckets|) == BUCKETS && rest == old(buckets)[lastBucket] && buckets == old(buckets)[lastBucket := []]
    {
      var bucket := NextOf(lastBucket);
      var emptied, now := buckets[bucket := []], ticks + 1;
      rest := buckets[bucket];
      TurnKeeps(buckets, lastBucket, toDecay, items, placed, ticks, bucket, emptied, rest, now);
      buckets, lastBucket, ticks := emptied, bucket, now;
    }

    /** The loop over the bucket: exactly the items that can decay and are due decay; the others stay on the wheel. */
    method InspectAll(list: seq<Id>, stuck: set<Id>, after: map<Id, nat>) returns (decayed: seq<Id>)
      requires WheelOk(buckets, lastBucket, toDecay, items, placed, ticks, list) && HistoryOk(history)
      modifies this`buckets, this`toDecay, this`items, this`history
      ensures Valid() && |items| == old(|items|) && Logged(old(history), history, decayed, placed)
      ensures DecaysOf(list, old(items), stuck, decayed) && Restarted(decayed, after, toDecay, items)
      ensures Follows(old(buckets), placed, list, old(history), buckets, placed, [], history, stuck)
    {
      var rest := list;
      decayed := [];
      ghost var done: seq<Id> := [];
      ghost var b, h, was := buckets, history, items;
      InspectedNone(b, placed, list, h, toDecay, was, stuck, after);
      while rest != []
        invariant WheelOk(buckets, lastBucket, toDecay, items, placed, ticks, rest) && HistoryOk(history) && |items| == |was|
        invariant Inspected(b, placed, list, h, was, done, rest, buckets, history, toDecay, items, decayed, stuck, after)
        decreases |rest|
      {
        ghost var b1, h1, items1, waiting, before := buckets, history, items, toDecay, decayed;
        var gone := Inspect(rest, stuck, after);
        decayed := if gone then decayed + [rest[0]] else decayed;
        InspectedNext(b, placed, list, h, was, done, rest, b1, h1, waiting, items1, before, stuck, after,
                      buckets, history, toDecay, items, decayed, gone);
        done, rest := done + [rest[0]], rest[1..];
      }
      assert done == list;
    }

    /** What happens to the next item of the bucket under inspection. */
    method Inspect(rest: seq<Id>, stuck: set<Id>, after: map<Id, nat>) returns (decayed: bool)
      requires WheelOk(buckets, lastBucket, toDecay, items, placed, ticks, rest) && HistoryOk(history) && rest != []
      modifies this`buckets, this`toDecay, this`items, this`history
      ensures WheelOk(buckets, lastBucket, toDecay, items, placed, ticks, rest[1..]) && HistoryOk(history)
      ensures rest[0] < |items| == |placed| && SameTimers(old(items), items, rest[1..])
      ensures decayed <==> rest[0] !in stuck && Visit(old(items[rest[0]].duration)) == Decays
      ensures history == if decayed then old(history) + [OnSchedule(rest[0], placed[rest[0]])] else old(history)
      ensures |items| == old(|items|) && items == old(items)[rest[0] := items[rest[0]]]
      ensures toDecay == if decayed && Continues(after, rest[0]) then [rest[0]] + old(toDecay) else old(toDecay)
      ensures decayed && Continues(after, rest[0]) ==> items[rest[0]] == Timer(after[rest[0]], true)
      ensures Follows(old(buckets), placed, rest, old(history), buckets, placed, rest[1..], history, stuck)
    {
      FirstUnvisited(items, placed, ticks, rest);
      var x := rest[0];
      decayed := false;
      if x in stuck {
        FollowLeave(buckets, placed, rest, history, history, stuck);
        Leave(rest, items[x].(decaying := false));
      } else if Visit(items[x].duration) == Decays {
        decayed := true;
        DecayNow(rest, stuck);
        if x in after && after[x] > 0 {
          ghost var between := items;
          Restart(x, after[x], rest);
          SameTimersTrans(old(items), between, items, rest[1..]);
        }
      } else {
        Move(rest, stuck);
      }
    }

    /** The first item of the inspected bucket leaves the wheel. */
    method Leave(rest: seq<Id>, t: Timer)
      requires WheelOk(buckets, lastBucket, toDecay, items, placed, ticks, rest) && rest != []
      requires rest[0] < |items| && !t.decaying
      modifies this`items
      ensures WheelOk(buckets, lastBucket, toDecay, items, placed, ticks, rest[1..]) && items == old(items)[rest[0] := t]
      ensures SameTimers(old(items), items, rest[1..])
    {
      RestOnce(buckets, toDecay, items, rest);
      SameTimersSelf(items, rest);
      SameTimersAfter(items, items, rest[0], t, rest);
      LeaveKeeps(buckets, lastBucket, toDecay, items, placed, ticks, rest, rest[0], t);
      items := items[rest[0] := t];
    }

    /** It decays, as many ticks after its placement as its duration asks for. */
    method DecayNow(rest: seq<Id>, ghost stuck: set<Id>)
      requires WheelOk(buckets, lastBucket, toDecay, items, placed, ticks, rest) && HistoryOk(history) && rest != []
      requires rest[0] < |items| && rest[0] !in stuck && Visit(items[rest[0]].duration) == Decays
      modifies this`items, this`history
      ensures WheelOk(buckets, lastBucket, toDecay, items, placed, ticks, rest[1..]) && HistoryOk(history)
      ensures rest[0] < |placed| == |items| == old(|items|) && SameTimers(old(items), items, rest[1..])
      ensures items == old(items)[rest[0] := Timer(0, false)]
      ensures history == old(history) + [OnSchedule(rest[0], placed[rest[0]])]
      ensures Follows(buckets, placed, rest, old(history), buckets, placed, rest[1..], history, stuck)
    {
      ghost var h := history;
      DueNow(items, placed, ticks, rest, lastBucket);
      history := history + [Decay(rest[0], placed[rest[0]], ticks - placed[rest[0]].tick)];
      FollowLeave(buckets, placed, rest, h, history, stuck);
      Leave(rest, Timer(0, false));
    }

    /** It goes to the bucket where it is on time. */
    method Move(rest: seq<Id>, ghost stuck: set<Id>)
      requires WheelOk(buckets, lastBucket, toDecay, items, placed, ticks, rest) && rest != []
      requires rest[0] < |items| && Visit(items[rest[0]].duration) != Decays
      modifies this`buckets, this`items
      ensures WheelOk(buckets, lastBucket, toDecay, items, placed, ticks, rest[1..])
      ensures rest[0] < |placed| == |items| == old(|items|) && SameTimers(old(items), items, rest[1..])
      ensures items == old(items)[rest[0] := items[rest[0]]]
      ensures Follows(old(buckets), placed, rest, history, buckets, placed, rest[1..], history, stuck)
    {
      var x := rest[0];
      FirstUnvisited(items, placed, ticks, rest);
      VisitOnTime(items[x], placed[x], ticks - 1, lastBucket);
      var j := if Visit(items[x].duration) == NextBucket then NextOf(lastBucket) else lastBucket;
      var t := items[x].(duration := items[x].duration - TURN);
      RestOnce(buckets, toDecay, items, rest);
      SameTimersSelf(items, rest);
      SameTimersAfter(items, items, x, t, rest);
      MoveKeeps(buckets, lastBucket, toDecay, items, placed, ticks, rest, x, t, j);
      FollowMove(buckets, placed, rest, history, j, stuck);
      buckets, items := buckets[j := buckets[j] + [x]], items[x := t];
    }

    method Restart(x: Id, d: nat, ghost rest: seq<Id>)
      requires rest != [] && x == rest[0] && WheelOk(buckets, lastBucket, toDecay, items, placed, ticks, rest[1..])
      requires x < |items| && !items[x].decaying && d > 0
      modifies this`items, this`toDecay
      ensures WheelOk(buckets, lastBucket, toDecay, items, placed, ticks, rest[1..])
      ensures SameTimers(old(items), items, rest[1..])
      ensures items == old(items)[x := Timer(d, true)] && toDecay == [x] + old(toDecay)
    {
      NotAmongRest(buckets, toDecay, items, rest[1..], x);
      SameTimersSelf(items, rest[1..]);
      SameTimersOff(items, x, Timer(d, true), rest[1..]);
      StartKeeps(buckets, lastBucket, toDecay, items, placed, ticks, rest[1..], x, d);
      items, toDecay := items[x := Timer(d, true)], [x] + toDecay;
    }

    /**
      Over every run: what decays does so within 875 ms before its time is up, or on the next tick; and an item
      that is on the wheel and never stuck has decayed during the run, from the placement it had and exactly when
      due, once that time has come.
      */
    method Run(steps: seq<Step>)
      requires Valid()
      modifies this
      ensures Valid()
      ensures forall i :: 0 <= i < |history| ==> Punctual(history[i])
      ensures old(history) <= history
      ensures forall x, p :: old(OnWheelSince(x, p)) && NeverStuck(steps, x) && ticks >= p.tick + TicksFor(p.duration) ==>
                Decay(x, p, TicksFor(p.duration)) in history[|old(history)|..]
    {
      ghost var b, p, h := buckets, placed, history;
      for i := 0 to |steps|
        invariant Valid() && h <= history
        invariant AllFollowed(b, p, steps, buckets, placed, history, |h|)
      {
        ghost var b1, p1, h1 := buckets, placed, history;
        ghost var stuck := if steps[i].Tick? then steps[i].stuck else {};
        Do(steps[i]);
        StillFollowed(b, p, steps, b1, p1, h1, buckets, placed, history, stuck, i, |h|);
      }
      forall i | 0 <= i < |history| ensures Punctual(history[i]) {
        TimingBounds(history[i].placed.duration);
      }
      forall x: Id, at: Placement
        | x < |p| && p[x] == at && InBuckets(b, x) && NeverStuck(steps, x) && ticks >= at.tick + TicksFor(at.duration)
        ensures Decay(x, at, TicksFor(at.duration)) in history[|h|..]
      {
        assert Followed(buckets, placed, [], history, |h|, x, at);
        DueHasDecayed(buckets, lastBucket, toDecay, items, placed, ticks, history, |h|, x, at);
      }
    }

    method Do(step: Step)
      requires Valid()
      modifies this
      ensures Valid() && old(history) <= history
      ensures Follows(old(buckets), old(placed), [], old(history), buckets, placed, [], history,
                      if step.Tick? then step.stuck else {})
    {
      FollowsSame(buckets, placed, [], history, {});
      match step
      case New(duration) =>
        ghost var p := placed;
        var x := NewItem(duration);
        FollowsGrown(buckets, p, placed, history);
      case Start(x, canDecay) =>
        if x < |items| {
          var atOnce := StartDecay(x, canDecay);
        }
      case Enlist(x) =>
        if x < |items| && (!items[x].decaying || items[x].duration == 0) {
          Enlist(x);
        }
      case Clean =>
        Cleanup();
      case Tick(stuck, after) =>
        var decayed := CheckDecay(stuck, after);
    }
  }

  /** The item is in no step among those that cannot decay. */
  ghost predicate NeverStuck(steps: seq<Step>, x: Id) {
    forall i :: 0 <= i < |steps| && steps[i].Tick? ==> x !in steps[i].stuck
  }

  /** What was on the wheel at first, and was never stuck, is followed to the present. */
  ghost predicate AllFollowed(b: seq<seq<Id>>, p: seq<Placement>, steps: seq<Step>,
                              b': seq<seq<Id>>, p': seq<Placement>, h': seq<Decay>, since: nat) {
    forall x: Id, at: Placement :: x < |p| && p[x] == at && InBuckets(b, x) && NeverStuck(steps, x) ==>
      Followed(b', p', [], h', since, x, at)
  }

  lemma StillFollowed(b: seq<seq<Id>>, p: seq<Placement>, steps: seq<Step>,
                      b1: seq<seq<Id>>, p1: seq<Placement>, h1: seq<Decay>,
                      b2: seq<seq<Id>>, p2: seq<Placement>, h2: seq<Decay>, stuck: set<Id>, i: nat, since: nat)
    requires AllFollowed(b, p, steps, b1, p1, h1, since) && Follows(b1, p1, [], h1, b2, p2, [], h2, stuck)
    requires i < |steps| && stuck == if steps[i].Tick? then steps[i].stuck else {}
    ensures AllFollowed(b, p, steps, b2, p2, h2, since)
  {
    forall x: Id, at: Placement | x < |p| && p[x] == at && InBuckets(b, x) && NeverStuck(steps, x)
      ensures Followed(b2, p2, [], h2, since, x, at)
    {
      assert Followed(b1, p1, [], h1, since, x, at);
    }
  }

  /** The loop over a bucket, after `done` and before `rest`. */
  ghost predicate Inspected(b: seq<seq<Id>>, placed: seq<Placement>, list: seq<Id>, h: seq<Decay>, was: seq<Timer>,
                            done: seq<Id>, rest: seq<Id>, b1: seq<seq<Id>>, h1: seq<Decay>, toDecay: seq<Id>,
                            items: seq<Timer>, decayed: seq<Id>, stuck: set<Id>, after: map<Id, nat>) {
    && list == done + rest && Logged(h, h1, decayed, placed) && DecaysOf(done, was, stuck, decayed)
    && SameTimers(was, items, rest) && Restarted(decayed, after, toDecay, items)
    && Follows(b, placed, list, h, b1, placed, rest, h1, stuck)
  }

  lemma InspectedNone(b: seq<seq<Id>>, placed: seq<Placement>, list: seq<Id>, h: seq<Decay>, toDecay: seq<Id>,
                      items: seq<Timer>, stuck: set<Id>, after: map<Id, nat>)
    ensures Inspected(b, placed, list, h, items, [], list, b, h, toDecay, items, [], stuck, after)
  {
    FollowsSame(b, placed, list, h, stuck);
    SameTimersSelf(items, list);
    DecaysNone(items, stuck);
  }

  lemma InspectedNext(b: seq<seq<Id>>, placed: seq<Placement>, list: seq<Id>, h: seq<Decay>, was: seq<Timer>,
                      done: seq<Id>, rest: seq<Id>, b1: seq<seq<Id>>, h1: seq<Decay>, toDecay: seq<Id>,
                      items: seq<Timer>, decayed: seq<Id>, stuck: set<Id>, after: map<Id, nat>,
                      b2: seq<seq<Id>>, h2: seq<Decay>, toDecay': seq<Id>, items': seq<Timer>, decayed': seq<Id>, gone: bool)
    requires Inspected(b, placed, list, h, was, done, rest, b1, h1, toDecay, items, decayed, stuck, after)
    requires |b1| == BUCKETS && rest != [] && OncePlaced(items, OnWheel(b1) + multiset(toDecay) + multiset(rest))
    requires rest[0] < |placed| == |items| == |was| == |items'|
    requires SameTimers(items, items', rest[1..]) && items' == items[rest[0] := items'[rest[0]]]
    requires gone <==> rest[0] !in stuck && Visit(items[rest[0]].duration) == Decays
    requires h2 == if gone then h1 + [OnSchedule(rest[0], placed[rest[0]])] else h1
    requires toDecay' == if gone && Continues(after, rest[0]) then [rest[0]] + toDecay else toDecay
    requires gone && Continues(after, rest[0]) ==> items'[rest[0]] == Timer(after[rest[0]], true)
    requires Follows(b1, placed, rest, h1, b2, placed, rest[1..], h2, stuck)
    requires decayed' == if gone then decayed + [rest[0]] else decayed
    ensures Inspected(b, placed, list, h, was, done + [rest[0]], rest[1..], b2, h2, toDecay', items', decayed', stuck, after)
  {
    assert list == done + [rest[0]] + rest[1..] by { assert rest == [rest[0]] + rest[1..]; }
    assert Follows(b, placed, list, h, b2, placed, rest[1..], h2, stuck) by {
      FollowsOn(b, placed, list, h, b1, placed, rest, h1, b2, placed, rest[1..], h2, stuck);
    }
    assert DecaysOf(done + [rest[0]], was, stuck, decayed') by { DecaysNext(done, rest, was, items, stuck, decayed, gone); }
    assert Restarted(decayed', after, toDecay', items') by {
      RestartedApart(b1, toDecay, items, rest, decayed, after);
      RestartedNext(decayed, after, toDecay, items, toDecay', items', rest[0], gone);
    }
    assert Logged(h, h2, decayed', placed) by { LoggedNext(h, h1, h2, decayed, placed, rest[0], gone); }
    assert SameTimers(was, items', rest[1..]) by { SameTimersOn(was, items, items', rest); }
  }

  /** Whether what an item decays to decays in turn. */
  ghost predicate Continues(after: map<Id, nat>, x: Id) {
    x in after && after[x] > 0
  }

  /** Every decayed item that continues waits with its new duration. */
  ghost predicate Restarted(decayed: seq<Id>, after: map<Id, nat>, toDecay: seq<Id>, items: seq<Timer>) {
    forall x: Id :: x in decayed && Continues(after, x) ==> RestartedAt(after, toDecay, items, x)
  }

  ghost predicate RestartedAt(after: map<Id, nat>, toDecay: seq<Id>, items: seq<Timer>, x: Id)
    requires Continues(after, x)
  {
    x < |items| && x in toDecay && items[x] == Timer(after[x], true)
  }

  lemma RestartedApart(buckets: seq<seq<Id>>, toDecay: seq<Id>, items: seq<Timer>, rest: seq<Id>, decayed: seq<Id>, after: map<Id, nat>)
    requires |buckets| == BUCKETS && rest != [] && OncePlaced(items, OnWheel(buckets) + multiset(toDecay) + multiset(rest))
    requires Restarted(decayed, after, toDecay, items)
    ensures rest[0] in decayed ==> !Continues(after, rest[0])
  {
    RestOnce(buckets, toDecay, items, rest);
    if rest[0] in decayed && Continues(after, rest[0]) {
      assert false;
    }
  }

  lemma RestartedNext(decayed: seq<Id>, after: map<Id, nat>, toDecay: seq<Id>, items: seq<Timer>,
                      toDecay': seq<Id>, items': seq<Timer>, x: Id, gone: bool)
    requires Restarted(decayed, after, toDecay, items) && x < |items| == |items'| && items' == items[x := items'[x]]
    requires x in decayed ==> !Continues(after, x)
    requires toDecay' == if gone && Continues(after, x) then [x] + toDecay else toDecay
    requires gone && Continues(after, x) ==> items'[x] == Timer(after[x], true)
    ensures Restarted(if gone then decayed + [x] else decayed, after, toDecay', items')
  {
    forall y: Id | y in (if gone then decayed + [x] else decayed) && Continues(after, y)
      ensures RestartedAt(after, toDecay', items', y)
    {
      if y in decayed { assert RestartedAt(after, toDecay, items, y); }
    }
  }

  /** Exactly those items of a list decay that can and whose visit says so. */
  ghost predicate DecaysOf(list: seq<Id>, items: seq<Timer>, stuck: set<Id>, decayed: seq<Id>) {
    forall x: Id :: DecaysAt(list, items, stuck, decayed, x)
  }

  ghost predicate DecaysAt(list: seq<Id>, items: seq<Timer>, stuck: set<Id>, decayed: seq<Id>, x: Id) {
    x in decayed <==> x in list && x !in stuck && x < |items| && Visit(items[x].duration) == Decays
  }

  /** The items still to be looked at have not changed. */
  ghost predicate SameTimers(items: seq<Timer>, items': seq<Timer>, rest: seq<Id>) {
    |items'| == |items| && forall x: Id :: SameTimer(items, items', rest, x)
  }

  ghost predicate SameTimer(items: seq<Timer>, items': seq<Timer>, rest: seq<Id>, x: Id)
    requires |items'| == |items|
  {
    x in rest && x < |items| ==> items'[x] == items[x]
  }

  lemma SameTimersOff(items: seq<Timer>, x: Id, t: Timer, rest: seq<Id>)
    requires x < |items| && x !in rest
    ensures SameTimers(items, items[x := t], rest)
  {
    var items' := items[x := t];
    forall y: Id ensures SameTimer(items, items', rest, y) {}
  }

  lemma NotAmongRest(buckets: seq<seq<Id>>, toDecay: seq<Id>, items: seq<Timer>, rest: seq<Id>, x: Id)
    requires |buckets| == BUCKETS && x < |items| && !items[x].decaying
    requires OncePlaced(items, OnWheel(buckets) + multiset(toDecay) + multiset(rest))
    ensures x !in rest
  {
    var all := OnWheel(buckets) + multiset(toDecay) + multiset(rest);
    assert OnceAt(items, all, x);
    assert multiset(rest)[x] == 0;
  }

  lemma SameTimersAfter(was: seq<Timer>, items: seq<Timer>, x: Id, t: Timer, rest: seq<Id>)
    requires SameTimers(was, items, rest) && rest != [] && x == rest[0] && x < |items| && x !in rest[1..]
    ensures SameTimers(was, items[x := t], rest[1..])
  {
    var items', tail := items[x := t], rest[1..];
    forall y: Id ensures SameTimer(was, items', tail, y) {
      assert SameTimer(was, items, rest, y);
      FirstOrRest(rest, y);
    }
  }

  lemma SameTimersOn(was: seq<Timer>, items: seq<Timer>, items': seq<Timer>, rest: seq<Id>)
    requires rest != [] && SameTimers(was, items, rest) && SameTimers(items, items', rest[1..])
    ensures SameTimers(was, items', rest[1..])
  {
    var tail := rest[1..];
    forall y: Id ensures SameTimer(was, items', tail, y) {
      assert SameTimer(was, items, rest, y) && SameTimer(items, items', tail, y);
      FirstOrRest(rest, y);
    }
  }

  lemma SameTimersTrans(was: seq<Timer>, items: seq<Timer>, items': seq<Timer>, rest: seq<Id>)
    requires SameTimers(was, items, rest) && SameTimers(items, items', rest)
    ensures SameTimers(was, items', rest)
  {
    forall y: Id ensures SameTimer(was, items', rest, y) {
      assert SameTimer(was, items, rest, y) && SameTimer(items, items', rest, y);
    }
  }

  /** An item whose visit lets it decay is due now. */
  lemma DueNow(items: seq<Timer>, placed: seq<Placement>, ticks: nat, rest: seq<Id>, b: nat)
    requires Unvisited(items, placed, ticks, rest) && rest != [] && b < BUCKETS
    requires rest[0] < |items| && Visit(items[rest[0]].duration) == Decays
    ensures rest[0] < |placed| && placed[rest[0]].tick <= ticks
    ensures ticks - placed[rest[0]].tick == TicksFor(placed[rest[0]].duration)
  {
    FirstUnvisited(items, placed, ticks, rest);
    VisitOnTime(items[rest[0]], placed[rest[0]], ticks - 1, b);
  }

  lemma SameTimersSelf(items: seq<Timer>, rest: seq<Id>)
    ensures SameTimers(items, items, rest)
  {
    forall y: Id ensures SameTimer(items, items, rest, y) {}
  }

  lemma DecaysNone(items: seq<Timer>, stuck: set<Id>)
    ensures DecaysOf([], items, stuck, [])
  {
    forall x: Id ensures DecaysAt([], items, stuck, [], x) {}
  }

  lemma DecaysNext(done: seq<Id>, rest: seq<Id>, was: seq<Timer>, items: seq<Timer>, stuck: set<Id>, decayed: seq<Id>, gone: bool)
    requires DecaysOf(done, was, stuck, decayed) && SameTimers(was, items, rest) && |items| == |was| && rest != [] && rest[0] < |was|
    requires gone <==> rest[0] !in stuck && Visit(items[rest[0]].duration) == Decays
    ensures DecaysOf(done + [rest[0]], was, stuck, if gone then decayed + [rest[0]] else decayed)
  {
    var done', decayed' := done + [rest[0]], if gone then decayed + [rest[0]] else decayed;
    assert SameTimer(was, items, rest, rest[0]);
    forall x: Id ensures DecaysAt(done', was, stuck, decayed', x) {
      assert DecaysAt(done, was, stuck, decayed, x);
    }
  }

  lemma LoggedNext(h: seq<Decay>, h1: seq<Decay>, h2: seq<Decay>, decayed: seq<Id>, placed: seq<Placement>, x: Id, gone: bool)
    requires Logged(h, h1, decayed, placed) && x < |placed|
    requires h2 == if gone then h1 + [OnSchedule(x, placed[x])] else h1
    ensures Logged(h, h2, if gone then decayed + [x] else decayed, placed)
  {}

  lemma FollowsSame(b: seq<seq<Id>>, p: seq<Placement>, r: seq<Id>, h: seq<Decay>, stuck: set<Id>)
    ensures Follows(b, p, r, h, b, p, r, h, stuck)
  {}

  lemma FollowsFewer(b: seq<seq<Id>>, p: seq<Placement>, r: seq<Id>, h: seq<Decay>,
                     b': seq<seq<Id>>, p': seq<Placement>, r': seq<Id>, h': seq<Decay>, stuck: set<Id>)
    requires Follows(b, p, r, h, b', p', r', h', {})
    ensures Follows(b, p, r, h, b', p', r', h', stuck)
  {}

  lemma FollowsGrown(b: seq<seq<Id>>, p: seq<Placement>, p': seq<Placement>, h: seq<Decay>)
    requires p <= p'
    ensures Follows(b, p, [], h, b, p', [], h, {})
  {}

  /** What is due and was followed cannot be on the wheel any more. */
  lemma DueHasDecayed(buckets: seq<seq<Id>>, lastBucket: nat, toDecay: seq<Id>, items: seq<Timer>,
                      placed: seq<Placement>, ticks: nat, history: seq<Decay>, since: nat, x: Id, p: Placement)
    requires WheelOk(buckets, lastBucket, toDecay, items, placed, ticks, [])
    requires Followed(buckets, placed, [], history, since, x, p) && ticks >= p.tick + TicksFor(p.duration)
    ensures since <= |history| && Decay(x, p, TicksFor(p.duration)) in history[since..]
  {
    if InBuckets(buckets, x) && x < |placed| && placed[x] == p {
      var j :| 0 <= j < |buckets| && x in buckets[j];
      NotOverdue(buckets, lastBucket, toDecay, items, placed, ticks, j, x);
      assert false;
    }
  }

  /** A second entry for an item that already decays. */
  lemma TwiceIsWrong(buckets: seq<seq<Id>>, toDecay: seq<Id>, items: seq<Timer>, x: Id)
    requires |buckets| == BUCKETS && x < |items| && items[x].decaying
    requires OncePlaced(items, OnWheel(buckets) + multiset(toDecay) + multiset([]))
    ensures !OncePlaced(items[x := items[x].(decaying := true)], OnWheel(buckets) + multiset([x] + toDecay) + multiset([]))
  {
    var all, all' := OnWheel(buckets) + multiset(toDecay) + multiset([]), OnWheel(buckets) + multiset([x] + toDecay) + multiset([]);
    assert OnceAt(items, all, x);
    Front([x] + toDecay);
    assert ([x] + toDecay)[1..] == toDecay;
    assert all'[x] == all[x] + 1;
    assert !OnceAt(items[x := items[x].(decaying := true)], all', x);
  }

  datatype Step = New(duration: nat) | Start(x: Id, canDecay: bool) | Enlist(x: Id) | Clean | Tick(stuck: set<Id>, after: map<Id, nat>)

  ghost predicate Punctual(e: Decay) {
    var duration := e.placed.duration;
    && (duration >= TURN ==> duration - 875 < INTERVAL * e.after <= duration)
    && (duration < TURN ==> e.after == 1)
  }

  /** An item still on the wheel is not overdue. */
  lemma NotOverdue(buckets: seq<seq<Id>>, lastBucket: nat, toDecay: seq<Id>, items: seq<Timer>,
                   placed: seq<Placement>, ticks: nat, j: nat, x: Id)
    requires WheelOk(buckets, lastBucket, toDecay, items, placed, ticks, []) && j < BUCKETS && x in buckets[j]
    ensures x < |placed| && 0 <= ticks - placed[x].tick < TicksFor(placed[x].duration)
  {
    assert BucketOnTime(items, placed, ticks, Distance(lastBucket, j), buckets[j]);
  }

  /** No item is in two buckets, or in one and waiting as well. */
  lemma InOneBucket(buckets: seq<seq<Id>>, lastBucket: nat, toDecay: seq<Id>, items: seq<Timer>,
                    placed: seq<Placement>, ticks: nat, j: nat, k: nat, x: Id)
    requires WheelOk(buckets, lastBucket, toDecay, items, placed, ticks, []) && j < BUCKETS && k < BUCKETS
    requires x in buckets[j]
    ensures multiset(buckets[j])[x] == 1 && x !in toDecay && (x in buckets[k] ==> k == j)
  {
    var all := OnWheel(buckets) + multiset(toDecay) + multiset([]);
    assert all[x] <= 1 by { assert OnceAt(items, all, x); }
    OneCopy(buckets, toDecay, j, k, x);
  }

  lemma OneCopy(buckets: seq<seq<Id>>, toDecay: seq<Id>, j: nat, k: nat, x: Id)
    requires |buckets| == BUCKETS && j < BUCKETS && k < BUCKETS && x in buckets[j]
    requires (OnWheel(buckets) + multiset(toDecay) + multiset([]))[x] <= 1
    ensures multiset(buckets[j])[x] == 1 && x !in toDecay && (x in buckets[k] ==> k == j)
  {
    CopiesOf(buckets, toDecay, x);
    assert x in multiset(buckets[j]);
  }

  lemma CopiesOf(buckets: seq<seq<Id>>, toDecay: seq<Id>, x: Id)
    requires |buckets| == BUCKETS
    ensures (OnWheel(buckets) + multiset(toDecay) + multiset([]))[x]
            == multiset(buckets[0])[x] + multiset(buckets[1])[x] + multiset(buckets[2])[x] + multiset(buckets[3])[x]
               + multiset(toDecay)[x]
    ensures x in toDecay <==> multiset(toDecay)[x] >= 1
    ensures forall k :: 0 <= k < BUCKETS ==> (x in buckets[k] <==> multiset(buckets[k])[x] >= 1)
  {}
}
