/**
  The local map of walkable tiles around a creature (src/creature.cpp:296-358), and how it is
  shifted instead of rebuilt when the creature takes a step (src/creature.cpp:491-572).
  */
module WalkCache {

  datatype Pos = Pos(x: int, y: int)

  /** Whether the creature can walk onto a tile of its floor: `tile && tile->queryAdd(...) == NOERROR`. */
  type Passable = Pos -> bool

  function Abs(a: int): nat { if a < 0 then -a else a }

  /** `Position::getDistanceY`, an absolute distance (src/position.h:67-69). */
  function DistanceY(p: Pos, q: Pos): nat { Abs(p.y - q.y) }

  /** The tile that row `i`, column `j` stands for when the creature is at `at`. */
  function TileOf(w: nat, h: nat, at: Pos, i: int, j: int): Pos {
    Pos(at.x - w + j, at.y - h + i)
  }

  predicate OneStep(from: Pos, to: Pos) {
    from != to && Abs(from.x - to.x) <= 1 && Abs(from.y - to.y) <= 1
  }

  /** A map of bits, rows first. */
  type Grid = (int, int) -> bool

  predicate InWindow(w: nat, h: nat, i: int, j: int) {
    0 <= i <= 2 * h && 0 <= j <= 2 * w
  }

  ghost predicate RightAt(w: nat, h: nat, g: Grid, can: Passable, at: Pos, i: int, j: int) {
    g(i, j) == can(TileOf(w, h, at, i, j))
  }

  /** The cache is right for `at` in every cell but the creature's own, which is never looked up. */
  ghost predicate Right(w: nat, h: nat, g: Grid, can: Passable, at: Pos) {
    forall i, j :: InWindow(w, h, i, j) && (i, j) != (h, w) ==> RightAt(w, h, g, can, at, i, j)
  }

  // ----- what the shift computes ------------------------------------------------------------

  /** A cell after the row shift: a new row comes in at the top or at the bottom. */
  function RowShifted(w: nat, h: nat, g: Grid, can: Passable, from: Pos, to: Pos, i: int, j: int): bool {
    if from.y > to.y then (if i == 0 then can(TileOf(w, h, to, 0, j)) else g(i - 1, j))
    else if from.y < to.y then (if i == 2 * h then can(TileOf(w, h, to, 2 * h, j)) else g(i + 1, j))
    else g(i, j)
  }

  /** A cell after the column shift of the rows from `start` on: a new column comes in at one side. */
  function ColumnShifted(w: nat, h: nat, g: Grid, can: Passable, from: Pos, to: Pos, start: int, i: int, j: int): bool {
    if from.x < to.x then
      (if j == 2 * w then can(TileOf(w, h, to, i, 2 * w))
       else RowShifted(w, h, g, can, from, to, i, if start <= i then j + 1 else j))
    else if from.x > to.x then
      (if j == 0 then can(TileOf(w, h, to, i, 0))
       else RowShifted(w, h, g, can, from, to, i, if start <= i then j - 1 else j))
    else RowShifted(w, h, g, can, from, to, i, j)
  }

  /** A cell after the whole shift: the column shift leaves out the first `|dy|` rows, the old tile is read again. */
  function ShiftedAt(w: nat, h: nat, g: Grid, can: Passable, from: Pos, to: Pos, i: int, j: int): bool {
    if TileOf(w, h, to, i, j) == from then can(from)
    else ColumnShifted(w, h, g, can, from, to, DistanceY(from, to), i, j)
  }

  function Shifted(w: nat, h: nat, g: Grid, can: Passable, from: Pos, to: Pos): Grid {
    (i, j) => ShiftedAt(w, h, g, can, from, to, i, j)
  }

  // ----- when it is right ----------------------------------------------------------------------

  /** Worlds before and after the step differ only where the creature was and is. */
  ghost predicate SameElsewhere(before: Passable, after: Passable, from: Pos, to: Pos) {
    forall p :: p != from && p != to ==> before(p) == after(p)
  }

  /** The case the shift gets wrong: a step to the south and sideways at once. */
  predicate SouthDiagonal(from: Pos, to: Pos) {
    from.y < to.y && from.x != to.x
  }

  /** One cell: its tile was in the old window and is copied from there, or it is read anew. */
  lemma CellRight(w: nat, h: nat, g: Grid, before: Passable, after: Passable, from: Pos, to: Pos, i: int, j: int)
    requires OneStep(from, to) && !SouthDiagonal(from, to)
    requires InWindow(w, h, i, j) && TileOf(w, h, to, i, j) !in {from, to}
    requires before(TileOf(w, h, to, i, j)) == after(TileOf(w, h, to, i, j))
    requires InWindow(w, h, i + to.y - from.y, j + to.x - from.x) ==>
               RightAt(w, h, g, before, from, i + to.y - from.y, j + to.x - from.x)
    ensures ShiftedAt(w, h, g, after, from, to, i, j) == after(TileOf(w, h, to, i, j))
  {
    assert TileOf(w, h, from, i + to.y - from.y, j + to.x - from.x) == TileOf(w, h, to, i, j);
  }

  /** For every other step the shifted cache is the rebuilt cache, for every window and every world. */
  lemma ShiftIsRebuild(w: nat, h: nat, g: Grid, before: Passable, after: Passable, from: Pos, to: Pos)
    requires OneStep(from, to) && !SouthDiagonal(from, to)
    requires SameElsewhere(before, after, from, to) && Right(w, h, g, before, from)
    ensures Right(w, h, Shifted(w, h, g, after, from, to), after, to)
  {
    forall i, j | InWindow(w, h, i, j) && (i, j) != (h, w)
      ensures RightAt(w, h, Shifted(w, h, g, after, from, to), after, to, i, j)
    {
      if TileOf(w, h, to, i, j) != from {
        assert RightAt(w, h, g, before, from, i + to.y - from.y, j + to.x - from.x)
               || !InWindow(w, h, i + to.y - from.y, j + to.x - from.x);
        CellRight(w, h, g, before, after, from, to, i, j);
      }
    }
  }

  /** The world in which one tile can be walked on. */
  function OnlyAt(p: Pos): Passable { q => q == p }

  /** For every step to the south-east or south-west there is a world in which another cell ends up wrong. */
  lemma SouthDiagonalGoesWrong(w: nat, h: nat, from: Pos, to: Pos) returns (can: Passable, g: Grid)
    requires OneStep(from, to) && SouthDiagonal(from, to) && w >= 1 && h >= 1
    ensures Right(w, h, g, can, from) && !Right(w, h, Shifted(w, h, g, can, from, to), can, to)
  {
    var j := if from.x < to.x then 0 else 2 * w;
    var near := if from.x < to.x then 1 else 2 * w - 1;
    can := OnlyAt(TileOf(w, h, to, 2 * h, near));
    g := (i, j) => can(TileOf(w, h, from, i, j));
    assert Right(w, h, g, can, from);
    assert !RightAt(w, h, Shifted(w, h, g, can, from, to), can, to, 2 * h, j);
  }

  /** The shift replaces a rebuild, for all worlds, exactly when the step is not a southern diagonal. */
  lemma ShiftIsRebuildIff(w: nat, h: nat, from: Pos, to: Pos)
    requires OneStep(from, to) && w >= 1 && h >= 1
    ensures !SouthDiagonal(from, to) <==>
            forall g: Grid, before: Passable, after: Passable ::
              SameElsewhere(before, after, from, to) && Right(w, h, g, before, from) ==>
                Right(w, h, Shifted(w, h, g, after, from, to), after, to)
  {
    if SouthDiagonal(from, to) {
      var can, g := SouthDiagonalGoesWrong(w, h, from, to);
      assert SameElsewhere(can, can, from, to);
    } else {
      forall g: Grid, before: Passable, after: Passable
        | SameElsewhere(before, after, from, to) && Right(w, h, g, before, from)
        ensures Right(w, h, Shifted(w, h, g, after, from, to), after, to)
      {
        ShiftIsRebuild(w, h, g, before, after, from, to);
      }
    }
  }

  /** After a southern diagonal step the damage is confined to the first and the last row. */
  lemma SouthDiagonalMiddleRight(w: nat, h: nat, g: Grid, before: Passable, after: Passable, from: Pos, to: Pos, i: int, j: int)
    requires OneStep(from, to) && SouthDiagonal(from, to)
    requires SameElsewhere(before, after, from, to) && Right(w, h, g, before, from)
    requires InWindow(w, h, i, j) && 0 < i < 2 * h && (i, j) != (h, w)
    ensures RightAt(w, h, Shifted(w, h, g, after, from, to), after, to, i, j)
  {
    if TileOf(w, h, to, i, j) != from {
      assert RightAt(w, h, g, before, from, i + to.y - from.y, j + to.x - from.x)
             || !InWindow(w, h, i + to.y - from.y, j + to.x - from.x);
      assert TileOf(w, h, from, i + to.y - from.y, j + to.x - from.x) == TileOf(w, h, to, i, j);
    }
  }

  // ----- the creature ---------------------------------------------------------------------------

  class Creature {
    const w: nat                        // maxWalkCacheWidth
    const h: nat                        // maxWalkCacheHeight
    const cache: array2<bool>           // localMapCache, rows first
    var position: Pos

    ghost predicate Shape() {
      cache.Length0 == 2 * h + 1 && cache.Length1 == 2 * w + 1
    }

    constructor (w: nat, h: nat, at: Pos)
      ensures this.w == w && this.h == h && Shape() && fresh(cache) && position == at
    {
      this.w, this.h, position := w, h, at;
      cache := new bool[2 * h + 1, 2 * w + 1]((_, _) => false);
    }

    /** The cache holds the bits of `g`. */
    ghost predicate Holds(g: Grid)
      requires Shape()
      reads cache
    {
      forall i, j :: 0 <= i < cache.Length0 && 0 <= j < cache.Length1 ==> cache[i, j] == g(i, j)
    }

    method UpdateTileCache(walkable: bool, dx: int, dy: int)
      requires Shape()
      modifies cache
      ensures forall i, j :: 0 <= i < cache.Length0 && 0 <= j < cache.Length1 ==>
                cache[i, j] == if (i, j) == (h + dy, w + dx) then walkable else old(cache[i, j])
    {
      if Abs(dx) <= w && Abs(dy) <= h {
        cache[h + dy, w + dx] := walkable;
      }
    }

    /** Reads one row of tiles. */
    method ReadRow(can: Passable, dy: int)
      requires Shape() && 0 <= h + dy <= 2 * h
      modifies cache
      ensures forall i, j :: 0 <= i < cache.Length0 && 0 <= j < cache.Length1 ==>
                cache[i, j] == if i == h + dy then can(TileOf(w, h, position, i, j)) else old(cache[i, j])
    {
      var x := 0 - w;
      while x <= w
        invariant 0 <= w + x <= 2 * w + 1
        invariant forall i, j :: 0 <= i < cache.Length0 && 0 <= j < cache.Length1 ==>
                    cache[i, j] == if i == h + dy && j < w + x then can(TileOf(w, h, position, i, j)) else old(cache[i, j])
      {
        UpdateTileCache(can(Pos(position.x + x, position.y + dy)), x, dy);
        x := x + 1;
      }
    }

    /** Reads one column of tiles. */
    method ReadColumn(can: Passable, dx: int)
      requires Shape() && 0 <= w + dx <= 2 * w
      modifies cache
      ensures forall i, j :: 0 <= i < cache.Length0 && 0 <= j < cache.Length1 ==>
                cache[i, j] == if j == w + dx then can(TileOf(w, h, position, i, j)) else old(cache[i, j])
    {
      var y := 0 - h;
      while y <= h
        invariant 0 <= h + y <= 2 * h + 1
        invariant forall i, j :: 0 <= i < cache.Length0 && 0 <= j < cache.Length1 ==>
                    cache[i, j] == if j == w + dx && i < h + y then can(TileOf(w, h, position, i, j)) else old(cache[i, j])
      {
        UpdateTileCache(can(Pos(position.x + dx, position.y + y)), dx, y);
        y := y + 1;
      }
    }

    /** `updateMapCache`: the whole window is read. */
    method UpdateMapCache(can: Passable)
      requires Shape()
      modifies cache
      ensures Holds(Rebuilt(w, h, can, position))
    {
      var y := 0 - h;
      while y <= h
        invariant 0 <= h + y <= 2 * h + 1
        invariant forall i, j :: 0 <= i < h + y && 0 <= j < cache.Length1 ==> cache[i, j] == can(TileOf(w, h, position, i, j))
      {
        ReadRow(can, y);
        y := y + 1;
      }
    }

    method ShiftSouth()
      requires Shape()
      modifies cache
      ensures forall i, j :: 1 <= i < cache.Length0 && 0 <= j < cache.Length1 ==> cache[i, j] == old(cache[i - 1, j])
    {
      var y := cache.Length0 - 1;
      while y > 0
        invariant 0 <= y < cache.Length0
        invariant forall i, j :: y < i < cache.Length0 && 0 <= j < cache.Length1 ==> cache[i, j] == old(cache[i - 1, j])
        invariant forall i, j :: 0 <= i <= y && 0 <= j < cache.Length1 ==> cache[i, j] == old(cache[i, j])
      {
        y := y - 1;
        forall j | 0 <= j < cache.Length1 { cache[y + 1, j] := cache[y, j]; }
      }
    }

    method ShiftNorth()
      requires Shape()
      modifies cache
      ensures forall i, j :: 0 <= i < cache.Length0 - 1 && 0 <= j < cache.Length1 ==> cache[i, j] == old(cache[i + 1, j])
    {
      var y := 0;
      while y <= cache.Length0 - 2
        invariant 0 <= y <= cache.Length0 - 1
        invariant forall i, j :: 0 <= i < y && 0 <= j < cache.Length1 ==> cache[i, j] == old(cache[i + 1, j])
        invariant forall i, j :: y <= i < cache.Length0 && 0 <= j < cache.Length1 ==> cache[i, j] == old(cache[i, j])
      {
        forall j | 0 <= j < cache.Length1 { cache[y, j] := cache[y + 1, j]; }
        y := y + 1;
      }
    }

    /** Moves one row a column to the left. */
    method ShiftRowWest(y: nat)
      requires Shape() && y < cache.Length0
      modifies cache
      ensures forall i, j :: 0 <= i < cache.Length0 && 0 <= j < cache.Length1 && i != y ==> cache[i, j] == old(cache[i, j])
      ensures forall j :: 0 <= j < cache.Length1 - 1 ==> cache[y, j] == old(cache[y, j + 1])
    {
      var x := 0;
      while x <= cache.Length1 - 2
        invariant 0 <= x <= cache.Length1 - 1
        invariant forall i, j :: 0 <= i < cache.Length0 && 0 <= j < cache.Length1 && i != y ==> cache[i, j] == old(cache[i, j])
        invariant forall j :: 0 <= j < x ==> cache[y, j] == old(cache[y, j + 1])
        invariant forall j :: x <= j < cache.Length1 ==> cache[y, j] == old(cache[y, j])
      {
        cache[y, x] := cache[y, x + 1];
        x := x + 1;
      }
    }

    /** Moves one row a column to the right. */
    method ShiftRowEast(y: nat)
      requires Shape() && y < cache.Length0
      modifies cache
      ensures forall i, j :: 0 <= i < cache.Length0 && 0 <= j < cache.Length1 && i != y ==> cache[i, j] == old(cache[i, j])
      ensures forall j :: 1 <= j < cache.Length1 ==> cache[y, j] == old(cache[y, j - 1])
    {
      var x := cache.Length1 - 1;
      while x > 0
        invariant 0 <= x < cache.Length1
        invariant forall i, j :: 0 <= i < cache.Length0 && 0 <= j < cache.Length1 && i != y ==> cache[i, j] == old(cache[i, j])
        invariant forall j :: x < j < cache.Length1 ==> cache[y, j] == old(cache[y, j - 1])
        invariant forall j :: 0 <= j <= x ==> cache[y, j] == old(cache[y, j])
      {
        x := x - 1;
        cache[y, x + 1] := cache[y, x];
      }
    }

    method ShiftRowsWest(starty: nat)
      requires Shape()
      modifies cache
      ensures forall i, j :: 0 <= i < cache.Length0 && 0 <= j < cache.Length1 - 1 ==>
                cache[i, j] == old(cache[i, if starty <= i then j + 1 else j])
    {
      var y := starty;
      while y < cache.Length0
        invariant starty <= y && (y <= cache.Length0 || y == starty)
        invariant forall i, j :: 0 <= i < y && i < cache.Length0 && 0 <= j < cache.Length1 - 1 ==>
                    cache[i, j] == old(cache[i, if starty <= i then j + 1 else j])
        invariant forall i, j :: y <= i < cache.Length0 && 0 <= j < cache.Length1 ==> cache[i, j] == old(cache[i, j])
      {
        ShiftRowWest(y);
        y := y + 1;
      }
    }

    method ShiftRowsEast(starty: nat)
      requires Shape()
      modifies cache
      ensures forall i, j :: 0 <= i < cache.Length0 && 1 <= j < cache.Length1 ==>
                cache[i, j] == old(cache[i, if starty <= i then j - 1 else j])
    {
      var y := starty;
      while y < cache.Length0
        invariant starty <= y && (y <= cache.Length0 || y == starty)
        invariant forall i, j :: 0 <= i < y && i < cache.Length0 && 1 <= j < cache.Length1 ==>
                    cache[i, j] == old(cache[i, if starty <= i then j - 1 else j])
        invariant forall i, j :: y <= i < cache.Length0 && 0 <= j < cache.Length1 ==> cache[i, j] == old(cache[i, j])
      {
        ShiftRowEast(y);
        y := y + 1;
      }
    }

    /** The vertical half of the shift. */
    method MoveRows(can: Passable, from: Pos, ghost g: Grid)
      requires Shape() && Holds(g)
      modifies cache
      ensures Holds(RowGrid(w, h, g, can, from, position))
    {
      if from.y > position.y {
        ShiftSouth();
        ReadRow(can, 0 - h);
      } else if from.y < position.y {
        ShiftNorth();
        ReadRow(can, h);
      }
    }

    /** The horizontal half of the shift. */
    method MoveColumns(can: Passable, from: Pos, ghost g: Grid)
      requires Shape() && Holds(RowGrid(w, h, g, can, from, position))
      modifies cache
      ensures Holds(ColumnGrid(w, h, g, can, from, position))
    {
      var starty := DistanceY(from, position);
      if from.x < position.x {
        ShiftRowsWest(starty);
        ReadColumn(can, w);
      } else if from.x > position.x {
        ShiftRowsEast(starty);
        ReadColumn(can, 0 - w);
      }
    }

    /** The cache part of `onCreatureMove`, after the creature was put on its new tile. */
    method OnStep(can: Passable, from: Pos, ghost g: Grid)
      requires Shape() && Holds(g)
      modifies cache
      ensures Holds(Shifted(w, h, g, can, from, position))
    {
      MoveRows(can, from, g);
      MoveColumns(can, from, g);
      RereadOldTile(can, from, g);
    }

    method RereadOldTile(can: Passable, from: Pos, ghost g: Grid)
      requires Shape() && Holds(ColumnGrid(w, h, g, can, from, position))
      modifies cache
      ensures Holds(Shifted(w, h, g, can, from, position))
    {
      var dx, dy := from.x - position.x, from.y - position.y;
      ghost var c, to := ColumnGrid(w, h, g, can, from, position), position;
      UpdateTileCache(can(from), dx, dy);
      forall i, j | 0 <= i < cache.Length0 && 0 <= j < cache.Length1
        ensures cache[i, j] == Shifted(w, h, g, can, from, to)(i, j)
      {
        OldTileCell(w, h, g, can, from, to, i, j);
        assert cache[i, j] == if (i, j) == (h + dy, w + dx) then can(from) else c(i, j);
      }
    }

    /**
      Follows a creature that takes one step.  Unless the step is a southern diagonal, the shift does for
      every answer of the cache what a rebuild would do.
      */
    method Step(can: Passable, to: Pos, ghost g: Grid, ghost before: Passable)
      requires Shape() && Holds(g) && OneStep(position, to)
      requires SameElsewhere(before, can, position, to) && Right(w, h, g, before, position)
      modifies this, cache
      ensures position == to && Holds(Shifted(w, h, g, can, old(position), to))
      ensures !SouthDiagonal(old(position), to) ==>
                && Right(w, h, Shifted(w, h, g, can, old(position), to), can, to)
                && forall p ::
                     && WalkAnswer(w, h, Shifted(w, h, g, can, old(position), to), to, p)
                        == WalkAnswer(w, h, Rebuilt(w, h, can, to), to, p)
                     && Truthful(WalkAnswer(w, h, Shifted(w, h, g, can, old(position), to), to, p), w, h, can, to, p)
    {
      var from := position;
      position := to;
      OnStep(can, from, g);
      if !SouthDiagonal(from, to) {
        ShiftIsRebuild(w, h, g, before, can, from, to);
        forall p
          ensures WalkAnswer(w, h, Shifted(w, h, g, can, from, to), to, p) == WalkAnswer(w, h, Rebuilt(w, h, can, to), to, p)
          ensures Truthful(WalkAnswer(w, h, Shifted(w, h, g, can, from, to), to, p), w, h, can, to, p)
        {
          TruthfulAnswers(w, h, Shifted(w, h, g, can, from, to), can, to, p);
          SameAnswers(w, h, Shifted(w, h, g, can, from, to), can, to, p);
        }
      }
    }

    /** `getWalkCache` on the creature's own floor: 0 blocked, 1 free, 2 not known. */
    method GetWalkCache(p: Pos, ghost g: Grid) returns (r: int)
      requires Shape() && Holds(g)
      ensures r == WalkAnswer(w, h, g, position, p)
    {
      if p == position {
        return 1;
      }
      var dx := p.x - position.x;
      if Abs(dx) <= w {
        var dy := p.y - position.y;
        if Abs(dy) <= h {
          return if cache[h + dy, w + dx] then 1 else 0;
        }
      }
      return 2;
    }
  }

  lemma OldTileCell(w: nat, h: nat, g: Grid, can: Passable, from: Pos, to: Pos, i: int, j: int)
    ensures Shifted(w, h, g, can, from, to)(i, j)
            == if (i, j) == (h + from.y - to.y, w + from.x - to.x) then can(from)
               else ColumnGrid(w, h, g, can, from, to)(i, j)
  {}

  function RowGrid(w: nat, h: nat, g: Grid, can: Passable, from: Pos, to: Pos): Grid {
    (i, j) => RowShifted(w, h, g, can, from, to, i, j)
  }

  function ColumnGrid(w: nat, h: nat, g: Grid, can: Passable, from: Pos, to: Pos): Grid {
    (i, j) => ColumnShifted(w, h, g, can, from, to, DistanceY(from, to), i, j)
  }

  function Rebuilt(w: nat, h: nat, can: Passable, at: Pos): Grid {
    (i, j) => can(TileOf(w, h, at, i, j))
  }

  ghost function WalkAnswer(w: nat, h: nat, g: Grid, at: Pos, p: Pos): int {
    if p == at then 1
    else if Abs(p.x - at.x) <= w && Abs(p.y - at.y) <= h then (if g(h + p.y - at.y, w + p.x - at.x) then 1 else 0)
    else 2
  }

  /** The answer is 1 where the creature is or can walk, 0 where it cannot, and 2 outside the window. */
  ghost predicate Truthful(r: int, w: nat, h: nat, can: Passable, at: Pos, p: Pos) {
    var inside := at.x - w <= p.x <= at.x + w && at.y - h <= p.y <= at.y + h;
    && (r == 1 <==> p == at || (inside && can(p)))
    && (r == 0 <==> p != at && inside && !can(p))
    && (r == 2 <==> p != at && !inside)
  }

  lemma TruthfulAnswers(w: nat, h: nat, g: Grid, can: Passable, at: Pos, p: Pos)
    requires Right(w, h, g, can, at)
    ensures Truthful(WalkAnswer(w, h, g, at, p), w, h, can, at, p)
  {
    if p != at && Abs(p.x - at.x) <= w && Abs(p.y - at.y) <= h {
      assert RightAt(w, h, g, can, at, h + p.y - at.y, w + p.x - at.x);
    }
  }

  /** A right cache gives every answer that a rebuilt one gives. */
  lemma SameAnswers(w: nat, h: nat, g: Grid, can: Passable, at: Pos, p: Pos)
    requires Right(w, h, g, can, at)
    ensures WalkAnswer(w, h, g, at, p) == WalkAnswer(w, h, Rebuilt(w, h, can, at), at, p)
  {
    if p != at && Abs(p.x - at.x) <= w && Abs(p.y - at.y) <= h {
      assert RightAt(w, h, g, can, at, h + p.y - at.y, w + p.x - at.x);
    }
  }
}
