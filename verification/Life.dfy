/** The Game of Life world on a 40 by 80 torus, kept as the set of living cells. */
module Life {
  import opened Options
  import opened Sorting

  const ROWS: int := 40
  const COLS: int := 80

  type Cell = (int, int)
  type Grid = set<Cell>

  predicate InRange(x: Cell) { 0 <= x.0 < ROWS && 0 <= x.1 < COLS }

  ghost predicate OnTorus(g: Grid) { forall x :: x in g ==> InRange(x) }

  /** The cell dr rows and dc columns away, wrapping at the edges. */
  function Shift(x: Cell, dr: int, dc: int): (y: Cell)
    ensures InRange(y)
  {
    ((x.0 + dr) % ROWS, (x.1 + dc) % COLS)
  }

  // ---------------------------------------------------------------------
  // The dense rule
  // ---------------------------------------------------------------------

  function One(b: bool): nat { if b then 1 else 0 }

  /** 1 if the neighbour dr rows and dc columns away lives. */
  function LiveAt(g: Grid, x: Cell, dr: int, dc: int): nat { One(Shift(x, dr, dc) in g) }

  /** How many of a cell's eight neighbours live. */
  function LiveNeighbours(g: Grid, x: Cell): nat {
    LiveAt(g, x, -1, -1) + LiveAt(g, x, -1, 0) + LiveAt(g, x, -1, 1) + LiveAt(g, x, 0, -1)
    + LiveAt(g, x, 0, 1) + LiveAt(g, x, 1, -1) + LiveAt(g, x, 1, 0) + LiveAt(g, x, 1, 1)
  }

  predicate LivesOn(g: Grid, x: Cell) {
    LiveNeighbours(g, x) == 3 || (LiveNeighbours(g, x) == 2 && x in g)
  }

  /** The next generation: every cell of the torus, judged by the rule. */
  function Step(g: Grid): (next: Grid)
    ensures OnTorus(next)
  {
    set r, c | 0 <= r < ROWS && 0 <= c < COLS && LivesOn(g, (r, c)) :: (r, c)
  }

  lemma StepHolds(g: Grid, x: Cell)
    ensures x in Step(g) <==> InRange(x) && LivesOn(g, x)
  {
    hide LivesOn;
    assert x == (x.0, x.1);
  }

  /** Two rows, or two columns, are next to each other or the same, on a ring of n. */
  predicate Near(a: int, b: int, n: int) { b == a || b == a + 1 || b == a - 1 || b == a + 1 - n || b == a - 1 + n }

  /** Two different cells touch, at a side or a corner, the edges of the torus joined. */
  predicate Touches(x: Cell, y: Cell) { y != x && Near(x.0, y.0, 40) && Near(x.1, y.1, 80) }

  function Around(x: Cell): seq<Cell> {
    [Shift(x, -1, -1), Shift(x, -1, 0), Shift(x, -1, 1), Shift(x, 0, -1),
     Shift(x, 0, 1), Shift(x, 1, -1), Shift(x, 1, 0), Shift(x, 1, 1)]
  }

  function Living(g: Grid, cells: seq<Cell>): nat {
    if cells == [] then 0 else Living(g, cells[..|cells| - 1]) + One(cells[|cells| - 1] in g)
  }

  ghost predicate Differ(cells: seq<Cell>) { forall i, j :: 0 <= i < j < |cells| ==> cells[i] != cells[j] }

  lemma {:induction false} LivingIsASetSize(g: Grid, cells: seq<Cell>)
    requires Differ(cells)
    ensures Living(g, cells) == |set y | y in g && y in cells|
  {
    if cells == [] {
      assert (set y | y in g && y in cells) == {};
    } else {
      var most, last := cells[..|cells| - 1], cells[|cells| - 1];
      LivingIsASetSize(g, most);
      OneMoreLiving(g, most, last);
      assert cells == most + [last];
    }
  }

  lemma OneMoreLiving(g: Grid, cells: seq<Cell>, x: Cell)
    requires x !in cells
    ensures |set y | y in g && y in cells + [x]| == |set y | y in g && y in cells| + One(x in g)
  {
    var before, after := (set y | y in g && y in cells), (set y | y in g && y in cells + [x]);
    assert after == if x in g then before + {x} else before;
  }

  lemma ShiftIsNear(x: Cell, dr: int, dc: int)
    requires InRange(x) && -1 <= dr <= 1 && -1 <= dc <= 1
    ensures Near(x.0, Shift(x, dr, dc).0, 40) && Near(x.1, Shift(x, dr, dc).1, 80)
    ensures forall er, ec :: -1 <= er <= 1 && -1 <= ec <= 1 && Shift(x, er, ec) == Shift(x, dr, dc) ==>
      er == dr && ec == dc
  {
  }

  lemma NearIsAShift(a: int, b: int, n: int) returns (d: int)
    requires (n == 40 || n == 80) && 0 <= a < n && 0 <= b < n && Near(a, b, n)
    ensures -1 <= d <= 1 && (a + d) % n == b && (d == 0 <==> a == b)
  {
    d := if b == a then 0 else if b == a + 1 || b == a + 1 - n then 1 else -1;
  }

  lemma AroundTouches(x: Cell)
    requires InRange(x)
    ensures Differ(Around(x))
    ensures forall k :: 0 <= k < |Around(x)| ==> Touches(x, Around(x)[k])
  {
    ShiftIsNear(x, -1, -1);
    ShiftIsNear(x, -1, 0);
    ShiftIsNear(x, -1, 1);
    ShiftIsNear(x, 0, -1);
    ShiftIsNear(x, 0, 1);
    ShiftIsNear(x, 1, -1);
    ShiftIsNear(x, 1, 0);
    ShiftIsNear(x, 1, 1);
    ShiftByNothing(x);
    assert Shift(x, 0, 0) == x;
    hide Shift, Near;
  }

  lemma TouchingIsAround(x: Cell, y: Cell)
    requires InRange(x) && InRange(y) && Touches(x, y)
    ensures y in Around(x)
  {
    var dr := NearIsAShift(x.0, y.0, 40);
    var dc := NearIsAShift(x.1, y.1, 80);
    assert y == Shift(x, dr, dc);
    hide Shift, Near;
  }

  lemma LivingAround(g: Grid, x: Cell)
    ensures Living(g, Around(x)) == LiveNeighbours(g, x)
  {
    var a := Around(x);
    assert |a| == 8;
    hide Shift, One;
    LivingUpTo(g, a, 0);
    LivingUpTo(g, a, 1);
    LivingUpTo(g, a, 2);
    LivingUpTo(g, a, 3);
    LivingUpTo(g, a, 4);
    LivingUpTo(g, a, 5);
    LivingUpTo(g, a, 6);
    LivingUpTo(g, a, 7);
    assert a[..8] == a && a[..0] == [];
  }

  lemma LivingUpTo(g: Grid, cells: seq<Cell>, i: nat)
    requires i < |cells|
    ensures Living(g, cells[..i + 1]) == Living(g, cells[..i]) + One(cells[i] in g)
  {
    assert cells[..i + 1][..i] == cells[..i];
  }

  /** A cell of the next generation is one of the torus with three living cells touching
      it, or with two and alive itself. */
  lemma NextLivesByItsNeighbours(g: Grid, x: Cell)
    requires OnTorus(g)
    ensures x in Step(g) <==>
      && 0 <= x.0 < 40 && 0 <= x.1 < 80
      && var n := |set y | y in g && Touches(x, y)|; n == 3 || (n == 2 && x in g)
  {
    StepHolds(g, x);
    hide Step;
    if InRange(x) {
      AroundTouches(x);
      LivingIsASetSize(g, Around(x));
      LivingAround(g, x);
      hide Around, Living, LiveNeighbours, Touches;
      assert (set y | y in g && y in Around(x)) == (set y | y in g && Touches(x, y)) by {
        forall y | y in g && Touches(x, y)
          ensures y in Around(x)
        {
          TouchingIsAround(x, y);
        }
      }
    }
  }

  // ---------------------------------------------------------------------
  // The sparse loop
  // ---------------------------------------------------------------------

  type Counts = map<Cell, nat>

  function Get(counts: Counts, x: Cell): nat { if x in counts then counts[x] else 0 }

  /** How often a cell's first p offsets, in loop order and without the centre, hit x. */
  function Hits(cell: Cell, x: Cell, p: nat): nat {
    if p == 0 then 0 else Hits(cell, x, p - 1) + Hit(cell, x, RowOf(p - 1), p - 1 - 3 * (RowOf(p - 1) + 1) - 1)
  }

  /** The row offset of the loop's p-th turn. */
  function RowOf(p: nat): int { if p < 3 then -1 else if p < 6 then 0 else 1 }

  function Hit(cell: Cell, x: Cell, dr: int, dc: int): nat { One(!(dr == 0 && dc == 0) && Shift(cell, dr, dc) == x) }

  lemma OneMoreHit(cell: Cell, x: Cell, dr: int, dc: int)
    requires -1 <= dr <= 1 && -1 <= dc <= 1
    ensures Hits(cell, x, 3 * (dr + 1) + dc + 2) == Hits(cell, x, 3 * (dr + 1) + dc + 1) + Hit(cell, x, dr, dc)
  {
    var p := 3 * (dr + 1) + dc + 1;
    assert RowOf(p) == dr && p - 3 * (RowOf(p) + 1) - 1 == dc;
    hide Hit;
  }

  /** Being a neighbour is mutual: going dr and dc from one cell leads to the other
      exactly when going back from the other leads to it. */
  lemma NeighboursAreMutual(cell: Cell, x: Cell, dr: int, dc: int)
    requires InRange(cell) && InRange(x) && -1 <= dr <= 1 && -1 <= dc <= 1 && !(dr == 0 && dc == 0)
    ensures Hit(cell, x, dr, dc) == LiveAt({cell}, x, -dr, -dc)
  {
  }

  lemma AllHits(cell: Cell, x: Cell)
    ensures Hits(cell, x, 9)
         == Hit(cell, x, -1, -1) + Hit(cell, x, -1, 0) + Hit(cell, x, -1, 1) + Hit(cell, x, 0, -1)
          + Hit(cell, x, 0, 1) + Hit(cell, x, 1, -1) + Hit(cell, x, 1, 0) + Hit(cell, x, 1, 1)
  {
    OneMoreHit(cell, x, -1, -1);
    OneMoreHit(cell, x, -1, 0);
    OneMoreHit(cell, x, -1, 1);
    OneMoreHit(cell, x, 0, -1);
    OneMoreHit(cell, x, 0, 0);
    OneMoreHit(cell, x, 0, 1);
    OneMoreHit(cell, x, 1, -1);
    OneMoreHit(cell, x, 1, 0);
    OneMoreHit(cell, x, 1, 1);
    assert Hits(cell, x, 0) == 0 && Hit(cell, x, 0, 0) == 0;
    hide Hits, Hit;
  }

  /** A cell adds to a count exactly as often as it is that cell's neighbour. */
  lemma HitsAreNeighbours(cell: Cell, x: Cell)
    requires InRange(cell) && InRange(x)
    ensures Hits(cell, x, 9) == LiveNeighbours({cell}, x)
  {
    hide Hits, Hit, LiveAt;
    AllHits(cell, x);
    NeighboursAreMutual(cell, x, -1, -1);
    NeighboursAreMutual(cell, x, -1, 0);
    NeighboursAreMutual(cell, x, -1, 1);
    NeighboursAreMutual(cell, x, 0, -1);
    NeighboursAreMutual(cell, x, 0, 1);
    NeighboursAreMutual(cell, x, 1, -1);
    NeighboursAreMutual(cell, x, 1, 0);
    NeighboursAreMutual(cell, x, 1, 1);
  }

  lemma LiveAtAdds(g: Grid, cell: Cell, x: Cell, dr: int, dc: int)
    requires cell !in g
    ensures LiveAt(g + {cell}, x, dr, dc) == LiveAt(g, x, dr, dc) + LiveAt({cell}, x, dr, dc)
  {
  }

  lemma NeighboursAdd(g: Grid, cell: Cell, x: Cell)
    requires cell !in g
    ensures LiveNeighbours(g + {cell}, x) == LiveNeighbours(g, x) + LiveNeighbours({cell}, x)
  {
    hide LiveAt;
    LiveAtAdds(g, cell, x, -1, -1);
    LiveAtAdds(g, cell, x, -1, 0);
    LiveAtAdds(g, cell, x, -1, 1);
    LiveAtAdds(g, cell, x, 0, -1);
    LiveAtAdds(g, cell, x, 0, 1);
    LiveAtAdds(g, cell, x, 1, -1);
    LiveAtAdds(g, cell, x, 1, 0);
    LiveAtAdds(g, cell, x, 1, 1);
  }

  /** Only cells of the torus are counted, and no count is zero. */
  ghost predicate Proper(counts: Counts) {
    forall x :: x in counts ==> InRange(x) && counts[x] > 0
  }

  /** Every cell's count is its number of neighbours in g. */
  ghost predicate Counted(counts: Counts, g: Grid) {
    forall x :: InRange(x) ==> Get(counts, x) == LiveNeighbours(g, x)
  }

  ghost predicate HitOn(before: Counts, after: Counts, cell: Cell, p: nat) {
    forall x :: Get(after, x) == Get(before, x) + Hits(cell, x, p)
  }

  lemma NoHits(counts: Counts, cell: Cell)
    ensures HitOn(counts, counts, cell, 0)
  {
  }

  lemma OneMoreCount(before: Counts, counts: Counts, cell: Cell, dr: int, dc: int)
    requires -1 <= dr <= 1 && -1 <= dc <= 1 && HitOn(before, counts, cell, 3 * (dr + 1) + dc + 1)
    ensures var n := Shift(cell, dr, dc);
      var after := if dr == 0 && dc == 0 then counts else counts[n := Get(counts, n) + 1];
      HitOn(before, after, cell, 3 * (dr + 1) + dc + 2)
  {
    hide Hits, Shift;
    var n := Shift(cell, dr, dc);
    var after := if dr == 0 && dc == 0 then counts else counts[n := Get(counts, n) + 1];
    forall x
      ensures Get(after, x) == Get(before, x) + Hits(cell, x, 3 * (dr + 1) + dc + 2)
    {
      OneMoreHit(cell, x, dr, dc);
    }
  }

  /** One live cell's turn: each of its eight neighbours is counted once. */
  method CountNeighbours(before: Counts, cell: Cell) returns (counts: Counts)
    requires Proper(before)
    ensures Proper(counts) && HitOn(before, counts, cell, 9)
  {
    hide HitOn;
    counts := before;
    NoHits(before, cell);
    for dr := -1 to 2
      invariant Proper(counts) && HitOn(before, counts, cell, 3 * (dr + 1))
    {
      for dc := -1 to 2
        invariant Proper(counts) && HitOn(before, counts, cell, 3 * (dr + 1) + dc + 1)
      {
        OneMoreCount(before, counts, cell, dr, dc);
        if dr == 0 && dc == 0 {
          continue;
        }
        var n := Shift(cell, dr, dc);
        counts := counts[n := Get(counts, n) + 1];
      }
    }
  }

  lemma TurnCountsTheCell(before: Counts, after: Counts, g: Grid, cell: Cell)
    requires Counted(before, g) && HitOn(before, after, cell, 9) && InRange(cell) && cell !in g
    ensures Counted(after, g + {cell})
  {
    hide LiveNeighbours, Hits;
    forall x | InRange(x)
      ensures Get(after, x) == LiveNeighbours(g + {cell}, x)
    {
      HitsAreNeighbours(cell, x);
      NeighboursAdd(g, cell, x);
    }
  }

  lemma NothingCounted()
    ensures Counted(map[], {})
  {
  }

  ghost predicate Called(counts: Counts, grid: Grid, x: Cell) {
    x in counts && (counts[x] == 3 || (counts[x] == 2 && x in grid))
  }

  lemma CalledAreTheNext(counts: Counts, grid: Grid, next: Grid)
    requires Proper(counts) && Counted(counts, grid) && forall x :: x in next <==> Called(counts, grid, x)
    ensures next == Step(grid)
  {
    hide LiveNeighbours, Step, InRange;
    forall x
      ensures x in next <==> x in Step(grid)
    {
      StepHolds(grid, x);
    }
  }

  /** evolve: count neighbours around the living cells only, then keep the cells the
      counts call for. It is the dense rule over the whole torus. */
  method Evolve(grid: Grid) returns (next: Grid)
    requires OnTorus(grid)
    ensures next == Step(grid)
  {
    hide Counted, HitOn, Step, Proper, Called;
    var counts: Counts := map[];
    var left := grid;
    NothingCounted();
    assert Proper(counts) by {
      NothingImproper();
    }
    assert grid - left == {};
    while left != {}
      invariant left <= grid && Proper(counts) && Counted(counts, grid - left)
      decreases left
    {
      var cell :| cell in left;
      ghost var was := counts;
      counts := CountNeighbours(counts, cell);
      TurnCountsTheCell(was, counts, grid - left, cell);
      assert grid - (left - {cell}) == (grid - left) + {cell};
      left := left - {cell};
    }
    assert grid - left == grid;
    next := KeepLiving(counts, grid);
    CalledAreTheNext(counts, grid, next);
  }

  lemma NothingImproper()
    ensures Proper(map[])
  {
  }

  method KeepLiving(counts: Counts, grid: Grid) returns (next: Grid)
    ensures forall x :: x in next <==> Called(counts, grid, x)
  {
    next := {};
    var cells := counts.Keys;
    while cells != {}
      invariant cells <= counts.Keys
      invariant forall x :: x in next <==> x !in cells && Called(counts, grid, x)
      decreases cells
    {
      var cell :| cell in cells;
      var count := counts[cell];
      if count == 3 || (count == 2 && cell in grid) {
        next := next + {cell};
      }
      cells := cells - {cell};
    }
  }

  // ---------------------------------------------------------------------
  // Symmetry
  // ---------------------------------------------------------------------

  function Moved(g: Grid, a: int, b: int): Grid { set x | x in g :: Shift(x, a, b) }

  function Generations(g: Grid, n: nat): Grid { if n == 0 then g else Step(Generations(g, n - 1)) }

  lemma ShiftsAdd(x: Cell, a: int, b: int, dr: int, dc: int)
    ensures Shift(Shift(x, a, b), dr, dc) == Shift(x, a + dr, b + dc)
  {
    ModAdds(x.0 + a, dr, ROWS);
    ModAdds(x.1 + b, dc, COLS);
  }

  lemma ModAdds(x: int, d: int, n: int)
    requires n == ROWS || n == COLS
    ensures (x % n + d) % n == (x + d) % n
  {
  }

  lemma ShiftByNothing(x: Cell)
    requires InRange(x)
    ensures Shift(x, 0, 0) == x
  {
  }

  /** A neighbour of a moved cell is the moved neighbour, alive in the moved grid
      exactly when it was before. */
  lemma MovedNeighbour(g: Grid, x: Cell, a: int, b: int, dr: int, dc: int)
    requires OnTorus(g)
    ensures LiveAt(Moved(g, a, b), Shift(x, a, b), dr, dc) == LiveAt(g, x, dr, dc)
  {
    var y := Shift(x, dr, dc);
    ShiftsAdd(x, a, b, dr, dc);
    ShiftsAdd(x, dr, dc, a, b);
    MovedHolds(g, y, a, b);
    hide Shift;
    assert Shift(Shift(x, a, b), dr, dc) == Shift(y, a, b);
  }

  lemma MovedHolds(g: Grid, y: Cell, a: int, b: int)
    requires OnTorus(g) && InRange(y)
    ensures Shift(y, a, b) in Moved(g, a, b) <==> y in g
  {
    if Shift(y, a, b) in Moved(g, a, b) {
      var z :| z in g && Shift(z, a, b) == Shift(y, a, b);
      ShiftsAdd(y, a, b, -a, -b);
      ShiftsAdd(z, a, b, -a, -b);
      ShiftByNothing(y);
      ShiftByNothing(z);
      hide Shift;
    }
  }

  lemma MovedRule(g: Grid, x: Cell, a: int, b: int)
    requires OnTorus(g) && InRange(x)
    ensures LivesOn(Moved(g, a, b), Shift(x, a, b)) <==> LivesOn(g, x)
  {
    MovedNeighbour(g, x, a, b, -1, -1);
    MovedNeighbour(g, x, a, b, -1, 0);
    MovedNeighbour(g, x, a, b, -1, 1);
    MovedNeighbour(g, x, a, b, 0, -1);
    MovedNeighbour(g, x, a, b, 0, 1);
    MovedNeighbour(g, x, a, b, 1, -1);
    MovedNeighbour(g, x, a, b, 1, 0);
    MovedNeighbour(g, x, a, b, 1, 1);
    MovedHolds(g, x, a, b);
    hide LiveAt, Shift, Moved;
  }

  lemma MovedIsOnTorus(g: Grid, a: int, b: int)
    ensures OnTorus(Moved(g, a, b))
  {
  }

  lemma MovedBack(y: Cell, a: int, b: int)
    requires InRange(y)
    ensures Shift(Shift(y, -a, -b), a, b) == y
  {
    ShiftsAdd(y, -a, -b, a, b);
    ShiftByNothing(y);
  }

  lemma StepCommutesWithMoves(g: Grid, a: int, b: int)
    requires OnTorus(g)
    ensures Step(Moved(g, a, b)) == Moved(Step(g), a, b)
  {
    hide Shift, Moved, Step, LivesOn, InRange;
    MovedIsOnTorus(Step(g), a, b);
    forall y
      ensures y in Step(Moved(g, a, b)) <==> y in Moved(Step(g), a, b)
    {
      if InRange(y) {
        var x := Shift(y, -a, -b);
        MovedBack(y, a, b);
        StepHolds(Moved(g, a, b), y);
        StepHolds(g, x);
        MovedRule(g, x, a, b);
        MovedHolds(Step(g), x, a, b);
      }
    }
  }

  /** Moving a pattern anywhere on the torus moves its whole future with it. */
  lemma {:induction false} EvolutionCommutesWithMoves(g: Grid, a: int, b: int, n: nat)
    requires OnTorus(g)
    ensures Generations(Moved(g, a, b), n) == Moved(Generations(g, n), a, b)
    ensures OnTorus(Generations(g, n))
  {
    hide Moved, Step, OnTorus;
    if n > 0 {
      EvolutionCommutesWithMoves(g, a, b, n - 1);
      StepCommutesWithMoves(Generations(g, n - 1), a, b);
    }
  }

  // ---------------------------------------------------------------------
  // The published frame
  // ---------------------------------------------------------------------

  datatype Frame = Frame(generation: nat, population: nat, cells: seq<int>)

  function Index(x: Cell): int { x.0 * COLS + x.1 }

  function CellAt(i: int): Cell { (i / COLS, i % COLS) }

  /** The grid a receiver reads back from the published cells. */
  function Decoded(cells: seq<int>): Grid { set i | i in cells :: CellAt(i) }

  predicate IntLeq(a: int, b: int) { a <= b }

  ghost predicate StrictlyAscending(s: seq<int>) {
    forall i, j :: 0 <= i < j < |s| ==> s[i] < s[j]
  }

  lemma IndexDecodes(x: Cell)
    requires InRange(x)
    ensures CellAt(Index(x)) == x
  {
  }

  ghost predicate AllDifferent(s: seq<int>) {
    forall i, j :: 0 <= i < j < |s| ==> s[i] != s[j]
  }

  ghost predicate ListsAll(indices: seq<int>, g: Grid) {
    forall x :: x in g ==> Index(x) in indices
  }

  ghost predicate ListsOnly(indices: seq<int>, g: Grid) {
    forall k :: 0 <= k < |indices| ==> CellAt(indices[k]) in g
  }

  /** The indices list each cell of g once. */
  ghost predicate Lists(indices: seq<int>, g: Grid) {
    |indices| == |g| && AllDifferent(indices) && ListsAll(indices, g) && ListsOnly(indices, g)
  }

  lemma ListsOneMore(indices: seq<int>, g: Grid, cell: Cell)
    requires Lists(indices, g) && InRange(cell) && cell !in g
    ensures Lists(indices + [Index(cell)], g + {cell})
  {
    hide Index, CellAt, InRange;
    IndexDecodes(cell);
    assert ListsOnly(indices + [Index(cell)], g + {cell}) by {
      hide ListsAll, AllDifferent;
    }
    assert AllDifferent(indices + [Index(cell)]) by {
      hide ListsAll;
      assert Index(cell) !in indices;
    }
    assert ListsAll(indices + [Index(cell)], g + {cell}) by {
      hide ListsOnly;
    }
    hide ListsAll, ListsOnly, AllDifferent;
  }

  lemma ListsDecode(indices: seq<int>, g: Grid)
    requires OnTorus(g) && ListsAll(indices, g) && ListsOnly(indices, g)
    ensures Decoded(indices) == g
  {
    hide InRange, Index, CellAt;
    assert g <= Decoded(indices) by {
      hide ListsOnly;
      forall x | x in g
        ensures x in Decoded(indices)
      {
        IndexDecodes(x);
      }
    }
    hide ListsAll;
  }

  lemma SameMembersDecodeAlike(a: seq<int>, b: seq<int>)
    requires forall i :: i in a <==> i in b
    ensures Decoded(a) == Decoded(b)
  {
    hide CellAt;
  }

  /** The frame's cells are the grid's: in strictly ascending order, one for each
      living cell, and they decode back to it. */
  method GridToPayload(grid: Grid, generation: nat) returns (f: Frame)
    requires OnTorus(grid)
    ensures f.generation == generation && f.population == |grid| == |f.cells|
    ensures StrictlyAscending(f.cells) && Decoded(f.cells) == grid
    ensures forall x :: x in grid ==> 80 * x.0 + x.1 in f.cells
  {
    hide Index, CellAt, Sort, InRange, Lists, ListsAll, ListsOnly, AllDifferent, Decoded;
    var left, indices: seq<int> := grid, [];
    assert grid - left == {};
    NothingListed();
    while left != {}
      invariant left <= grid && Lists(indices, grid - left)
      decreases left
    {
      var cell :| cell in left;
      ListsOneMore(indices, grid - left, cell);
      assert grid - (left - {cell}) == (grid - left) + {cell};
      indices := indices + [Index(cell)];
      left := left - {cell};
    }
    assert grid - left == grid;
    ListsAreComplete(indices, grid);
    assert ListsAll(indices, grid) by {
      ListsThemAll(indices, grid);
    }
    SortedDistinct(indices);
    SameMembersDecodeAlike(Sort(indices, IntLeq), indices);
    f := Frame(generation, |grid|, Sort(indices, IntLeq));
    forall x | x in grid
      ensures 80 * x.0 + x.1 in f.cells
    {
      IndexIsListed(indices, grid, x);
    }
  }

  lemma ListsThemAll(indices: seq<int>, g: Grid)
    requires Lists(indices, g)
    ensures ListsAll(indices, g)
  {
    hide ListsAll;
  }

  lemma IndexIsListed(indices: seq<int>, g: Grid, x: Cell)
    requires ListsAll(indices, g) && x in g
    ensures 80 * x.0 + x.1 in indices
  {
    assert Index(x) == 80 * x.0 + x.1;
    hide Index;
  }

  lemma NothingListed()
    ensures Lists([], {})
  {
  }

  lemma ListsAreComplete(indices: seq<int>, g: Grid)
    requires OnTorus(g) && Lists(indices, g)
    ensures |indices| == |g| && AllDifferent(indices) && Decoded(indices) == g
  {
    ListsDecode(indices, g);
    hide ListsAll, ListsOnly, Decoded;
  }

  lemma SortedDistinct(s: seq<int>)
    requires AllDifferent(s)
    ensures StrictlyAscending(Sort(s, IntLeq)) && |Sort(s, IntLeq)| == |s|
    ensures forall x :: x in Sort(s, IntLeq) <==> x in s
  {
    var t := Sort(s, IntLeq);
    SortSorts(s, IntLeq);
    assert |t| == |multiset(t)| == |multiset(s)| == |s|;
    assert forall x :: x in t <==> x in multiset(t);
    assert forall x :: x in s <==> x in multiset(s);
    hide Sort;
    forall i, j | 0 <= i < j < |t|
      ensures t[i] < t[j]
    {
      assert IntLeq(t[i], t[j]);
      if t[i] == t[j] {
        TwiceIsTwo(t, i, j);
        DistinctIsOnce(s, t[i]);
      }
    }
  }

  lemma TwiceIsTwo(t: seq<int>, i: nat, j: nat)
    requires i < j < |t| && t[i] == t[j]
    ensures multiset(t)[t[i]] >= 2
  {
    assert t == t[..j] + t[j..];
    assert t[i] in t[..j] && t[i] in t[j..];
  }

  lemma {:induction false} DistinctIsOnce(s: seq<int>, x: int)
    requires AllDifferent(s)
    ensures multiset(s)[x] <= 1
  {
    if s != [] {
      DistinctIsOnce(s[1..], x);
      assert s == [s[0]] + s[1..];
      if s[0] == x {
        assert x !in s[1..];
        assert x !in multiset(s[1..]);
      }
    }
  }

  lemma HeadsAgree(a: seq<int>, b: seq<int>)
    requires StrictlyAscending(a) && StrictlyAscending(b) && Within(a, b) && Within(b, a) && a != [] && b != []
    ensures a[0] == b[0]
  {
    assert a[0] in b && b[0] in a;
  }

  lemma TailWithin(a: seq<int>, b: seq<int>)
    requires StrictlyAscending(a) && Within(a, b) && a != [] && b != [] && a[0] == b[0]
    ensures Within(a[1..], b[1..]) && StrictlyAscending(a[1..])
  {
    forall k | 0 <= k < |a| - 1
      ensures a[1..][k] in b[1..]
    {
      var i :| 0 <= i < |b| && b[i] == a[k + 1];
      assert b[1..][i - 1] == a[k + 1];
    }
  }

  /** Strictly ascending lists of the same cells are the same list, so the frame does
      not depend on the order the set is iterated in. */
  lemma {:induction false} AscendingListsAgree(a: seq<int>, b: seq<int>)
    requires StrictlyAscending(a) && StrictlyAscending(b) && Within(a, b) && Within(b, a)
    ensures a == b
  {
    hide StrictlyAscending, Within;
    if a != [] {
      WithinSomething(a, b);
    }
    if b != [] {
      WithinSomething(b, a);
      HeadsAgree(a, b);
      TailWithin(a, b);
      TailWithin(b, a);
      AscendingListsAgree(a[1..], b[1..]);
      assert a == [a[0]] + a[1..] && b == [b[0]] + b[1..];
    }
  }

  lemma WithinSomething(a: seq<int>, b: seq<int>)
    requires a != [] && Within(a, b)
    ensures b != []
  {
    assert a[0] in b;
  }

  ghost predicate Within(a: seq<int>, b: seq<int>) { forall k :: 0 <= k < |a| ==> a[k] in b }

  // ---------------------------------------------------------------------
  // The world
  // ---------------------------------------------------------------------

  function MaxRow(pattern: seq<Cell>): int {
    if pattern == [] then 0
    else if |pattern| == 1 || MaxRow(pattern[1..]) < pattern[0].0 then pattern[0].0
    else MaxRow(pattern[1..])
  }

  function MaxCol(pattern: seq<Cell>): int {
    if pattern == [] then 0
    else if |pattern| == 1 || MaxCol(pattern[1..]) < pattern[0].1 then pattern[0].1
    else MaxCol(pattern[1..])
  }

  /** The pattern's cells moved by an offset, those that fall off the torus left out:
      placing a pattern does not wrap. */
  function Placed(pattern: seq<Cell>, r: int, c: int): Grid {
    set x | x in pattern && InRange((x.0 + r, x.1 + c)) :: (x.0 + r, x.1 + c)
  }

  function Centred(pattern: seq<Cell>): Grid {
    Placed(pattern, (ROWS - MaxRow(pattern)) / 2, (COLS - MaxCol(pattern)) / 2)
  }

  /** A pattern no larger than the torus, written from the origin, keeps all its cells. */
  lemma CentredKeepsThePattern(pattern: seq<Cell>, x: Cell)
    requires MaxRow(pattern) < ROWS && MaxCol(pattern) < COLS
    requires x in pattern && x.0 >= 0 && x.1 >= 0
    ensures (x.0 + (ROWS - MaxRow(pattern)) / 2, x.1 + (COLS - MaxCol(pattern)) / 2) in Centred(pattern)
  {
    NoneIsLarger(pattern, x);
  }

  lemma {:induction false} NoneIsLarger(pattern: seq<Cell>, x: Cell)
    requires x in pattern
    ensures x.0 <= MaxRow(pattern) && x.1 <= MaxCol(pattern)
  {
    if x in pattern[1..] {
      NoneIsLarger(pattern[1..], x);
    }
  }

  /** The largest row and column are those of some of its cells. */
  lemma {:induction false} SomeIsAsLarge(pattern: seq<Cell>)
    requires pattern != []
    ensures exists k :: 0 <= k < |pattern| && pattern[k].0 == MaxRow(pattern)
    ensures exists k :: 0 <= k < |pattern| && pattern[k].1 == MaxCol(pattern)
  {
    assert pattern[0] in pattern;
    if |pattern| > 1 {
      var rest := pattern[1..];
      SomeIsAsLarge(rest);
      assert forall k :: 0 <= k < |rest| ==> rest[k] == pattern[k + 1];
    }
  }

  /** The row and the column are the largest of the pattern's, or 0 where it has none. */
  ghost predicate Largest(pattern: seq<Cell>, top: int, left: int) {
    if pattern == [] then top == 0 && left == 0
    else
      && (forall k :: 0 <= k < |pattern| ==> pattern[k].0 <= top && pattern[k].1 <= left)
      && (exists k :: 0 <= k < |pattern| && pattern[k].0 == top)
      && (exists k :: 0 <= k < |pattern| && pattern[k].1 == left)
  }

  lemma LargestIsMax(pattern: seq<Cell>, top: int, left: int)
    requires Largest(pattern, top, left)
    ensures top == MaxRow(pattern) && left == MaxCol(pattern)
  {
    if pattern != [] {
      SomeIsAsLarge(pattern);
      var i :| 0 <= i < |pattern| && pattern[i].0 == top;
      var j :| 0 <= j < |pattern| && pattern[j].1 == left;
      NoneIsLarger(pattern, pattern[i]);
      NoneIsLarger(pattern, pattern[j]);
      hide MaxRow, MaxCol;
      var m :| 0 <= m < |pattern| && pattern[m].0 == MaxRow(pattern);
      var n :| 0 <= n < |pattern| && pattern[n].1 == MaxCol(pattern);
    }
  }

  /** Where a pattern is put: half of what its largest row, and its largest column,
      leave of the torus; and what then falls off is left out. */
  lemma CentredIsHalfway(pattern: seq<Cell>, top: int, left: int, y: Cell)
    requires Largest(pattern, top, left)
    ensures y in Centred(pattern) <==>
      && 0 <= y.0 < 40 && 0 <= y.1 < 80
      && (y.0 - (40 - top) / 2, y.1 - (80 - left) / 2) in pattern
  {
    LargestIsMax(pattern, top, left);
    hide MaxRow, MaxCol, Placed, Largest;
    var r, c := (ROWS - top) / 2, (COLS - left) / 2;
    assert Centred(pattern) == Placed(pattern, r, c);
    hide Centred;
    PlacedHolds(pattern, r, c, y);
    assert (y.0 - (40 - top) / 2, y.1 - (80 - left) / 2) == (y.0 - r, y.1 - c);
  }

  lemma PlacedHolds(pattern: seq<Cell>, r: int, c: int, y: Cell)
    ensures y in Placed(pattern, r, c) <==> InRange(y) && (y.0 - r, y.1 - c) in pattern
  {
    var x := (y.0 - r, y.1 - c);
    assert y == (x.0 + r, x.1 + c);
    hide InRange;
    if y in Placed(pattern, r, c) {
      var z :| z in pattern && (z.0 + r, z.1 + c) == y;
      assert z == x;
    }
  }

  lemma PlacedOneMore(pattern: seq<Cell>, x: Cell, r: int, c: int)
    ensures Placed(pattern + [x], r, c)
         == Placed(pattern, r, c) + if InRange((x.0 + r, x.1 + c)) then {(x.0 + r, x.1 + c)} else {}
  {
    var more := pattern + [x];
    forall y | y in pattern
      ensures y in more
    {
    }
    assert x in more;
    hide InRange;
  }

  lemma NothingPlaced(r: int, c: int)
    ensures Placed([], r, c) == {}
  {
  }

  class World {
    var grid: Grid
    var generation: nat

    ghost predicate Valid()
      reads this
    {
      OnTorus(grid)
    }

    constructor ()
      ensures Valid() && grid == {} && generation == 0
    {
      grid, generation := {}, 0;
    }

    method SeedPattern(pattern: seq<Cell>)
      requires Valid()
      modifies this`grid
      ensures Valid() && grid == old(grid) + Centred(pattern)
    {
      var r, c := (ROWS - MaxRow(pattern)) / 2, (COLS - MaxCol(pattern)) / 2;
      hide MaxRow, MaxCol, Placed;
      assert Placed(pattern[..0], r, c) == {} by {
        NothingPlaced(r, c);
      }
      for i := 0 to |pattern|
        invariant Valid() && grid == old(grid) + Placed(pattern[..i], r, c)
      {
        assert pattern[..i + 1] == pattern[..i] + [pattern[i]];
        PlacedOneMore(pattern[..i], pattern[i], r, c);
        var n := (pattern[i].0 + r, pattern[i].1 + c);
        if InRange(n) {
          grid := grid + {n};
        }
      }
      assert pattern[..|pattern|] == pattern;
    }

    /** A tick seeds an empty world that has not evolved yet, and otherwise moves it
        one generation on; either way it publishes the grid it leaves. Any other
        message changes and publishes nothing. */
    method Process(isTick: bool, pattern: seq<Cell>) returns (published: Option<Frame>)
      requires Valid()
      modifies this
      ensures Valid() && (published.Some? <==> isTick)
      ensures !isTick ==> grid == old(grid) && generation == old(generation)
      ensures isTick && old(grid) == {} && old(generation) == 0 ==> grid == Centred(pattern) && generation == 0
      ensures isTick && (old(grid) != {} || old(generation) != 0) ==>
        grid == Step(old(grid)) && generation == old(generation) + 1
      ensures published.Some? ==>
        var f := published.value;
        && f.generation == generation && f.population == |grid| == |f.cells|
        && StrictlyAscending(f.cells) && Decoded(f.cells) == grid
    {
      if !isTick {
        return None;
      }
      if grid == {} && generation == 0 {
        SeedPattern(pattern);
      } else {
        grid := Evolve(grid);
        generation := generation + 1;
      }
      var f := GridToPayload(grid, generation);
      return Some(f);
    }
  }
}
