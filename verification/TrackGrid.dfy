/** The spatial hash of the road, and why its nine-cell lookup misses nothing. */
module TrackGrid {
  import opened Basics
  import opened Vectors
  import opened TrackSections

  const CELL := 20.0
  const WORD: int := 0x1_0000_0000

  datatype FootPoint = FootPoint(x: real, z: real, distance: real)

  type Grid = map<int, seq<FootPoint>>

  function CellOf(x: real): int {
    (x / CELL).Floor
  }

  // The cells of x and z, the low 32 bits of each, in one 64-bit key.
  function CellKey(x: real, z: real): int {
    (CellOf(x) % WORD) * WORD + CellOf(z) % WORD
  }

  function Lookup(g: Grid, key: int): seq<FootPoint> {
    if key in g then g[key] else []
  }

  function AddPoint(g: Grid, f: FootPoint): Grid {
    var key := CellKey(f.x, f.z);
    g[key := Lookup(g, key) + [f]]
  }

  function GridOf(points: seq<FootPoint>): Grid {
    if points == [] then map[] else AddPoint(GridOf(points[..|points| - 1]), points[|points| - 1])
  }

  // Looking up a key gives the points with that key, whatever cells share it.
  lemma {:induction false} LookupMeaning(points: seq<FootPoint>, key: int, f: FootPoint)
    ensures f in Lookup(GridOf(points), key) <==> f in points && CellKey(f.x, f.z) == key
  {
    if points != [] {
      var front, last := points[..|points| - 1], points[|points| - 1];
      LookupMeaning(front, key, f);
      assert points == front + [last];
    }
  }

  lemma {:induction false} GridOfAppend(points: seq<FootPoint>, more: seq<FootPoint>, n: nat)
    requires n <= |more|
    ensures GridOf(points + more[..n]) == AddAll(GridOf(points), more[..n])
  {
    hide AddPoint;
    if n == 0 {
      assert points + more[..0] == points;
    } else {
      GridOfAppend(points, more, n - 1);
      assert (points + more[..n])[..|points| + n - 1] == points + more[..n - 1];
      assert more[..n][..n - 1] == more[..n - 1];
    }
  }

  function AddAll(g: Grid, points: seq<FootPoint>): Grid {
    if points == [] then g else AddPoint(AddAll(g, points[..|points| - 1]), points[|points| - 1])
  }

  // Too close to older road: more than skip of arc behind, nearer than clearance.
  predicate Conflict(c: FootPoint, f: FootPoint, clearance: real, skip: real) {
    c.distance - f.distance >= skip && Square(c.x - f.x) + Square(c.z - f.z) < Square(clearance)
  }

  // A conflict in one of the nine cells around c.
  predicate ConflictNearby(g: Grid, c: FootPoint, clearance: real, skip: real) {
    exists ox, oz | -1 <= ox <= 1 && -1 <= oz <= 1 :: ConflictInCell(g, c, ox, oz, clearance, skip)
  }

  predicate ConflictInCell(g: Grid, c: FootPoint, ox: int, oz: int, clearance: real, skip: real) {
    exists f | f in Lookup(g, CellKey(c.x + ox as real * CELL, c.z + oz as real * CELL)) :: Conflict(c, f, clearance, skip)
  }

  // A conflict with any recorded point.
  predicate ConflictAnywhere(points: seq<FootPoint>, c: FootPoint, clearance: real, skip: real) {
    exists f | f in points :: Conflict(c, f, clearance, skip)
  }

  lemma CellShift(x: real, o: int)
    ensures CellOf(x + o as real * CELL) == CellOf(x) + o
  {
    var q := x / CELL;
    assert (x + o as real * CELL) / CELL == q + o as real;
    assert (q + o as real).Floor == q.Floor + o;
  }

  // Within a cell's width, cells differ by at most one.
  lemma NeighbourCells(a: real, b: real)
    requires -CELL < a - b < CELL
    ensures -1 <= CellOf(b) - CellOf(a) <= 1
  {
    var p, q := a / CELL, b / CELL;
    assert p * CELL == a && q * CELL == b;
    assert -1.0 < p - q < 1.0;
  }

  lemma SmallSide(x: real, rest: real, clearance: real)
    requires Square(x) + rest < Square(clearance) && rest >= 0.0 && 0.0 <= clearance <= CELL
    ensures -CELL < x < CELL
  {
    SquareGrows(clearance, CELL);
    SquareEven(x);
    if x >= CELL {
      SquareGrows(CELL, x);
    } else if x <= -CELL {
      SquareGrows(CELL, -x);
    }
  }

  lemma SquareGrows(a: real, b: real)
    requires 0.0 <= a <= b
    ensures Square(a) <= Square(b)
    ensures a < b ==> Square(a) < Square(b)
  {
    var p, q := b - a, b + a;
    assert Square(b) - Square(a) == p * q;
    Product(p, q);
  }

  lemma Product(x: real, y: real)
    requires x >= 0.0 && y >= 0.0
    ensures x * y >= 0.0 && (x > 0.0 && y > 0.0 ==> x * y > 0.0)
  {
  }

  // A conflicting point lies in one of the nine cells.
  lemma ConflictIsNear(c: FootPoint, f: FootPoint, clearance: real, skip: real)
    requires 0.0 <= clearance <= CELL && Conflict(c, f, clearance, skip)
    ensures -1 <= CellOf(f.x) - CellOf(c.x) <= 1 && -1 <= CellOf(f.z) - CellOf(c.z) <= 1
  {
    hide Square, CellOf;
    SmallSide(c.x - f.x, Square(c.z - f.z), clearance);
    SmallSide(c.z - f.z, Square(c.x - f.x), clearance);
    NeighbourCells(c.x, f.x);
    NeighbourCells(c.z, f.z);
  }

  lemma ShiftedKey(c: FootPoint, f: FootPoint)
    ensures var ox, oz := CellOf(f.x) - CellOf(c.x), CellOf(f.z) - CellOf(c.z);
            CellKey(c.x + ox as real * CELL, c.z + oz as real * CELL) == CellKey(f.x, f.z)
  {
    hide CellOf;
    CellShift(c.x, CellOf(f.x) - CellOf(c.x));
    CellShift(c.z, CellOf(f.z) - CellOf(c.z));
  }

  // For a clearance of at most a cell's width the nine cells see every conflict; keys
  // that collide only add points that are tested like the rest.
  lemma LookupExact(points: seq<FootPoint>, c: FootPoint, clearance: real, skip: real)
    requires 0.0 <= clearance <= CELL
    ensures ConflictNearby(GridOf(points), c, clearance, skip) <==> ConflictAnywhere(points, c, clearance, skip)
  {
    hide Conflict, CellKey, CellOf, GridOf, Lookup;
    var g := GridOf(points);
    if ConflictNearby(g, c, clearance, skip) {
      var ox, oz :| -1 <= ox <= 1 && -1 <= oz <= 1 && ConflictInCell(g, c, ox, oz, clearance, skip);
      var key := CellKey(c.x + ox as real * CELL, c.z + oz as real * CELL);
      var f :| f in Lookup(g, key) && Conflict(c, f, clearance, skip);
      LookupMeaning(points, key, f);
    }
    if ConflictAnywhere(points, c, clearance, skip) {
      var f :| f in points && Conflict(c, f, clearance, skip);
      ConflictIsNear(c, f, clearance, skip);
      ShiftedKey(c, f);
      LookupMeaning(points, CellKey(f.x, f.z), f);
      assert ConflictInCell(g, c, CellOf(f.x) - CellOf(c.x), CellOf(f.z) - CellOf(c.z), clearance, skip);
    }
  }

  // The width of a cell is the limit: with any greater clearance some conflict is missed.
  lemma LookupExactIff(clearance: real, skip: real)
    requires clearance >= 0.0
    ensures (forall points, c :: ConflictNearby(GridOf(points), c, clearance, skip) <==> ConflictAnywhere(points, c, clearance, skip))
       <==> clearance <= CELL
  {
    if clearance <= CELL {
      forall points, c
        ensures ConflictNearby(GridOf(points), c, clearance, skip) <==> ConflictAnywhere(points, c, clearance, skip)
      {
        LookupExact(points, c, clearance, skip);
      }
    } else {
      MissedConflict(clearance, skip);
    }
  }

  lemma MissedConflict(clearance: real, skip: real)
    requires clearance > CELL
    ensures exists points, c :: ConflictAnywhere(points, c, clearance, skip) && !ConflictNearby(GridOf(points), c, clearance, skip)
  {
    var reach := if clearance < 2.0 * CELL then clearance else 2.0 * CELL;
    var d := (CELL + reach) / 2.0;
    var c, f := FootPoint(0.0, 0.0, skip), FootPoint(-d, 0.0, 0.0);
    var points := [f];
    SquareGrows(d, clearance);
    assert Square(0.0) == 0.0;
    assert f in points && Conflict(c, f, clearance, skip);
    assert CellOf(-d) == -2 && CellOf(0.0) == 0;
    forall ox, oz | -1 <= ox <= 1 && -1 <= oz <= 1
      ensures !ConflictInCell(GridOf(points), c, ox, oz, clearance, skip)
    {
      NotInCell(points, f, c, ox, oz);
    }
    assert ConflictAnywhere(points, c, clearance, skip) && !ConflictNearby(GridOf(points), c, clearance, skip);
  }

  // A single point two cells away is in none of the nine.
  lemma NotInCell(points: seq<FootPoint>, f: FootPoint, c: FootPoint, ox: int, oz: int)
    requires points == [f] && CellOf(f.x) == -2 && CellOf(c.x) == 0 && -1 <= ox <= 1
    ensures Lookup(GridOf(points), CellKey(c.x + ox as real * CELL, c.z + oz as real * CELL)) == []
  {
    var key := CellKey(c.x + ox as real * CELL, c.z + oz as real * CELL);
    var found := Lookup(GridOf(points), key);
    CellShift(c.x, ox);
    KeysApart(-2, CellOf(f.z), ox, CellOf(c.z + oz as real * CELL));
    if found != [] {
      LookupMeaning(points, key, found[0]);
      assert false;
    }
  }

  lemma KeysApart(a: int, az: int, b: int, bz: int)
    requires a == -2 && -1 <= b <= 1
    ensures (a % WORD) * WORD + az % WORD != (b % WORD) * WORD + bz % WORD
  {
    var p, q := a % WORD, b % WORD;
    assert p == WORD - 2 && (q == b || q == WORD + b);
  }
}
