/** Geometry of the fixed 12x12 board: positions, the four clamped cardinal
    neighbours, Manhattan distance, the Cantor-pairing hash used for hash maps
    keyed by position, and the flat cell index of the distance table. */
module Grid {

  const Width: int := 12
  const Height: int := 12
  /** Number of cells, the side of the all-pairs distance table. */
  const Dim: int := Width * Height

  /** A board coordinate: x is the column (width), y the row (height). */
  datatype Pos = Pos(x: int, y: int)

  predicate InGrid(p: Pos) {
    0 <= p.x < Width && 0 <= p.y < Height
  }

  /** Every cell of the board. */
  ghost const AllPositions: set<Pos> := set x, y | 0 <= x < Width && 0 <= y < Height :: Pos(x, y)

  lemma InAllPositions(p: Pos)
    ensures p in AllPositions <==> InGrid(p)
  {
    if InGrid(p) {
      assert p == Pos(p.x, p.y);
    }
  }

  /** Reaching a new grid cell shrinks the set of unreached cells by one. */
  lemma Unreached(keys: set<Pos>, q: Pos)
    requires q !in keys && InGrid(q)
    ensures |AllPositions - (keys + {q})| == |AllPositions - keys| - 1
  {
    InAllPositions(q);
    var R := AllPositions - (keys + {q});
    assert AllPositions - keys == R + {q};
  }

  function Abs(n: int): nat {
    if n < 0 then -n else n
  }

  /** Position::distance: the Manhattan distance. */
  function Manhattan(a: Pos, b: Pos): (r: nat)
    ensures r == 0 <==> a == b
  {
    Abs(a.x - b.x) + Abs(a.y - b.y)
  }

  lemma ManhattanSymmetric(a: Pos, b: Pos)
    ensures Manhattan(a, b) == Manhattan(b, a)
  {
  }

  lemma ManhattanTriangle(a: Pos, b: Pos, c: Pos)
    ensures Manhattan(a, c) <= Manhattan(a, b) + Manhattan(b, c)
  {
  }

  // The four cardinal neighbours. At the border of the board the position
  // itself is returned: clamping to self is the "no such neighbour" signal.

  function North(p: Pos): (r: Pos)
    ensures InGrid(p) ==> InGrid(r)
    ensures r == p <==> p.y <= 0
    ensures r != p ==> r.x == p.x && r.y == p.y - 1
  {
    if p.y > 0 then Pos(p.x, p.y - 1) else p
  }

  function South(p: Pos): (r: Pos)
    ensures InGrid(p) ==> InGrid(r)
    ensures r == p <==> p.y >= Height - 1
    ensures r != p ==> r.x == p.x && r.y == p.y + 1
  {
    if p.y < Height - 1 then Pos(p.x, p.y + 1) else p
  }

  function East(p: Pos): (r: Pos)
    ensures InGrid(p) ==> InGrid(r)
    ensures r == p <==> p.x >= Width - 1
    ensures r != p ==> r.y == p.y && r.x == p.x + 1
  {
    if p.x < Width - 1 then Pos(p.x + 1, p.y) else p
  }

  function West(p: Pos): (r: Pos)
    ensures InGrid(p) ==> InGrid(r)
    ensures r == p <==> p.x <= 0
    ensures r != p ==> r.y == p.y && r.x == p.x - 1
  {
    if p.x > 0 then Pos(p.x - 1, p.y) else p
  }

  /** The clamped neighbours in the order the source always visits them. */
  function Neighbours(p: Pos): seq<Pos> {
    [North(p), South(p), East(p), West(p)]
  }

  /** A clamped neighbour other than the cell itself is exactly a cell at
      Manhattan distance one, and every such cell is one of them. */
  lemma NeighboursAreAdjacent(p: Pos, q: Pos)
    requires InGrid(p)
    ensures q in Neighbours(p) && q != p <==> InGrid(q) && Manhattan(p, q) == 1
  {
    if InGrid(q) && Manhattan(p, q) == 1 {
      if q.y == p.y - 1 { assert q == North(p); }
      else if q.y == p.y + 1 { assert q == South(p); }
      else if q.x == p.x + 1 { assert q == East(p); }
      else { assert q == West(p); }
    }
  }

  /** Being a proper clamped neighbour is a symmetric relation. */
  lemma NeighbourSymmetric(p: Pos, q: Pos)
    requires InGrid(p) && InGrid(q)
    ensures q in Neighbours(p) && q != p <==> p in Neighbours(q) && p != q
  {
    NeighboursAreAdjacent(p, q);
    NeighboursAreAdjacent(q, p);
    ManhattanSymmetric(p, q);
  }

  /** Triangular numbers, the diagonal offsets of the Cantor pairing. */
  function Tri(s: nat): nat {
    if s == 0 then 0 else Tri(s - 1) + s
  }

  lemma {:induction false} TriTimesTwo(s: nat)
    ensures 2 * Tri(s) == s * (s + 1)
  {
    if s > 0 {
      TriTimesTwo(s - 1);
      assert 2 * Tri(s) == (s - 1) * s + 2 * s;
    }
  }

  lemma {:induction false} TriGap(s: nat, t: nat)
    requires s < t
    ensures Tri(s) + s < Tri(t)
  {
    if t > s + 1 {
      TriGap(s, t - 1);
    }
  }

  /** HashPosition: the Cantor pairing of the two coordinates. */
  function HashPosition(p: Pos): int {
    (p.x + p.y) * (p.x + p.y + 1) / 2 + p.y
  }

  /** On non-negative coordinates HashPosition is Tri(x + y) + y. */
  lemma HashIsCantor(p: Pos)
    requires 0 <= p.x && 0 <= p.y
    ensures HashPosition(p) == Tri(p.x + p.y) + p.y
  {
    TriTimesTwo(p.x + p.y);
  }

  /** Two distinct positions with non-negative coordinates never collide. */
  lemma HashInjective(a: Pos, b: Pos)
    requires 0 <= a.x && 0 <= a.y && 0 <= b.x && 0 <= b.y
    requires HashPosition(a) == HashPosition(b)
    ensures a == b
  {
    HashIsCantor(a);
    HashIsCantor(b);
    var s, t := a.x + a.y, b.x + b.y;
    if s < t {
      TriGap(s, t);
    } else if t < s {
      TriGap(t, s);
    }
  }

  /** get_distance indexes the table by x + height * y ... */
  function Index(p: Pos): int {
    p.x + Height * p.y
  }

  /** ... while floyd_warshall decodes row i as (i % width, i / width). */
  function PosOf(i: int): Pos {
    Pos(i % Width, i / Width)
  }

  /** The two conventions agree, but only because Width == Height. */
  lemma IndexRoundTrip(p: Pos)
    requires InGrid(p)
    ensures 0 <= Index(p) < Dim && PosOf(Index(p)) == p
  {
  }

  lemma PosOfRoundTrip(i: int)
    requires 0 <= i < Dim
    ensures InGrid(PosOf(i)) && Index(PosOf(i)) == i
  {
  }
}
