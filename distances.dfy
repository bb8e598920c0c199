/** The all-pairs distance table of floyd_warshall: a 144x144 array of ints
    indexed by flat cell index, filled with 1 between four-adjacent non-void
    cells, 0 on the diagonal and INT_MAX elsewhere, then relaxed in place
    keeping the table symmetric. */
module Distances {
  import opened Grid

  /** INT_MAX of a 32-bit int, the "unreachable" entry. */
  const Infinity: int := 2147483647

  /** A 12x12 grid of cell characters, indexed [y, x]. */
  predicate IsInfo(info: array2<char>) {
    info.Length0 == Height && info.Length1 == Width
  }

  predicate IsTable(d: array2<int>) {
    d.Length0 == Dim && d.Length1 == Dim
  }

  /** A two-dimensional array, row by row, as a value. */
  function Rows<T>(a: array2<T>): (r: seq<seq<T>>)
    reads a
    ensures |r| == a.Length0
    ensures forall i | 0 <= i < a.Length0 :: |r[i]| == a.Length1 && forall j | 0 <= j < a.Length1 :: r[i][j] == a[i, j]
  {
    seq(a.Length0, i requires 0 <= i < a.Length0 reads a => seq(a.Length1, j requires 0 <= j < a.Length1 reads a => a[i, j]))
  }

  function InfoAt(info: array2<char>, p: Pos): char
    requires IsInfo(info) && InGrid(p)
    reads info
  {
    info[p.y, p.x]
  }

  /** The cell of flat index i is a void cell. */
  predicate VoidAt(info: array2<char>, i: int)
    requires IsInfo(info) && 0 <= i < Dim
    reads info
  {
    PosOfRoundTrip(i);
    InfoAt(info, PosOf(i)) == '#'
  }

  /** Cells i and j are four-adjacent and neither is void. */
  predicate Linked(info: array2<char>, i: int, j: int)
    requires IsInfo(info) && 0 <= i < Dim && 0 <= j < Dim
    reads info
  {
    Manhattan(PosOf(i), PosOf(j)) == 1 && !VoidAt(info, i) && !VoidAt(info, j)
  }

  /** The entry floyd_warshall starts from. */
  function InitialDistance(info: array2<char>, i: int, j: int): (r: int)
    requires IsInfo(info) && 0 <= i < Dim && 0 <= j < Dim
    reads info
    ensures r == 1 <==> Linked(info, i, j)
    ensures r == 0 <==> i == j
    ensures r == Infinity <==> i != j && !Linked(info, i, j)
  {
    PosOfRoundTrip(i);
    PosOfRoundTrip(j);
    if Linked(info, i, j) then 1 else if Manhattan(PosOf(i), PosOf(j)) == 0 then 0 else Infinity
  }

  /** What the relaxation keeps true of one entry v = d[i][j]. */
  ghost predicate EntryOk(info: array2<char>, i: int, j: int, v: int)
    requires IsInfo(info) && 0 <= i < Dim && 0 <= j < Dim
    reads info
  {
    (i == j ==> v == 0) &&
    (v == Infinity || Manhattan(PosOf(i), PosOf(j)) <= v < Infinity) &&
    (Linked(info, i, j) ==> v == 1) &&
    (i != j && (VoidAt(info, i) || VoidAt(info, j)) ==> v == Infinity)
  }

  /** What the relaxation keeps true of the table at every step. */
  ghost predicate TableFacts(d: array2<int>, info: array2<char>)
    requires IsTable(d) && IsInfo(info)
    reads d, info
  {
    forall i, j | 0 <= i < Dim && 0 <= j < Dim :: d[i, j] == d[j, i] && EntryOk(info, i, j, d[i, j])
  }

  /** The table is symmetric with a zero diagonal, four-adjacent non-void
      cells are at distance 1, a void cell is at INT_MAX from every other
      cell, and every finite entry is at least the Manhattan distance. */
  lemma TableFactsMean(d: array2<int>, info: array2<char>)
    requires IsTable(d) && IsInfo(info) && TableFacts(d, info)
    ensures forall i, j | 0 <= i < Dim && 0 <= j < Dim :: d[i, j] == d[j, i]
    ensures forall i | 0 <= i < Dim :: d[i, i] == 0
    ensures forall i, j | 0 <= i < Dim && 0 <= j < Dim && Linked(info, i, j) :: d[i, j] == 1
    ensures forall i, j | 0 <= i < Dim && 0 <= j < Dim && i != j && VoidAt(info, i) :: d[i, j] == Infinity
    ensures forall i, j | 0 <= i < Dim && 0 <= j < Dim && d[i, j] != Infinity ::
              Manhattan(PosOf(i), PosOf(j)) <= d[i, j]
  {
    forall i | 0 <= i < Dim
      ensures d[i, i] == 0
    {
      assert EntryOk(info, i, i, d[i, i]);
    }
  }

  /** The first double loop: every entry set to its initial value. */
  method InitTable(d: array2<int>, info: array2<char>)
    requires IsTable(d) && IsInfo(info)
    modifies d
    ensures forall i, j | 0 <= i < Dim && 0 <= j < Dim :: d[i, j] == InitialDistance(info, i, j)
  {
    for i := 0 to Dim
      invariant forall a, b | 0 <= a < i && 0 <= b < Dim :: d[a, b] == InitialDistance(info, a, b)
    {
      for j := 0 to Dim
        invariant forall a, b | 0 <= a < i && 0 <= b < Dim :: d[a, b] == InitialDistance(info, a, b)
        invariant forall b | 0 <= b < j :: d[i, b] == InitialDistance(info, i, b)
      {
        d[i, j] := InitialDistance(info, i, j);
      }
    }
  }

  /** The initial table already has every fact the relaxation keeps. */
  lemma InitialFacts(d: array2<int>, info: array2<char>)
    requires IsTable(d) && IsInfo(info)
    requires forall i, j | 0 <= i < Dim && 0 <= j < Dim :: d[i, j] == InitialDistance(info, i, j)
    ensures TableFacts(d, info)
  {
    forall i, j | 0 <= i < Dim && 0 <= j < Dim
      ensures d[i, j] == d[j, i] && EntryOk(info, i, j, d[i, j])
    {
      ManhattanSymmetric(PosOf(i), PosOf(j));
      if i == j {
        assert PosOf(i) == PosOf(j);
      }
    }
  }

  /** The entry the relaxation test leaves from d[i][k] = ik, d[k][j] = kj
      and d[i][j] = ij: the way through k when both halves are finite and
      together shorter, otherwise ij. */
  function Shorter(ik: int, kj: int, ij: int): int {
    if ik != Infinity && kj != Infinity && ik + kj < ij then ik + kj else ij
  }

  /** One relaxation test of the innermost loop, through k, of the pair
      (i, j): both d[i][j] and d[j][i] take the shorter way when there is one. */
  method Relax(d: array2<int>, info: array2<char>, k: int, i: int, j: int)
    requires IsTable(d) && IsInfo(info) && 0 <= k < Dim && 0 <= i < Dim && 0 <= j < Dim
    requires TableFacts(d, info)
    modifies d
    ensures TableFacts(d, info)
    ensures d[i, j] == Shorter(old(d[i, k]), old(d[k, j]), old(d[i, j])) && d[j, i] == d[i, j]
    ensures forall a, b | 0 <= a < Dim && 0 <= b < Dim && (a, b) != (i, j) && (a, b) != (j, i) :: d[a, b] == old(d[a, b])
  {
    if d[i, k] != Infinity && d[k, j] != Infinity && d[i, k] + d[k, j] < d[i, j] {
      var v := d[i, k] + d[k, j];
      RelaxedValue(d, info, k, i, j);
      d[j, i] := v;
      d[i, j] := v;
      forall a, b | 0 <= a < Dim && 0 <= b < Dim
        ensures d[a, b] == d[b, a] && EntryOk(info, a, b, d[a, b])
      {
        if (a, b) != (i, j) && (a, b) != (j, i) {
          assert d[a, b] == old(d[a, b]) && d[b, a] == old(d[b, a]);
          assert old(EntryOk(info, a, b, d[a, b]));
        }
      }
    }
  }

  /** A shorter way through k, found by the test, is itself a value the
      table may hold between i and j. */
  lemma RelaxedValue(d: array2<int>, info: array2<char>, k: int, i: int, j: int)
    requires IsTable(d) && IsInfo(info) && 0 <= k < Dim && 0 <= i < Dim && 0 <= j < Dim
    requires TableFacts(d, info)
    requires d[i, k] != Infinity && d[k, j] != Infinity && d[i, k] + d[k, j] < d[i, j]
    ensures EntryOk(info, i, j, d[i, k] + d[k, j]) && EntryOk(info, j, i, d[i, k] + d[k, j])
  {
    ManhattanTriangle(PosOf(i), PosOf(k), PosOf(j));
    ManhattanSymmetric(PosOf(i), PosOf(j));
    assert EntryOk(info, i, k, d[i, k]) && EntryOk(info, k, j, d[k, j]) && EntryOk(info, i, j, d[i, j]);
  }

  /** The entry (a, b) of the table D once round k has relaxed the pairs
      (i, 0) .. (i, j - 1) of row i, and their mirror images. */
  function RowAfter(D: seq<seq<int>>, k: int, i: int, j: int, a: int, b: int): int
    requires |D| == Dim && forall r | 0 <= r < Dim :: |D[r]| == Dim
    requires 0 <= k < Dim && 0 <= i < Dim && 0 <= a < Dim && 0 <= b < Dim
  {
    if a == i && b < j then Shorter(D[i][k], D[k][b], D[i][b])
    else if b == i && a < j then Shorter(D[i][k], D[k][a], D[i][a])
    else D[a][b]
  }

  /** Relaxing (i, j) moves RowAfter on by one: the test reads the entries
      the row started with, because d[k][k] is 0, and only (i, j) and (j, i)
      change. */
  lemma RowAfterStep(D: seq<seq<int>>, k: int, i: int, j: int)
    requires |D| == Dim && forall r | 0 <= r < Dim :: |D[r]| == Dim
    requires 0 <= k < Dim && 0 <= i < Dim && 0 <= j <= i
    requires D[k][k] == 0 && D[k][i] == D[i][k]
    ensures RowAfter(D, k, i, j, i, k) == D[i][k]
    ensures RowAfter(D, k, i, j, k, j) == D[k][j]
    ensures RowAfter(D, k, i, j, i, j) == D[i][j]
    ensures RowAfter(D, k, i, j + 1, i, j) == Shorter(D[i][k], D[k][j], D[i][j])
    ensures RowAfter(D, k, i, j + 1, j, i) == Shorter(D[i][k], D[k][j], D[i][j])
    ensures forall a, b | 0 <= a < Dim && 0 <= b < Dim && (a, b) != (i, j) && (a, b) != (j, i) ::
              RowAfter(D, k, i, j + 1, a, b) == RowAfter(D, k, i, j, a, b)
  {
  }

  /** The j-loop of round k for row i: relax every pair (i, j) with j <= i.
      Round k never changes row or column k (d[k][k] is 0), so every pair
      of the row is relaxed from the entries the row started with. */
  method RelaxRow(d: array2<int>, info: array2<char>, k: int, i: int)
    requires IsTable(d) && IsInfo(info) && 0 <= k < Dim && 0 <= i < Dim
    requires TableFacts(d, info)
    modifies d
    ensures TableFacts(d, info)
    ensures forall b | 0 <= b <= i :: d[i, b] == Shorter(old(d[i, k]), old(d[k, b]), old(d[i, b])) && d[b, i] == d[i, b]
    ensures forall a, b | 0 <= a < Dim && 0 <= b < Dim && !(a == i && b <= i) && !(b == i && a <= i) :: d[a, b] == old(d[a, b])
  {
    ghost var D := Rows(d);
    assert D[k][k] == 0 && D[k][i] == D[i][k] by { assert EntryOk(info, k, k, d[k, k]); }
    for j := 0 to i + 1
      invariant TableFacts(d, info)
      invariant forall a, b | 0 <= a < Dim && 0 <= b < Dim :: d[a, b] == RowAfter(D, k, i, j, a, b)
    {
      RowAfterStep(D, k, i, j);
      Relax(d, info, k, i, j);
    }
  }

  /** floyd_warshall on the table d for the board info. */
  method FloydWarshall(d: array2<int>, info: array2<char>)
    requires IsTable(d) && IsInfo(info)
    modifies d
    ensures TableFacts(d, info)
  {
    InitTable(d, info);
    InitialFacts(d, info);
    for k := 0 to Dim
      invariant TableFacts(d, info)
    {
      for i := 0 to Dim
        invariant TableFacts(d, info)
      {
        RelaxRow(d, info, k, i);
      }
    }
  }
}
