/** What update_gamestate derives from the turn's raw input: the cell
    records, the access levels of both sides, the full and per-territory
    adjacency lists, the territory cell lists and the enemy heat map, each
    stated as a function of the input. */
module Board {
  import opened Grid
  import opened Wrappers
  import opened Cells
  import opened Distances

  /** A 12x12 grid stored row by row: g[y][x]. */
  predicate IsGrid<T>(g: seq<seq<T>>) {
    |g| == Height && forall y | 0 <= y < Height :: |g[y]| == Width
  }

  function At<T>(g: seq<seq<T>>, p: Pos): T
    requires IsGrid(g) && InGrid(p)
  {
    g[p.y][p.x]
  }

  /** g with the entry at p replaced by v. */
  function Put<T>(g: seq<seq<T>>, p: Pos, v: T): (r: seq<seq<T>>)
    requires IsGrid(g) && InGrid(p)
    ensures IsGrid(r) && At(r, p) == v
    ensures forall q | InGrid(q) && q != p :: At(r, q) == At(g, q)
  {
    g[p.y := g[p.y][p.x := v]]
  }

  /** vector<vector<T>>(width, vector<T>(height, v)). */
  function Filled<T>(v: T): (r: seq<seq<T>>)
    ensures IsGrid(r) && forall p | InGrid(p) :: At(r, p) == v
  {
    seq(Height, _ => seq(Width, _ => v))
  }

  /** A marker grid with nothing marked. */
  ghost predicate AllZero(g: seq<seq<int>>) {
    IsGrid(g) && forall p {:trigger At(g, p)} | InGrid(p) :: At(g, p) == 0
  }

  /** vector<vector<int>>(width, vector<int>(height, 0)). */
  method Zeros() returns (g: seq<seq<int>>)
    ensures AllZero(g)
  {
    g := Filled(0);
  }

  /** The cell reached at step i of the source's column-major scans
      (x outer, y inner). */
  function ScanPos(i: int): Pos {
    Pos(i / Height, i % Height)
  }

  function ScanIndex(p: Pos): int {
    p.x * Height + p.y
  }

  lemma ScanRoundTrip(p: Pos)
    requires InGrid(p)
    ensures 0 <= ScanIndex(p) < Dim && ScanPos(ScanIndex(p)) == p
  {
  }

  lemma ScanPosInGrid(i: int)
    requires 0 <= i < Dim
    ensures InGrid(ScanPos(i)) && ScanIndex(ScanPos(i)) == i
  {
  }

  // ---------------------------------------------------------------- cells

  /** The unit a cell ends up pointing at: the last unit of the list on it
      (a later set_unit overwrites an earlier one). */
  function LastUnitAt(us: seq<Unit>, p: Pos): (r: Option<Unit>)
    ensures r.Some? ==> r.value in us && r.value.p == p
    ensures r.Some? ==> exists i | 0 <= i < |us| :: us[i] == r.value && forall j | i < j < |us| :: us[j].p != p
    ensures r.None? ==> forall u | u in us :: u.p != p
  {
    if |us| == 0 then None
    else if us[|us| - 1].p == p then Some(us[|us| - 1])
    else LastUnitAt(us[..|us| - 1], p)
  }

  /** The building a cell ends up pointing at: the last one on it (a later
      set_building overwrites an earlier one). */
  function LastBuildingAt(bs: seq<Building>, p: Pos): (r: Option<Building>)
    ensures r.Some? ==> r.value in bs && r.value.p == p
    ensures r.Some? ==> exists i | 0 <= i < |bs| :: bs[i] == r.value && forall j | i < j < |bs| :: bs[j].p != p
    ensures r.None? ==> forall b | b in bs :: b.p != p
  {
    if |bs| == 0 then None
    else if bs[|bs| - 1].p == p then Some(bs[|bs| - 1])
    else LastBuildingAt(bs[..|bs| - 1], p)
  }

  /** The record update_gamestate builds for the cell at p. */
  function CellSpec(units: seq<Unit>, buildings: seq<Building>, mineSpots: seq<Pos>, info: array2<char>, p: Pos): Cell
    requires IsInfo(info) && InGrid(p)
    reads info
  {
    Cell(p, LastUnitAt(units, p), LastBuildingAt(buildings, p), p in mineSpots, InfoAt(info, p) == '#')
  }

  /** cells as a whole: every cell as the input describes it. */
  ghost predicate CellsAre(cells: seq<seq<Cell>>, units: seq<Unit>, buildings: seq<Building>, mineSpots: seq<Pos>, info: array2<char>)
    requires IsInfo(info)
    reads info
  {
    IsGrid(cells) && forall p {:trigger At(cells, p)} | InGrid(p) :: At(cells, p) == CellSpec(units, buildings, mineSpots, info, p)
  }

  // ---------------------------------------------------------- access levels

  /** The other player. */
  function Opponent(side: int): int {
    if side == Ally then Enemy else Ally
  }

  /** The map character of a side's territory. */
  function TerritoryChar(side: int): char {
    if side == Ally then 'O' else 'X'
  }

  /** The first pass of cells_level_ally (side Ally) or cells_level_enemy
      (side Enemy): the level a unit of `side` needs to enter c. */
  function BaseLevel(c: Cell, side: int): int {
    var opp := Opponent(side);
    if HasBuildingOf(c, side, HQ) then 9
    else if HasBuildingOf(c, opp, HQ) then 1
    else if HasBuildingOf(c, opp, Mine) then 1
    else if HasBuildingOf(c, side, Mine) then 9
    else if HasBuildingOf(c, side, Tower) then 9
    else if HasUnitOf(c, opp) then Min3(LevelOfUnitOf(c, opp) + 1)
    else if HasUnitOf(c, side) then 9
    else if c.voidCell then 9
    else 1
  }

  function Min3(n: int): int {
    if n < 3 then n else 3
  }

  function TowerOf(cells: seq<seq<Cell>>, side: int, p: Pos): bool
    requires IsGrid(cells) && InGrid(p)
  {
    HasBuildingOf(At(cells, p), side, Tower)
  }

  /** The second pass: an opposing tower protects its own cell and every
      four-adjacent cell of opposing territory. */
  predicate TowerZone(cells: seq<seq<Cell>>, info: array2<char>, side: int, p: Pos)
    requires IsGrid(cells) && IsInfo(info) && InGrid(p)
    reads info
  {
    var opp := Opponent(side);
    TowerOf(cells, opp, p) ||
    (InfoAt(info, p) == TerritoryChar(opp) &&
     (TowerOf(cells, opp, North(p)) || TowerOf(cells, opp, South(p)) ||
      TowerOf(cells, opp, East(p)) || TowerOf(cells, opp, West(p))))
  }

  /** The level update_gamestate leaves at p for `side`. */
  function Level(cells: seq<seq<Cell>>, info: array2<char>, side: int, p: Pos): int
    requires IsGrid(cells) && IsInfo(info) && InGrid(p)
    reads info
  {
    if TowerZone(cells, info, side, p) then 3 else BaseLevel(At(cells, p), side)
  }

  /** A whole level table of `side`, indexed [y, x]. */
  ghost predicate LevelsAre(levels: array2<int>, cells: seq<seq<Cell>>, info: array2<char>, side: int)
    requires IsGrid(cells) && IsInfo(info)
    reads levels, info
  {
    levels.Length0 == Height && levels.Length1 == Width &&
    forall p {:trigger levels[p.y, p.x]} {:trigger Level(cells, info, side, p)} | InGrid(p) ::
      levels[p.y, p.x] == Level(cells, info, side, p)
  }

  /** Every unit on the board has a level from 1 to 3. */
  ghost predicate UnitLevelsOk(cells: seq<seq<Cell>>)
    requires IsGrid(cells)
  {
    forall p | InGrid(p) && At(cells, p).unit.Some? :: 1 <= At(cells, p).unit.value.level <= 3
  }

  /** The access levels are 1, 2, 3 or 9; an opposing unit of level L on
      an unprotected cell without a building asks for min(3, L + 1); the
      side's own HQ, mine, tower and units and every void cell ask for 9
      unless an opposing tower protects the cell, which asks for 3. */
  lemma LevelFacts(cells: seq<seq<Cell>>, info: array2<char>, side: int, p: Pos)
    requires IsGrid(cells) && IsInfo(info) && InGrid(p) && UnitLevelsOk(cells)
    requires side == Ally || side == Enemy
    ensures Level(cells, info, side, p) in {1, 2, 3, 9}
    ensures TowerZone(cells, info, side, p) ==> Level(cells, info, side, p) == 3
    ensures !TowerZone(cells, info, side, p) && At(cells, p).building.None? && HasUnitOf(At(cells, p), Opponent(side)) ==>
              Level(cells, info, side, p) == Min3(At(cells, p).unit.value.level + 1)
    ensures !TowerZone(cells, info, side, p) && HasBuildingOf(At(cells, p), side, HQ) ==> Level(cells, info, side, p) == 9
    ensures !TowerZone(cells, info, side, p) && HasBuildingOf(At(cells, p), side, Mine) ==> Level(cells, info, side, p) == 9
    ensures !TowerZone(cells, info, side, p) && HasBuildingOf(At(cells, p), side, Tower) ==> Level(cells, info, side, p) == 9
    ensures !TowerZone(cells, info, side, p) && At(cells, p).building.None? &&
            (HasUnitOf(At(cells, p), side) || (At(cells, p).unit.None? && At(cells, p).voidCell)) ==>
              Level(cells, info, side, p) == 9
    ensures !TowerZone(cells, info, side, p) && IsEmpty(At(cells, p)) && !At(cells, p).voidCell ==>
              Level(cells, info, side, p) == 1
  {
  }

  /** The tower zone of the opposing side, seen from the tower: the tower's
      cell and its four-adjacent cells of opposing territory. */
  lemma TowerZoneFromTower(cells: seq<seq<Cell>>, info: array2<char>, side: int, c: Pos, p: Pos)
    requires IsGrid(cells) && IsInfo(info) && InGrid(c) && InGrid(p)
    requires TowerOf(cells, Opponent(side), c)
    requires p == c || (Manhattan(c, p) == 1 && InfoAt(info, p) == TerritoryChar(Opponent(side)))
    ensures TowerZone(cells, info, side, p)
  {
    if p != c {
      NeighboursAreAdjacent(p, c);
      ManhattanSymmetric(c, p);
    }
  }

  // ------------------------------------------------------------- adjacency

  /** [q] when b holds, [] otherwise: one push_back of the neighbour loops. */
  function KeepIf(b: bool, q: Pos): seq<Pos> {
    if b then [q] else []
  }

  /** A cell the agent's units may path through. */
  predicate Accessible(c: Cell) {
    !IsOccupiedByInaccessibleBuilding(c) && !c.voidCell
  }

  predicate FullEdge(cells: seq<seq<Cell>>, p: Pos, q: Pos)
    requires IsGrid(cells) && InGrid(q)
  {
    Accessible(At(cells, q)) && q != p
  }

  /** adjacency_list[p]: the accessible neighbours, in N, S, E, W order. */
  function FullNeighbours(cells: seq<seq<Cell>>, p: Pos): seq<Pos>
    requires IsGrid(cells) && InGrid(p)
  {
    KeepIf(FullEdge(cells, p, North(p)), North(p)) + KeepIf(FullEdge(cells, p, South(p)), South(p)) +
    KeepIf(FullEdge(cells, p, East(p)), East(p)) + KeepIf(FullEdge(cells, p, West(p)), West(p))
  }

  /** The four proper neighbours are pairwise distinct. */
  lemma NeighboursDistinct(p: Pos)
    requires InGrid(p)
    ensures North(p) != p && South(p) != p ==> North(p) != South(p)
    ensures North(p) != p && East(p) != p ==> North(p) != East(p)
    ensures North(p) != p && West(p) != p ==> North(p) != West(p)
    ensures South(p) != p && East(p) != p ==> South(p) != East(p)
    ensures South(p) != p && West(p) != p ==> South(p) != West(p)
    ensures East(p) != p && West(p) != p ==> East(p) != West(p)
  {
  }

  /** Membership in, and distinctness of, a list kept from the four
      neighbours. */
  lemma KeptFour(p: Pos, a: bool, b: bool, c: bool, d: bool)
    requires InGrid(p)
    requires a ==> North(p) != p
    requires b ==> South(p) != p
    requires c ==> East(p) != p
    requires d ==> West(p) != p
    ensures var L := KeepIf(a, North(p)) + KeepIf(b, South(p)) + KeepIf(c, East(p)) + KeepIf(d, West(p));
      |L| <= 4 &&
      (forall q :: q in L <==> (a && q == North(p)) || (b && q == South(p)) || (c && q == East(p)) || (d && q == West(p))) &&
      (forall i, j | 0 <= i < j < |L| :: L[i] != L[j])
  {
    NeighboursDistinct(p);
  }

  /** Every entry of adjacency_list[p] is an in-grid cell at Manhattan
      distance one that is neither void nor the agent's HQ or mine, every
      such cell is listed, at most four are, and none twice. */
  lemma FullNeighboursFacts(cells: seq<seq<Cell>>, p: Pos)
    requires IsGrid(cells) && InGrid(p)
    ensures forall q :: q in FullNeighbours(cells, p) <==>
              InGrid(q) && Manhattan(p, q) == 1 && Accessible(At(cells, q))
    ensures |FullNeighbours(cells, p)| <= 4
    ensures forall i, j | 0 <= i < j < |FullNeighbours(cells, p)| :: FullNeighbours(cells, p)[i] != FullNeighbours(cells, p)[j]
  {
    KeptFour(p, FullEdge(cells, p, North(p)), FullEdge(cells, p, South(p)), FullEdge(cells, p, East(p)), FullEdge(cells, p, West(p)));
    FullNeighboursMembers(cells, p);
  }

  lemma FullNeighboursMembers(cells: seq<seq<Cell>>, p: Pos)
    requires IsGrid(cells) && InGrid(p)
    ensures forall q :: q in FullNeighbours(cells, p) <==>
              InGrid(q) && Manhattan(p, q) == 1 && Accessible(At(cells, q))
  {
    var L := FullNeighbours(cells, p);
    KeptFour(p, FullEdge(cells, p, North(p)), FullEdge(cells, p, South(p)), FullEdge(cells, p, East(p)), FullEdge(cells, p, West(p)));
    forall q
      ensures q in L <==> InGrid(q) && Manhattan(p, q) == 1 && Accessible(At(cells, q))
    {
      NeighboursAreAdjacent(p, q);
    }
  }

  /** adjacency_list as a whole: one entry per cell, each with its
      accessible neighbours. */
  ghost predicate IsFullAdjacency(cells: seq<seq<Cell>>, adj: map<Pos, seq<Pos>>)
    requires IsGrid(cells)
  {
    adj.Keys == AllPositions &&
    forall p {:trigger adj[p]} | p in adj :: InGrid(p) && adj[p] == FullNeighbours(cells, p)
  }

  lemma FullAdjacencyAt(cells: seq<seq<Cell>>, adj: map<Pos, seq<Pos>>, p: Pos)
    requires IsGrid(cells) && IsFullAdjacency(cells, adj) && InGrid(p)
    ensures p in adj && adj[p] == FullNeighbours(cells, p)
  {
    InAllPositions(p);
  }

  predicate TerritoryEdge(info: array2<char>, c: char, p: Pos, q: Pos)
    requires IsInfo(info) && InGrid(q)
    reads info
  {
    InfoAt(info, q) == c && q != p
  }

  /** adjacency_list_position_enemy[p] (c = 'X') or
      adjacency_list_position_ally[p] (c = 'O'), in N, S, E, W order. */
  function TerritoryNeighbours(info: array2<char>, c: char, p: Pos): seq<Pos>
    requires IsInfo(info) && InGrid(p)
    reads info
  {
    KeepIf(TerritoryEdge(info, c, p, North(p)), North(p)) + KeepIf(TerritoryEdge(info, c, p, South(p)), South(p)) +
    KeepIf(TerritoryEdge(info, c, p, East(p)), East(p)) + KeepIf(TerritoryEdge(info, c, p, West(p)), West(p))
  }

  /** A whole territory adjacency map: one entry per listed cell. */
  ghost predicate IsTerritoryAdjacency(info: array2<char>, positions: seq<Pos>, c: char, adj: map<Pos, seq<Pos>>)
    requires IsInfo(info)
    reads info
  {
    (forall p :: p in adj <==> p in positions) &&
    forall p {:trigger adj[p]} | p in adj :: InGrid(p) && adj[p] == TerritoryNeighbours(info, c, p)
  }

  /** The territory lists hold exactly the four-adjacent cells of the same
      character, each once. */
  lemma TerritoryNeighboursFacts(info: array2<char>, c: char, p: Pos)
    requires IsInfo(info) && InGrid(p)
    ensures forall q :: q in TerritoryNeighbours(info, c, p) <==> InGrid(q) && Manhattan(p, q) == 1 && InfoAt(info, q) == c
    ensures forall i, j | 0 <= i < j < |TerritoryNeighbours(info, c, p)| ::
              TerritoryNeighbours(info, c, p)[i] != TerritoryNeighbours(info, c, p)[j]
  {
    KeptFour(p, TerritoryEdge(info, c, p, North(p)), TerritoryEdge(info, c, p, South(p)),
             TerritoryEdge(info, c, p, East(p)), TerritoryEdge(info, c, p, West(p)));
    forall q
      ensures q in TerritoryNeighbours(info, c, p) <==> InGrid(q) && Manhattan(p, q) == 1 && InfoAt(info, q) == c
    {
      NeighboursAreAdjacent(p, q);
    }
  }

  /** Between cells of character c the territory relation is symmetric. */
  lemma TerritorySymmetric(info: array2<char>, c: char, p: Pos, q: Pos)
    requires IsInfo(info) && InGrid(p) && InGrid(q) && InfoAt(info, p) == c && InfoAt(info, q) == c
    ensures q in TerritoryNeighbours(info, c, p) <==> p in TerritoryNeighbours(info, c, q)
  {
    TerritoryNeighboursFacts(info, c, p);
    TerritoryNeighboursFacts(info, c, q);
    ManhattanSymmetric(p, q);
  }

  // ------------------------------------------------------------ positions

  /** The cells of character c among the first n of the column-major scan. */
  function PositionsUpTo(info: array2<char>, c: char, n: nat): seq<Pos>
    requires IsInfo(info) && n <= Dim
    reads info
  {
    if n == 0 then []
    else
      ScanPosInGrid(n - 1);
      PositionsUpTo(info, c, n - 1) + KeepIf(InfoAt(info, ScanPos(n - 1)) == c, ScanPos(n - 1))
  }

  /** positions_enemy (c = 'X') or positions_ally (c = 'O'). */
  function Positions(info: array2<char>, c: char): seq<Pos>
    requires IsInfo(info)
    reads info
  {
    PositionsUpTo(info, c, Dim)
  }

  /** The prefix lists exactly the scanned cells of character c, each once,
      in scan order. */
  lemma {:induction false} PositionsUpToFacts(info: array2<char>, c: char, n: nat)
    requires IsInfo(info) && n <= Dim
    ensures forall p :: p in PositionsUpTo(info, c, n) <==> InGrid(p) && ScanIndex(p) < n && InfoAt(info, p) == c
    ensures forall i, j | 0 <= i < j < |PositionsUpTo(info, c, n)| ::
              ScanIndex(PositionsUpTo(info, c, n)[i]) < ScanIndex(PositionsUpTo(info, c, n)[j])
  {
    if n > 0 {
      PositionsUpToFacts(info, c, n - 1);
      ScanPosInGrid(n - 1);
      var P := PositionsUpTo(info, c, n - 1);
      forall p
        ensures p in PositionsUpTo(info, c, n) <==> InGrid(p) && ScanIndex(p) < n && InfoAt(info, p) == c
      {
        if InGrid(p) && ScanIndex(p) == n - 1 {
          ScanRoundTrip(p);
        }
      }
    }
  }

  /** The territory list is exactly the cells of character c, without
      repetition, in column-major order. */
  lemma PositionsFacts(info: array2<char>, c: char)
    requires IsInfo(info)
    ensures forall p {:trigger p in Positions(info, c)} :: p in Positions(info, c) <==> InGrid(p) && InfoAt(info, p) == c
    ensures forall i, j | 0 <= i < j < |Positions(info, c)| :: Positions(info, c)[i] != Positions(info, c)[j]
  {
    PositionsUpToFacts(info, c, Dim);
    forall p | InGrid(p)
      ensures ScanIndex(p) < Dim
    {
      ScanRoundTrip(p);
    }
  }

  // -------------------------------------------------------- enemy heat map

  /** get_distance: the table entry for the flat indices of p and q. */
  function GetDistance(d: array2<int>, p: Pos, q: Pos): int
    requires IsTable(d) && InGrid(p) && InGrid(q)
    reads d
  {
    IndexRoundTrip(p);
    IndexRoundTrip(q);
    d[Index(p), Index(q)]
  }

  /** All the listed indices name units. */
  predicate IndicesIn(idx: seq<int>, units: seq<Unit>) {
    forall k | 0 <= k < |idx| :: 0 <= idx[k] < |units|
  }

  predicate UnitsInGrid(units: seq<Unit>) {
    forall i | 0 <= i < |units| :: InGrid(units[i].p)
  }

  /** score_enemy at p after the first |idx| enemies: the sum of the levels
      of the listed units within table distance 3 of p. */
  function Pressure(units: seq<Unit>, idx: seq<int>, d: array2<int>, p: Pos): int
    requires IndicesIn(idx, units) && UnitsInGrid(units) && IsTable(d) && InGrid(p)
    reads d
  {
    if |idx| == 0 then 0
    else
      var e := units[idx[|idx| - 1]];
      Pressure(units, idx[..|idx| - 1], d, p) + (if GetDistance(d, e.p, p) <= 3 then e.level else 0)
  }

  /** With positive levels the heat is never negative, and no unit listed
      farther than Manhattan distance 3 from p contributes to it. */
  lemma {:induction false} PressureFacts(units: seq<Unit>, idx: seq<int>, d: array2<int>, info: array2<char>, p: Pos)
    requires IndicesIn(idx, units) && UnitsInGrid(units) && IsTable(d) && IsInfo(info) && InGrid(p)
    requires TableFacts(d, info)
    requires forall i | 0 <= i < |units| :: units[i].level >= 1
    ensures Pressure(units, idx, d, p) >= 0
    ensures (forall k | 0 <= k < |idx| :: Manhattan(units[idx[k]].p, p) > 3) ==> Pressure(units, idx, d, p) == 0
  {
    if |idx| > 0 {
      PressureFacts(units, idx[..|idx| - 1], d, info, p);
      var e := units[idx[|idx| - 1]];
      IndexRoundTrip(e.p);
      IndexRoundTrip(p);
      TableFactsMean(d, info);
      assert PosOf(Index(e.p)) == e.p && PosOf(Index(p)) == p;
    }
  }

  /** score_enemy as a whole. */
  ghost predicate HeatIs(score: seq<seq<int>>, units: seq<Unit>, idx: seq<int>, d: array2<int>)
    requires IndicesIn(idx, units) && UnitsInGrid(units) && IsTable(d)
    reads d
  {
    IsGrid(score) && forall p {:trigger At(score, p)} | InGrid(p) :: At(score, p) == Pressure(units, idx, d, p)
  }
}
