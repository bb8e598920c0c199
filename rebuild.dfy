/** The loops of update_gamestate, each proved to compute the part of the
    derived state that Board specifies. */
module Rebuild {
  import opened Grid
  import opened Wrappers
  import opened Cells
  import opened Distances
  import opened Board

  // ---------------------------------------------------------------- cells

  /** Every cell of the grid records its own position. */
  ghost predicate PositionsRecorded(cells: seq<seq<Cell>>)
    requires IsGrid(cells)
  {
    forall p | InGrid(p) :: At(cells, p).position == p
  }

  /** cells = vector<vector<Cell>>(...) followed by cells[j][i] = Cell(i, j). */
  method FreshCells() returns (cells: seq<seq<Cell>>)
    ensures IsGrid(cells) && forall p | InGrid(p) :: At(cells, p) == EmptyCell(p)
  {
    cells := Filled(EmptyCell(Pos(0, 0)));
    for i := 0 to Width
      invariant IsGrid(cells)
      invariant forall p | InGrid(p) :: At(cells, p) == if p.x < i then EmptyCell(p) else EmptyCell(Pos(0, 0))
    {
      for j := 0 to Height
        invariant IsGrid(cells)
        invariant forall p | InGrid(p) ::
          At(cells, p) == if p.x < i || (p.x == i && p.y < j) then EmptyCell(p) else EmptyCell(Pos(0, 0))
      {
        cells := Put(cells, Pos(i, j), EmptyCell(Pos(i, j)));
      }
    }
  }

  /** The indices of the first n units whose owner is (owned) or is not
      (!owned) this agent, in list order. */
  function UnitIndices(units: seq<Unit>, n: nat, owned: bool): seq<int>
    requires n <= |units|
  {
    if n == 0 then []
    else UnitIndices(units, n - 1, owned) + (if IsOwnedUnit(units[n - 1]) == owned then [n - 1] else [])
  }

  /** units_ally (owned) and units_enemy (!owned) hold exactly the indices
      of the matching units, each once, in increasing order. */
  lemma {:induction false} UnitIndicesFacts(units: seq<Unit>, n: nat, owned: bool)
    requires n <= |units|
    ensures forall k | 0 <= k < |UnitIndices(units, n, owned)| ::
              0 <= UnitIndices(units, n, owned)[k] < n && IsOwnedUnit(units[UnitIndices(units, n, owned)[k]]) == owned
    ensures forall i | 0 <= i < n :: i in UnitIndices(units, n, owned) <==> IsOwnedUnit(units[i]) == owned
    ensures forall a, b | 0 <= a < b < |UnitIndices(units, n, owned)| ::
              UnitIndices(units, n, owned)[a] < UnitIndices(units, n, owned)[b]
  {
    if n > 0 {
      UnitIndicesFacts(units, n - 1, owned);
    }
  }

  /** The buildings of bs owned (owned) or not owned (!owned) by this agent, in list order. */
  function BuildingsOf(bs: seq<Building>, owned: bool): (r: seq<Building>)
    ensures forall b :: b in r <==> b in bs && IsOwnedBuilding(b) == owned
  {
    if |bs| == 0 then []
    else BuildingsOf(bs[..|bs| - 1], owned) + (if IsOwnedBuilding(bs[|bs| - 1]) == owned then [bs[|bs| - 1]] else [])
  }

  /** A cell after set_unit with the last unit on it, if any. */
  function WithUnit(c: Cell, u: Option<Unit>): Cell {
    if u.Some? then c.(unit := u) else c
  }

  function WithBuilding(c: Cell, b: Option<Building>): Cell {
    if b.Some? then c.(building := b) else c
  }

  lemma LastUnitStep(units: seq<Unit>, k: int, p: Pos)
    requires 0 <= k < |units|
    ensures LastUnitAt(units[..k + 1], p) == if units[k].p == p then Some(units[k]) else LastUnitAt(units[..k], p)
  {
    assert units[..k + 1][..k] == units[..k];
  }

  lemma LastBuildingStep(bs: seq<Building>, k: int, p: Pos)
    requires 0 <= k < |bs|
    ensures LastBuildingAt(bs[..k + 1], p) == if bs[k].p == p then Some(bs[k]) else LastBuildingAt(bs[..k], p)
  {
    assert bs[..k + 1][..k] == bs[..k];
  }

  /** The units loop: split into units_ally / units_enemy and place each
      unit on its cell. */
  method PlaceUnits(cells0: seq<seq<Cell>>, units: seq<Unit>) returns (cells: seq<seq<Cell>>, ally: seq<int>, enemy: seq<int>)
    requires IsGrid(cells0) && UnitsInGrid(units)
    ensures IsGrid(cells)
    ensures forall p | InGrid(p) :: At(cells, p) == WithUnit(At(cells0, p), LastUnitAt(units, p))
    ensures ally == UnitIndices(units, |units|, true) && enemy == UnitIndices(units, |units|, false)
  {
    cells, ally, enemy := cells0, [], [];
    for k := 0 to |units|
      invariant IsGrid(cells) && UnitsPlaced(cells0, cells, units[..k])
      invariant ally == UnitIndices(units, k, true) && enemy == UnitIndices(units, k, false)
    {
      var u := units[k];
      IndicesStep(units, k);
      if IsOwnedUnit(u) {
        ally := ally + [k];
      } else {
        enemy := enemy + [k];
      }
      PlaceUnitStep(cells0, cells, units, k);
      cells := Put(cells, u.p, At(cells, u.p).(unit := Some(u)));
    }
    assert units[..|units|] == units;
  }

  lemma IndicesStep(units: seq<Unit>, k: nat)
    requires k < |units|
    ensures UnitIndices(units, k + 1, true) == UnitIndices(units, k, true) + (if IsOwnedUnit(units[k]) then [k] else [])
    ensures UnitIndices(units, k + 1, false) == UnitIndices(units, k, false) + (if IsOwnedUnit(units[k]) then [] else [k])
  {
  }

  /** The cells of cells0 with the given units placed, the last one on a cell winning. */
  ghost predicate UnitsPlaced(cells0: seq<seq<Cell>>, cells: seq<seq<Cell>>, us: seq<Unit>)
    requires IsGrid(cells0) && IsGrid(cells)
  {
    forall p | InGrid(p) :: At(cells, p) == WithUnit(At(cells0, p), LastUnitAt(us, p))
  }

  lemma PlaceUnitStep(cells0: seq<seq<Cell>>, cells: seq<seq<Cell>>, units: seq<Unit>, k: int)
    requires IsGrid(cells0) && IsGrid(cells) && UnitsInGrid(units) && 0 <= k < |units|
    requires UnitsPlaced(cells0, cells, units[..k])
    ensures UnitsPlaced(cells0, Put(cells, units[k].p, At(cells, units[k].p).(unit := Some(units[k]))), units[..k + 1])
  {
    var u := units[k];
    var next := Put(cells, u.p, At(cells, u.p).(unit := Some(u)));
    forall p | InGrid(p)
      ensures At(next, p) == WithUnit(At(cells0, p), LastUnitAt(units[..k + 1], p))
    {
      LastUnitStep(units, k, p);
    }
  }

  /** The buildings loop: split into buildings_ally / buildings_enemy and
      place each building on its cell. */
  method PlaceBuildings(cells0: seq<seq<Cell>>, buildings: seq<Building>)
    returns (cells: seq<seq<Cell>>, ally: seq<Building>, enemy: seq<Building>)
    requires IsGrid(cells0) && forall b | b in buildings :: InGrid(b.p)
    ensures IsGrid(cells)
    ensures forall p | InGrid(p) :: At(cells, p) == WithBuilding(At(cells0, p), LastBuildingAt(buildings, p))
    ensures ally == BuildingsOf(buildings, true) && enemy == BuildingsOf(buildings, false)
  {
    cells, ally, enemy := cells0, [], [];
    for k := 0 to |buildings|
      invariant IsGrid(cells)
      invariant forall p | InGrid(p) :: At(cells, p) == WithBuilding(At(cells0, p), LastBuildingAt(buildings[..k], p))
      invariant ally == BuildingsOf(buildings[..k], true) && enemy == BuildingsOf(buildings[..k], false)
    {
      var b := buildings[k];
      assert buildings[..k + 1][..k] == buildings[..k];
      if IsOwnedBuilding(b) {
        ally := ally + [b];
      } else {
        enemy := enemy + [b];
      }
      cells := Put(cells, b.p, At(cells, b.p).(building := Some(b)));
      forall p | InGrid(p)
        ensures At(cells, p) == WithBuilding(At(cells0, p), LastBuildingAt(buildings[..k + 1], p))
      {
        LastBuildingStep(buildings, k, p);
      }
    }
    assert buildings[..|buildings|] == buildings;
  }

  /** The mines loop: flag every mine spot. */
  method MarkMines(cells0: seq<seq<Cell>>, mineSpots: seq<Pos>) returns (cells: seq<seq<Cell>>)
    requires IsGrid(cells0) && forall m | m in mineSpots :: InGrid(m)
    ensures IsGrid(cells)
    ensures forall p | InGrid(p) :: At(cells, p) == if p in mineSpots then At(cells0, p).(mine := true) else At(cells0, p)
  {
    cells := cells0;
    for k := 0 to |mineSpots|
      invariant IsGrid(cells)
      invariant forall p | InGrid(p) :: At(cells, p) == if p in mineSpots[..k] then At(cells0, p).(mine := true) else At(cells0, p)
    {
      var m := mineSpots[k];
      assert mineSpots[..k + 1] == mineSpots[..k] + [m];
      cells := Put(cells, m, At(cells, m).(mine := true));
    }
    assert mineSpots[..|mineSpots|] == mineSpots;
  }

  /** The voids loop: flag every '#' cell. */
  method MarkVoids(cells0: seq<seq<Cell>>, info: array2<char>) returns (cells: seq<seq<Cell>>)
    requires IsGrid(cells0) && IsInfo(info)
    ensures IsGrid(cells)
    ensures forall p | InGrid(p) :: At(cells, p) == if InfoAt(info, p) == '#' then At(cells0, p).(voidCell := true) else At(cells0, p)
  {
    cells := cells0;
    for i := 0 to Width
      invariant IsGrid(cells)
      invariant forall p | InGrid(p) ::
        At(cells, p) == if p.x < i && InfoAt(info, p) == '#' then At(cells0, p).(voidCell := true) else At(cells0, p)
    {
      for j := 0 to Height
        invariant IsGrid(cells)
        invariant forall p | InGrid(p) ::
          At(cells, p) == if (p.x < i || (p.x == i && p.y < j)) && InfoAt(info, p) == '#' then At(cells0, p).(voidCell := true) else At(cells0, p)
      {
        if info[j, i] == '#' {
          cells := Put(cells, Pos(i, j), At(cells, Pos(i, j)).(voidCell := true));
        }
      }
    }
  }

  /** The cell-building part of update_gamestate. */
  method RebuildCells(units: seq<Unit>, buildings: seq<Building>, mineSpots: seq<Pos>, info: array2<char>)
    returns (cells: seq<seq<Cell>>, unitsAlly: seq<int>, unitsEnemy: seq<int>,
             buildingsAlly: seq<Building>, buildingsEnemy: seq<Building>)
    requires IsInfo(info) && UnitsInGrid(units)
    requires forall b | b in buildings :: InGrid(b.p)
    requires forall m | m in mineSpots :: InGrid(m)
    ensures CellsAre(cells, units, buildings, mineSpots, info)
    ensures unitsAlly == UnitIndices(units, |units|, true) && unitsEnemy == UnitIndices(units, |units|, false)
    ensures buildingsAlly == BuildingsOf(buildings, true) && buildingsEnemy == BuildingsOf(buildings, false)
  {
    var c0 := FreshCells();
    var c1;
    c1, unitsAlly, unitsEnemy := PlaceUnits(c0, units);
    var c2;
    c2, buildingsAlly, buildingsEnemy := PlaceBuildings(c1, buildings);
    var c3 := MarkMines(c2, mineSpots);
    cells := MarkVoids(c3, info);
  }

  // ---------------------------------------------------------- access levels

  predicate IsLevels(a: array2<int>) {
    a.Length0 == Height && a.Length1 == Width
  }

  /** The first level pass, rows then cells: each cell's base level, written
      at the position the cell records. */
  method BaseLevels(levels: array2<int>, cells: seq<seq<Cell>>, side: int)
    requires IsLevels(levels) && IsGrid(cells) && PositionsRecorded(cells)
    modifies levels
    ensures forall p | InGrid(p) :: levels[p.y, p.x] == BaseLevel(At(cells, p), side)
  {
    for y := 0 to Height
      invariant forall p | InGrid(p) && p.y < y :: levels[p.y, p.x] == BaseLevel(At(cells, p), side)
    {
      for x := 0 to Width
        invariant forall p | InGrid(p) && (p.y < y || (p.y == y && p.x < x)) :: levels[p.y, p.x] == BaseLevel(At(cells, p), side)
      {
        var c := cells[y][x];
        assert c == At(cells, Pos(x, y)) && c.position == Pos(x, y);
        levels[c.position.y, c.position.x] := BaseLevel(c, side);
      }
    }
  }

  /** The cell q was visited before (y, x) in a rows-then-cells scan. */
  predicate Before(q: Pos, y: int, x: int) {
    q.y < y || (q.y == y && q.x < x)
  }

  /** An opposing tower on q that the tower pass has already handled. */
  predicate TowerDone(cells: seq<seq<Cell>>, side: int, q: Pos, y: int, x: int)
    requires IsGrid(cells) && InGrid(q)
  {
    TowerOf(cells, Opponent(side), q) && Before(q, y, x)
  }

  /** TowerZone restricted to the towers handled before (y, x). */
  predicate ZoneSoFar(cells: seq<seq<Cell>>, info: array2<char>, side: int, p: Pos, y: int, x: int)
    requires IsGrid(cells) && IsInfo(info) && InGrid(p)
    reads info
  {
    TowerDone(cells, side, p, y, x) ||
    (InfoAt(info, p) == TerritoryChar(Opponent(side)) &&
     (TowerDone(cells, side, North(p), y, x) || TowerDone(cells, side, South(p), y, x) ||
      TowerDone(cells, side, East(p), y, x) || TowerDone(cells, side, West(p), y, x)))
  }

  /** The tower pass's invariant: 3 on what the handled towers protect,
      the base level elsewhere. */
  ghost predicate TowerPassInv(levels: array2<int>, cells: seq<seq<Cell>>, info: array2<char>, side: int, y: int, x: int)
    requires IsLevels(levels) && IsGrid(cells) && IsInfo(info)
    reads levels, info
  {
    forall p | InGrid(p) :: levels[p.y, p.x] == if ZoneSoFar(cells, info, side, p, y, x) then 3 else BaseLevel(At(cells, p), side)
  }

  /** The character's cells among the four clamped neighbours of c get 3. */
  method ProtectNeighbour(levels: array2<int>, info: array2<char>, n: Pos, ch: char)
    requires IsLevels(levels) && IsInfo(info) && InGrid(n)
    modifies levels
    ensures forall p | InGrid(p) :: levels[p.y, p.x] == if p == n && InfoAt(info, n) == ch then 3 else old(levels[p.y, p.x])
  {
    if info[n.y, n.x] == ch {
      levels[n.y, n.x] := 3;
    }
  }

  /** The body of the tower pass for a cell c holding an opposing tower. */
  method ProtectAround(levels: array2<int>, info: array2<char>, c: Pos, ch: char)
    requires IsLevels(levels) && IsInfo(info) && InGrid(c)
    modifies levels
    ensures forall p | InGrid(p) ::
      levels[p.y, p.x] == if p == c || (InfoAt(info, p) == ch && p in Neighbours(c)) then 3 else old(levels[p.y, p.x])
  {
    levels[c.y, c.x] := 3;
    ProtectNeighbour(levels, info, South(c), ch);
    ProtectNeighbour(levels, info, North(c), ch);
    ProtectNeighbour(levels, info, East(c), ch);
    ProtectNeighbour(levels, info, West(c), ch);
  }

  /** Handling the cell at (y, x) adds just that cell's tower, if any. */
  lemma TowerDoneStep(cells: seq<seq<Cell>>, side: int, q: Pos, y: int, x: int)
    requires IsGrid(cells) && InGrid(q) && 0 <= y < Height && 0 <= x < Width
    ensures TowerDone(cells, side, q, y, x + 1) <==>
      TowerDone(cells, side, q, y, x) || (q == Pos(x, y) && TowerOf(cells, Opponent(side), q))
  {
  }

  /** Handling the cell at (y, x) moves the invariant one cell on. */
  lemma TowerStep(cells: seq<seq<Cell>>, info: array2<char>, side: int, y: int, x: int, p: Pos)
    requires IsGrid(cells) && IsInfo(info) && InGrid(p) && 0 <= y < Height && 0 <= x < Width
    ensures ZoneSoFar(cells, info, side, p, y, x + 1) <==>
      ZoneSoFar(cells, info, side, p, y, x) ||
      (TowerOf(cells, Opponent(side), Pos(x, y)) &&
       (p == Pos(x, y) || (InfoAt(info, p) == TerritoryChar(Opponent(side)) && p in Neighbours(Pos(x, y)))))
  {
    var c := Pos(x, y);
    TowerDoneStep(cells, side, p, y, x);
    TowerDoneStep(cells, side, North(p), y, x);
    TowerDoneStep(cells, side, South(p), y, x);
    TowerDoneStep(cells, side, East(p), y, x);
    TowerDoneStep(cells, side, West(p), y, x);
    if p != c {
      NeighbourSymmetric(p, c);
      assert c in Neighbours(p) <==> c == North(p) || c == South(p) || c == East(p) || c == West(p);
    }
  }

  /** The tower pass: rows then cells, each opposing tower protecting itself
      and its neighbours of opposing territory. */
  method TowerLevels(levels: array2<int>, cells: seq<seq<Cell>>, info: array2<char>, side: int)
    requires IsLevels(levels) && IsGrid(cells) && IsInfo(info) && PositionsRecorded(cells)
    requires forall p | InGrid(p) :: levels[p.y, p.x] == BaseLevel(At(cells, p), side)
    modifies levels
    ensures forall p | InGrid(p) :: levels[p.y, p.x] == Level(cells, info, side, p)
  {
    for y := 0 to Height
      invariant TowerPassInv(levels, cells, info, side, y, 0)
    {
      TowerRow(levels, cells, info, side, y);
    }
  }

  /** One row of the tower pass. */
  method TowerRow(levels: array2<int>, cells: seq<seq<Cell>>, info: array2<char>, side: int, y: int)
    requires IsLevels(levels) && IsGrid(cells) && IsInfo(info) && PositionsRecorded(cells) && 0 <= y < Height
    requires TowerPassInv(levels, cells, info, side, y, 0)
    modifies levels
    ensures TowerPassInv(levels, cells, info, side, y + 1, 0)
  {
    for x := 0 to Width
      invariant TowerPassInv(levels, cells, info, side, y, x)
    {
      TowerCell(levels, cells, info, side, y, x);
    }
    forall p | InGrid(p)
      ensures ZoneSoFar(cells, info, side, p, y, Width) == ZoneSoFar(cells, info, side, p, y + 1, 0)
    {
    }
  }

  /** The tower pass at the cell (x, y). */
  method TowerCell(levels: array2<int>, cells: seq<seq<Cell>>, info: array2<char>, side: int, y: int, x: int)
    requires IsLevels(levels) && IsGrid(cells) && IsInfo(info) && PositionsRecorded(cells)
    requires 0 <= y < Height && 0 <= x < Width
    requires TowerPassInv(levels, cells, info, side, y, x)
    modifies levels
    ensures TowerPassInv(levels, cells, info, side, y, x + 1)
  {
    var c := cells[y][x];
    assert c == At(cells, Pos(x, y)) && c.position == Pos(x, y);
    if HasBuildingOf(c, Opponent(side), Tower) {
      ProtectAround(levels, info, c.position, TerritoryChar(Opponent(side)));
    }
    forall p | InGrid(p)
      ensures levels[p.y, p.x] == if ZoneSoFar(cells, info, side, p, y, x + 1) then 3 else BaseLevel(At(cells, p), side)
    {
      TowerStep(cells, info, side, y, x, p);
    }
  }

  /** Both passes for one side. */
  method ComputeLevels(levels: array2<int>, cells: seq<seq<Cell>>, info: array2<char>, side: int)
    requires IsLevels(levels) && IsGrid(cells) && IsInfo(info) && PositionsRecorded(cells)
    modifies levels
    ensures LevelsAre(levels, cells, info, side)
  {
    BaseLevels(levels, cells, side);
    TowerLevels(levels, cells, info, side);
  }

  // ------------------------------------------------------------- adjacency

  /** adjacency_list: every cell's accessible neighbours. */
  method FullAdjacency(cells: seq<seq<Cell>>) returns (adj: map<Pos, seq<Pos>>)
    requires IsGrid(cells) && PositionsRecorded(cells)
    ensures IsFullAdjacency(cells, adj)
  {
    adj := map[];
    for y := 0 to Height
      invariant forall p :: p in adj <==> InGrid(p) && p.y < y
      invariant forall p | p in adj :: InGrid(p) && adj[p] == FullNeighbours(cells, p)
    {
      adj := AdjacencyRow(cells, adj, y);
    }
    forall p
      ensures p in adj <==> p in AllPositions
    {
      InAllPositions(p);
    }
  }

  /** The adjacency map holds the cells scanned before (y, x), each with
      its accessible neighbours. */
  ghost predicate AdjacencySoFar(cells: seq<seq<Cell>>, adj: map<Pos, seq<Pos>>, y: int, x: int)
    requires IsGrid(cells)
  {
    (forall p :: p in adj <==> InGrid(p) && Before(p, y, x)) &&
    (forall p | p in adj :: InGrid(p) && adj[p] == FullNeighbours(cells, p))
  }

  /** One row of the adjacency loop. */
  method AdjacencyRow(cells: seq<seq<Cell>>, adj0: map<Pos, seq<Pos>>, y: int) returns (adj: map<Pos, seq<Pos>>)
    requires IsGrid(cells) && PositionsRecorded(cells) && 0 <= y < Height
    requires forall p :: p in adj0 <==> InGrid(p) && p.y < y
    requires forall p | p in adj0 :: InGrid(p) && adj0[p] == FullNeighbours(cells, p)
    ensures forall p :: p in adj <==> InGrid(p) && p.y < y + 1
    ensures forall p | p in adj :: InGrid(p) && adj[p] == FullNeighbours(cells, p)
  {
    adj := adj0;
    assert AdjacencySoFar(cells, adj, y, 0);
    for x := 0 to Width
      invariant AdjacencySoFar(cells, adj, y, x)
    {
      var c := cells[y][x];
      assert c == At(cells, Pos(x, y)) && c.position == Pos(x, y);
      AdjacencyStep(cells, adj, y, x);
      adj := adj[c.position := FullNeighbours(cells, c.position)];
    }
  }

  lemma AdjacencyStep(cells: seq<seq<Cell>>, adj: map<Pos, seq<Pos>>, y: int, x: int)
    requires IsGrid(cells) && 0 <= y < Height && 0 <= x < Width
    requires AdjacencySoFar(cells, adj, y, x)
    ensures AdjacencySoFar(cells, adj[Pos(x, y) := FullNeighbours(cells, Pos(x, y))], y, x + 1)
  {
    var c := Pos(x, y);
    var adj' := adj[c := FullNeighbours(cells, c)];
    forall p
      ensures p in adj' <==> InGrid(p) && Before(p, y, x + 1)
    {
      assert Before(p, y, x + 1) <==> Before(p, y, x) || p == c;
    }
    forall p | p in adj'
      ensures InGrid(p) && adj'[p] == FullNeighbours(cells, p)
    {
      if p != c {
        assert p in adj;
      }
    }
  }

  /** positions_enemy and positions_ally: x outer, y inner. */
  method CollectPositions(info: array2<char>) returns (enemy: seq<Pos>, ally: seq<Pos>)
    requires IsInfo(info)
    ensures enemy == Positions(info, 'X') && ally == Positions(info, 'O')
  {
    enemy, ally := [], [];
    for i := 0 to Width
      invariant enemy == PositionsUpTo(info, 'X', i * Height) && ally == PositionsUpTo(info, 'O', i * Height)
    {
      for j := 0 to Height
        invariant enemy == PositionsUpTo(info, 'X', i * Height + j) && ally == PositionsUpTo(info, 'O', i * Height + j)
      {
        assert ScanPos(i * Height + j) == Pos(i, j);
        if info[j, i] == 'X' {
          enemy := enemy + [Pos(i, j)];
        } else if info[j, i] == 'O' {
          ally := ally + [Pos(i, j)];
        }
      }
    }
  }

  /** adjacency_list_position_enemy ('X') or _ally ('O') over the listed cells. */
  method TerritoryAdjacency(info: array2<char>, positions: seq<Pos>, ch: char) returns (adj: map<Pos, seq<Pos>>)
    requires IsInfo(info) && forall p | p in positions :: InGrid(p)
    ensures IsTerritoryAdjacency(info, positions, ch, adj)
  {
    adj := map[];
    for k := 0 to |positions|
      invariant forall p :: p in adj <==> p in positions[..k]
      invariant forall p | p in adj :: InGrid(p) && adj[p] == TerritoryNeighbours(info, ch, p)
    {
      assert positions[..k + 1] == positions[..k] + [positions[k]];
      adj := adj[positions[k] := TerritoryNeighbours(info, ch, positions[k])];
    }
    assert positions[..|positions|] == positions;
  }

  /** positions_enemy, positions_ally and their adjacency maps. */
  ghost predicate TerritoryIs(info: array2<char>, enemy: seq<Pos>, ally: seq<Pos>,
                              adjEnemy: map<Pos, seq<Pos>>, adjAlly: map<Pos, seq<Pos>>)
    requires IsInfo(info)
    reads info
  {
    enemy == Positions(info, 'X') && ally == Positions(info, 'O') &&
    IsTerritoryAdjacency(info, enemy, 'X', adjEnemy) && IsTerritoryAdjacency(info, ally, 'O', adjAlly)
  }

  /** The territory part of update_gamestate. */
  method Territory(info: array2<char>)
    returns (enemy: seq<Pos>, ally: seq<Pos>, adjEnemy: map<Pos, seq<Pos>>, adjAlly: map<Pos, seq<Pos>>)
    requires IsInfo(info)
    ensures TerritoryIs(info, enemy, ally, adjEnemy, adjAlly)
  {
    enemy, ally := CollectPositions(info);
    PositionsFacts(info, 'X');
    PositionsFacts(info, 'O');
    adjEnemy := TerritoryAdjacency(info, enemy, 'X');
    adjAlly := TerritoryAdjacency(info, ally, 'O');
  }

  // -------------------------------------------------------- enemy heat map

  /** score_enemy: for each enemy, add its level to every cell within table
      distance 3. */
  method EnemyHeat(units: seq<Unit>, enemy: seq<int>, d: array2<int>) returns (score: seq<seq<int>>)
    requires IndicesIn(enemy, units) && UnitsInGrid(units) && IsTable(d)
    ensures HeatIs(score, units, enemy, d)
  {
    score := Filled(0);
    for k := 0 to |enemy|
      invariant IsGrid(score) && forall p | InGrid(p) :: At(score, p) == Pressure(units, enemy[..k], d, p)
    {
      var e := units[enemy[k]];
      assert enemy[..k + 1][..k] == enemy[..k];
      for i := 0 to Width
        invariant IsGrid(score)
        invariant forall p | InGrid(p) ::
          At(score, p) == if p.x < i then Pressure(units, enemy[..k + 1], d, p) else Pressure(units, enemy[..k], d, p)
      {
        for j := 0 to Height
          invariant IsGrid(score)
          invariant forall p | InGrid(p) ::
            At(score, p) == if p.x < i || (p.x == i && p.y < j) then Pressure(units, enemy[..k + 1], d, p) else Pressure(units, enemy[..k], d, p)
        {
          if GetDistance(d, e.p, Pos(i, j)) <= 3 {
            score := Put(score, Pos(i, j), At(score, Pos(i, j)) + e.level);
          }
        }
      }
    }
    assert enemy[..|enemy|] == enemy;
  }

  // ------------------------------------------------------ update_gamestate

  /** The state update_gamestate rebuilds from the turn's input, and the
      two marker grids it resets (cells_used_objective, cells_used_movement),
      which the planning steps then mark. */
  datatype View = View(cells: seq<seq<Cell>>, unitsAlly: seq<int>, unitsEnemy: seq<int>,
                       buildingsAlly: seq<Building>, buildingsEnemy: seq<Building>,
                       adjacency: map<Pos, seq<Pos>>, positionsEnemy: seq<Pos>, positionsAlly: seq<Pos>,
                       adjacencyEnemy: map<Pos, seq<Pos>>, adjacencyAlly: map<Pos, seq<Pos>>,
                       scoreEnemy: seq<seq<int>>, usedObjective: seq<seq<int>>, usedMovement: seq<seq<int>>)

  /** Everything update_gamestate derives from the units, buildings, mine
      spots, cells_info and the distance table: the cells, the unit and
      building lists of each side, both level tables, the adjacency lists
      and the enemy heat map. */
  ghost predicate Derivation(units: seq<Unit>, buildings: seq<Building>, mineSpots: seq<Pos>,
                             info: array2<char>, distances: array2<int>,
                             levelAlly: array2<int>, levelEnemy: array2<int>, v: View)
    requires IsInfo(info) && IsTable(distances) && UnitsInGrid(units)
    reads info, distances, levelAlly, levelEnemy
  {
    CellsAre(v.cells, units, buildings, mineSpots, info) &&
    v.unitsAlly == UnitIndices(units, |units|, true) && v.unitsEnemy == UnitIndices(units, |units|, false) &&
    v.buildingsAlly == BuildingsOf(buildings, true) && v.buildingsEnemy == BuildingsOf(buildings, false) &&
    LevelsAre(levelAlly, v.cells, info, Ally) && LevelsAre(levelEnemy, v.cells, info, Enemy) &&
    IsFullAdjacency(v.cells, v.adjacency) &&
    TerritoryIs(info, v.positionsEnemy, v.positionsAlly, v.adjacencyEnemy, v.adjacencyAlly) &&
    IndicesIn(v.unitsAlly, units) && IndicesIn(v.unitsEnemy, units) &&
    HeatIs(v.scoreEnemy, units, v.unitsEnemy, distances)
  }

  /** The derivation does not look at the objective markers. */
  lemma DerivationIgnoresMarks(units: seq<Unit>, buildings: seq<Building>, mineSpots: seq<Pos>,
                               info: array2<char>, distances: array2<int>,
                               levelAlly: array2<int>, levelEnemy: array2<int>, v: View, marks: seq<seq<int>>)
    requires IsInfo(info) && IsTable(distances) && UnitsInGrid(units)
    requires Derivation(units, buildings, mineSpots, info, distances, levelAlly, levelEnemy, v)
    ensures Derivation(units, buildings, mineSpots, info, distances, levelAlly, levelEnemy, v.(usedObjective := marks))
  {
  }

  /** update_gamestate: both markers reset, and the cells, both level tables
      (written in place), the adjacency lists and the heat map rebuilt. */
  method Derive(units: seq<Unit>, buildings: seq<Building>, mineSpots: seq<Pos>,
                info: array2<char>, distances: array2<int>, levelAlly: array2<int>, levelEnemy: array2<int>)
    returns (v: View)
    requires IsInfo(info) && IsTable(distances) && IsLevels(levelAlly) && IsLevels(levelEnemy)
    requires levelAlly != levelEnemy && UnitsInGrid(units)
    requires forall b | b in buildings :: InGrid(b.p)
    requires forall m | m in mineSpots :: InGrid(m)
    modifies levelAlly, levelEnemy
    ensures Derivation(units, buildings, mineSpots, info, distances, levelAlly, levelEnemy, v)
    ensures AllZero(v.usedObjective) && AllZero(v.usedMovement)
  {
    var zeros := Zeros();
    var cells, unitsAlly, unitsEnemy, buildingsAlly, buildingsEnemy := RebuildCells(units, buildings, mineSpots, info);
    UnitIndicesFacts(units, |units|, true);
    UnitIndicesFacts(units, |units|, false);
    assert PositionsRecorded(cells);
    ComputeLevels(levelAlly, cells, info, Ally);
    ComputeLevels(levelEnemy, cells, info, Enemy);
    var adjacency := FullAdjacency(cells);
    var positionsEnemy, positionsAlly, adjacencyEnemy, adjacencyAlly := Territory(info);
    var scoreEnemy := EnemyHeat(units, unitsEnemy, distances);
    v := View(cells, unitsAlly, unitsEnemy, buildingsAlly, buildingsEnemy, adjacency,
              positionsEnemy, positionsAlly, adjacencyEnemy, adjacencyAlly, scoreEnemy, zeros, zeros);
  }
}
