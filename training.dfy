/** The read-only members behind train_units, build_mines and build_towers:
    the attainable cells, the training score and the spawn spots, the largest
    entry of a score map, the unit and mine counts, the mine purchases and the
    tower placement. */
module Training {
  import opened Grid
  import opened Wrappers
  import opened Cells
  import opened Distances
  import opened Board
  import opened Rebuild
  import opened Planning

  // ---------------------------------------------------------- attainable

  /** is_position_attainable: p or one of its four neighbours, each
      coordinate clamped to the board, is ours. */
  predicate IsPositionAttainable(s: Scene, p: Pos)
    requires SceneOk(s) && InGrid(p)
  {
    At(s.info, p) == 'O' || At(s.info, South(p)) == 'O' || At(s.info, North(p)) == 'O' ||
    At(s.info, East(p)) == 'O' || At(s.info, West(p)) == 'O'
  }

  /** Clamping only ever repeats p itself, so p is attainable exactly when a
      cell at Manhattan distance at most one is ours. */
  lemma AttainableMeans(s: Scene, p: Pos)
    requires SceneOk(s) && InGrid(p)
    ensures IsPositionAttainable(s, p) <==> exists q | InGrid(q) && Manhattan(p, q) <= 1 :: At(s.info, q) == 'O'
  {
    if IsPositionAttainable(s, p) {
      var q := if At(s.info, p) == 'O' then p else if At(s.info, South(p)) == 'O' then South(p)
               else if At(s.info, North(p)) == 'O' then North(p) else if At(s.info, East(p)) == 'O' then East(p)
               else West(p);
      assert InGrid(q) && Manhattan(p, q) <= 1 && At(s.info, q) == 'O';
    }
    if exists q | InGrid(q) && Manhattan(p, q) <= 1 :: At(s.info, q) == 'O' {
      var q :| InGrid(q) && Manhattan(p, q) <= 1 && At(s.info, q) == 'O';
      if q != p {
        assert q == South(p) || q == North(p) || q == East(p) || q == West(p);
      }
    }
  }

  // ------------------------------------------------------------ training

  /** get_training_score: -inf when the unit's level does not open the cell
      or some unit already heads or moves there; otherwise early turns keep
      spawns near our HQ, later ones push them out, and every spawn is
      drawn towards the enemy HQ, its units, its buildings and its
      territory, and away from cells already ours. */
  function GetTrainingScore(s: Scene, u: Unit, p: Pos): (r: Score)
    requires SceneOk(s) && InGrid(p)
    ensures r.Finite? <==>
              u.level >= At(s.levelAlly, p) && At(s.view.usedObjective, p) == 0 && At(s.view.usedMovement, p) == 0
  {
    if u.level < At(s.levelAlly, p) || At(s.view.usedObjective, p) != 0 || At(s.view.usedMovement, p) != 0 then MinusInf
    else
      var toAlly := Dist(s, p, s.hqAlly);
      var cell := At(s.view.cells, p);
      var c := At(s.info, p);
      Finite((if s.turn <= 3 then - toAlly * 10 else toAlly)
             - Dist(s, p, s.hqEnemy)
             + (if HasUnitOf(cell, Enemy) then 20 else 0)
             + (if IsOccupiedByEnemyBuilding(cell) then 20 else 0)
             + (if c == 'X' then 10 else 0)
             + (if c == 'O' then -100 else 0))
  }

  /** Of two open cells equally far from both HQs and alike in enemy units
      and buildings, one already ours scores strictly below one that is
      not; enemy territory scores strictly above neutral ground. */
  lemma TrainingPrefersNewGround(s: Scene, u: Unit, p: Pos, q: Pos)
    requires SceneOk(s) && InGrid(p) && InGrid(q)
    requires GetTrainingScore(s, u, p).Finite? && GetTrainingScore(s, u, q).Finite?
    requires Dist(s, p, s.hqAlly) == Dist(s, q, s.hqAlly) && Dist(s, p, s.hqEnemy) == Dist(s, q, s.hqEnemy)
    requires HasUnitOf(At(s.view.cells, p), Enemy) == HasUnitOf(At(s.view.cells, q), Enemy)
    requires IsOccupiedByEnemyBuilding(At(s.view.cells, p)) == IsOccupiedByEnemyBuilding(At(s.view.cells, q))
    ensures At(s.info, p) == 'O' && At(s.info, q) != 'O' ==> Greater(GetTrainingScore(s, u, q), GetTrainingScore(s, u, p))
    ensures At(s.info, p) == 'X' && At(s.info, q) == '.' ==>
              GetTrainingScore(s, u, p).value == GetTrainingScore(s, u, q).value + 10
  {
  }

  /** The cell q is at table distance one from p and ours. */
  predicate OwnedNeighbour(s: Scene, p: Pos, q: Pos)
    requires SceneOk(s) && InGrid(p) && InGrid(q)
  {
    Dist(s, p, q) == 1 && At(s.info, q) == 'O'
  }

  ghost predicate NextToOwned(s: Scene, p: Pos)
    requires SceneOk(s) && InGrid(p)
  {
    exists q | InGrid(q) :: OwnedNeighbour(s, p, q)
  }

  /** The inner double loop of find_training_positions: a scan for a cell
      at distance one that is ours. Its break leaves only the inner loop,
      so the outer loop runs on; the answer is the same. */
  method HasOwnedNeighbour(s: Scene, p: Pos) returns (attainable: bool)
    requires SceneOk(s) && InGrid(p)
    ensures attainable <==> NextToOwned(s, p)
  {
    attainable := false;
    for k := 0 to Width
      invariant attainable ==> NextToOwned(s, p)
      invariant !attainable ==> forall q | InGrid(q) && q.x < k :: !OwnedNeighbour(s, p, q)
    {
      for l := 0 to Height
        invariant attainable ==> NextToOwned(s, p)
        invariant !attainable ==> forall q | InGrid(q) && ScansBefore(q, Pos(k, l)) :: !OwnedNeighbour(s, p, q)
      {
        if Dist(s, p, Pos(k, l)) == 1 && At(s.info, Pos(k, l)) == 'O' {
          assert OwnedNeighbour(s, p, Pos(k, l));
          attainable := true;
          break;
        }
      }
    }
  }

  /** With the table floyd_warshall produced, distance one means
      four-adjacent with neither cell void: a cell is next to our territory
      exactly when it is not void and a four-adjacent cell is ours. */
  lemma NextToOwnedMeans(s: Scene, info: array2<char>, levelAlly: array2<int>, d: array2<int>, p: Pos)
    requires SceneOk(s) && IsInfo(info) && IsLevels(levelAlly) && IsTable(d) && InGrid(p)
    requires Captures(s, info, levelAlly, d) && TableFacts(d, info)
    ensures NextToOwned(s, p) <==>
              At(s.info, p) != '#' && exists q | InGrid(q) && Manhattan(p, q) == 1 :: At(s.info, q) == 'O'
  {
    TableFactsMean(d, info);
    IndexRoundTrip(p);
    if NextToOwned(s, p) {
      var q :| InGrid(q) && OwnedNeighbour(s, p, q);
      IndexRoundTrip(q);
      assert d[Index(p), Index(q)] == 1;
      assert PosOf(Index(p)) == p && PosOf(Index(q)) == q;
      assert Index(p) != Index(q);
      assert !VoidAt(info, Index(p));
      assert At(s.info, p) == InfoAt(info, p);
    }
    if At(s.info, p) != '#' && exists q | InGrid(q) && Manhattan(p, q) == 1 :: At(s.info, q) == 'O' {
      var q :| InGrid(q) && Manhattan(p, q) == 1 && At(s.info, q) == 'O';
      IndexRoundTrip(q);
      assert PosOf(Index(p)) == p && PosOf(Index(q)) == q;
      assert At(s.info, p) == InfoAt(info, p) && At(s.info, q) == InfoAt(info, q);
      assert Linked(info, Index(p), Index(q));
      assert OwnedNeighbour(s, p, q);
    }
  }

  /** A cell find_training_positions keeps for a unit of the level: the
      level opens it, no unit moves there, for level two and up an enemy
      unit one level lower stands on it, and it is next to our territory. */
  ghost predicate SpawnSpot(s: Scene, level: int, p: Pos)
    requires SceneOk(s) && InGrid(p)
  {
    At(s.levelAlly, p) <= level && At(s.view.usedMovement, p) == 0 &&
    (level >= 2 ==> IsOccupiedByEnemyUnitOfLevel(At(s.view.cells, p), level - 1)) &&
    NextToOwned(s, p)
  }

  /** The value find_training_positions gives a kept cell: the training
      score of a fresh unit for level one, the enemy heat for level two. */
  function SpawnScore(s: Scene, level: int, p: Pos): Score
    requires SceneOk(s) && InGrid(p)
  {
    if level == 1 then GetTrainingScore(s, Unit(999, Ally, level, p), p) else Finite(At(s.view.scoreEnemy, p))
  }

  /** The first loop of find_training_positions: the kept cells in scan order. */
  method AvailablePositions(s: Scene, level: int) returns (available: seq<Pos>)
    requires SceneOk(s)
    ensures forall p :: p in available <==> InGrid(p) && SpawnSpot(s, level, p)
  {
    available := [];
    for i := 0 to Width
      invariant forall p :: p in available <==> InGrid(p) && p.x < i && SpawnSpot(s, level, p)
    {
      for j := 0 to Height
        invariant forall p :: p in available <==> InGrid(p) && ScansBefore(p, Pos(i, j)) && SpawnSpot(s, level, p)
      {
        var pos := Pos(i, j);
        var enemyLowerOrNone := if level >= 2 then IsOccupiedByEnemyUnitOfLevel(At(s.view.cells, pos), level - 1) else true;
        if At(s.levelAlly, pos) > level || At(s.view.usedMovement, pos) != 0 || !enemyLowerOrNone {
          continue;
        }
        var attainable := HasOwnedNeighbour(s, pos);
        if attainable {
          available := available + [pos];
        }
      }
    }
  }

  /** find_training_positions: the kept cells with their values; levels
      other than one and two get no cells. */
  method FindTrainingPositions(s: Scene, level: int) returns (m: map<Pos, Score>)
    requires SceneOk(s)
    ensures forall p :: p in m <==> InGrid(p) && SpawnSpot(s, level, p) && (level == 1 || level == 2)
    ensures forall p | p in m :: m[p] == SpawnScore(s, level, p)
  {
    var available := AvailablePositions(s, level);
    m := map[];
    for k := 0 to |available|
      invariant forall p :: p in m <==> p in available[..k] && (level == 1 || level == 2)
      invariant forall p | p in m :: InGrid(p) && m[p] == SpawnScore(s, level, p)
    {
      var pos := available[k];
      if level == 1 {
        m := m[pos := GetTrainingScore(s, Unit(999, Ally, level, pos), pos)];
      } else if level == 2 {
        m := m[pos := Finite(At(s.view.scoreEnemy, pos))];
      }
      assert available[..k + 1] == available[..k] + [pos];
    }
    assert available[..|available|] == available;
  }

  /** find_max_in_map: an entry whose value no other entry exceeds; which
      of several equal ones is unspecified (unordered_map order). */
  method FindMaxInMap(m: map<Pos, Score>) returns (p: Pos)
    requires |m| > 0
    ensures p in m && forall q | q in m :: !Greater(m[q], m[p])
  {
    var keys := m.Keys;
    assert keys != {} by {
      var k :| k in m;
    }
    p := Pick(keys);
    var rest := keys - {p};
    while rest != {}
      invariant p in m && rest <= keys
      invariant forall q | q in keys - rest :: !Greater(m[q], m[p])
      decreases |rest|
    {
      var q := Pick(rest);
      if Greater(m[q], m[p]) {
        forall r | r in keys - rest ensures !Greater(m[r], m[q]) {
          GreaterIsStrictTotalOrder(m[r], m[p], m[q]);
          GreaterIsStrictTotalOrder(m[q], m[p], m[r]);
        }
        p := q;
      }
      GreaterIsStrictTotalOrder(m[q], m[q], m[p]);
      rest := rest - {q};
    }
  }

  // -------------------------------------------------------------- counts

  /** The number of the listed units that have the level. */
  function CountOfLevel(units: seq<Unit>, idx: seq<int>, level: int): nat
    requires IndicesIn(idx, units)
  {
    if idx == [] then 0
    else CountOfLevel(units, idx[..|idx| - 1], level) + (if units[idx[|idx| - 1]].level == level then 1 else 0)
  }

  /** nbr_units_ally_of_level over units_ally. */
  method NbrUnitsAllyOfLevel(units: seq<Unit>, idx: seq<int>, level: int) returns (n: int)
    requires IndicesIn(idx, units)
    ensures n == CountOfLevel(units, idx, level)
  {
    n := 0;
    for k := 0 to |idx|
      invariant n == CountOfLevel(units, idx[..k], level)
    {
      assert idx[..k + 1][..k] == idx[..k];
      n := n + if units[idx[k]].level == level then 1 else 0;
    }
    assert idx[..|idx|] == idx;
  }

  /** With every level from 1 to 3, the three counts add up to the number
      of units, and none is larger than it. */
  lemma {:induction false} CountsAddUp(units: seq<Unit>, idx: seq<int>)
    requires IndicesIn(idx, units)
    requires forall k | 0 <= k < |idx| :: 1 <= units[idx[k]].level <= 3
    ensures CountOfLevel(units, idx, 1) + CountOfLevel(units, idx, 2) + CountOfLevel(units, idx, 3) == |idx|
    ensures CountOfLevel(units, idx, 1) <= |idx| && CountOfLevel(units, idx, 2) <= |idx| && CountOfLevel(units, idx, 3) <= |idx|
  {
    if idx != [] {
      CountsAddUp(units, idx[..|idx| - 1]);
    }
  }

  /** The number of the side's mines among the buildings. */
  function MineCount(bs: seq<Building>): nat {
    if bs == [] then 0
    else MineCount(bs[..|bs| - 1]) + (if bs[|bs| - 1].owner == Ally && bs[|bs| - 1].t == Mine then 1 else 0)
  }

  /** nbr_mines_ally over buildings_ally. */
  method NbrMinesAlly(bs: seq<Building>) returns (n: int)
    ensures n == MineCount(bs)
  {
    n := 0;
    for k := 0 to |bs|
      invariant n == MineCount(bs[..k])
    {
      assert bs[..k + 1][..k] == bs[..k];
      n := n + if bs[k].owner == Ally && bs[k].t == Mine then 1 else 0;
    }
    assert bs[..|bs|] == bs;
  }

  /** No more mines than buildings, and none exactly when no building is
      an owned mine. */
  lemma {:induction false} MineCountMeans(bs: seq<Building>)
    ensures MineCount(bs) <= |bs|
    ensures MineCount(bs) == 0 <==> forall b | b in bs :: !(b.owner == Ally && b.t == Mine)
  {
    if bs != [] {
      MineCountMeans(bs[..|bs| - 1]);
      assert bs == bs[..|bs| - 1] + [bs[|bs| - 1]];
    }
  }

  /** The ceiling below which need_train_units asks for more units. */
  function Quota(level: int): int {
    if level == 1 then 8 else 4
  }

  /** need_train_units: we have at most the quota of units of the level. */
  method NeedTrainUnits(units: seq<Unit>, idx: seq<int>, level: int) returns (need: bool)
    requires IndicesIn(idx, units)
    ensures need <==> CountOfLevel(units, idx, level) <= Quota(level)
  {
    var n := NbrUnitsAllyOfLevel(units, idx, level);
    need := n <= Quota(level);
  }

  // --------------------------------------------------------------- mines

  /** A mine spot in our territory without a building. */
  predicate MineSite(s: Scene, p: Pos)
    requires SceneOk(s) && InGrid(p)
  {
    At(s.info, p) == 'O' && At(s.view.cells, p).mine && At(s.view.cells, p).building.None?
  }

  /** The first loop of build_mines: every mine site, valued by closeness
      to our HQ. */
  method MineSites(s: Scene) returns (sites: map<Pos, Score>)
    requires SceneOk(s)
    ensures forall p :: p in sites <==> InGrid(p) && MineSite(s, p)
    ensures forall p | p in sites :: sites[p] == Finite(- Dist(s, s.hqAlly, p))
  {
    sites := map[];
    for i := 0 to Width
      invariant forall p :: p in sites <==> InGrid(p) && p.x < i && MineSite(s, p)
      invariant forall p | p in sites :: InGrid(p) && sites[p] == Finite(- Dist(s, s.hqAlly, p))
    {
      for j := 0 to Height
        invariant forall p :: p in sites <==> InGrid(p) && ScansBefore(p, Pos(i, j)) && MineSite(s, p)
        invariant forall p | p in sites :: InGrid(p) && sites[p] == Finite(- Dist(s, s.hqAlly, p))
      {
        if MineSite(s, Pos(i, j)) {
          sites := sites[Pos(i, j) := Finite(- Dist(s, s.hqAlly, Pos(i, j)))];
        }
      }
    }
  }

  /** The price of the next mine once `built` mines stand. */
  function MinePrice(built: int): int {
    20 + 4 * built
  }

  /** The gold k more mines cost from `built` on. */
  function PriceOfMines(built: int, k: nat): int {
    if k == 0 then 0 else PriceOfMines(built, k - 1) + MinePrice(built + k - 1)
  }

  /** The cells the commands are aimed at. */
  function CommandCells(cmds: seq<Command>): set<Pos> {
    set i | 0 <= i < |cmds| :: cmds[i].p
  }

  lemma CommandCellsSnoc(cmds: seq<Command>, c: Command)
    ensures CommandCells(cmds + [c]) == CommandCells(cmds) + {c.p}
  {
    var cmds' := cmds + [c];
    forall t | t in CommandCells(cmds') ensures t in CommandCells(cmds) + {c.p} {
      var i :| 0 <= i < |cmds'| && cmds'[i].p == t;
      if i < |cmds| {
        assert cmds'[i] == cmds[i];
      }
    }
    forall t | t in CommandCells(cmds) ensures t in CommandCells(cmds') {
      var i :| 0 <= i < |cmds| && cmds[i].p == t;
      assert cmds'[i] == cmds[i];
    }
    assert cmds'[|cmds|].p == c.p;
  }

  /** What the purchase loop keeps: the commands build distinct sites no
      longer waiting, best first, none worse than a waiting site, and every
      site is waiting or bought. */
  ghost predicate Bought(sites: map<Pos, Score>, rest: map<Pos, Score>, cmds: seq<Command>) {
    rest.Keys <= sites.Keys && (forall p | p in rest :: rest[p] == sites[p]) &&
    (forall p | p in sites :: p in rest || p in CommandCells(cmds)) &&
    (forall i | 0 <= i < |cmds| :: cmds[i].Build? && cmds[i].kind == MineBuilding && cmds[i].p in sites && cmds[i].p !in rest) &&
    (forall i, j | 0 <= i < j < |cmds| :: cmds[i].p != cmds[j].p) &&
    (forall i, j | 0 <= i < j < |cmds| :: !Greater(sites[cmds[j].p], sites[cmds[i].p])) &&
    (forall i, p | 0 <= i < |cmds| && p in rest :: !Greater(sites[p], sites[cmds[i].p]))
  }

  /** Buying the best waiting site keeps Bought. */
  lemma BuyStep(sites: map<Pos, Score>, rest: map<Pos, Score>, cmds: seq<Command>, site: Pos)
    requires Bought(sites, rest, cmds)
    requires site in rest && forall q | q in rest :: !Greater(rest[q], rest[site])
    ensures Bought(sites, rest - {site}, cmds + [Build(MineBuilding, site)])
  {
    var cmds', rest' := cmds + [Build(MineBuilding, site)], rest - {site};
    CommandCellsSnoc(cmds, Build(MineBuilding, site));
    forall i | 0 <= i < |cmds| ensures !Greater(sites[site], sites[cmds[i].p]) {
    }
    forall i, p | 0 <= i < |cmds'| && p in rest' ensures !Greater(sites[p], sites[cmds'[i].p]) {
      if i == |cmds| {
        assert rest[p] == sites[p] && rest[site] == sites[site];
      } else {
        assert cmds'[i] == cmds[i];
      }
    }
  }

  /** The purchase loop of build_mines over the sites: take the best
      remaining site; buy it when the gold covers the price of one more
      mine, otherwise stop. */
  method BuyMines(sites: map<Pos, Score>, gold: int, built: int) returns (cmds: seq<Command>, goldLeft: int)
    ensures forall i | 0 <= i < |cmds| :: cmds[i].Build? && cmds[i].kind == MineBuilding && cmds[i].p in sites
    ensures forall i, j | 0 <= i < j < |cmds| :: cmds[i].p != cmds[j].p
    ensures forall i, j | 0 <= i < j < |cmds| :: !Greater(sites[cmds[j].p], sites[cmds[i].p])
    ensures forall i, p | 0 <= i < |cmds| && p in sites && p !in CommandCells(cmds) :: !Greater(sites[p], sites[cmds[i].p])
    ensures goldLeft == gold - PriceOfMines(built, |cmds|)
    ensures cmds != [] ==> goldLeft >= 0
    ensures goldLeft >= MinePrice(built + |cmds|) ==> sites.Keys <= CommandCells(cmds)
  {
    var rest := sites;
    var nbrMines := built;
    cmds, goldLeft := [], gold;
    while |rest| > 0
      invariant Bought(sites, rest, cmds)
      invariant nbrMines == built + |cmds|
      invariant goldLeft == gold - PriceOfMines(built, |cmds|)
      invariant cmds != [] ==> goldLeft >= 0
      decreases |rest|
    {
      var site := FindMaxInMap(rest);
      if goldLeft >= MinePrice(nbrMines) {
        BuyStep(sites, rest, cmds, site);
        goldLeft := goldLeft - MinePrice(nbrMines);
        nbrMines := nbrMines + 1;
        cmds := cmds + [Build(MineBuilding, site)];
      } else {
        return;
      }
      rest := rest - {site};
    }
  }

  /** build_mines: with fewer than two mines, buy the sites closest to our
      HQ first while the gold covers the rising price, stopping at the
      first site it does not cover. */
  method BuildMines(s: Scene, buildingsAlly: seq<Building>, gold: int) returns (cmds: seq<Command>, goldLeft: int)
    requires SceneOk(s)
    ensures MineCount(buildingsAlly) >= 2 ==> cmds == [] && goldLeft == gold
    ensures forall i | 0 <= i < |cmds| ::
              cmds[i].Build? && cmds[i].kind == MineBuilding && InGrid(cmds[i].p) && MineSite(s, cmds[i].p)
    ensures forall i, j | 0 <= i < j < |cmds| :: cmds[i].p != cmds[j].p
    ensures forall i, j | 0 <= i < j < |cmds| :: Dist(s, s.hqAlly, cmds[i].p) <= Dist(s, s.hqAlly, cmds[j].p)
    ensures forall i, p | 0 <= i < |cmds| && InGrid(p) && MineSite(s, p) && p !in CommandCells(cmds) ::
              Dist(s, s.hqAlly, cmds[i].p) <= Dist(s, s.hqAlly, p)
    ensures goldLeft == gold - PriceOfMines(MineCount(buildingsAlly), |cmds|)
    ensures cmds != [] ==> goldLeft >= 0
    ensures MineCount(buildingsAlly) < 2 && goldLeft >= MinePrice(MineCount(buildingsAlly) + |cmds|) ==>
              forall p | InGrid(p) && MineSite(s, p) :: p in CommandCells(cmds)
  {
    var nbrMines := NbrMinesAlly(buildingsAlly);
    if nbrMines >= 2 {
      return [], gold;
    }
    var sites := MineSites(s);
    cmds, goldLeft := BuyMines(sites, gold, nbrMines);
  }

  // -------------------------------------------------------------- towers

  /** Some enemy unit is within table distance ten of our HQ. */
  ghost predicate EnemyNearHQ(s: Scene, units: seq<Unit>)
    requires SceneOk(s) && UnitsInGrid(units) && IndicesIn(s.view.unitsEnemy, units)
  {
    exists k | 0 <= k < |s.view.unitsEnemy| :: Dist(s, units[s.view.unitsEnemy[k]].p, s.hqAlly) <= 10
  }

  /** The cell build_towers builds on: (1, 1) for an HQ on the left edge,
      (10, 10) otherwise. */
  function TowerSpot(hq: Pos): (r: Pos)
    ensures hq == Pos(0, 0) ==> r == Pos(1, 1)
    ensures hq == Pos(Width - 1, Height - 1) ==> r == Pos(Width - 2, Height - 2)
  {
    if hq.x == 0 then Pos(1, 1) else Pos(10, 10)
  }

  /** For an HQ in either start corner the tower goes diagonally next to
      it, on the board. */
  lemma TowerSpotBesideHQ(hq: Pos)
    requires hq == Pos(0, 0) || hq == Pos(Width - 1, Height - 1)
    ensures InGrid(TowerSpot(hq)) && Abs(TowerSpot(hq).x - hq.x) == 1 && Abs(TowerSpot(hq).y - hq.y) == 1
  {
  }

  /** build_towers: one BUILD TOWER command when an enemy unit is near our
      HQ, none otherwise; no gold is paid. */
  method BuildTowers(s: Scene, units: seq<Unit>) returns (cmds: seq<Command>)
    requires SceneOk(s) && UnitsInGrid(units) && IndicesIn(s.view.unitsEnemy, units)
    ensures cmds == if EnemyNearHQ(s, units) then [Build(TowerBuilding, TowerSpot(s.hqAlly))] else []
  {
    var pos := if s.hqAlly.x == 0 then Pos(1, 1) else Pos(10, 10);
    for k := 0 to |s.view.unitsEnemy|
      invariant forall j | 0 <= j < k :: Dist(s, units[s.view.unitsEnemy[j]].p, s.hqAlly) > 10
    {
      if Dist(s, units[s.view.unitsEnemy[k]].p, s.hqAlly) <= 10 {
        return [Build(TowerBuilding, pos)];
      }
    }
    return [];
  }
}
