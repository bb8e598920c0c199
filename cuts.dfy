/** The cut search behind train_units_on_cuts and the start of a chain
    kill: the score of a territory piece, the gain of cutting a territory
    at an articulation point, the attainable articulation points, the
    scored cuts, and the cheapest attainable chain-kill start. */
module Cuts {
  import opened Grid
  import opened Wrappers
  import opened Cells
  import opened Distances
  import opened Board
  import opened Rebuild
  import opened Paths
  import opened Search
  import opened Territory
  import opened Articulation
  import opened PriorityQueues
  import opened Planning
  import opened Training

  /** The territory graph searched: the enemy's when find_enemies is set. */
  function TerritoryAdj(s: Scene, fe: bool): map<Pos, seq<Pos>> {
    if fe then s.view.adjacencyEnemy else s.view.adjacencyAlly
  }

  /** The cells of the territory searched. */
  function TerritoryCells(s: Scene, fe: bool): seq<Pos> {
    if fe then s.view.positionsEnemy else s.view.positionsAlly
  }

  /** The cells of the other side's territory, from which a cut is reached. */
  function FacingCells(s: Scene, fe: bool): seq<Pos> {
    if fe then s.view.positionsAlly else s.view.positionsEnemy
  }

  /** The HQ a piece of territory stays connected to (find_graph_from_source). */
  function RootHQ(s: Scene, fe: bool): Pos {
    if fe then s.hqEnemy else s.hqAlly
  }

  /** The HQ whose neighbourhood score_graph rewards. */
  function ScoredHQ(s: Scene, fe: bool): Pos {
    if fe then s.hqAlly else s.hqEnemy
  }

  /** The territory graphs as update_gamestate builds them: every listed
      cell on the board, one adjacency entry per listed cell, undirected. */
  ghost predicate TerritoryOk(s: Scene, fe: bool) {
    AllInGrid(TerritoryCells(s, fe)) && AllInGrid(FacingCells(s, fe)) &&
    Undirected(TerritoryAdj(s, fe)) && AdjInGrid(TerritoryAdj(s, fe)) &&
    forall p :: p in TerritoryAdj(s, fe) <==> p in TerritoryCells(s, fe)
  }

  /** A territory adjacency map links each listed cell to its four-adjacent
      cells of the same character, which are listed too; so it is
      undirected and stays on the board. */
  lemma TerritoryAdjacencyUndirected(info: array2<char>, c: char, positions: seq<Pos>, adj: map<Pos, seq<Pos>>)
    requires IsInfo(info) && positions == Positions(info, c) && IsTerritoryAdjacency(info, positions, c, adj)
    ensures Undirected(adj) && AdjInGrid(adj) && AllInGrid(positions)
  {
    PositionsFacts(info, c);
    forall u | u in adj
      ensures forall v | v in adj[u] :: InGrid(v) && v in adj && u in adj[v]
    {
      forall v | v in adj[u] ensures InGrid(v) && v in adj && u in adj[v] {
        TerritoryEdgeBack(info, c, positions, adj, u, v);
      }
    }
    forall u | u in adj
      ensures u !in adj[u]
    {
      if u in adj[u] {
        TerritoryEdgeBack(info, c, positions, adj, u, u);
      }
    }
    assert NoParent !in adj by {
      assert !InGrid(NoParent);
    }
  }

  /** One edge of a territory adjacency map, seen from its other end. */
  lemma TerritoryEdgeBack(info: array2<char>, c: char, positions: seq<Pos>, adj: map<Pos, seq<Pos>>, u: Pos, v: Pos)
    requires IsInfo(info) && positions == Positions(info, c) && IsTerritoryAdjacency(info, positions, c, adj)
    requires forall p {:trigger p in Positions(info, c)} :: p in Positions(info, c) <==> InGrid(p) && InfoAt(info, p) == c
    requires u in adj && v in adj[u]
    ensures InGrid(v) && v in adj && u in adj[v] && v != u
  {
    assert u in positions;
    TerritoryNeighboursFacts(info, c, u);
    assert v in positions;
    TerritoryNeighboursFacts(info, c, v);
    assert Manhattan(v, u) == Manhattan(u, v);
  }

  /** The territories of a derived state satisfy TerritoryOk on both sides. */
  lemma DerivedTerritoryOk(s: Scene, info: array2<char>)
    requires IsInfo(info)
    requires TerritoryIs(info, s.view.positionsEnemy, s.view.positionsAlly, s.view.adjacencyEnemy, s.view.adjacencyAlly)
    ensures TerritoryOk(s, true) && TerritoryOk(s, false)
  {
    TerritoryAdjacencyUndirected(info, 'X', s.view.positionsEnemy, s.view.adjacencyEnemy);
    TerritoryAdjacencyUndirected(info, 'O', s.view.positionsAlly, s.view.adjacencyAlly);
  }

  // -------------------------------------------------------- score_graph

  /** What one cell of a cut-off piece is worth: ten per level of the unit
      on it, or 4 for a mine, 15 for a tower, 100 for an HQ; 20 more within
      table distance 3 of the scored HQ; 1 for the cell itself. */
  function CellValue(s: Scene, fe: bool, p: Pos): int
    requires SceneOk(s) && InGrid(p)
  {
    var cell := At(s.view.cells, p);
    (if IsOccupiedByUnit(cell) then cell.unit.value.level * 10
     else if IsOccupiedByMine(cell) then 4
     else if IsOccupiedByTower(cell) then 15
     else if IsOccupiedByHQ(cell) then 100
     else 0)
    + (if Dist(s, p, ScoredHQ(s, fe)) <= 3 then 20 else 0)
    + 1
  }

  predicate AllInGrid(graph: seq<Pos>) {
    forall v | v in graph :: InGrid(v)
  }

  /** The worth of a piece: the sum of its cells' values. */
  function GraphScore(s: Scene, fe: bool, graph: seq<Pos>): int
    requires SceneOk(s) && AllInGrid(graph)
  {
    if graph == [] then 0 else GraphScore(s, fe, graph[..|graph| - 1]) + CellValue(s, fe, graph[|graph| - 1])
  }

  /** score_graph. */
  method ScoreGraph(s: Scene, graph: seq<Pos>, fe: bool) returns (score: int)
    requires SceneOk(s) && AllInGrid(graph)
    ensures score == GraphScore(s, fe, graph)
  {
    score := 0;
    for k := 0 to |graph|
      invariant score == GraphScore(s, fe, graph[..k])
    {
      assert graph[..k + 1][..k] == graph[..k];
      score := score + CellValue(s, fe, graph[k]);
    }
    assert graph[..|graph|] == graph;
  }

  /** With units of level 1 to 3, every cell is worth between 1 and 121,
      so a piece is worth nothing exactly when it is empty. */
  lemma {:induction false} GraphScoreBounds(s: Scene, fe: bool, graph: seq<Pos>)
    requires SceneOk(s) && AllInGrid(graph) && UnitLevelsOk(s.view.cells)
    ensures |graph| <= GraphScore(s, fe, graph) <= 121 * |graph|
    ensures GraphScore(s, fe, graph) == 0 <==> graph == []
  {
    if graph != [] {
      GraphScoreBounds(s, fe, graph[..|graph| - 1]);
      var p := graph[|graph| - 1];
      assert InGrid(p);
    }
  }

  // --------------------------------------------------------------- cuts

  /** Every cell reachable from a grid cell is a grid cell. */
  lemma ReachableInGrid(adj: map<Pos, seq<Pos>>, allowed: Pos -> bool, a: Pos, b: Pos)
    requires AdjInGrid(adj) && InGrid(a) && Reachable(adj, allowed, a, b)
    ensures InGrid(b)
  {
    var W :| WalkFromTo(adj, allowed, W, a, b);
    if |W| > 1 {
      assert StepAt(adj, allowed, W, |W| - 2);
    }
  }

  /** What find_graph_from_source hands back for source, with forbidden
      removed: nothing when the piece still reaches the HQ, otherwise its
      cells, each once, source first. */
  ghost predicate IsPiece(adj: map<Pos, seq<Pos>>, source: Pos, forbidden: Pos, hq: Pos, graph: seq<Pos>) {
    (graph == [] <==> Reachable(adj, Avoiding(forbidden), source, hq)) &&
    (graph != [] ==> graph[0] == source) &&
    (forall i, j | 0 <= i < j < |graph| :: graph[i] != graph[j]) &&
    (graph != [] ==> forall v :: v in graph <==> Reachable(adj, Avoiding(forbidden), source, v))
  }

  /** The worth of several pieces together. */
  function PiecesScore(s: Scene, fe: bool, pieces: seq<seq<Pos>>): int
    requires SceneOk(s) && forall k | 0 <= k < |pieces| :: AllInGrid(pieces[k])
  {
    if pieces == [] then 0
    else PiecesScore(s, fe, pieces[..|pieces| - 1]) + GraphScore(s, fe, pieces[|pieces| - 1])
  }

  /** The articulation point's neighbours in the territory graph. */
  function CutNeighbours(s: Scene, fe: bool, ap: Pos): seq<Pos> {
    Succ(TerritoryAdj(s, fe), ap)
  }

  /** The inner loop of find_cuts: the worth of everything that taking ap
      cuts off from the side's HQ, one piece per neighbour of ap. */
  method CutGain(s: Scene, fe: bool, ap: Pos) returns (gain: int, ghost pieces: seq<seq<Pos>>)
    requires SceneOk(s) && AdjInGrid(TerritoryAdj(s, fe))
    ensures |pieces| == |CutNeighbours(s, fe, ap)|
    ensures forall k | 0 <= k < |pieces| ::
              AllInGrid(pieces[k]) && IsPiece(TerritoryAdj(s, fe), CutNeighbours(s, fe, ap)[k], ap, RootHQ(s, fe), pieces[k])
    ensures gain == PiecesScore(s, fe, pieces)
  {
    var adj := TerritoryAdj(s, fe);
    var neighbours := Succ(adj, ap);
    gain, pieces := 0, [];
    for k := 0 to |neighbours|
      invariant |pieces| == k
      invariant forall j | 0 <= j < k ::
                  AllInGrid(pieces[j]) && IsPiece(adj, neighbours[j], ap, RootHQ(s, fe), pieces[j])
      invariant gain == PiecesScore(s, fe, pieces)
    {
      var neighbour := neighbours[k];
      assert InGrid(neighbour);
      var graph := FindGraphFromSource(adj, neighbour, ap, RootHQ(s, fe));
      forall v | v in graph ensures InGrid(v) {
        ReachableInGrid(adj, Avoiding(ap), neighbour, v);
      }
      var score := ScoreGraph(s, graph, fe);
      assert (pieces + [graph])[..k] == pieces;
      pieces := pieces + [graph];
      gain := gain + score;
    }
  }

  /** With units of level 1 to 3, a cut gains nothing exactly when every
      neighbour of the point still reaches the HQ without it, and gains at
      least one per cell it cuts off. */
  lemma {:induction false} PiecesScoreMeans(s: Scene, fe: bool, ap: Pos, neighbours: seq<Pos>, pieces: seq<seq<Pos>>)
    requires SceneOk(s) && UnitLevelsOk(s.view.cells) && |pieces| == |neighbours|
    requires forall k | 0 <= k < |pieces| ::
               AllInGrid(pieces[k]) && IsPiece(TerritoryAdj(s, fe), neighbours[k], ap, RootHQ(s, fe), pieces[k])
    ensures PiecesScore(s, fe, pieces) >= 0
    ensures PiecesScore(s, fe, pieces) == 0 <==>
              forall k | 0 <= k < |neighbours| :: Reachable(TerritoryAdj(s, fe), Avoiding(ap), neighbours[k], RootHQ(s, fe))
    ensures forall k | 0 <= k < |pieces| :: PiecesScore(s, fe, pieces) >= |pieces[k]|
  {
    if pieces != [] {
      var n := |pieces| - 1;
      PiecesScoreMeans(s, fe, ap, neighbours[..n], pieces[..n]);
      GraphScoreBounds(s, fe, pieces[n]);
    }
  }

  // ----------------------------------------------- articulation points

  /** Some cell of the other side's territory is within table distance 1. */
  predicate NearFacing(s: Scene, fe: bool, p: Pos)
    requires SceneOk(s) && InGrid(p) && AllInGrid(FacingCells(s, fe))
  {
    exists q | q in FacingCells(s, fe) :: Dist(s, p, q) <= 1
  }

  /** p is an attainable articulation point: a cut vertex of the territory
      graph next to the other side's territory. */
  ghost predicate AttainableCut(s: Scene, fe: bool, p: Pos)
    requires SceneOk(s) && AllInGrid(FacingCells(s, fe))
  {
    p in TerritoryCells(s, fe) && IsCut(TerritoryAdj(s, fe), p) && InGrid(p) && NearFacing(s, fe, p)
  }

  /** The attainability loop of get_attainable_articulation_points for one
      point: a scan of the other side's cells that stops at the first one
      within distance 1. */
  method IsNearFacing(s: Scene, fe: bool, p: Pos) returns (near: bool)
    requires SceneOk(s) && InGrid(p) && AllInGrid(FacingCells(s, fe))
    ensures near <==> NearFacing(s, fe, p)
  {
    var facing := FacingCells(s, fe);
    near := false;
    for k := 0 to |facing|
      invariant forall j | 0 <= j < k :: Dist(s, p, facing[j]) > 1
    {
      if Dist(s, p, facing[k]) <= 1 {
        near := true;
        break;
      }
    }
  }

  /** get_attainable_articulation_points: the cut vertices of the territory
      graph that a cell of the other side's territory touches, in the order
      the depth-first search lists them. The search's discovery counter is
      threaded through, as the source keeps it in a static. */
  method AttainableArticulationPoints(s: Scene, fe: bool, time0: int) returns (points: seq<Pos>, time: int)
    requires SceneOk(s) && TerritoryOk(s, fe)
    ensures forall p :: p in points <==> AttainableCut(s, fe, p)
    ensures forall i, j | 0 <= i < j < |points| :: points[i] != points[j]
    ensures time >= time0
  {
    var all;
    all, time := GetArticulationPoints(TerritoryAdj(s, fe), TerritoryCells(s, fe), time0);
    points := [];
    for k := 0 to |all|
      invariant forall p :: p in points <==> p in all[..k] && InGrid(p) && NearFacing(s, fe, p)
      invariant forall i, j | 0 <= i < j < |points| :: points[i] != points[j]
    {
      assert all[..k + 1] == all[..k] + [all[k]];
      assert InGrid(all[k]);
      var near := IsNearFacing(s, fe, all[k]);
      if near {
        assert all[k] !in all[..k];
        points := points + [all[k]];
      }
    }
    assert all[..|all|] == all;
  }

  /** gain is what cutting the territory at ap is worth: the score of the
      pieces its neighbours leave behind. */
  ghost predicate ScoredCut(s: Scene, fe: bool, ap: Pos, gain: int)
    requires SceneOk(s)
  {
    exists pieces: seq<seq<Pos>> | |pieces| == |CutNeighbours(s, fe, ap)| ::
      (forall k | 0 <= k < |pieces| :: AllInGrid(pieces[k]) &&
         IsPiece(TerritoryAdj(s, fe), CutNeighbours(s, fe, ap)[k], ap, RootHQ(s, fe), pieces[k])) &&
      gain == PiecesScore(s, fe, pieces)
  }

  /** The cut gain of CutGain, as a fact about the pair queued. */
  lemma CutGainScored(s: Scene, fe: bool, ap: Pos, gain: int, pieces: seq<seq<Pos>>)
    requires SceneOk(s) && |pieces| == |CutNeighbours(s, fe, ap)|
    requires forall k | 0 <= k < |pieces| ::
               AllInGrid(pieces[k]) && IsPiece(TerritoryAdj(s, fe), CutNeighbours(s, fe, ap)[k], ap, RootHQ(s, fe), pieces[k])
    requires gain == PiecesScore(s, fe, pieces)
    ensures ScoredCut(s, fe, ap, gain)
  {
  }

  /** find_cuts: every attainable articulation point, put into a max queue
      with the gain of cutting the territory there. */
  method FindCuts(s: Scene, fe: bool, time0: int) returns (scores: MaxPriorityQueue<Pos>, time: int)
    requires SceneOk(s) && TerritoryOk(s, fe)
    ensures fresh(scores) && time >= time0
    ensures forall p :: (exists e | e in scores.elements :: e.1 == p) <==> AttainableCut(s, fe, p)
    ensures forall e | e in scores.elements :: ScoredCut(s, fe, e.1, e.0)
  {
    var points;
    points, time := AttainableArticulationPoints(s, fe, time0);
    scores := new MaxPriorityQueue<Pos>();
    ghost var pairs: seq<(int, Pos)> := [];
    for k := 0 to |points|
      invariant fresh(scores) && scores.elements == pairs
      invariant |pairs| == k && QueuedCuts(s, fe, points, pairs)
    {
      var gain, pieces := CutGain(s, fe, points[k]);
      CutGainScored(s, fe, points[k], gain, pieces);
      QueuedCutsSnoc(s, fe, points, pairs, gain);
      scores.Put(points[k], gain);
      pairs := pairs + [(gain, points[k])];
    }
    QueuedItems(s, fe, points, pairs);
  }

  /** The first |pairs| points are queued in order, each with its gain. */
  ghost predicate QueuedCuts(s: Scene, fe: bool, points: seq<Pos>, pairs: seq<(int, Pos)>)
    requires SceneOk(s)
  {
    |pairs| <= |points| &&
    forall j | 0 <= j < |pairs| :: pairs[j].1 == points[j] && ScoredCut(s, fe, pairs[j].1, pairs[j].0)
  }

  lemma QueuedCutsSnoc(s: Scene, fe: bool, points: seq<Pos>, pairs: seq<(int, Pos)>, gain: int)
    requires SceneOk(s) && QueuedCuts(s, fe, points, pairs) && |pairs| < |points|
    requires ScoredCut(s, fe, points[|pairs|], gain)
    ensures QueuedCuts(s, fe, points, pairs + [(gain, points[|pairs|])])
  {
  }

  /** Pairs queued one per point hold exactly those points. */
  lemma QueuedItems(s: Scene, fe: bool, points: seq<Pos>, pairs: seq<(int, Pos)>)
    requires SceneOk(s) && |pairs| == |points| && QueuedCuts(s, fe, points, pairs)
    ensures forall p :: (exists e | e in pairs :: e.1 == p) <==> p in points
  {
    forall p | p in points ensures exists e | e in pairs :: e.1 == p {
      var j :| 0 <= j < |points| && points[j] == p;
      assert pairs[j] in pairs;
    }
  }

  // ---------------------------------------------------------- chain kill

  /** The loop of attempt_chainkill that picks the start: the cheapest
      attainable cell of the cost map, the first strictly cheaper one in
      the map's (unspecified) order; None, for the cost DBL_MAX, with the
      default Position (0, 0) when no cell is attainable. */
  method ChainKillStart(s: Scene, costs: map<Pos, int>) returns (start: Pos, cost: Option<int>)
    requires SceneOk(s) && forall p | p in costs :: InGrid(p)
    ensures cost.None? <==> forall p | p in costs :: !IsPositionAttainable(s, p)
    ensures cost.None? ==> start == Pos(0, 0)
    ensures cost.Some? ==> start in costs && costs[start] == cost.value && IsPositionAttainable(s, start)
    ensures cost.Some? ==> forall p | p in costs && IsPositionAttainable(s, p) :: cost.value <= costs[p]
  {
    start, cost := Pos(0, 0), None;
    var rest := costs.Keys;
    while rest != {}
      invariant rest <= costs.Keys
      invariant cost.None? ==> start == Pos(0, 0)
      invariant cost.None? <==> forall p | p in costs.Keys - rest :: !IsPositionAttainable(s, p)
      invariant cost.Some? ==> start in costs && costs[start] == cost.value && IsPositionAttainable(s, start)
      invariant cost.Some? ==> forall p | p in costs.Keys - rest && IsPositionAttainable(s, p) :: cost.value <= costs[p]
      decreases |rest|
    {
      var p := Pick(rest);
      if (cost.None? || costs[p] < cost.value) && IsPositionAttainable(s, p) {
        start, cost := p, Some(costs[p]);
      }
      rest := rest - {p};
    }
  }

  /** Every cell of the board asks for a level of at least one. */
  ghost predicate LevelsPositive(s: Scene)
    requires SceneOk(s)
  {
    forall p | InGrid(p) :: At(s.levelAlly, p) >= 1
  }

  /** The cells a chain kill may step into: those not already ours. */
  function ChainAllowed(s: Scene): Pos -> bool
    requires SceneOk(s)
  {
    p => !InGrid(p) || At(s.info, p) != 'O'
  }

  /** Stepping into a cell costs ten per level it asks for. */
  function ChainWeight(s: Scene): Pos -> int
    requires SceneOk(s)
  {
    p => if InGrid(p) then 10 * At(s.levelAlly, p) else 10
  }

  lemma ChainWeightPositive(s: Scene)
    requires SceneOk(s) && LevelsPositive(s)
    ensures Positive(ChainWeight(s))
  {
  }

  /** The full adjacency of update_gamestate is a graph of the whole board. */
  lemma FullAdjacencyOk(cells: seq<seq<Cell>>, adj: map<Pos, seq<Pos>>)
    requires IsGrid(cells) && IsFullAdjacency(cells, adj)
    ensures BoardGraphOk(adj)
  {
    FullAdjacencyEdges(cells, adj);
    forall i | 0 <= i < Dim ensures PosOf(i) in adj {
      PosOfRoundTrip(i);
      FullAdjacencyAt(cells, adj, PosOf(i));
    }
  }

  lemma FullAdjacencyEdges(cells: seq<seq<Cell>>, adj: map<Pos, seq<Pos>>)
    requires IsGrid(cells) && IsFullAdjacency(cells, adj)
    ensures AdjInGrid(adj)
  {
    forall u | u in adj ensures forall v | v in adj[u] :: InGrid(v) {
      FullNeighboursOnBoard(cells, adj[u], u);
    }
  }

  lemma FullNeighboursOnBoard(cells: seq<seq<Cell>>, ns: seq<Pos>, u: Pos)
    requires IsGrid(cells) && InGrid(u) && ns == FullNeighbours(cells, u)
    ensures forall v | v in ns :: InGrid(v)
  {
    FullNeighboursMembers(cells, u);
  }

  /** One TRAIN command per cell of the path, at the level the cell asks for. */
  function TrainAlong(s: Scene, path: seq<Pos>): (cmds: seq<Command>)
    requires SceneOk(s) && AllInGrid(path)
  {
    if path == [] then []
    else TrainAlong(s, path[..|path| - 1]) + [Train(At(s.levelAlly, path[|path| - 1]), path[|path| - 1])]
  }

  /** The commands TrainAlong gives are the path's cells, in order, each at
      its own level: the chain kill trains exactly on the path. */
  lemma {:induction false} TrainAlongMeans(s: Scene, path: seq<Pos>)
    requires SceneOk(s) && AllInGrid(path)
    ensures |TrainAlong(s, path)| == |path|
    ensures forall k | 0 <= k < |path| :: TrainAlong(s, path)[k] == Train(At(s.levelAlly, path[k]), path[k])
  {
    if path != [] {
      TrainAlongMeans(s, path[..|path| - 1]);
    }
  }

  /** A walk from the enemy HQ reaches v at the price recorded for it. */
  ghost predicate ChainCosts(s: Scene, costs: map<Pos, int>)
    requires SceneOk(s)
  {
    var adj, allowed, w := s.view.adjacency, ChainAllowed(s), ChainWeight(s);
    s.hqEnemy in costs && costs[s.hqEnemy] == 10 &&
    (forall v | v in costs :: InGrid(v) && exists W :: WalkFromTo(adj, allowed, W, s.hqEnemy, v) && costs[v] == 10 + Weight(w, W)) &&
    (forall W | IsWalk(adj, allowed, W) && W[0] == s.hqEnemy :: W[|W| - 1] in costs && costs[W[|W| - 1]] <= 10 + Weight(w, W))
  }

  /** Some walk into cells not ours leads from start to the enemy HQ. */
  ghost predicate ReachesEnemyHQ(s: Scene, start: Pos)
    requires SceneOk(s)
  {
    exists W :: WalkFromTo(s.view.adjacency, ChainAllowed(s), W, start, s.hqEnemy)
  }

  /** The outcome of attempt_chainkill on s with the gold, as its
      contract states it. */
  ghost predicate ChainkillPlan(s: Scene, gold: int, cmds: seq<Command>, costs: map<Pos, int>, start: Pos, price: Option<int>)
    requires SceneOk(s)
  {
    ChainCosts(s, costs) &&
    (price.None? <==> forall p | p in costs :: !IsPositionAttainable(s, p)) &&
    (price.Some? ==> start in costs && costs[start] == price.value && IsPositionAttainable(s, start)) &&
    (price.Some? ==> forall p | p in costs && IsPositionAttainable(s, p) :: price.value <= costs[p]) &&
    (cmds != [] <==> price.Some? && price.value <= gold && ReachesEnemyHQ(s, start)) &&
    (cmds != [] ==>
       exists W :: WalkFromTo(s.view.adjacency, ChainAllowed(s), W, start, s.hqEnemy) && AllInGrid(W) &&
         (forall V | WalkFromTo(s.view.adjacency, ChainAllowed(s), V, start, s.hqEnemy) ::
            Weight(ChainWeight(s), W) <= Weight(ChainWeight(s), V)) &&
         cmds == TrainAlong(s, W))
  }

  lemma ChainkillPlanned(s: Scene, gold: int, cmds: seq<Command>, costs: map<Pos, int>, start: Pos, price: Option<int>)
    requires SceneOk(s)
    requires ChainCosts(s, costs)
    requires price.None? <==> forall p | p in costs :: !IsPositionAttainable(s, p)
    requires price.Some? ==> start in costs && costs[start] == price.value && IsPositionAttainable(s, start)
    requires price.Some? ==> forall p | p in costs && IsPositionAttainable(s, p) :: price.value <= costs[p]
    requires cmds != [] <==> price.Some? && price.value <= gold && ReachesEnemyHQ(s, start)
    requires cmds != [] ==>
               exists W :: WalkFromTo(s.view.adjacency, ChainAllowed(s), W, start, s.hqEnemy) && AllInGrid(W) &&
                 (forall V | WalkFromTo(s.view.adjacency, ChainAllowed(s), V, start, s.hqEnemy) ::
                    Weight(ChainWeight(s), W) <= Weight(ChainWeight(s), V)) &&
                 cmds == TrainAlong(s, W)
    ensures ChainkillPlan(s, gold, cmds, costs, start, price)
  {
  }

  /** attempt_chainkill: price every cell by the cheapest chain of units
      from the enemy HQ; pick the cheapest attainable one; when the gold
      covers it, train along the cheapest path from there to the enemy HQ.
      No gold is paid and nothing is refreshed here, as in the source. */
  method AttemptChainkill(s: Scene, gold: int)
    returns (cmds: seq<Command>, costs: map<Pos, int>, start: Pos, price: Option<int>)
    requires SceneOk(s) && LevelsPositive(s) && BoardGraphOk(s.view.adjacency)
    ensures ChainkillPlan(s, gold, cmds, costs, start, price)
  {
    var adj, allowed, w := s.view.adjacency, ChainAllowed(s), ChainWeight(s);
    ChainWeightPositive(s);
    BoardGraphCovers(adj);
    costs := ChainKillAllCosts(adj, allowed, w, s.hqEnemy);
    start, price := ChainKillStart(s, costs);
    cmds := [];
    if price.Some? && price.value <= gold {
      var path := ChainKillPath(adj, allowed, w, start, s.hqEnemy);
      if path.Some? {
        ChainPathInGrid(s, path.value, start);
        cmds := TrainOnPath(s, path.value);
        TrainAlongMeans(s, path.value);
      } else {
        NoWalkToEnemyHQ(s, start);
      }
    }
    ChainkillPlanned(s, gold, cmds, costs, start, price);
  }

  /** The loop of attempt_chainkill that pushes the TRAIN commands. */
  method TrainOnPath(s: Scene, path: seq<Pos>) returns (cmds: seq<Command>)
    requires SceneOk(s) && AllInGrid(path)
    ensures cmds == TrainAlong(s, path)
  {
    cmds := [];
    for k := 0 to |path|
      invariant cmds == TrainAlong(s, path[..k])
    {
      assert path[..k + 1][..k] == path[..k];
      cmds := cmds + [Train(At(s.levelAlly, path[k]), path[k])];
    }
    assert path[..|path|] == path;
  }

  lemma NoWalkToEnemyHQ(s: Scene, start: Pos)
    requires SceneOk(s)
    requires forall W | IsWalk(s.view.adjacency, ChainAllowed(s), W) && W[0] == start :: W[|W| - 1] != s.hqEnemy
    ensures !ReachesEnemyHQ(s, start)
  {
  }

  /** A walk over the board graph from a board cell stays on the board. */
  lemma ChainPathInGrid(s: Scene, W: seq<Pos>, start: Pos)
    requires SceneOk(s) && BoardGraphOk(s.view.adjacency) && InGrid(start)
    requires WalkFromTo(s.view.adjacency, ChainAllowed(s), W, start, s.hqEnemy)
    ensures AllInGrid(W)
  {
    forall v | v in W ensures InGrid(v) {
      var i :| 0 <= i < |W| && W[i] == v;
      if i > 0 {
        assert StepAt(s.view.adjacency, ChainAllowed(s), W, i - 1);
      }
    }
  }
}
