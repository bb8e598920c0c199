/** The read-only planning members of Game: the objective scores and the
    greedy allocator, the path step, the unit counts, the training spots,
    the cut scores and the small searches over maps. Each takes the part of
    the game state it reads as parameters; the members that change the
    state are in GameState. */
module Planning {
  import opened Grid
  import opened Wrappers
  import opened Cells
  import opened Distances
  import opened Board
  import opened Rebuild
  import opened Paths
  import opened Search

  /** Unit::objective: the target a unit walks towards and its score. */
  datatype Objective = Objective(target: Pos, score: Score)

  datatype BuildKind = MineBuilding | TowerBuilding

  /** MOVE id x y, TRAIN level x y and BUILD kind x y. */
  datatype Command = Move(id: int, p: Pos) | Train(level: int, p: Pos) | Build(kind: BuildKind, p: Pos)

  /** What the planning members read of the game, as values: the derived
      view with its markers, cells_info, cells_level_ally, the distance
      table (rows by flat index), both HQ positions and the turn. */
  datatype Scene = Scene(view: View, info: seq<seq<char>>, levelAlly: seq<seq<int>>, dist: seq<seq<int>>,
                         hqAlly: Pos, hqEnemy: Pos, turn: int)

  predicate IsTableRows(t: seq<seq<int>>) {
    |t| == Dim && forall i | 0 <= i < Dim :: |t[i]| == Dim
  }

  /** Every grid of the scene has the board's shape and both HQs are on it. */
  predicate SceneOk(s: Scene) {
    IsGrid(s.info) && IsGrid(s.levelAlly) && IsTableRows(s.dist) &&
    IsGrid(s.view.cells) && IsGrid(s.view.usedObjective) && IsGrid(s.view.usedMovement) && IsGrid(s.view.scoreEnemy) &&
    InGrid(s.hqAlly) && InGrid(s.hqEnemy)
  }

  /** get_distance on the scene's table. */
  function Dist(s: Scene, p: Pos, q: Pos): int
    requires IsTableRows(s.dist) && InGrid(p) && InGrid(q)
  {
    IndexRoundTrip(p);
    IndexRoundTrip(q);
    s.dist[Index(p)][Index(q)]
  }

  /** The scene holds what the arrays hold. */
  ghost predicate Captures(s: Scene, info: array2<char>, levelAlly: array2<int>, d: array2<int>)
    requires IsInfo(info) && IsLevels(levelAlly) && IsTable(d) && SceneOk(s)
    reads info, levelAlly, d
  {
    (forall p {:trigger At(s.info, p)} | InGrid(p) :: At(s.info, p) == InfoAt(info, p)) &&
    (forall p {:trigger At(s.levelAlly, p)} | InGrid(p) :: At(s.levelAlly, p) == levelAlly[p.y, p.x]) &&
    (forall i, j | 0 <= i < Dim && 0 <= j < Dim :: s.dist[i][j] == d[i, j])
  }

  /** The scene with other objective markers. */
  function WithObjectives(s: Scene, marks: seq<seq<int>>): Scene {
    s.(view := s.view.(usedObjective := marks))
  }

  // ---------------------------------------------------------- objectives

  /** A cell the unit may take as its objective: the unit's level opens it,
      no unit is heading or moving there yet and it is not already ours. */
  predicate IsCandidate(s: Scene, u: Unit, p: Pos)
    requires SceneOk(s) && InGrid(p)
  {
    u.level >= At(s.levelAlly, p) && At(s.view.usedObjective, p) == 0 && At(s.view.usedMovement, p) == 0 &&
    At(s.info, p) != 'O'
  }

  /** get_score: how much the unit wants the cell p as its objective. */
  function GetScore(s: Scene, u: Unit, p: Pos): (r: Score)
    requires SceneOk(s) && InGrid(u.p) && InGrid(p)
    ensures r.Finite? <==> IsCandidate(s, u, p)
  {
    if !IsCandidate(s, u, p) then MinusInf
    else
      var cell := At(s.view.cells, p);
      var c := At(s.info, p);
      var distance := Dist(s, u.p, p);
      Finite(- Dist(s, p, s.hqEnemy)
             + (if c == '.' && distance == 1 then 10 else 0)
             + (if p == s.hqEnemy then 10 else 0)
             + (if HasUnitOf(cell, Enemy) then 10 else 0)
             + (if IsOccupiedByEnemyBuilding(cell) then 10 else 0)
             + (if c == 'X' then 5 else 0)
             - distance)
  }

  /** Marking more cells as objectives only takes candidates away: a cell
      still scored under the larger marking has the same score as before. */
  lemma ScoreUnderMoreMarks(s: Scene, marks: seq<seq<int>>, u: Unit, p: Pos)
    requires SceneOk(s) && IsGrid(marks) && InGrid(u.p) && InGrid(p)
    requires forall q | InGrid(q) :: At(s.view.usedObjective, q) != 0 ==> At(marks, q) != 0
    ensures GetScore(WithObjectives(s, marks), u, p).Finite? ==> GetScore(s, u, p) == GetScore(WithObjectives(s, marks), u, p)
    ensures !Greater(GetScore(WithObjectives(s, marks), u, p), GetScore(s, u, p))
  {
    if GetScore(WithObjectives(s, marks), u, p).Finite? {
      assert At(marks, p) == 0;
    }
  }

  /** p comes before q in the scans over the board, x outer and y inner. */
  predicate ScansBefore(p: Pos, q: Pos) {
    p.x < q.x || (p.x == q.x && p.y < q.y)
  }

  /** find_target: the best scored cell in the source's x-major scan; the
      first one wins a tie, and the enemy HQ is returned when no cell is a
      candidate. */
  method FindTarget(s: Scene, u: Unit) returns (o: Objective)
    requires SceneOk(s) && InGrid(u.p)
    ensures forall p | InGrid(p) :: !Greater(GetScore(s, u, p), o.score)
    ensures o.score.MinusInf? ==> o.target == s.hqEnemy
    ensures o.score.Finite? ==> InGrid(o.target) && GetScore(s, u, o.target) == o.score
    ensures o.score.Finite? ==> forall p | InGrid(p) && ScansBefore(p, o.target) ::
              Greater(o.score, GetScore(s, u, p))
  {
    var target := s.hqEnemy;
    var best := MinusInf;
    for i := 0 to Width
      invariant forall p | InGrid(p) && p.x < i :: !Greater(GetScore(s, u, p), best)
      invariant best.MinusInf? ==> target == s.hqEnemy
      invariant best.Finite? ==>
                  InGrid(target) && target.x < i && GetScore(s, u, target) == best
      invariant best.Finite? ==> forall p | InGrid(p) && ScansBefore(p, target) ::
                  Greater(best, GetScore(s, u, p))
    {
      for j := 0 to Height
        invariant forall p | InGrid(p) && ScansBefore(p, Pos(i, j)) :: !Greater(GetScore(s, u, p), best)
        invariant best.MinusInf? ==> target == s.hqEnemy
        invariant best.Finite? ==>
                    InGrid(target) && ScansBefore(target, Pos(i, j)) && GetScore(s, u, target) == best
        invariant best.Finite? ==> forall p | InGrid(p) && ScansBefore(p, target) ::
                    Greater(best, GetScore(s, u, p))
      {
        var score := GetScore(s, u, Pos(i, j));
        if Greater(score, best) {
          forall p | InGrid(p) && ScansBefore(p, Pos(i, j))
            ensures !Greater(GetScore(s, u, p), score) && Greater(score, GetScore(s, u, p))
          {
            GreaterIsStrictTotalOrder(GetScore(s, u, p), best, score);
          }
          target, best := Pos(i, j), score;
        }
      }
    }
    o := Objective(target, best);
  }

  /** The cells taken as objectives by the units listed in order. */
  function Targets(order: seq<int>, objectives: map<int, Objective>): set<Pos> {
    set k | k in order && k in objectives :: objectives[k].target
  }

  /** The bookkeeping of the allocator: waiting units and placed units are
      distinct units of units_ally, each placed unit has an objective. */
  ghost predicate Placed(s: Scene, units: seq<Unit>, remaining: set<int>, order: seq<int>, objectives: map<int, Objective>) {
    (forall k | k in remaining :: k in s.view.unitsAlly && 0 <= k < |units|) &&
    (forall i, j | 0 <= i < j < |order| :: order[i] != order[j]) &&
    (forall i | 0 <= i < |order| :: order[i] in s.view.unitsAlly && 0 <= order[i] < |units| && order[i] !in remaining) &&
    objectives.Keys == (set k | k in order) &&
    (forall i | 0 <= i < |order| :: InGrid(objectives[order[i]].target))
  }

  /** The placed objectives are candidates of the original scene scored as
      there, on distinct cells, in non-increasing score order. */
  ghost predicate PlacedWell(s: Scene, units: seq<Unit>, remaining: set<int>, order: seq<int>, objectives: map<int, Objective>)
    requires SceneOk(s) && UnitsInGrid(units) && Placed(s, units, remaining, order, objectives)
  {
    (forall i | 0 <= i < |order| ::
       IsCandidate(s, units[order[i]], objectives[order[i]].target) &&
       objectives[order[i]].score == GetScore(s, units[order[i]], objectives[order[i]].target)) &&
    (forall i, j | 0 <= i < j < |order| :: objectives[order[i]].target != objectives[order[j]].target) &&
    (forall i, j | 0 <= i < j < |order| :: !Greater(objectives[order[j]].score, objectives[order[i]].score))
  }

  /** No cell scores above b for the unit. */
  ghost predicate Dominates(s: Scene, u: Unit, b: Score)
    requires SceneOk(s) && InGrid(u.p)
  {
    forall p | InGrid(p) :: !Greater(GetScore(s, u, p), b)
  }

  lemma DominatesWeaken(s: Scene, u: Unit, b: Score, c: Score)
    requires SceneOk(s) && InGrid(u.p) && Dominates(s, u, b) && !Greater(b, c)
    ensures Dominates(s, u, c)
  {
    forall p | InGrid(p) ensures !Greater(GetScore(s, u, p), c) {
      GreaterIsStrictTotalOrder(GetScore(s, u, p), b, c);
    }
  }

  /** No waiting unit can bid above a placed objective, and a dropped unit
      has no candidate left under the markers of w. */
  ghost predicate BidsBounded(s: Scene, units: seq<Unit>, remaining: set<int>, order: seq<int>, objectives: map<int, Objective>, w: Scene)
    requires SceneOk(w) && UnitsInGrid(units) && Placed(s, units, remaining, order, objectives)
  {
    (forall x, i | x in remaining && 0 <= i < |order| :: Dominates(w, units[x], objectives[order[i]].score)) &&
    (forall k | k in s.view.unitsAlly && 0 <= k < |units| && k !in remaining && k !in order ::
       Dominates(w, units[k], MinusInf))
  }

  /** What the allocator keeps true from round to round: the markers are the
      original ones with exactly the placed targets marked. */
  ghost predicate AuctionInv(s: Scene, units: seq<Unit>, remaining: set<int>, order: seq<int>, objectives: map<int, Objective>,
                             marks: seq<seq<int>>)
    requires SceneOk(s) && UnitsInGrid(units)
  {
    IsGrid(marks) &&
    Placed(s, units, remaining, order, objectives) &&
    PlacedWell(s, units, remaining, order, objectives) &&
    (forall p | InGrid(p) :: At(marks, p) == if p in Targets(order, objectives) then 1 else At(s.view.usedObjective, p)) &&
    BidsBounded(s, units, remaining, order, objectives, WithObjectives(s, marks))
  }

  /** Some element of s, in no specified order (an iteration over a set). */
  method Pick<T>(s: set<T>) returns (x: T)
    requires s != {}
    ensures x in s
  {
    x :| x in s;
  }

  /** o is find_target's objective for u on w: a cell scored o.score there
      and strictly above every cell earlier in the x-major scan. */
  ghost predicate WonRound(w: Scene, u: Unit, o: Objective)
    requires SceneOk(w) && InGrid(u.p)
  {
    InGrid(o.target) && GetScore(w, u, o.target) == o.score &&
    forall p | InGrid(p) && ScansBefore(p, o.target) :: Greater(o.score, GetScore(w, u, p))
  }

  /** The bidding of one round: every waiting unit's find_target objective,
      and the first strictly best of them. bestUnit starts as an arbitrary
      waiting unit (*units.begin()). */
  method BestBid(w: Scene, units: seq<Unit>, remaining: set<int>) returns (bestUnit: int, best: Objective)
    requires SceneOk(w) && UnitsInGrid(units)
    requires remaining != {} && forall x | x in remaining :: 0 <= x < |units|
    ensures bestUnit in remaining
    ensures forall x | x in remaining :: Dominates(w, units[x], best.score)
    ensures best.score.Finite? ==> WonRound(w, units[bestUnit], best)
  {
    bestUnit := Pick(remaining);
    best := Objective(Pos(0, 0), MinusInf);
    var rest := remaining;
    ghost var done: set<int> := {};
    while rest != {}
      invariant done + rest == remaining && bestUnit in remaining
      invariant forall x | x in done :: Dominates(w, units[x], best.score)
      invariant best.score.Finite? ==> WonRound(w, units[bestUnit], best)
      decreases |rest|
    {
      var x := Pick(rest);
      var o := FindTarget(w, units[x]);
      if Greater(o.score, best.score) {
        forall y | y in done ensures Dominates(w, units[y], o.score) {
          DominatesWeaken(w, units[y], best.score, o.score);
        }
        bestUnit, best := x, o;
      }
      DominatesWeaken(w, units[x], o.score, best.score);
      rest := rest - {x};
      done := done + {x};
    }
  }

  /** A round whose best bid is finite: marking the winner's target and
      placing the winner keeps the allocator's invariant. */
  lemma AwardKeeps(s: Scene, units: seq<Unit>, remaining: set<int>, order: seq<int>, objectives: map<int, Objective>,
                   marks: seq<seq<int>>, bestUnit: int, best: Objective)
    requires SceneOk(s) && UnitsInGrid(units)
    requires AuctionInv(s, units, remaining, order, objectives, marks)
    requires bestUnit in remaining && best.score.Finite? && InGrid(best.target)
    requires GetScore(WithObjectives(s, marks), units[bestUnit], best.target) == best.score
    requires forall x | x in remaining :: Dominates(WithObjectives(s, marks), units[x], best.score)
    ensures AuctionInv(s, units, remaining - {bestUnit}, order + [bestUnit], objectives[bestUnit := best],
                       Put(marks, best.target, 1))
  {
    var order', objectives' := order + [bestUnit], objectives[bestUnit := best];
    assert At(marks, best.target) == 0;
    assert best.target !in Targets(order, objectives);
    ScoreUnderMoreMarks(s, marks, units[bestUnit], best.target);
    PlacedGrows(s, units, remaining, order, objectives, bestUnit, best);
    forall i | 0 <= i < |order| ensures !Greater(best.score, objectives[order[i]].score) {
      assert Dominates(WithObjectives(s, marks), units[bestUnit], objectives[order[i]].score);
    }
    PlacedWellGrows(s, units, remaining, order, objectives, bestUnit, best);
    TargetsGrow(order, objectives, bestUnit, best);
    BidsBoundedGrows(s, units, remaining, order, objectives, marks, bestUnit, best);
  }

  lemma TargetsGrow(order: seq<int>, objectives: map<int, Objective>, k: int, o: Objective)
    requires k !in order && objectives.Keys == set j | j in order
    ensures Targets(order + [k], objectives[k := o]) == Targets(order, objectives) + {o.target}
  {
    var order', objectives' := order + [k], objectives[k := o];
    forall t | t in Targets(order', objectives') ensures t in Targets(order, objectives) + {o.target} {
      var j :| j in order' && j in objectives' && objectives'[j].target == t;
      if j != k {
        assert j in order;
      }
    }
    forall t | t in Targets(order, objectives) + {o.target} ensures t in Targets(order', objectives') {
      if t != o.target {
        var j :| j in order && j in objectives && objectives[j].target == t;
        assert j in order' && objectives'[j] == objectives[j];
      } else {
        assert k in order' && objectives'[k] == o;
      }
    }
  }

  lemma PlacedGrows(s: Scene, units: seq<Unit>, remaining: set<int>, order: seq<int>, objectives: map<int, Objective>,
                    bestUnit: int, best: Objective)
    requires Placed(s, units, remaining, order, objectives) && bestUnit in remaining && InGrid(best.target)
    ensures Placed(s, units, remaining - {bestUnit}, order + [bestUnit], objectives[bestUnit := best])
  {
    var order', objectives' := order + [bestUnit], objectives[bestUnit := best];
    forall i | 0 <= i < |order| ensures objectives'[order'[i]] == objectives[order[i]] {
      assert order'[i] == order[i] != bestUnit;
    }
  }

  lemma PlacedWellGrows(s: Scene, units: seq<Unit>, remaining: set<int>, order: seq<int>, objectives: map<int, Objective>,
                        bestUnit: int, best: Objective)
    requires SceneOk(s) && UnitsInGrid(units)
    requires Placed(s, units, remaining, order, objectives) && PlacedWell(s, units, remaining, order, objectives)
    requires bestUnit in remaining && InGrid(best.target)
    requires Placed(s, units, remaining - {bestUnit}, order + [bestUnit], objectives[bestUnit := best])
    requires IsCandidate(s, units[bestUnit], best.target) && best.score == GetScore(s, units[bestUnit], best.target)
    requires best.target !in Targets(order, objectives)
    requires forall i | 0 <= i < |order| :: !Greater(best.score, objectives[order[i]].score)
    ensures PlacedWell(s, units, remaining - {bestUnit}, order + [bestUnit], objectives[bestUnit := best])
  {
    var order', objectives' := order + [bestUnit], objectives[bestUnit := best];
    forall i | 0 <= i < |order| ensures objectives'[order'[i]] == objectives[order[i]] {
      assert order'[i] == order[i] != bestUnit;
    }
    forall i | 0 <= i < |order| ensures best.target != objectives[order[i]].target {
      assert order[i] in order && order[i] in objectives;
    }
  }

  lemma BidsBoundedGrows(s: Scene, units: seq<Unit>, remaining: set<int>, order: seq<int>, objectives: map<int, Objective>,
                         marks: seq<seq<int>>, bestUnit: int, best: Objective)
    requires SceneOk(s) && UnitsInGrid(units)
    requires AuctionInv(s, units, remaining, order, objectives, marks)
    requires bestUnit in remaining && best.score.Finite? && InGrid(best.target)
    requires forall x | x in remaining :: Dominates(WithObjectives(s, marks), units[x], best.score)
    requires Placed(s, units, remaining - {bestUnit}, order + [bestUnit], objectives[bestUnit := best])
    ensures BidsBounded(s, units, remaining - {bestUnit}, order + [bestUnit], objectives[bestUnit := best],
                        WithObjectives(s, Put(marks, best.target, 1)))
  {
    var w, w' := WithObjectives(s, marks), WithObjectives(s, Put(marks, best.target, 1));
    var order', objectives' := order + [bestUnit], objectives[bestUnit := best];
    forall k | 0 <= k < |units| ensures forall b :: Dominates(w, units[k], b) ==> Dominates(w', units[k], b) {
      forall b | Dominates(w, units[k], b) ensures Dominates(w', units[k], b) {
        forall p | InGrid(p) ensures !Greater(GetScore(w', units[k], p), b) {
          ScoreUnderMoreMarks(w, Put(marks, best.target, 1), units[k], p);
          assert WithObjectives(w, Put(marks, best.target, 1)) == w';
          GreaterIsStrictTotalOrder(GetScore(w', units[k], p), GetScore(w, units[k], p), b);
        }
      }
    }
    forall x, i | x in remaining - {bestUnit} && 0 <= i < |order'| ensures Dominates(w', units[x], objectives'[order'[i]].score) {
      if i < |order| {
        assert order'[i] == order[i] != bestUnit;
      }
    }
  }

  /** The objective markers base with every cell of ts set to 1. */
  function MarkTargets(base: seq<seq<int>>, ts: set<Pos>): (r: seq<seq<int>>)
    requires IsGrid(base)
    ensures IsGrid(r) && forall p | InGrid(p) :: At(r, p) == if p in ts then 1 else At(base, p)
  {
    seq(Height, y requires 0 <= y < Height =>
      seq(Width, x requires 0 <= x < Width => if Pos(x, y) in ts then 1 else base[y][x]))
  }

  /** Two grids that agree on every cell are equal. */
  lemma GridsAgree(a: seq<seq<int>>, b: seq<seq<int>>)
    requires IsGrid(a) && IsGrid(b) && forall p | InGrid(p) :: At(a, p) == At(b, p)
    ensures a == b
  {
    forall y | 0 <= y < Height ensures a[y] == b[y] {
      forall x | 0 <= x < Width ensures a[y][x] == b[y][x] {
        assert At(a, Pos(x, y)) == At(b, Pos(x, y));
      }
    }
  }

  /** The scene the units bid on in round i of the auction: the objective
      markers of s with the targets of the first i winners set. */
  function RoundScene(s: Scene, order: seq<int>, objectives: map<int, Objective>, i: int): (r: Scene)
    requires SceneOk(s) && 0 <= i <= |order|
    ensures SceneOk(r)
  {
    WithObjectives(s, MarkTargets(s.view.usedObjective, Targets(order[..i], objectives)))
  }

  /** The greedy rule: the winner of round i took find_target's objective
      on the markers of that round, and bid at least as high as any bid of
      an ally unit not yet placed. */
  ghost predicate OutbidsWaiting(s: Scene, units: seq<Unit>, order: seq<int>, objectives: map<int, Objective>)
    requires SceneOk(s) && UnitsInGrid(units)
  {
    WinnersFound(s, units, order, objectives) && WinnersOutbid(s, units, order, objectives)
  }

  /** Each winner's objective is find_target's on the markers of its round. */
  ghost predicate WinnersFound(s: Scene, units: seq<Unit>, order: seq<int>, objectives: map<int, Objective>)
    requires SceneOk(s) && UnitsInGrid(units)
  {
    forall i | 0 <= i < |order| && order[i] in objectives && 0 <= order[i] < |units| ::
      WonRound(RoundScene(s, order, objectives, i), units[order[i]], objectives[order[i]])
  }

  /** Each winner's bid is at least every bid of a unit not yet placed. */
  ghost predicate WinnersOutbid(s: Scene, units: seq<Unit>, order: seq<int>, objectives: map<int, Objective>)
    requires SceneOk(s) && UnitsInGrid(units)
  {
    forall i, k | 0 <= i < |order| && order[i] in objectives && k in s.view.unitsAlly && 0 <= k < |units| && k !in order[..i] ::
      Dominates(RoundScene(s, order, objectives, i), units[k], objectives[order[i]].score)
  }

  /** The outcome of assign_objective_to_units on s: distinct ally units,
      placed in the order they won, each with a candidate target scored by
      get_score on s, on distinct cells, in non-increasing score; every
      winner outbid all units still waiting; marks are the markers of s with
      exactly the targets set; every ally unit left out has no candidate
      under marks. */
  ghost predicate Auction(s: Scene, units: seq<Unit>, order: seq<int>, objectives: map<int, Objective>, marks: seq<seq<int>>)
    requires SceneOk(s) && UnitsInGrid(units)
  {
    Placed(s, units, {}, order, objectives) &&
    PlacedWell(s, units, {}, order, objectives) &&
    OutbidsWaiting(s, units, order, objectives) &&
    IsGrid(marks) &&
    (forall p | InGrid(p) :: At(marks, p) == if p in Targets(order, objectives) then 1 else At(s.view.usedObjective, p)) &&
    forall k, p | k in s.view.unitsAlly && k !in order && 0 <= k < |units| && InGrid(p) ::
      !IsCandidate(WithObjectives(s, marks), units[k], p)
  }

  /** Targets looks at the objectives of the listed units only. */
  lemma TargetsOfListed(order: seq<int>, a: map<int, Objective>, b: map<int, Objective>)
    requires forall j | j in order :: (j in a <==> j in b) && (j in a ==> a[j] == b[j])
    ensures Targets(order, a) == Targets(order, b)
  {
    forall t | t in Targets(order, a) ensures t in Targets(order, b) {
      var j :| j in order && j in a && a[j].target == t;
    }
    forall t | t in Targets(order, b) ensures t in Targets(order, a) {
      var j :| j in order && j in b && b[j].target == t;
    }
  }

  /** Placing one more winner leaves the earlier rounds' scenes alone, and
      the scene of the new round is s with the current markers. */
  lemma RoundScenesKept(s: Scene, order: seq<int>, objectives: map<int, Objective>, marks: seq<seq<int>>, k: int, o: Objective)
    requires SceneOk(s) && k !in order && IsGrid(marks)
    requires forall p | InGrid(p) :: At(marks, p) == if p in Targets(order, objectives) then 1 else At(s.view.usedObjective, p)
    ensures forall i | 0 <= i <= |order| :: RoundScene(s, order + [k], objectives[k := o], i) == RoundScene(s, order, objectives, i)
    ensures RoundScene(s, order, objectives, |order|) == WithObjectives(s, marks)
  {
    var order', objectives' := order + [k], objectives[k := o];
    forall i | 0 <= i <= |order| ensures RoundScene(s, order', objectives', i) == RoundScene(s, order, objectives, i) {
      assert order'[..i] == order[..i];
      TargetsOfListed(order[..i], objectives', objectives);
    }
    assert order[..|order|] == order;
    GridsAgree(MarkTargets(s.view.usedObjective, Targets(order, objectives)), marks);
  }

  /** A round whose best bid is finite keeps the greedy rule: the new
      winner's bid is at least every waiting unit's, and a unit dropped
      earlier has no candidate at all. */
  lemma OutbidsGrows(s: Scene, units: seq<Unit>, remaining: set<int>, order: seq<int>, objectives: map<int, Objective>,
                     marks: seq<seq<int>>, bestUnit: int, best: Objective)
    requires SceneOk(s) && UnitsInGrid(units) && WinnersOutbid(s, units, order, objectives)
    requires bestUnit in remaining && bestUnit !in order && IsGrid(marks) && forall x | x in remaining :: 0 <= x < |units|
    requires forall p | InGrid(p) :: At(marks, p) == if p in Targets(order, objectives) then 1 else At(s.view.usedObjective, p)
    requires forall x | x in remaining :: Dominates(WithObjectives(s, marks), units[x], best.score)
    requires forall k | k in s.view.unitsAlly && 0 <= k < |units| && k !in remaining && k !in order ::
               Dominates(WithObjectives(s, marks), units[k], MinusInf)
    ensures WinnersOutbid(s, units, order + [bestUnit], objectives[bestUnit := best])
  {
    var order', objectives' := order + [bestUnit], objectives[bestUnit := best];
    var w := WithObjectives(s, marks);
    RoundScenesKept(s, order, objectives, marks, bestUnit, best);
    forall i, k | 0 <= i < |order'| && order'[i] in objectives' && k in s.view.unitsAlly && 0 <= k < |units| && k !in order'[..i]
      ensures Dominates(RoundScene(s, order', objectives', i), units[k], objectives'[order'[i]].score)
    {
      if i < |order| {
        assert order'[..i] == order[..i] && order'[i] == order[i] != bestUnit;
      } else {
        assert order'[..i] == order && objectives'[order'[i]] == best;
        if k !in remaining {
          DominatesWeaken(w, units[k], MinusInf, best.score);
        }
      }
    }
  }

  /** A round whose best bid is finite keeps every winner's objective
      find_target's: the new winner's on the current markers. */
  lemma WinnersGrow(s: Scene, units: seq<Unit>, order: seq<int>, objectives: map<int, Objective>,
                    marks: seq<seq<int>>, bestUnit: int, best: Objective)
    requires SceneOk(s) && UnitsInGrid(units) && WinnersFound(s, units, order, objectives)
    requires bestUnit !in order && 0 <= bestUnit < |units| && IsGrid(marks)
    requires forall p | InGrid(p) :: At(marks, p) == if p in Targets(order, objectives) then 1 else At(s.view.usedObjective, p)
    requires WonRound(WithObjectives(s, marks), units[bestUnit], best)
    ensures WinnersFound(s, units, order + [bestUnit], objectives[bestUnit := best])
  {
    var order', objectives' := order + [bestUnit], objectives[bestUnit := best];
    RoundScenesKept(s, order, objectives, marks, bestUnit, best);
    forall i | 0 <= i < |order'| && order'[i] in objectives' && 0 <= order'[i] < |units|
      ensures WonRound(RoundScene(s, order', objectives', i), units[order'[i]], objectives'[order'[i]])
    {
      if i < |order| {
        assert order'[i] == order[i] != bestUnit;
      }
    }
  }

  /** assign_objective_to_units: rounds of a greedy auction. Each round
      every unit still waiting bids its find_target objective; the best bid
      wins, its target is marked in cells_used_objective and the unit joins
      units_in_order; a round whose best bid is -inf drops an arbitrary
      waiting unit. Every round removes one unit. */
  method AssignObjectives(s: Scene, units: seq<Unit>)
    returns (order: seq<int>, objectives: map<int, Objective>, marks: seq<seq<int>>)
    requires SceneOk(s) && UnitsInGrid(units) && IndicesIn(s.view.unitsAlly, units)
    ensures Auction(s, units, order, objectives, marks)
  {
    order, objectives, marks := [], map[], s.view.usedObjective;
    var remaining := set k | k in s.view.unitsAlly;
    while remaining != {}
      invariant AuctionRun(s, units, remaining, order, objectives, marks)
      decreases |remaining|
    {
      var bestUnit, best := BestBid(WithObjectives(s, marks), units, remaining);
      if best.score.Finite? {
        AwardRound(s, units, remaining, order, objectives, marks, bestUnit, best);
        marks := Put(marks, best.target, 1);
        objectives := objectives[bestUnit := best];
        order := order + [bestUnit];
      }
      remaining := remaining - {bestUnit};
    }
    AuctionDone(s, units, order, objectives, marks);
  }

  /** The loop state of the allocator: its invariant and the greedy rule. */
  ghost predicate AuctionRun(s: Scene, units: seq<Unit>, remaining: set<int>, order: seq<int>, objectives: map<int, Objective>,
                             marks: seq<seq<int>>)
    requires SceneOk(s) && UnitsInGrid(units)
  {
    AuctionInv(s, units, remaining, order, objectives, marks) && OutbidsWaiting(s, units, order, objectives)
  }

  /** A round whose best bid is finite: the winner is placed and keeps the
      loop state. */
  lemma AwardRound(s: Scene, units: seq<Unit>, remaining: set<int>, order: seq<int>, objectives: map<int, Objective>,
                   marks: seq<seq<int>>, bestUnit: int, best: Objective)
    requires SceneOk(s) && UnitsInGrid(units)
    requires AuctionRun(s, units, remaining, order, objectives, marks)
    requires bestUnit in remaining && best.score.Finite?
    requires forall x | x in remaining :: Dominates(WithObjectives(s, marks), units[x], best.score)
    requires WonRound(WithObjectives(s, marks), units[bestUnit], best)
    ensures AuctionRun(s, units, remaining - {bestUnit}, order + [bestUnit], objectives[bestUnit := best],
                       Put(marks, best.target, 1))
  {
    OutbidsGrows(s, units, remaining, order, objectives, marks, bestUnit, best);
    WinnersGrow(s, units, order, objectives, marks, bestUnit, best);
    AwardKeeps(s, units, remaining, order, objectives, marks, bestUnit, best);
  }

  /** Once no unit waits, the loop state is the outcome of the auction. */
  lemma AuctionDone(s: Scene, units: seq<Unit>, order: seq<int>, objectives: map<int, Objective>, marks: seq<seq<int>>)
    requires SceneOk(s) && UnitsInGrid(units) && AuctionRun(s, units, {}, order, objectives, marks)
    ensures Auction(s, units, order, objectives, marks)
  {
    forall k, p | k in s.view.unitsAlly && k !in order && 0 <= k < |units| && InGrid(p)
      ensures !IsCandidate(WithObjectives(s, marks), units[k], p)
    {
      assert Dominates(WithObjectives(s, marks), units[k], MinusInf);
    }
  }


  // ------------------------------------------------------------- pathing

  /** compute_next_step_score: a step costs 1, plus 1000 into a void cell
      and 1000 into a cell some unit already moves to. */
  function ComputeNextStepScore(chars: seq<seq<char>>, moveMarks: seq<seq<int>>, next: Pos): (r: int)
    requires IsGrid(chars) && IsGrid(moveMarks) && InGrid(next)
    ensures 1 <= r <= 2001
    ensures r == 1 <==> At(chars, next) != '#' && At(moveMarks, next) == 0
  {
    1 + (if At(chars, next) == '#' then 1000 else 0) + (if At(moveMarks, next) != 0 then 1000 else 0)
  }

  /** The step weight dijkstra hands to the search; off the board (where no
      adjacency list leads) a step costs 1. */
  function StepWeight(chars: seq<seq<char>>, moveMarks: seq<seq<int>>): Pos -> int {
    p => if IsGrid(chars) && IsGrid(moveMarks) && InGrid(p) then ComputeNextStepScore(chars, moveMarks, p) else 1
  }

  lemma StepWeightPositive(chars: seq<seq<char>>, moveMarks: seq<seq<int>>)
    ensures Positive(StepWeight(chars, moveMarks))
  {
  }

  /** What get_path may hand back for a unit on from heading to target:
      the target itself when the unit stands on it or at table distance 1;
      otherwise the second cell of a lightest walk (dijkstra over
      adjacency_list), or None when no walk reaches the target, where the
      source's reconstruct_path has no defined result. */
  ghost predicate PathStep(s: Scene, from: Pos, target: Pos, next: Option<Pos>)
    requires SceneOk(s) && InGrid(from) && InGrid(target)
  {
    (next.Some? ==> InGrid(next.value)) &&
    (from == target || Dist(s, from, target) == 1 ==> next == Some(target)) &&
    (from != target && Dist(s, from, target) != 1 && next.Some? ==>
       exists W :: WalkFromTo(s.view.adjacency, AnyCell, W, from, target) && |W| >= 2 && next.value == W[1] &&
         forall W' | WalkFromTo(s.view.adjacency, AnyCell, W', from, target) ::
           Weight(StepWeight(s.info, s.view.usedMovement), W) <= Weight(StepWeight(s.info, s.view.usedMovement), W')) &&
    (from != target && Dist(s, from, target) != 1 && next.None? ==>
       !Reachable(s.view.adjacency, AnyCell, from, target))
  }

  /** get_path: the cell the unit steps to, as PathStep describes it. */
  method GetPath(s: Scene, from: Pos, target: Pos) returns (next: Option<Pos>)
    requires SceneOk(s) && InGrid(from) && InGrid(target)
    requires BoardGraphOk(s.view.adjacency)
    ensures PathStep(s, from, target, next)
  {
    if from == target || Dist(s, from, target) == 1 {
      return Some(target);
    }
    StepWeightPositive(s.info, s.view.usedMovement);
    BoardGraphCovers(s.view.adjacency);
    var path := Dijkstra(s.view.adjacency, StepWeight(s.info, s.view.usedMovement), from, target);
    if path.None? {
      return None;
    }
    if |path.value| > 1 {
      assert StepAt(s.view.adjacency, AnyCell, path.value, 0);
      next := Some(path.value[1]);
    } else {
      next := Some(from);
    }
  }

  /** unit_can_move_to_destination: the unit's level opens the cell, the
      cell is at table distance at most one, and neither one of our own HQ
      or mines nor one of our units stands on it. */
  predicate UnitCanMoveToDestination(s: Scene, u: Unit, t: Pos)
    requires SceneOk(s) && InGrid(u.p) && InGrid(t)
  {
    At(s.levelAlly, t) <= u.level && Dist(s, t, u.p) <= 1 &&
    !IsOccupiedByInaccessibleBuilding(At(s.view.cells, t)) && !HasUnitOf(At(s.view.cells, t), Ally)
  }

  /** With a table floyd_warshall produced, an allowed move stays on the
      unit's cell or goes to a four-adjacent cell, never into a void cell,
      and ends on a cell free of our own HQ, mines and units. */
  lemma MoveIsOneStep(s: Scene, info: array2<char>, levelAlly: array2<int>, d: array2<int>, u: Unit, t: Pos)
    requires SceneOk(s) && IsInfo(info) && IsLevels(levelAlly) && IsTable(d) && InGrid(u.p) && InGrid(t)
    requires Captures(s, info, levelAlly, d) && TableFacts(d, info)
    requires UnitCanMoveToDestination(s, u, t)
    ensures t == u.p || (Manhattan(u.p, t) == 1 && At(s.info, t) != '#' && At(s.info, u.p) != '#')
    ensures At(s.levelAlly, t) <= u.level && !HasUnitOf(At(s.view.cells, t), Ally)
  {
    IndexRoundTrip(t);
    IndexRoundTrip(u.p);
    TableFactsMean(d, info);
    var i, j := Index(t), Index(u.p);
    assert PosOf(i) == t && PosOf(j) == u.p;
    assert Dist(s, t, u.p) == d[i, j];
    if t != u.p {
      assert i != j;
      assert d[i, j] != Infinity;
      ManhattanSymmetric(t, u.p);
      assert !VoidAt(info, i);
      assert d[j, i] == d[i, j];
      assert !VoidAt(info, j);
      assert At(s.info, t) == InfoAt(info, t) && At(s.info, u.p) == InfoAt(info, u.p);
    }
  }
}
