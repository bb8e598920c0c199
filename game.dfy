/** The Game object: the turn's raw input, the state update_gamestate
    derives from it, and the bookkeeping of the hypothetical moves and
    spawns the bot commits to while planning its turn. */
module GameState {
  import opened Grid
  import opened Wrappers
  import opened Cells
  import opened Economy
  import opened Distances
  import opened Board
  import opened Rebuild
  import opened Paths
  import opened Planning
  import opened Training
  import opened Cuts
  import opened PriorityQueues

  /** gold_ally, income_ally, gold_enemy and income_enemy. */
  datatype Funds = Funds(goldAlly: int, incomeAlly: int, goldEnemy: int, incomeEnemy: int)

  /** The units the game may report: on the board, of level 1 to 3. */
  predicate UnitsOk(units: seq<Unit>) {
    UnitsInGrid(units) && forall i | 0 <= i < |units| :: 1 <= units[i].level <= 3
  }

  predicate BuildingsOk(buildings: seq<Building>) {
    forall b | b in buildings :: InGrid(b.p)
  }

  /** The HQ of the given side is among the buildings. */
  predicate HasHQ(buildings: seq<Building>, owned: bool) {
    exists b | b in buildings :: IsHQ(b) && IsOwnedBuilding(b) == owned
  }

  /** getHQ (owned) / getOpponentHQ (!owned): the first such building. */
  method FindHQ(buildings: seq<Building>, owned: bool) returns (hq: Building)
    requires HasHQ(buildings, owned)
    ensures exists i | 0 <= i < |buildings| :: buildings[i] == hq &&
              forall j | 0 <= j < i :: !(IsHQ(buildings[j]) && IsOwnedBuilding(buildings[j]) == owned)
    ensures IsHQ(hq) && IsOwnedBuilding(hq) == owned
  {
    var i := 0;
    while !(IsHQ(buildings[i]) && IsOwnedBuilding(buildings[i]) == owned)
      invariant 0 <= i < |buildings|
      invariant forall j | 0 <= j < i :: !(IsHQ(buildings[j]) && IsOwnedBuilding(buildings[j]) == owned)
      invariant exists k | i <= k < |buildings| :: IsHQ(buildings[k]) && IsOwnedBuilding(buildings[k]) == owned
      decreases |buildings| - i
    {
      i := i + 1;
    }
    hq := buildings[i];
  }

  /** The map rows of one turn's input copied into cells_info; a row shorter
      than the board leaves the rest of its line as it was. */
  method CopyRows(info: array2<char>, rows: seq<seq<char>>)
    requires IsInfo(info)
    requires |rows| == Height && forall i | 0 <= i < Height :: |rows[i]| <= Width
    modifies info
    ensures forall i, j | 0 <= i < Height && 0 <= j < Width ::
              info[i, j] == if j < |rows[i]| then rows[i][j] else old(info[i, j])
  {
    for i := 0 to Height
      invariant forall a, b | 0 <= a < Height && 0 <= b < Width ::
        info[a, b] == if a < i && b < |rows[a]| then rows[a][b] else old(info[a, b])
    {
      for j := 0 to |rows[i]|
        invariant forall a, b | 0 <= a < Height && 0 <= b < Width ::
          info[a, b] == if (a < i && b < |rows[a]|) || (a == i && b < j) then rows[a][b] else old(info[a, b])
      {
        info[i, j] := rows[i][j];
      }
    }
  }

  /** The View of a fresh game, before any turn has been read. */
  function InitialView(): (v: View)
    ensures IsGrid(v.cells) && IsGrid(v.scoreEnemy) && IsGrid(v.usedObjective) && IsGrid(v.usedMovement)
    ensures v.unitsAlly == [] && v.unitsEnemy == []
  {
    View(Filled(EmptyCell(Pos(0, 0))), [], [], [], [], map[], [], [], map[], map[], Filled(0), Filled(0), Filled(0))
  }

  /** The units of a cell list are the listed units, so a cell's unit has
      level 1 to 3 when every listed unit has. */
  lemma CellsUnitLevels(cells: seq<seq<Cell>>, units: seq<Unit>, buildings: seq<Building>, mineSpots: seq<Pos>, info: array2<char>)
    requires IsInfo(info) && UnitsOk(units) && CellsAre(cells, units, buildings, mineSpots, info)
    ensures UnitLevelsOk(cells)
  {
    forall p | InGrid(p) && At(cells, p).unit.Some? ensures 1 <= At(cells, p).unit.value.level <= 3 {
      var u := At(cells, p).unit.value;
      assert u in units;
      var i :| 0 <= i < |units| && units[i] == u;
    }
  }

  // ------------------------------------------------- planning bookkeeping

  /** The TRAIN commands for a run of newly trained units. */
  function SpawnCommands(news: seq<Unit>): (cmds: seq<Command>)
  {
    if news == [] then [] else SpawnCommands(news[..|news| - 1]) + [Train(news[|news| - 1].level, news[|news| - 1].p)]
  }

  /** The gold a run of newly trained units costs. */
  function SpawnCost(news: seq<Unit>): int
  {
    if news == [] then 0 else SpawnCost(news[..|news| - 1]) + CostOfUnit(news[|news| - 1].level)
  }

  /** From (units0, cmds0, gold0) to (units, cmds, gold) only units of the
      given levels were trained, each announced by its TRAIN command and
      paid for, by the bot (owner 0, id 999); and a turn that trained
      anything never left the gold negative. */
  ghost predicate Spawns(units0: seq<Unit>, units: seq<Unit>, cmds0: seq<Command>, cmds: seq<Command>,
                         gold0: int, gold: int, levels: set<int>)
  {
    |units0| <= |units| && units[..|units0|] == units0 &&
    cmds == cmds0 + SpawnCommands(units[|units0|..]) &&
    gold == gold0 - SpawnCost(units[|units0|..]) &&
    (|units0| < |units| ==> gold >= 0) &&
    forall k | |units0| <= k < |units| :: units[k].id == 999 && units[k].owner == Ally && units[k].level in levels
  }

  lemma SpawnsInitially(units: seq<Unit>, cmds: seq<Command>, gold: int, levels: set<int>)
    ensures Spawns(units, units, cmds, cmds, gold, gold, levels)
  {
    assert units[..|units|] == units;
    assert units[|units|..] == [];
  }

  /** Training one more affordable unit keeps Spawns. */
  lemma SpawnStep(units0: seq<Unit>, units: seq<Unit>, cmds0: seq<Command>, cmds: seq<Command>,
                  gold0: int, gold: int, levels: set<int>, u: Unit, income: int)
    requires Spawns(units0, units, cmds0, cmds, gold0, gold, levels)
    requires CanTrainLevel(gold, income, u.level) && u.id == 999 && u.owner == Ally && u.level in levels
    ensures Spawns(units0, units + [u], cmds0, cmds + [Train(u.level, u.p)], gold0, gold - CostOfUnit(u.level), levels)
  {
    var news := (units + [u])[|units0|..];
    assert news[..|news| - 1] == units[|units0|..];
    assert (units + [u])[..|units0|] == units[..|units0|];
  }

  /** Training that starts with gold to spare ends with gold to spare. */
  lemma GoldStaysPaid(units0: seq<Unit>, units: seq<Unit>, cmds0: seq<Command>, cmds: seq<Command>,
                      gold0: int, gold: int, levels: set<int>)
    requires Spawns(units0, units, cmds0, cmds, gold0, gold, levels)
    ensures gold0 >= 0 ==> gold >= 0
  {
    if |units0| == |units| {
      assert units[|units0|..] == [];
    }
  }

  /** units_in_order and the objectives: distinct ally indices into the
      units, each with an objective on the board, and no other objective. */
  ghost predicate OrderOk(order: seq<int>, objs: map<int, Objective>, n: int, ally: seq<int>) {
    (forall i, j | 0 <= i < j < |order| :: order[i] != order[j]) &&
    (forall i | 0 <= i < |order| :: order[i] in ally && 0 <= order[i] < n) &&
    objs.Keys == (set k | k in order) &&
    forall i | 0 <= i < |order| :: InGrid(objs[order[i]].target)
  }

  /** One turn of the loop of move_units: the state the unit met (as a
      scene), the cell get_path handed back, and the move taken. */
  datatype Step = Step(s: Scene, next: Option<Pos>, moved: Option<Pos>)

  /** The unit u heading for target took the step st: next is what
      get_path gives on st.s, and the unit moved there exactly when
      unit_can_move_to_destination allowed it. */
  ghost predicate StepOk(st: Step, u: Unit, target: Pos) {
    SceneOk(st.s) && InGrid(u.p) && InGrid(target) && PathStep(st.s, u.p, target, st.next) &&
    st.moved == if st.next.Some? && InGrid(st.next.value) && UnitCanMoveToDestination(st.s, u, st.next.value)
                then st.next else None
  }

  /** The ordered indices lie in units0 and all have an objective. */
  predicate OrderIn(units0: seq<Unit>, order: seq<int>, objs: map<int, Objective>) {
    forall j | 0 <= j < |order| :: 0 <= order[j] < |units0| && order[j] in objs
  }

  /** The units once the first |steps| units of order took their steps. */
  function AfterMoves(units0: seq<Unit>, order: seq<int>, steps: seq<Step>): (units: seq<Unit>)
    requires |steps| <= |order| && forall j | 0 <= j < |order| :: 0 <= order[j] < |units0|
    ensures |units| == |units0|
  {
    if steps == [] then units0
    else
      var units := AfterMoves(units0, order, steps[..|steps| - 1]);
      var k, m := order[|steps| - 1], steps[|steps| - 1].moved;
      if m.Some? then units[k := units[k].(p := m.value)] else units
  }

  /** The MOVE commands of those steps, one per unit that moved. */
  function MoveCommands(units0: seq<Unit>, order: seq<int>, steps: seq<Step>): seq<Command>
    requires |steps| <= |order| && forall j | 0 <= j < |order| :: 0 <= order[j] < |units0|
  {
    if steps == [] then []
    else
      var k, m := order[|steps| - 1], steps[|steps| - 1].moved;
      MoveCommands(units0, order, steps[..|steps| - 1]) + if m.Some? then [Move(units0[k].id, m.value)] else []
  }

  /** After the first |steps| units of order took their turn: each took the
      step get_path and unit_can_move_to_destination give on the state it
      met, the units are those steps applied to units0, and the commands
      grew from cmds0 by exactly their MOVEs. */
  ghost predicate MovedSoFar(units0: seq<Unit>, units: seq<Unit>, order: seq<int>, objs: map<int, Objective>,
                             cmds0: seq<Command>, cmds: seq<Command>, steps: seq<Step>)
  {
    |steps| <= |order| && OrderIn(units0, order, objs) &&
    (forall j | 0 <= j < |steps| :: StepOk(steps[j], units0[order[j]], objs[order[j]].target)) &&
    units == AfterMoves(units0, order, steps) && cmds == cmds0 + MoveCommands(units0, order, steps)
  }

  /** A unit of order whose turn has not come yet is where it started. */
  lemma {:induction false} NotYetMoved(units0: seq<Unit>, order: seq<int>, steps: seq<Step>, j: int)
    requires |steps| <= j < |order| && forall a | 0 <= a < |order| :: 0 <= order[a] < |units0|
    requires forall a, b | 0 <= a < b < |order| :: order[a] != order[b]
    ensures AfterMoves(units0, order, steps)[order[j]] == units0[order[j]]
  {
    if steps != [] {
      NotYetMoved(units0, order, steps[..|steps| - 1], j);
    }
  }

  /** Steps change only the cells of ordered units, and move no unit
      outside order; there is at most one MOVE per step. */
  lemma {:induction false} AfterMovesFacts(units0: seq<Unit>, order: seq<int>, steps: seq<Step>)
    requires |steps| <= |order| && forall a | 0 <= a < |order| :: 0 <= order[a] < |units0|
    ensures forall k | 0 <= k < |units0| :: AfterMoves(units0, order, steps)[k] == units0[k].(p := AfterMoves(units0, order, steps)[k].p)
    ensures forall k | 0 <= k < |units0| && k !in order[..|steps|] :: AfterMoves(units0, order, steps)[k] == units0[k]
    ensures |MoveCommands(units0, order, steps)| <= |steps|
  {
    if steps != [] {
      var n := |steps| - 1;
      AfterMovesFacts(units0, order, steps[..n]);
      assert order[..n + 1] == order[..n] + [order[n]];
    }
  }

  /** Taking the step st with unit order[|steps|] extends MovedSoFar. */
  lemma MoveStep(units0: seq<Unit>, units: seq<Unit>, order: seq<int>, objs: map<int, Objective>,
                 cmds0: seq<Command>, cmds: seq<Command>, steps: seq<Step>, st: Step,
                 units': seq<Unit>, cmds': seq<Command>)
    requires MovedSoFar(units0, units, order, objs, cmds0, cmds, steps) && |steps| < |order|
    requires forall a, b | 0 <= a < b < |order| :: order[a] != order[b]
    requires StepOk(st, units[order[|steps|]], objs[order[|steps|]].target)
    requires st.moved.None? ==> units' == units && cmds' == cmds
    requires st.moved.Some? ==> var k := order[|steps|];
               units' == units[k := units[k].(p := st.moved.value)] && cmds' == cmds + [Move(units[k].id, st.moved.value)]
    ensures MovedSoFar(units0, units', order, objs, cmds0, cmds', steps + [st])
  {
    NotYetMoved(units0, order, steps, |steps|);
    assert (steps + [st])[..|steps|] == steps;
  }



  /** The units trained on cuts, from units0 to units: each stands on an
      attainable articulation point of the enemy territory in s whose cut
      gain exceeds ten times its level. */
  ghost predicate CutSpawns(s: Scene, units0: seq<Unit>, units: seq<Unit>)
    requires SceneOk(s) && TerritoryOk(s, true)
  {
    |units0| <= |units| &&
    forall k | |units0| <= k < |units| ::
      AttainableCut(s, true, units[k].p) && exists g :: ScoredCut(s, true, units[k].p, g) && g > 10 * units[k].level
  }

  lemma CutSpawnStep(s: Scene, units0: seq<Unit>, units: seq<Unit>, u: Unit, gain: int)
    requires SceneOk(s) && TerritoryOk(s, true) && CutSpawns(s, units0, units)
    requires AttainableCut(s, true, u.p) && ScoredCut(s, true, u.p, gain) && gain > 10 * u.level
    ensures CutSpawns(s, units0, units + [u])
  {
    var units' := units + [u];
    forall k | |units0| <= k < |units'|
      ensures AttainableCut(s, true, units'[k].p) && exists g :: ScoredCut(s, true, units'[k].p, g) && g > 10 * units'[k].level
    {
      if k < |units| {
        assert units'[k] == units[k];
      } else {
        assert units'[k] == u;
        assert ScoredCut(s, true, units'[k].p, gain) && gain > 10 * units'[k].level;
      }
    }
  }

  /** What is left in a bag after one removal was in it before. */
  lemma RemovalShrinks<T>(rest: seq<T>, all: seq<T>, x: T)
    requires multiset(rest) == multiset(all) - multiset{x}
    ensures forall e | e in rest :: e in all
  {
    forall e | e in rest ensures e in all {
      assert e in multiset(rest);
    }
  }

  /** One spawn of train_units: the state it met, the level and the cell
      it chose. */
  datatype SpawnPick = SpawnPick(s: Scene, level: int, p: Pos)

  /** The cell of a spawn is a training position for the level on the
      state met, and no training position there scores higher. */
  ghost predicate PickOk(k: SpawnPick) {
    SceneOk(k.s) && InGrid(k.p) && SpawnSpot(k.s, k.level, k.p) &&
    forall q | InGrid(q) && SpawnSpot(k.s, k.level, q) :: !Greater(SpawnScore(k.s, k.level, q), SpawnScore(k.s, k.level, k.p))
  }

  /** From units0 to units, one unit of each pick's level appended on the
      pick's cell, in the order of the picks, each pick PickOk. */
  ghost predicate Picked(units0: seq<Unit>, units: seq<Unit>, picks: seq<SpawnPick>) {
    |units| == |units0| + |picks| && units[..|units0|] == units0 &&
    forall k | 0 <= k < |picks| :: PickOk(picks[k]) && units[|units0| + k] == Unit(999, Ally, picks[k].level, picks[k].p)
  }

  lemma PickedInitially(units: seq<Unit>)
    ensures Picked(units, units, [])
  {
    assert units[..|units|] == units;
  }

  lemma PickedStep(units0: seq<Unit>, units: seq<Unit>, picks: seq<SpawnPick>, k: SpawnPick)
    requires Picked(units0, units, picks) && PickOk(k)
    ensures Picked(units0, units + [Unit(999, Ally, k.level, k.p)], picks + [k])
  {
    var units' := units + [Unit(999, Ally, k.level, k.p)];
    assert units'[..|units0|] == units[..|units0|];
    forall j | 0 <= j < |picks| + 1
      ensures PickOk((picks + [k])[j]) && units'[|units0| + j] == Unit(999, Ally, (picks + [k])[j].level, (picks + [k])[j].p)
    {
      if j < |picks| {
        assert units'[|units0| + j] == units[|units0| + j];
      }
    }
  }

  /** Two runs of picks in a row are one run. */
  lemma PickedAppend(units0: seq<Unit>, units1: seq<Unit>, units: seq<Unit>, picks1: seq<SpawnPick>, picks2: seq<SpawnPick>)
    requires Picked(units0, units1, picks1) && Picked(units1, units, picks2)
    ensures Picked(units0, units, picks1 + picks2)
  {
    assert units[..|units0|] == units1[..|units0|] by {
      assert units[..|units1|] == units1;
    }
    forall j | 0 <= j < |picks1 + picks2|
      ensures PickOk((picks1 + picks2)[j]) &&
              units[|units0| + j] == Unit(999, Ally, (picks1 + picks2)[j].level, (picks1 + picks2)[j].p)
    {
      if j < |picks1| {
        assert units[|units0| + j] == units[..|units1|][|units0| + j];
      } else {
        assert units[|units0| + j] == units[|units1| + (j - |picks1|)];
      }
    }
  }

  /** Where the loop of train_units for one level stands: Spawns since
      (units0, cmds0, gold0), and the units appended since `start` are the
      picks, all of the level. */
  ghost predicate LevelRun(units0: seq<Unit>, cmds0: seq<Command>, gold0: int, levels: set<int>, start: seq<Unit>,
                           units: seq<Unit>, cmds: seq<Command>, gold: int, picks: seq<SpawnPick>, level: int)
  {
    Spawns(units0, units, cmds0, cmds, gold0, gold, levels) && Picked(start, units, picks) &&
    forall k | 0 <= k < |picks| :: picks[k].level == level
  }

  /** A spawn of the level on a best position it met, paid from gold
      that allowed it, keeps LevelRun. */
  lemma LevelRunStep(units0: seq<Unit>, cmds0: seq<Command>, gold0: int, levels: set<int>, start: seq<Unit>,
                     units: seq<Unit>, cmds: seq<Command>, gold: int, picks: seq<SpawnPick>, level: int, k: SpawnPick, income: int)
    requires LevelRun(units0, cmds0, gold0, levels, start, units, cmds, gold, picks, level)
    requires PickOk(k) && k.level == level && level in levels && CanTrainLevel(gold, income, level)
    ensures LevelRun(units0, cmds0, gold0, levels, start, units + [Unit(999, Ally, level, k.p)], cmds + [Train(level, k.p)],
                     gold - CostOfUnit(level), picks + [k], level)
  {
    SpawnStep(units0, units, cmds0, cmds, gold0, gold, levels, Unit(999, Ally, level, k.p), income);
    PickedStep(start, units, picks, k);
  }

  /** One pass of the loop of train_units_on_cuts: the state it met (the
      scene, the gold and the income), the gain and cut it popped, and
      whether it trained a unit there. */
  datatype CutTurn = CutTurn(s: Scene, gain: int, cut: Pos, gold: int, income: int, trained: bool)

  /** get_cells_level_ally of the pass's cut on the state it met. */
  function CutLevel(t: CutTurn): int {
    if IsGrid(t.s.levelAlly) && InGrid(t.cut) then At(t.s.levelAlly, t.cut) else 0
  }

  /** A pass trains on its cut exactly when gain - 10 * level is positive,
      the level is at most three and the gold and income met allow it. */
  predicate CutTurnOk(t: CutTurn) {
    SceneOk(t.s) && InGrid(t.cut) &&
    (t.trained <==> t.gain - 10 * CutLevel(t) > 0 && CutLevel(t) <= 3 && CanTrainLevel(t.gold, t.income, CutLevel(t)))
  }

  /** The units a run of passes trains, in order. */
  function CutUnits(turns: seq<CutTurn>): seq<Unit> {
    if turns == [] then []
    else
      var t := turns[|turns| - 1];
      CutUnits(turns[..|turns| - 1]) + (if t.trained then [Unit(999, Ally, CutLevel(t), t.cut)] else [])
  }

  /** The (gain, cut) pairs a run of passes popped, in order. */
  function CutPairs(turns: seq<CutTurn>): seq<(int, Pos)> {
    seq(|turns|, j requires 0 <= j < |turns| => (turns[j].gain, turns[j].cut))
  }

  /** The queue side of the loop of train_units_on_cuts after the passes
      `turns`, with `rest` still queued out of the cuts `queued` found on
      `here`: what is left is scored on `here`, and PopOrder holds. */
  ghost predicate CutQueue(here: Scene, turns: seq<CutTurn>, queued: seq<(int, Pos)>, rest: seq<(int, Pos)>)
    requires SceneOk(here) && TerritoryOk(here, true)
  {
    (forall e | e in rest :: AttainableCut(here, true, e.1) && ScoredCut(here, true, e.1, e.0)) &&
    PopOrder(turns, queued, rest)
  }

  /** The popped pairs and `rest` together are `queued`, and the pairs
      were popped best gain first with none left better. */
  predicate PopOrder(turns: seq<CutTurn>, queued: seq<(int, Pos)>, rest: seq<(int, Pos)>) {
    multiset(CutPairs(turns)) + multiset(rest) == multiset(queued) && BestFirst(turns) &&
    (forall j, e | 0 <= j < |turns| && e in rest :: e.0 <= turns[j].gain)
  }

  /** The passes met their cuts in non-increasing gain. */
  predicate BestFirst(turns: seq<CutTurn>) {
    forall a, b | 0 <= a < b < |turns| :: turns[b].gain <= turns[a].gain
  }

  /** Each pass decided by CutTurnOk on the gold the passes before it left. */
  ghost predicate CutPasses(turns: seq<CutTurn>, gold0: int) {
    forall j | 0 <= j < |turns| :: CutTurnOk(turns[j]) && turns[j].gold == gold0 - SpawnCost(CutUnits(turns[..j]))
  }

  /** The units, commands and gold are the start's plus what the training
      passes give, which keeps Spawns and CutSpawns. */
  ghost predicate CutResult(here: Scene, units0: seq<Unit>, units: seq<Unit>, cmds0: seq<Command>, cmds: seq<Command>,
                            gold0: int, gold: int, turns: seq<CutTurn>)
    requires SceneOk(here) && TerritoryOk(here, true)
  {
    units == units0 + CutUnits(turns) && cmds == cmds0 + SpawnCommands(CutUnits(turns)) &&
    gold == gold0 - SpawnCost(CutUnits(turns)) &&
    Spawns(units0, units, cmds0, cmds, gold0, gold, {1, 2, 3}) && CutSpawns(here, units0, units)
  }

  /** Where the loop of train_units_on_cuts stands: CutQueue, CutPasses
      and CutResult together. */
  ghost predicate CutProgress(here: Scene, units0: seq<Unit>, units: seq<Unit>, cmds0: seq<Command>, cmds: seq<Command>,
                              gold0: int, gold: int, turns: seq<CutTurn>, queued: seq<(int, Pos)>, rest: seq<(int, Pos)>)
    requires SceneOk(here) && TerritoryOk(here, true)
  {
    CutQueue(here, turns, queued, rest) && CutPasses(turns, gold0) &&
    CutResult(here, units0, units, cmds0, cmds, gold0, gold, turns)
  }

  lemma CutProgressInitially(here: Scene, units: seq<Unit>, cmds: seq<Command>, gold: int, queued: seq<(int, Pos)>)
    requires SceneOk(here) && TerritoryOk(here, true)
    requires forall e | e in queued :: AttainableCut(here, true, e.1) && ScoredCut(here, true, e.1, e.0)
    ensures CutProgress(here, units, units, cmds, cmds, gold, gold, [], queued, queued)
  {
    SpawnsInitially(units, cmds, gold, {1, 2, 3});
    assert units + CutUnits([]) == units;
    assert CutPairs([]) == [];
  }

  /** Popping the best pair left keeps CutQueue. */
  lemma CutQueueStep(here: Scene, turns: seq<CutTurn>, queued: seq<(int, Pos)>, rest: seq<(int, Pos)>,
                     rest': seq<(int, Pos)>, t: CutTurn)
    requires SceneOk(here) && TerritoryOk(here, true) && CutQueue(here, turns, queued, rest)
    requires (t.gain, t.cut) in rest && forall e | e in rest :: e.0 <= t.gain
    requires multiset(rest') == multiset(rest) - multiset{(t.gain, t.cut)}
    ensures CutQueue(here, turns + [t], queued, rest')
  {
    RemovalShrinks(rest', rest, (t.gain, t.cut));
    PopOrderStep(turns, queued, rest, rest', t);
  }

  /** Popping the best pair left keeps PopOrder. */
  lemma PopOrderStep(turns: seq<CutTurn>, queued: seq<(int, Pos)>, rest: seq<(int, Pos)>, rest': seq<(int, Pos)>, t: CutTurn)
    requires PopOrder(turns, queued, rest)
    requires (t.gain, t.cut) in rest && forall e | e in rest :: e.0 <= t.gain
    requires multiset(rest') == multiset(rest) - multiset{(t.gain, t.cut)}
    ensures PopOrder(turns + [t], queued, rest')
  {
    var turns' := turns + [t];
    RemovalShrinks(rest', rest, (t.gain, t.cut));
    assert CutPairs(turns') == CutPairs(turns) + [(t.gain, t.cut)];
    assert multiset(rest) == multiset(rest') + multiset{(t.gain, t.cut)} by {
      assert (t.gain, t.cut) in multiset(rest);
    }
    forall a, b | 0 <= a < b < |turns'| ensures turns'[b].gain <= turns'[a].gain {
      if b == |turns| {
        assert turns[a].gain >= t.gain;
      }
    }
  }

  /** A pass decided on the gold the passes before left keeps CutPasses. */
  lemma CutPassesStep(turns: seq<CutTurn>, gold0: int, t: CutTurn)
    requires CutPasses(turns, gold0) && CutTurnOk(t) && t.gold == gold0 - SpawnCost(CutUnits(turns))
    ensures CutPasses(turns + [t], gold0)
  {
    var turns' := turns + [t];
    forall j | 0 <= j < |turns'|
      ensures CutTurnOk(turns'[j]) && turns'[j].gold == gold0 - SpawnCost(CutUnits(turns'[..j]))
    {
      if j < |turns| {
        assert turns'[..j] == turns[..j];
      } else {
        assert turns'[..j] == turns;
      }
    }
  }

  lemma CutUnitsSnoc(turns: seq<CutTurn>, t: CutTurn)
    ensures CutUnits(turns + [t]) == CutUnits(turns) + (if t.trained then [Unit(999, Ally, CutLevel(t), t.cut)] else [])
  {
    assert (turns + [t])[..|turns|] == turns;
  }

  /** A pass that trains nothing keeps CutResult. */
  lemma CutIdleStep(here: Scene, units0: seq<Unit>, units: seq<Unit>, cmds0: seq<Command>, cmds: seq<Command>,
                    gold0: int, gold: int, turns: seq<CutTurn>, t: CutTurn)
    requires SceneOk(here) && TerritoryOk(here, true) && CutResult(here, units0, units, cmds0, cmds, gold0, gold, turns)
    requires !t.trained
    ensures CutResult(here, units0, units, cmds0, cmds, gold0, gold, turns + [t])
  {
    CutUnitsSnoc(turns, t);
  }

  /** A pass that trains on its cut keeps CutResult. */
  lemma CutTrainedStep(here: Scene, units0: seq<Unit>, units: seq<Unit>, cmds0: seq<Command>, cmds: seq<Command>,
                       gold0: int, gold: int, turns: seq<CutTurn>, t: CutTurn)
    requires SceneOk(here) && TerritoryOk(here, true) && CutResult(here, units0, units, cmds0, cmds, gold0, gold, turns)
    requires AttainableCut(here, true, t.cut) && ScoredCut(here, true, t.cut, t.gain)
    requires CutTurnOk(t) && t.gold == gold && t.trained
    ensures CutResult(here, units0, units + [Unit(999, Ally, CutLevel(t), t.cut)], cmds0, cmds + [Train(CutLevel(t), t.cut)],
                      gold0, gold - CostOfUnit(CutLevel(t)), turns + [t])
  {
    var u := Unit(999, Ally, CutLevel(t), t.cut);
    CutUnitsSnoc(turns, t);
    NewsStep(units0, cmds0, gold0, CutUnits(turns), u);
    SpawnStep(units0, units, cmds0, cmds, gold0, gold, {1, 2, 3}, u, t.income);
    CutSpawnStep(here, units0, units, u, t.gain);
  }

  /** One more trained unit extends the units, the commands and the cost alike. */
  lemma NewsStep(units0: seq<Unit>, cmds0: seq<Command>, gold0: int, news: seq<Unit>, u: Unit)
    ensures units0 + news + [u] == units0 + (news + [u])
    ensures cmds0 + SpawnCommands(news) + [Train(u.level, u.p)] == cmds0 + SpawnCommands(news + [u])
    ensures gold0 - SpawnCost(news) - CostOfUnit(u.level) == gold0 - SpawnCost(news + [u])
  {
    assert (news + [u])[..|news|] == news;
  }

  /** One more pass, on the best pair left and with the gold the passes
      before left, keeps CutProgress. */
  lemma CutProgressStep(here: Scene, units0: seq<Unit>, units: seq<Unit>, cmds0: seq<Command>, cmds: seq<Command>,
                        gold0: int, gold: int, turns: seq<CutTurn>, queued: seq<(int, Pos)>, rest: seq<(int, Pos)>,
                        rest': seq<(int, Pos)>, t: CutTurn, units': seq<Unit>, cmds': seq<Command>, gold': int)
    requires SceneOk(here) && TerritoryOk(here, true)
    requires CutProgress(here, units0, units, cmds0, cmds, gold0, gold, turns, queued, rest)
    requires (t.gain, t.cut) in rest && forall e | e in rest :: e.0 <= t.gain
    requires multiset(rest') == multiset(rest) - multiset{(t.gain, t.cut)}
    requires CutTurnOk(t) && t.gold == gold
    requires t.trained ==> units' == units + [Unit(999, Ally, CutLevel(t), t.cut)] &&
                           cmds' == cmds + [Train(CutLevel(t), t.cut)] && gold' == gold - CostOfUnit(CutLevel(t))
    requires !t.trained ==> units' == units && cmds' == cmds && gold' == gold
    ensures CutProgress(here, units0, units', cmds0, cmds', gold0, gold', turns + [t], queued, rest')
  {
    CutQueueStep(here, turns, queued, rest, rest', t);
    CutPassesStep(turns, gold0, t);
    if t.trained {
      CutTrainedStep(here, units0, units, cmds0, cmds, gold0, gold, turns, t);
    } else {
      CutIdleStep(here, units0, units, cmds0, cmds, gold0, gold, turns, t);
    }
  }

  /** Once nothing is left queued, the passes popped exactly the queued
      pairs: a cut is met by a pass exactly when it was queued, and the
      gain a pass met is the cut's score. */
  lemma CutsAllTaken(here: Scene, turns: seq<CutTurn>, queued: seq<(int, Pos)>)
    requires SceneOk(here) && TerritoryOk(here, true)
    requires forall p :: (exists e | e in queued :: e.1 == p) <==> AttainableCut(here, true, p)
    requires forall e | e in queued :: ScoredCut(here, true, e.1, e.0)
    requires multiset(CutPairs(turns)) == multiset(queued)
    ensures forall p :: AttainableCut(here, true, p) <==> exists j | 0 <= j < |turns| :: turns[j].cut == p
    ensures forall j | 0 <= j < |turns| :: ScoredCut(here, true, turns[j].cut, turns[j].gain)
  {
    PairsTaken(turns, queued);
    forall p | AttainableCut(here, true, p) ensures exists j | 0 <= j < |turns| :: turns[j].cut == p {
      var e :| e in queued && e.1 == p;
    }
  }

  /** With nothing left queued, CutProgress says that the popped pairs are
      the queued ones, taken best first, every pass decided and the
      outcome that of the training passes. */
  lemma CutProgressDone(here: Scene, units0: seq<Unit>, units: seq<Unit>, cmds0: seq<Command>, cmds: seq<Command>,
                        gold0: int, gold: int, turns: seq<CutTurn>, queued: seq<(int, Pos)>)
    requires SceneOk(here) && TerritoryOk(here, true)
    requires CutProgress(here, units0, units, cmds0, cmds, gold0, gold, turns, queued, [])
    ensures multiset(CutPairs(turns)) == multiset(queued) && BestFirst(turns) && CutPasses(turns, gold0)
    ensures CutResult(here, units0, units, cmds0, cmds, gold0, gold, turns)
  {
  }

  /** The popped pairs are the queued ones. */
  lemma PairsTaken(turns: seq<CutTurn>, queued: seq<(int, Pos)>)
    requires multiset(CutPairs(turns)) == multiset(queued)
    ensures forall j | 0 <= j < |turns| :: (turns[j].gain, turns[j].cut) in queued
    ensures forall e | e in queued :: exists j | 0 <= j < |turns| :: turns[j].cut == e.1
  {
    var pairs := CutPairs(turns);
    forall j | 0 <= j < |turns| ensures (turns[j].gain, turns[j].cut) in queued {
      assert pairs[j] in multiset(pairs);
    }
    forall e | e in queued ensures exists j | 0 <= j < |turns| :: turns[j].cut == e.1 {
      assert e in multiset(pairs);
      var j :| 0 <= j < |pairs| && pairs[j] == e;
      assert turns[j].cut == e.1;
    }
  }

  class Game {
    var turn: int
    var units: seq<Unit>
    /** Unit::objective, by index into units; set by the allocator. */
    var objectives: map<int, Objective>
    var buildings: seq<Building>
    var mineSpots: seq<Pos>
    var commands: seq<Command>

    var center: Pos
    var hqAlly: Building
    var hqEnemy: Building

    /** Indices into units. */
    var unitsInOrder: seq<int>

    /** The cells, the per-side unit and building lists, the adjacency
        lists, the territories and the heat map, as update_gamestate
        derives them, and the two marker grids. */
    var view: View

    const distances: array2<int>
    /** cells_info, indexed [y, x]. */
    const info: array2<char>
    const levelAlly: array2<int>
    const levelEnemy: array2<int>

    var funds: Funds

    /** The discovery counter of the articulation-point search, which the
        source keeps in a static variable that is never reset. */
    var dfsTime: int

    /** The shapes every member relies on. */
    ghost predicate Valid()
      reads this`units, this`buildings, this`mineSpots, this`hqAlly, this`hqEnemy, this`view
    {
      IsInfo(info) && IsLevels(levelAlly) && IsLevels(levelEnemy) && IsTable(distances) &&
      levelAlly != levelEnemy &&
      UnitsOk(units) && BuildingsOk(buildings) && (forall m | m in mineSpots :: InGrid(m)) &&
      InGrid(hqAlly.p) && InGrid(hqEnemy.p) &&
      IsGrid(view.cells) && IsGrid(view.scoreEnemy) && IsGrid(view.usedObjective) && IsGrid(view.usedMovement)
    }

    /** Everything update_gamestate derives from the input. */
    ghost predicate Derived()
      reads this`units, this`buildings, this`mineSpots, this`hqAlly, this`hqEnemy, this`view, info, levelAlly, levelEnemy, distances
      requires Valid()
    {
      Derivation(units, buildings, mineSpots, info, distances, levelAlly, levelEnemy, view)
    }

    /** The state right after update_gamestate: derived, markers all zero. */
    ghost predicate Rebuilt()
      reads this`units, this`buildings, this`mineSpots, this`hqAlly, this`hqEnemy, this`view, info, levelAlly, levelEnemy, distances
      requires Valid()
    {
      Derived() && AllZero(view.usedObjective) && AllZero(view.usedMovement)
    }

    /** Nothing of the turn's input, the planned commands or the economy changed. */
    twostate predicate InputsKept()
      reads this
    {
      turn == old(turn) && units == old(units) && objectives == old(objectives) &&
      buildings == old(buildings) && mineSpots == old(mineSpots) && commands == old(commands) &&
      center == old(center) && hqAlly == old(hqAlly) && hqEnemy == old(hqEnemy) &&
      unitsInOrder == old(unitsInOrder) && dfsTime == old(dfsTime) &&
      funds == old(funds)
    }

    // --------------------------------------------------------------- init

    /** init: the mine spots, the center (5, 5) and turn 0. */
    constructor (spots: seq<Pos>)
      requires forall m | m in spots :: InGrid(m)
      ensures Valid() && fresh(info) && fresh(distances) && fresh(levelAlly) && fresh(levelEnemy)
      ensures mineSpots == spots && center == Pos(5, 5) && turn == 0
      ensures units == [] && buildings == [] && commands == [] && unitsInOrder == []
    {
      turn := 0;
      units := [];
      objectives := map[];
      buildings := [];
      mineSpots := spots;
      commands := [];
      center := Pos(5, 5);
      hqAlly := Building(Pos(0, 0), HQ, Ally);
      hqEnemy := Building(Pos(0, 0), HQ, Enemy);
      unitsInOrder := [];
      view := InitialView();
      distances := new int[Dim, Dim];
      info := new char[Height, Width];
      levelAlly := new int[Height, Width];
      levelEnemy := new int[Height, Width];
      funds := Funds(0, 0, 0, 0);
      dfsTime := 0;
    }

    // -------------------------------------------------------- update_game

    /** update_game on an already parsed turn: the turn counter, both
        economies, the map rows, buildings and units and both HQs; on the
        first turn the distance table follows (ComputeDistances). */
    method LoadTurn(gold: int, income: int, opponentGold: int, opponentIncome: int,
                    rows: seq<seq<char>>, newBuildings: seq<Building>, newUnits: seq<Unit>)
      requires Valid()
      requires |rows| == Height && forall i | 0 <= i < Height :: |rows[i]| <= Width
      requires UnitsOk(newUnits) && BuildingsOk(newBuildings)
      requires HasHQ(newBuildings, true) && HasHQ(newBuildings, false)
      modifies this, info
      ensures Valid()
      ensures turn == old(turn) + 1 && units == newUnits && buildings == newBuildings && commands == []
      ensures funds == Funds(gold, income, opponentGold, opponentIncome)
      ensures forall i, j | 0 <= i < Height && 0 <= j < Width ::
                info[i, j] == if j < |rows[i]| then rows[i][j] else old(info[i, j])
      ensures IsHQ(hqAlly) && IsOwnedBuilding(hqAlly) && hqAlly in buildings
      ensures IsHQ(hqEnemy) && !IsOwnedBuilding(hqEnemy) && hqEnemy in buildings
      ensures mineSpots == old(mineSpots) && center == old(center)
    {
      CopyRows(info, rows);
      var ally := FindHQ(newBuildings, true);
      var enemy := FindHQ(newBuildings, false);
      turn := turn + 1;
      commands := [];
      funds := Funds(gold, income, opponentGold, opponentIncome);
      buildings, units := newBuildings, newUnits;
      hqAlly, hqEnemy := ally, enemy;
    }

    /** The last step of update_game: floyd_warshall, on the first turn only. */
    method ComputeDistances()
      requires Valid()
      modifies distances
      ensures turn == 1 ==> TableFacts(distances, info)
      ensures turn != 1 ==> unchanged(distances)
    {
      if turn == 1 {
        FloydWarshall(distances, info);
      }
    }

    // --------------------------------------------------- update_gamestate

    /** update_gamestate: reset both markers and derive everything else
        from the input. */
    method UpdateGamestate()
      requires Valid()
      modifies this, levelAlly, levelEnemy
      ensures Valid() && Rebuilt() && InputsKept()
    {
      view := Derive(units, buildings, mineSpots, info, distances, levelAlly, levelEnemy);
    }

    /** refresh_gamestate_for_movement: the unit units[k] moves to dest.
        The source also marks dest in cells_used_movement, but the
        update_gamestate it ends with resets that grid, so the mark is never
        seen and is not modelled. */
    method RefreshForMovement(k: int, dest: Pos)
      requires Valid() && 0 <= k < |units| && InGrid(dest)
      modifies this, info, levelAlly, levelEnemy
      ensures Valid() && Rebuilt()
      ensures units == old(units)[k := old(units[k]).(p := dest)]
      ensures funds == old(funds).(incomeAlly := old(funds.incomeAlly) + if old(info[dest.y, dest.x]) != 'O' then 1 else 0)
      ensures info[dest.y, dest.x] == 'O'
      ensures forall p | InGrid(p) && p != dest :: info[p.y, p.x] == old(info[p.y, p.x])
      ensures turn == old(turn) && objectives == old(objectives) && buildings == old(buildings) &&
              mineSpots == old(mineSpots) && commands == old(commands) && hqAlly == old(hqAlly) &&
              hqEnemy == old(hqEnemy) && unitsInOrder == old(unitsInOrder) && dfsTime == old(dfsTime) &&
              center == old(center)
    {
      funds := funds.(incomeAlly := funds.incomeAlly + if info[dest.y, dest.x] != 'O' then 1 else 0);
      info[dest.y, dest.x] := 'O';
      units := units[k := units[k].(p := dest)];
      UpdateGamestate();
    }

    /** refresh_gamestate_for_spawn: the new unit u is trained on dest. */
    method RefreshForSpawn(u: Unit, dest: Pos)
      requires Valid() && InGrid(u.p) && 1 <= u.level <= 3 && InGrid(dest)
      modifies this, info, levelAlly, levelEnemy
      ensures Valid() && Rebuilt()
      ensures units == old(units) + [u]
      ensures funds == old(funds).(goldAlly := old(funds.goldAlly) - CostOfUnit(u.level),
                                   incomeAlly := old(funds.incomeAlly) + (if old(info[dest.y, dest.x]) != 'O' then 1 else 0) - UpkeepOfUnit(u.level))
      ensures info[dest.y, dest.x] == 'O'
      ensures forall p | InGrid(p) && p != dest :: info[p.y, p.x] == old(info[p.y, p.x])
      ensures turn == old(turn) && objectives == old(objectives) && buildings == old(buildings) &&
              mineSpots == old(mineSpots) && commands == old(commands) && hqAlly == old(hqAlly) &&
              hqEnemy == old(hqEnemy) && unitsInOrder == old(unitsInOrder) && dfsTime == old(dfsTime) &&
              center == old(center)
    {
      funds := funds.(goldAlly := funds.goldAlly - CostOfUnit(u.level),
                      incomeAlly := funds.incomeAlly + (if info[dest.y, dest.x] != 'O' then 1 else 0) - UpkeepOfUnit(u.level));
      info[dest.y, dest.x] := 'O';
      units := units + [u];
      UpdateGamestate();
    }

    // ------------------------------------------------------- the planning

    /** The planning state as values: the view, cells_info, the ally level
        table, the distance table, both HQ cells and the turn. */
    function SceneOf(): (s: Scene)
      reads this`view, this`hqAlly, this`hqEnemy, this`turn, this`units, this`buildings, this`mineSpots, info, levelAlly, distances
      requires Valid()
      ensures SceneOk(s)
      ensures s.view == view && s.hqAlly == hqAlly.p && s.hqEnemy == hqEnemy.p && s.turn == turn
    {
      Scene(view, Rows(info), Rows(levelAlly), Rows(distances), hqAlly.p, hqEnemy.p, turn)
    }

    /** The scene holds what the arrays hold. */
    lemma SceneCaptures()
      requires Valid()
      ensures Captures(SceneOf(), info, levelAlly, distances)
    {
    }

    /** The full adjacency of a derived state covers the board, and its unit
        lists index units. */
    lemma BoardFacts()
      requires Valid() && Derived()
      ensures BoardGraphOk(view.adjacency)
      ensures IndicesIn(view.unitsAlly, units) && IndicesIn(view.unitsEnemy, units)
    {
      FullAdjacencyOk(view.cells, view.adjacency);
    }

    /** In a derived state every cell asks for a level of at least one, and
        every unit on a cell has level 1 to 3. */
    lemma LevelsFacts()
      requires Valid() && Derived()
      ensures LevelsPositive(SceneOf()) && UnitLevelsOk(view.cells)
    {
      var s := SceneOf();
      SceneCaptures();
      CellsUnitLevels(view.cells, units, buildings, mineSpots, info);
      forall p | InGrid(p) ensures At(s.levelAlly, p) >= 1 {
        LevelFacts(view.cells, info, Ally, p);
      }
    }

    /** Both territory graphs of a derived state are undirected and on the board. */
    lemma TerritoryFacts()
      requires Valid() && Derived()
      ensures TerritoryOk(SceneOf(), true) && TerritoryOk(SceneOf(), false)
    {
      DerivedTerritoryOk(SceneOf(), info);
    }

    /** assign_objective_to_units: the auction of Planning.AssignObjectives on
        the current state; its order becomes units_in_order, the objectives
        are stored with the units and the targets marked in
        cells_used_objective. */
    method AssignObjectivesToUnits() returns (ghost s: Scene)
      requires Valid() && IndicesIn(view.unitsAlly, units)
      modifies this
      ensures Valid() && TurnKept() && (old(Derived()) ==> Derived())
      ensures units == old(units) && commands == old(commands) && funds == old(funds) && dfsTime == old(dfsTime)
      ensures view == old(view).(usedObjective := view.usedObjective)
      ensures s == old(SceneOf()) && SceneOk(s) && UnitsInGrid(units)
      ensures Auction(s, units, unitsInOrder, objectives, view.usedObjective)
      ensures SceneOf() == WithObjectives(s, view.usedObjective)
    {
      var here := SceneOf();
      s := here;
      var order, objs, marks := AssignObjectives(here, units);
      StoreObjectives(order, objs, marks);
    }

    /** Stores the auction's order, objectives and objective markers. */
    method StoreObjectives(order: seq<int>, objs: map<int, Objective>, marks: seq<seq<int>>)
      requires Valid() && IsGrid(marks)
      modifies this
      ensures Valid() && TurnKept() && (old(Derived()) ==> Derived())
      ensures units == old(units) && commands == old(commands) && funds == old(funds) && dfsTime == old(dfsTime)
      ensures unitsInOrder == order && objectives == objs && view == old(view).(usedObjective := marks)
    {
      unitsInOrder, objectives := order, objs;
      view := view.(usedObjective := marks);
      if old(Derived()) {
        MarksKeepDerived();
      }
    }

    /** Planning bookkeeping (the objectives, the order, the objective
        markers, the commands and the economy) leaves the derived state as
        it was. */
    twostate lemma MarksKeepDerived()
      requires old(Valid()) && old(Derived()) && Valid()
      requires units == old(units) && buildings == old(buildings) && mineSpots == old(mineSpots)
      requires view == old(view).(usedObjective := view.usedObjective)
      requires unchanged(info, levelAlly, levelEnemy, distances)
      ensures Derived()
    {
      DerivationIgnoresMarks(units, buildings, mineSpots, info, distances, levelAlly, levelEnemy, old(view), view.usedObjective);
    }

    /** move_units: every ally unit gets its objective, then, in the order
        the objectives were handed out, steps towards it when the step is
        allowed; each step is announced by a MOVE and refreshes the state.
        steps records, unit by unit, the state met and the step taken; s0
        is the state at the call and marks the objective markers the
        auction left, which the first unit meets. */
    method MoveUnits() returns (ghost steps: seq<Step>, ghost s0: Scene, ghost marks: seq<seq<int>>)
      requires Valid() && Derived()
      modifies this, info, levelAlly, levelEnemy
      ensures Valid() && Derived() && TurnKept()
      ensures s0 == old(SceneOf()) && SceneOk(s0) && UnitsInGrid(old(units))
      ensures Auction(s0, old(units), unitsInOrder, objectives, marks)
      ensures steps != [] ==> steps[0].s == WithObjectives(s0, marks)
      ensures OrderOk(unitsInOrder, objectives, |units|, old(view.unitsAlly))
      ensures |steps| == |unitsInOrder|
      ensures MovedSoFar(old(units), units, unitsInOrder, objectives, old(commands), commands, steps)
      ensures funds.goldAlly == old(funds.goldAlly)
    {
      BoardFacts();
      s0 := AssignObjectivesToUnits();
      marks := view.usedObjective;
      steps := MoveInOrder(WithObjectives(s0, marks), old(view.unitsAlly));
    }

    /** The loop of move_units: the units of unitsInOrder take their turns
        one after the other, the first on the scene here. */
    method MoveInOrder(ghost here: Scene, ghost ally: seq<int>) returns (ghost steps: seq<Step>)
      requires Valid() && Derived() && SceneOf() == here
      requires OrderOk(unitsInOrder, objectives, |units|, ally)
      modifies this, info, levelAlly, levelEnemy
      ensures Valid() && Derived() && TurnKept()
      ensures unitsInOrder == old(unitsInOrder) && objectives == old(objectives) && |steps| == |unitsInOrder|
      ensures steps != [] ==> steps[0].s == here
      ensures OrderOk(unitsInOrder, objectives, |units|, ally)
      ensures MovedSoFar(old(units), units, unitsInOrder, objectives, old(commands), commands, steps)
      ensures funds.goldAlly == old(funds.goldAlly)
    {
      ghost var units0, commands0, order0, objs0 := units, commands, unitsInOrder, objectives;
      steps := [];
      assert commands == commands0 + MoveCommands(units0, unitsInOrder, steps);
      for i := 0 to |unitsInOrder|
        invariant Valid() && Derived() && TurnKept()
        invariant unitsInOrder == order0 && objectives == objs0 && |steps| == i
        invariant steps == [] ==> SceneOf() == here
        invariant steps != [] ==> steps[0].s == here
        invariant MovedSoFar(units0, units, unitsInOrder, objectives, commands0, commands, steps)
        invariant funds.goldAlly == old(funds.goldAlly)
      {
        steps := TakeTurn(i, units0, commands0, steps, ally);
      }
    }

    /** The turn of unit unitsInOrder[i] in the loop of move_units. */
    method TakeTurn(i: int, ghost units0: seq<Unit>, ghost commands0: seq<Command>, ghost steps: seq<Step>,
                    ghost ally: seq<int>) returns (ghost steps': seq<Step>)
      requires Valid() && Derived() && 0 <= i < |unitsInOrder| && |steps| == i
      requires OrderOk(unitsInOrder, objectives, |units|, ally)
      requires MovedSoFar(units0, units, unitsInOrder, objectives, commands0, commands, steps)
      modifies this, info, levelAlly, levelEnemy
      ensures Valid() && Derived() && TurnKept()
      ensures unitsInOrder == old(unitsInOrder) && objectives == old(objectives) && |steps'| == i + 1
      ensures steps' == steps + [steps'[i]] && steps'[i].s == old(SceneOf())
      ensures MovedSoFar(units0, units, unitsInOrder, objectives, commands0, commands, steps')
      ensures funds.goldAlly == old(funds.goldAlly)
    {
      BoardFacts();
      ghost var before, cmdsBefore := units, commands;
      var moved, st := StepUnit(unitsInOrder[i], objectives[unitsInOrder[i]].target);
      MoveStep(units0, before, unitsInOrder, objectives, commands0, cmdsBefore, steps, st, units, commands);
      steps' := steps + [st];
    }

    /** The body of move_units for units[k]: get_path towards target and,
        when unit_can_move_to_destination allows it, a MOVE and the refresh.
        st records the state met, get_path's answer and the move taken. */
    method StepUnit(k: int, target: Pos) returns (moved: Option<Pos>, ghost st: Step)
      requires Valid() && BoardGraphOk(view.adjacency) && 0 <= k < |units| && InGrid(target)
      modifies this, info, levelAlly, levelEnemy
      ensures Valid() && TurnKept()
      ensures unitsInOrder == old(unitsInOrder) && objectives == old(objectives)
      ensures st.s == old(SceneOf()) && st.moved == moved && StepOk(st, old(units[k]), target)
      ensures moved.None? ==> unchanged(this, info, levelAlly, levelEnemy)
      ensures funds.goldAlly == old(funds.goldAlly)
      ensures moved.Some? ==> Rebuilt() && units == old(units)[k := old(units[k]).(p := moved.value)] &&
                              commands == old(commands) + [Move(old(units[k]).id, moved.value)]
    {
      var here := SceneOf();
      var next := GetPath(here, units[k].p, target);
      moved := None;
      if next.Some? && UnitCanMoveToDestination(here, units[k], next.value) {
        moved := next;
        commands := commands + [Move(units[k].id, next.value)];
        RefreshForMovement(k, next.value);
      }
      st := Step(here, next, moved);
    }

    // ------------------------------------------------------- training

    /** One round of the loop of train_units for the level: the training
        positions on the current state and, when there are any, a unit of
        the level on one of greatest value, refreshed in and announced by a
        TRAIN. */
    method TrainOne(level: int) returns (trained: bool, p: Pos, ghost s: Scene)
      requires Valid() && 1 <= level <= 3
      modifies this, info, levelAlly, levelEnemy
      ensures s == old(SceneOf()) && SceneOk(s) && Valid() && TurnKept()
      ensures !trained ==> unchanged(this, info, levelAlly, levelEnemy)
      ensures !trained ==> forall q | InGrid(q) :: !(SpawnSpot(s, level, q) && (level == 1 || level == 2))
      ensures trained ==> Rebuilt() && units == old(units) + [Unit(999, Ally, level, p)] &&
                          commands == old(commands) + [Train(level, p)] &&
                          funds.goldAlly == old(funds.goldAlly) - CostOfUnit(level)
      ensures trained ==> InGrid(p) && SpawnSpot(s, level, p) &&
                          forall q | InGrid(q) && SpawnSpot(s, level, q) :: !Greater(SpawnScore(s, level, q), SpawnScore(s, level, p))
    {
      var here := SceneOf();
      s := here;
      var m := FindTrainingPositions(here, level);
      if |m| == 0 {
        return false, Pos(0, 0), s;
      }
      p := FindMaxInMap(m);
      SpawnThere(level, p);
      trained := true;
    }

    /** The spawn of train_units: refresh_gamestate_for_spawn for a new
        unit of the level on p, then its TRAIN. train_units_on_cuts pushes
        the TRAIN first; the refresh leaves the commands alone, so the two
        orders end in the same state. */
    method SpawnThere(level: int, p: Pos)
      requires Valid() && 1 <= level <= 3 && InGrid(p)
      modifies this, info, levelAlly, levelEnemy
      ensures Valid() && TurnKept() && Rebuilt()
      ensures units == old(units) + [Unit(999, Ally, level, p)] && commands == old(commands) + [Train(level, p)]
      ensures funds.goldAlly == old(funds.goldAlly) - CostOfUnit(level) && dfsTime == old(dfsTime)
    {
      RefreshForSpawn(Unit(999, Ally, level, p), p);
      commands := commands + [Train(level, p)];
    }

    /** The while loop of train_units for one level: train while the
        level is still wanted and affordable and a position is left, each
        unit on a best training position of the state met. */
    method TrainLevel(level: int, ghost units0: seq<Unit>, ghost cmds0: seq<Command>, ghost gold0: int, ghost levels: set<int>)
      returns (ghost picks: seq<SpawnPick>)
      requires Valid() && Derived() && level in levels && 1 <= level <= 3
      requires Spawns(units0, units, cmds0, commands, gold0, funds.goldAlly, levels)
      modifies this, info, levelAlly, levelEnemy
      ensures Valid() && Derived() && TurnKept()
      ensures LevelRun(units0, cmds0, gold0, levels, old(units), units, commands, funds.goldAlly, picks, level)
      ensures picks != [] ==> picks[0].s == old(SceneOf())
      ensures CountOfLevel(units, view.unitsAlly, level) > Quota(level) ||
              !CanTrainLevel(funds.goldAlly, funds.incomeAlly, level) ||
              forall q | InGrid(q) :: !(SpawnSpot(SceneOf(), level, q) && (level == 1 || level == 2))
    {
      picks := [];
      PickedInitially(units);
      while true
        invariant Valid() && Derived() && TurnKept()
        invariant LevelRun(units0, cmds0, gold0, levels, old(units), units, commands, funds.goldAlly, picks, level)
        invariant if picks == [] then SceneOf() == old(SceneOf()) else picks[0].s == old(SceneOf())
        decreases funds.goldAlly
      {
        var done;
        done, picks := TrainRound(level, units0, cmds0, gold0, levels, old(units), picks);
        if done {
          return;
        }
      }
    }

    /** One round of the while loop of train_units for the level: stop
        when the level is no longer wanted or affordable or no position is
        left, and otherwise spawn on a best position, which costs gold. */
    method TrainRound(level: int, ghost units0: seq<Unit>, ghost cmds0: seq<Command>, ghost gold0: int, ghost levels: set<int>,
                      ghost start: seq<Unit>, ghost picks: seq<SpawnPick>) returns (done: bool, ghost picks': seq<SpawnPick>)
      requires Valid() && Derived() && level in levels && 1 <= level <= 3
      requires LevelRun(units0, cmds0, gold0, levels, start, units, commands, funds.goldAlly, picks, level)
      modifies this, info, levelAlly, levelEnemy
      ensures Valid() && Derived() && TurnKept()
      ensures LevelRun(units0, cmds0, gold0, levels, start, units, commands, funds.goldAlly, picks', level)
      ensures !done ==> funds.goldAlly < old(funds.goldAlly)
      ensures done ==> picks' == picks
      ensures !done ==> |picks'| == |picks| + 1 && picks'[..|picks|] == picks && picks'[|picks|].s == old(SceneOf())
      ensures done ==> CountOfLevel(units, view.unitsAlly, level) > Quota(level) ||
                       !CanTrainLevel(funds.goldAlly, funds.incomeAlly, level) ||
                       forall q | InGrid(q) :: !(SpawnSpot(SceneOf(), level, q) && (level == 1 || level == 2))
    {
      BoardFacts();
      var need := NeedTrainUnits(units, view.unitsAlly, level);
      if need && CanTrainLevel(funds.goldAlly, funds.incomeAlly, level) {
        var trained;
        trained, picks' := SpawnBest(level, units0, cmds0, gold0, levels, start, picks);
        done := !trained;
      } else {
        done, picks' := true, picks;
      }
    }

    /** The spawn of one round of train_units for an affordable level: a
        unit on a best training position of the current state, or nothing
        when no position is left. */
    method SpawnBest(level: int, ghost units0: seq<Unit>, ghost cmds0: seq<Command>, ghost gold0: int, ghost levels: set<int>,
                     ghost start: seq<Unit>, ghost picks: seq<SpawnPick>) returns (trained: bool, ghost picks': seq<SpawnPick>)
      requires Valid() && level in levels && 1 <= level <= 3
      requires LevelRun(units0, cmds0, gold0, levels, start, units, commands, funds.goldAlly, picks, level)
      requires CanTrainLevel(funds.goldAlly, funds.incomeAlly, level)
      modifies this, info, levelAlly, levelEnemy
      ensures Valid() && TurnKept()
      ensures trained ==> Rebuilt()
      ensures !trained ==> unchanged(this, info, levelAlly, levelEnemy) && picks' == picks
      ensures !trained ==> forall q | InGrid(q) :: !(SpawnSpot(old(SceneOf()), level, q) && (level == 1 || level == 2))
      ensures LevelRun(units0, cmds0, gold0, levels, start, units, commands, funds.goldAlly, picks', level)
      ensures trained ==> funds.goldAlly < old(funds.goldAlly)
      ensures trained ==> |picks'| == |picks| + 1 && picks'[..|picks|] == picks && picks'[|picks|].s == old(SceneOf())
    {
      ghost var unitsBefore, cmdsBefore, goldBefore, incomeBefore := units, commands, funds.goldAlly, funds.incomeAlly;
      var p;
      ghost var s;
      trained, p, s := TrainOne(level);
      picks' := picks;
      if trained {
        LevelRunStep(units0, cmds0, gold0, levels, start, unitsBefore, cmdsBefore, goldBefore, picks, level,
                     SpawnPick(s, level, p), incomeBefore);
        picks' := picks + [SpawnPick(s, level, p)];
      }
    }

    /** train_units: level two first, then level one. Every unit trained
        is a bot unit of level one or two, announced and paid for, on a
        best training position of the state met, the level-two units
        before the level-one units; and the level-one loop stopped for one
        of its reasons. */
    method TrainUnits() returns (ghost picks: seq<SpawnPick>)
      requires Valid() && Derived()
      modifies this, info, levelAlly, levelEnemy
      ensures Valid() && Derived() && TurnKept()
      ensures Spawns(old(units), units, old(commands), commands, old(funds.goldAlly), funds.goldAlly, {1, 2})
      ensures Picked(old(units), units, picks)
      ensures forall a, b | 0 <= a < b < |picks| :: picks[a].level >= picks[b].level
      ensures CountOfLevel(units, view.unitsAlly, 1) > Quota(1) ||
              !CanTrainLevel(funds.goldAlly, funds.incomeAlly, 1) ||
              forall q | InGrid(q) :: !SpawnSpot(SceneOf(), 1, q)
    {
      SpawnsInitially(units, commands, funds.goldAlly, {1, 2});
      ghost var units1 := units;
      var picks2 := TrainLevel(2, units, commands, funds.goldAlly, {1, 2});
      ghost var units2 := units;
      var picks1 := TrainLevel(1, old(units), old(commands), old(funds.goldAlly), {1, 2});
      assert Picked(units1, units2, picks2) && Picked(units2, units, picks1);
      PickedAppend(units1, units2, units, picks2, picks1);
      picks := picks2 + picks1;
    }

    /** train_units_on_cuts: the attainable articulation points of the
        enemy territory, each popped once, best cut gain first; each whose
        gain exceeds ten times the level its cell asks for at that moment,
        a level of at most three we can afford, gets a unit of that level. */
    method TrainUnitsOnCuts() returns (ghost s: Scene, ghost turns: seq<CutTurn>)
      requires Valid() && Derived()
      modifies this, info, levelAlly, levelEnemy
      ensures s == old(SceneOf()) && SceneOk(s) && TerritoryOk(s, true)
      ensures Valid() && Derived() && TurnKept() && dfsTime >= old(dfsTime)
      ensures forall p :: AttainableCut(s, true, p) <==> exists j | 0 <= j < |turns| :: turns[j].cut == p
      ensures forall j | 0 <= j < |turns| :: ScoredCut(s, true, turns[j].cut, turns[j].gain)
      ensures BestFirst(turns) && CutPasses(turns, old(funds.goldAlly)) && (turns != [] ==> turns[0].s == s)
      ensures CutResult(s, old(units), units, old(commands), commands, old(funds.goldAlly), funds.goldAlly, turns)
    {
      var cuts;
      cuts, s := QueueCuts();
      ghost var queued := cuts.elements;
      CutProgressInitially(s, units, commands, funds.goldAlly, queued);
      turns := TrainOnQueue(cuts, s, units, commands, funds.goldAlly, queued);
      CutProgressDone(s, old(units), units, old(commands), commands, old(funds.goldAlly), funds.goldAlly, turns, queued);
      CutsAllTaken(s, turns, queued);
    }

    /** The queue of train_units_on_cuts: the attainable articulation
        points of the enemy territory on the current state with their
        gains; only the DFS clock moves. */
    method QueueCuts() returns (cuts: MaxPriorityQueue<Pos>, here: Scene)
      requires Valid() && Derived()
      modifies this
      ensures here == old(SceneOf()) && SceneOk(here) && TerritoryOk(here, true)
      ensures Valid() && Derived() && TurnKept() && dfsTime >= old(dfsTime) && SceneOf() == here
      ensures units == old(units) && commands == old(commands) && funds == old(funds)
      ensures fresh(cuts)
      ensures forall p :: (exists e | e in cuts.elements :: e.1 == p) <==> AttainableCut(here, true, p)
      ensures forall e | e in cuts.elements :: ScoredCut(here, true, e.1, e.0)
    {
      TerritoryFacts();
      here := SceneOf();
      var time;
      cuts, time := FindCuts(here, true, dfsTime);
      dfsTime := time;
    }

    /** The loop of train_units_on_cuts: pop the best cut until the queue is empty. */
    method TrainOnQueue(cuts: MaxPriorityQueue<Pos>, ghost here: Scene, ghost units0: seq<Unit>, ghost cmds0: seq<Command>,
                        ghost gold0: int, ghost queued: seq<(int, Pos)>) returns (ghost turns: seq<CutTurn>)
      requires Valid() && Derived() && SceneOk(here) && TerritoryOk(here, true)
      requires SceneOf() == here
      requires CutProgress(here, units0, units, cmds0, commands, gold0, funds.goldAlly, [], queued, cuts.elements)
      modifies this, info, levelAlly, levelEnemy, cuts
      ensures Valid() && Derived() && TurnKept() && dfsTime == old(dfsTime)
      ensures CutProgress(here, units0, units, cmds0, commands, gold0, funds.goldAlly, turns, queued, [])
      ensures turns != [] ==> turns[0].s == here
    {
      turns := [];
      while !cuts.Empty()
        invariant Valid() && Derived() && TurnKept() && dfsTime == old(dfsTime)
        invariant CutProgress(here, units0, units, cmds0, commands, gold0, funds.goldAlly, turns, queued, cuts.elements)
        invariant if turns == [] then SceneOf() == here else turns[0].s == here
        decreases |cuts.elements|
      {
        turns := TakeCut(cuts, here, units0, cmds0, gold0, queued, turns);
      }
    }

    /** One pass of the loop of train_units_on_cuts: pop the best cut and train on it or not. */
    method TakeCut(cuts: MaxPriorityQueue<Pos>, ghost here: Scene, ghost units0: seq<Unit>, ghost cmds0: seq<Command>,
                   ghost gold0: int, ghost queued: seq<(int, Pos)>, ghost turns: seq<CutTurn>) returns (ghost turns': seq<CutTurn>)
      requires Valid() && Derived() && SceneOk(here) && TerritoryOk(here, true) && cuts.elements != []
      requires CutProgress(here, units0, units, cmds0, commands, gold0, funds.goldAlly, turns, queued, cuts.elements)
      modifies this, info, levelAlly, levelEnemy, cuts
      ensures Valid() && Derived() && TurnKept() && dfsTime == old(dfsTime)
      ensures |cuts.elements| < |old(cuts.elements)|
      ensures CutProgress(here, units0, units, cmds0, commands, gold0, funds.goldAlly, turns', queued, cuts.elements)
      ensures |turns'| == |turns| + 1 && turns'[..|turns|] == turns && turns'[|turns|].s == old(SceneOf())
    {
      ghost var rest, unitsBefore, cmdsBefore, goldBefore := cuts.elements, units, commands, funds.goldAlly;
      var gain, cut := cuts.Pop();
      RemovalShrinks(cuts.elements, rest, (gain, cut));
      var t := TrainOnCut(gain, cut);
      CutProgressStep(here, units0, unitsBefore, cmds0, cmdsBefore, gold0, goldBefore, turns, queued, rest,
                      cuts.elements, t, units, commands, funds.goldAlly);
      turns' := turns + [t];
    }

    /** The body of the loop of train_units_on_cuts for the cut with its
        gain: train on the cut exactly when CutTurnOk says so, on the
        state met, and change nothing otherwise. */
    method TrainOnCut(gain: int, cut: Pos) returns (ghost t: CutTurn)
      requires Valid() && Derived() && InGrid(cut)
      modifies this, info, levelAlly, levelEnemy
      ensures Valid() && Derived() && TurnKept() && dfsTime == old(dfsTime)
      ensures t.s == old(SceneOf()) && t.gain == gain && t.cut == cut && t.gold == old(funds.goldAlly) &&
              t.income == old(funds.incomeAlly) && CutTurnOk(t)
      ensures t.trained ==> units == old(units) + [Unit(999, Ally, CutLevel(t), cut)] &&
                            commands == old(commands) + [Train(CutLevel(t), cut)] &&
                            funds.goldAlly == old(funds.goldAlly) - CostOfUnit(CutLevel(t))
      ensures !t.trained ==> units == old(units) && commands == old(commands) && funds == old(funds)
    {
      var here := SceneOf();
      var level := levelAlly[cut.y, cut.x];
      assert level == At(here.levelAlly, cut);
      var trained := gain - 10 * level > 0 && level <= 3 && CanTrainLevel(funds.goldAlly, funds.incomeAlly, level);
      t := CutTurn(here, gain, cut, funds.goldAlly, funds.incomeAlly, trained);
      if trained {
        SpawnThere(level, cut);
      }
    }

    // ------------------------------------------------- chain kill, buildings

    /** attempt_chainkill on the current state: its TRAIN commands are
        appended; nothing is paid and nothing refreshed. */
    method AttemptChainkill() returns (ghost s: Scene, cmds: seq<Command>, ghost costs: map<Pos, int>,
                                       ghost start: Pos, ghost price: Option<int>)
      requires Valid() && Derived()
      modifies this
      ensures s == old(SceneOf()) && SceneOk(s) && ChainkillPlan(s, old(funds.goldAlly), cmds, costs, start, price)
      ensures commands == old(commands) + cmds
      ensures Valid() && Derived() && TurnKept() && units == old(units) && view == old(view) &&
              funds == old(funds) && dfsTime == old(dfsTime)
    {
      s, cmds, costs, start, price := PlanChainkill();
      PushCommands(cmds, funds.goldAlly);
    }

    /** The planning of attempt_chainkill on the current state. */
    method PlanChainkill() returns (s: Scene, cmds: seq<Command>, costs: map<Pos, int>, start: Pos, price: Option<int>)
      requires Valid() && Derived()
      ensures s == SceneOf() && SceneOk(s) && ChainkillPlan(s, funds.goldAlly, cmds, costs, start, price)
    {
      LevelsFacts();
      BoardFacts();
      s := SceneOf();
      cmds, costs, start, price := Cuts.AttemptChainkill(s, funds.goldAlly);
    }

    /** build_mines on the current state: its BUILD MINE commands are
        appended and the gold it spends is paid. */
    method BuildMines() returns (ghost s: Scene, cmds: seq<Command>)
      requires Valid() && Derived()
      modifies this
      ensures s == old(SceneOf()) && SceneOk(s)
      ensures commands == old(commands) + cmds &&
              funds == old(funds).(goldAlly := old(funds.goldAlly) - PriceOfMines(MineCount(view.buildingsAlly), |cmds|))
      ensures MineCount(view.buildingsAlly) >= 2 ==> cmds == []
      ensures forall i | 0 <= i < |cmds| ::
                cmds[i].Build? && cmds[i].kind == MineBuilding && InGrid(cmds[i].p) && MineSite(s, cmds[i].p)
      ensures forall i, j | 0 <= i < j < |cmds| :: cmds[i].p != cmds[j].p
      ensures forall i, j | 0 <= i < j < |cmds| :: Dist(s, s.hqAlly, cmds[i].p) <= Dist(s, s.hqAlly, cmds[j].p)
      ensures forall i, p | 0 <= i < |cmds| && InGrid(p) && MineSite(s, p) && p !in CommandCells(cmds) ::
                Dist(s, s.hqAlly, cmds[i].p) <= Dist(s, s.hqAlly, p)
      ensures cmds != [] ==> funds.goldAlly >= 0
      ensures MineCount(view.buildingsAlly) < 2 && funds.goldAlly >= MinePrice(MineCount(view.buildingsAlly) + |cmds|) ==>
                forall p | InGrid(p) && MineSite(s, p) :: p in CommandCells(cmds)
      ensures Valid() && Derived() && TurnKept() && units == old(units) && view == old(view) && dfsTime == old(dfsTime)
    {
      var here := SceneOf();
      s := here;
      var built, goldLeft := Training.BuildMines(here, view.buildingsAlly, funds.goldAlly);
      cmds := built;
      PushCommands(cmds, goldLeft);
    }

    /** build_towers on the current state: its BUILD TOWER command, if
        any, is appended; no gold is paid. */
    method BuildTowers() returns (ghost s: Scene, cmds: seq<Command>)
      requires Valid() && Derived()
      modifies this
      ensures s == old(SceneOf()) && SceneOk(s) && UnitsInGrid(units) && IndicesIn(s.view.unitsEnemy, units)
      ensures cmds == if EnemyNearHQ(s, units) then [Build(TowerBuilding, TowerSpot(hqAlly.p))] else []
      ensures commands == old(commands) + cmds
      ensures Valid() && Derived() && TurnKept() && units == old(units) && view == old(view) &&
              funds == old(funds) && dfsTime == old(dfsTime)
    {
      BoardFacts();
      var here := SceneOf();
      s := here;
      cmds := Training.BuildTowers(here, units);
      PushCommands(cmds, funds.goldAlly);
    }

    /** Appends planned commands and sets the gold left after them. */
    method PushCommands(cmds: seq<Command>, goldLeft: int)
      requires Valid() && Derived()
      modifies this
      ensures commands == old(commands) + cmds && funds == old(funds).(goldAlly := goldLeft)
      ensures Valid() && Derived() && TurnKept() && units == old(units) && view == old(view) &&
              dfsTime == old(dfsTime) && unitsInOrder == old(unitsInOrder) && objectives == old(objectives)
    {
      commands := commands + cmds;
      funds := funds.(goldAlly := goldLeft);
    }

    // ---------------------------------------------------------- the turn

    /** The planning of one turn of the main loop, after update_game:
        update_gamestate, move_units, attempt_chainkill,
        train_units_on_cuts, train_units and build_towers. Training never
        leaves the gold negative. */
    method PlanTurn()
      requires Valid()
      modifies this, info, levelAlly, levelEnemy
      ensures Valid() && Derived() && TurnKept()
      ensures old(funds.goldAlly) >= 0 ==> funds.goldAlly >= 0
    {
      PlanMoves();
      PlanTraining();
    }

    /** The first half of the turn: update_gamestate, move_units and
        attempt_chainkill; none of them pays gold. */
    method PlanMoves()
      requires Valid()
      modifies this, info, levelAlly, levelEnemy
      ensures Valid() && Derived() && TurnKept() && funds.goldAlly == old(funds.goldAlly)
    {
      UpdateGamestate();
      ghost var steps, s0, marks := MoveUnits();
      ghost var s, cmds, costs, start, price := AttemptChainkill();
    }

    /** The second half of the turn: train_units_on_cuts, train_units and
        build_towers. */
    method PlanTraining()
      requires Valid() && Derived()
      modifies this, info, levelAlly, levelEnemy
      ensures Valid() && Derived() && TurnKept()
      ensures old(funds.goldAlly) >= 0 ==> funds.goldAlly >= 0
    {
      ghost var units1, commands1, gold1 := units, commands, funds.goldAlly;
      ghost var s, turns := TrainUnitsOnCuts();
      ghost var units2, commands2, gold2 := units, commands, funds.goldAlly;
      ghost var picks := TrainUnits();
      GoldStaysPaid(units1, units2, commands1, commands2, gold1, gold2, {1, 2, 3});
      GoldStaysPaid(units2, units, commands2, commands, gold2, funds.goldAlly, {1, 2});
      ghost var cmds;
      s, cmds := BuildTowers();
    }

    /** The turn's input and the bot's own HQ records stay as they are. */
    twostate predicate TurnKept()
      reads this
    {
      turn == old(turn) && buildings == old(buildings) && mineSpots == old(mineSpots) &&
      center == old(center) && hqAlly == old(hqAlly) && hqEnemy == old(hqEnemy)
    }
  }
}
