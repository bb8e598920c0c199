# CodeIceFire bot: a verified model of the `Game` planner

The bot plays a two-player territory game on a fixed 12×12 board. Each turn
it reads the board: its own cells `O`, the opponent's `X`, neutral `.` and
void `#`. It also reads both players' gold and income, the buildings (HQ,
mines, towers) and the units of levels 1 to 3. It then plans a list of
MOVE, TRAIN and BUILD commands. This project models the bot's `Game` class
in Dafny, with the verified parts being:

- the grid primitives: `Position` clamped neighbours, Manhattan distance,
  `HashPosition` and the `Cell` occupancy predicates, plus the unit cost,
  upkeep and affordability tables (modules `Grid`, `Cells`, `Economy`);
- the two priority queues: a bag of (priority, item) pairs whose `Pop`
  returns *some* least (or greatest) pair, in an unspecified tie order
  (`PriorityQueues`);
- `floyd_warshall` over a 144×144 `array2` (`Distances`);
- `update_gamestate`, as one method per loop (`Board`, `Rebuild`). It
  rebuilds the cells, the per-side unit and building lists, the two
  access-level arrays with their tower zones, the full and per-territory
  adjacency maps and the `score_enemy` heat map, and resets both marker
  grids;
- the searches (`Search`, `Territory`, `Articulation`): lazy-deletion
  Dijkstra with `reconstruct_path`, the two chain-kill Dijkstras, the BFS
  of `find_graph_from_source`, and Tarjan's articulation-point search. The
  `static int time` of Tarjan's search is threaded through the calls as a
  discovery counter;
- the read-only planning members (`Planning`, `Cuts`, `Training`). `get_score`,
  `find_target`, the greedy `assign_objective_to_units` auction and `get_path`
  read a value snapshot (`Scene`) of the game. So do `score_graph`,
  `find_cuts`, `attempt_chainkill`, `find_training_positions`, `build_mines`
  and `build_towers`;
- the `Game` object itself (`GameState.Game`). Its fields are updated in
  place, and its methods commit the moves and spawns through
  `refresh_gamestate_*`. They run `move_units`, `train_units`,
  `train_units_on_cuts`, `attempt_chainkill`, `build_mines`, `build_towers`
  and one turn of the main loop.

The model stands in for C++ constructs as follows:

- **Sentinels.** Scores are whole numbers, and `-DBL_MAX` is `Score.MinusInf`.
  `INT_MAX` is `Distances.Infinity`. The `DBL_MAX` of `attempt_chainkill` is
  `Option.None`.
- **Units.** They are held by index into one `units` sequence. `units_ally`,
  `units_enemy` and `units_in_order` are index lists, and `Unit::objective`
  is kept in the map `objectives`.
- **Unordered containers.** An `unordered_map` or a address-ordered `set` is
  iterated in an unspecified order. The model picks elements
  nondeterministically (`:|`) and states only order-independent facts.

## Model

| member | source | states |
|---|---|---|
| Grid.Manhattan | Bot.cpp:157 | the distance is zero exactly for equal positions |
| Grid.ManhattanSymmetric | Bot.cpp:157 | the distance is symmetric |
| Grid.ManhattanTriangle | Bot.cpp:157 | the distance obeys the triangle inequality |
| Grid.North | Bot.cpp:158 | stays on the board; is the position itself exactly on the top row, and otherwise the cell one row up |
| Grid.South | Bot.cpp:159 | stays on the board; is the position itself exactly on the bottom row, and otherwise the cell one row down |
| Grid.East | Bot.cpp:160 | stays on the board; is the position itself exactly on the last column, and otherwise the cell one column right |
| Grid.West | Bot.cpp:161 | stays on the board; is the position itself exactly on the first column, and otherwise the cell one column left |
| Grid.NeighboursAreAdjacent | Bot.cpp:158-161 | a clamped neighbour other than the cell itself is exactly an on-board cell at Manhattan distance 1 |
| Grid.NeighbourSymmetric | Bot.cpp:158-161 | being a proper clamped neighbour is symmetric |
| Grid.HashIsCantor | Bot.cpp:167-174 | on non-negative coordinates HashPosition is the Cantor pairing Tri(x + y) + y |
| Grid.HashInjective | Bot.cpp:167-174 | two distinct positions with non-negative coordinates never share a hash |
| Grid.IndexRoundTrip | Bot.cpp:471 | the get_distance index x + height·y of a board cell is a table row, and floyd_warshall's decoding (i % width, i / width) gives the cell back |
| Grid.PosOfRoundTrip | Bot.cpp:1573-1574 | every table row decodes to a board cell whose get_distance index is that row |
| Wrappers.GreaterIsStrictTotalOrder | Bot.cpp:1203 | the score comparison, with -DBL_MAX below every finite score, is irreflexive, asymmetric, transitive and total |
| Cells.OccupancyFacts | Bot.cpp:272-286 | empty is not occupied; occupied is unit or building; inaccessible is an own HQ or mine; every building is a mine, HQ or tower; an enemy building is an enemy HQ, mine or tower |
| Cells.LevelOfUnitOfFacts | Bot.cpp:290-291 | a unit level is reported (at least 1) exactly when a unit of that owner is present, and -1 otherwise |
| Economy.CostOfUnit | Bot.cpp:369-386 | 10·level for levels 1 to 3, 999 otherwise |
| Economy.UpkeepOfUnit | Bot.cpp:387-404 | 1, 4 and 20 for levels 1, 2 and 3; 999 for any other level |
| Economy.CanTrainLevel | Bot.cpp:348-368 | true exactly for a level 1 to 3 whose cost the gold covers and whose upkeep the income covers |
| Economy.TrainingIsAffordable | Bot.cpp:461-466 | paying for a trainable unit never makes gold or income negative, and costs at least 10 |
| PriorityQueues.MinPriorityQueue.Put | Bot.cpp:100-103 | the pair joins the bag |
| PriorityQueues.MinPriorityQueue.Pop | Bot.cpp:105-110 | returns a pair of the bag whose priority is least, and removes exactly that one pair |
| PriorityQueues.MaxPriorityQueue.Put | Bot.cpp:130-133 | the pair joins the bag |
| PriorityQueues.MaxPriorityQueue.Pop | Bot.cpp:135-140 | returns a pair of the bag whose priority is greatest, and removes exactly that one pair |
| Distances.InitialDistance | Bot.cpp:1576-1582 | 1 exactly for four-adjacent non-void cells, 0 exactly on the diagonal, INT_MAX exactly otherwise |
| Distances.InitTable | Bot.cpp:1570-1583 | every entry of the table holds its initial distance |
| Distances.InitialFacts | Bot.cpp:1570-1583 | the initial table already satisfies every fact the relaxation keeps |
| Distances.Relax | Bot.cpp:1588-1589 | d[i][j] and d[j][i] become d[i][k] + d[k][j] when both are finite and the sum is smaller than d[i][j], and stay d[i][j] otherwise; no other entry changes and the table facts hold |
| Distances.RelaxedValue | Bot.cpp:1588 | a shorter value through k found by the test is itself an admissible entry for (i, j) and (j, i) |
| Distances.RelaxRow | Bot.cpp:1587-1589 | after the j <= i loop of row i, each d[i][j] and d[j][i] with j <= i is the relaxed value through k of the old entries; every other entry is unchanged, and the table facts hold |
| Distances.FloydWarshall | Bot.cpp:1564-1600 | the finished table satisfies the table facts |
| Distances.TableFactsMean | Bot.cpp:1570-1589 | a table with those facts is symmetric, has a zero diagonal, is 1 on four-adjacent non-void pairs, is INT_MAX from a void cell to any other cell, and no finite entry is below the Manhattan distance |
| Board.Zeros | Bot.cpp:628-629 | a marker grid of the board's shape with nothing marked |
| Board.LastUnitAt | Bot.cpp:642-650 | the unit a cell points at is the last listed unit on that cell (no later listed unit stands there), and none when no listed unit stands there |
| Board.LastBuildingAt | Bot.cpp:656-664 | the building a cell points at is the last listed building on that cell (no later listed building stands there), and none when no listed building stands there |
| Board.LevelFacts | Bot.cpp:677-759 | every access level is 1, 2, 3 or 9; a tower zone gives 3; an opposing unit of level L gives min(3, L+1); an own HQ, mine, tower, unit or a void cell gives 9; an empty non-void cell gives 1 |
| Board.TowerZoneFromTower | Bot.cpp:700-717 | an opposing tower protects its own cell and each four-adjacent cell of its owner's territory |
| Board.FullNeighboursFacts | Bot.cpp:762-785 | adjacency_list[p] holds exactly the on-board cells at Manhattan distance 1 that are neither void nor an own HQ or mine; at most 4 of them, without repeats |
| Board.TerritoryNeighboursFacts | Bot.cpp:799-845 | a territory list holds exactly the four-adjacent cells of the same character, without repeats |
| Board.TerritorySymmetric | Bot.cpp:799-845 | between two cells of the same character the territory relation is symmetric |
| Board.PositionsUpToFacts | Bot.cpp:788-797 | a prefix of the column-major scan lists exactly the scanned cells of the character, in scan order |
| Board.PositionsFacts | Bot.cpp:788-797 | positions_enemy / positions_ally list exactly the cells of the character, without repeats |
| Board.PressureFacts | Bot.cpp:847-854 | the heat map is never negative, and is 0 where no listed unit is within Manhattan distance 3 |
| Rebuild.FreshCells | Bot.cpp:631-636 | every cell is empty and records its own position |
| Rebuild.UnitIndicesFacts | Bot.cpp:639-647 | units_ally / units_enemy hold exactly the indices of the owned / not owned units, increasing |
| Rebuild.BuildingsOf | Bot.cpp:653-661 | buildings_ally / buildings_enemy hold exactly the owned / not owned buildings |
| Rebuild.PlaceUnits | Bot.cpp:639-650 | each cell gains the last unit listed on it, and the two index lists come out split by owner |
| Rebuild.PlaceBuildings | Bot.cpp:653-664 | each cell gains the last building listed on it, and the two lists come out split by owner |
| Rebuild.MarkMines | Bot.cpp:667-668 | exactly the mine spots are flagged as mines |
| Rebuild.MarkVoids | Bot.cpp:671-674 | exactly the '#' cells are flagged void |
| Rebuild.RebuildCells | Bot.cpp:631-674 | the cells are as the units, buildings, mine spots and map describe, and the per-side lists are split by owner |
| Rebuild.BaseLevels | Bot.cpp:677-698 | the first level pass leaves every cell at its base level for the side (the ally pass; the enemy pass at Bot.cpp:719-740 is the same method with the sides swapped) |
| Rebuild.ProtectNeighbour | Bot.cpp:706-716 | a neighbour of the opposing territory's character is set to 3, and nothing else changes |
| Rebuild.ProtectAround | Bot.cpp:702-717 | the tower's cell and its clamped neighbours of the character are set to 3, and nothing else changes |
| Rebuild.TowerCell | Bot.cpp:702-717 | handling one cell of the tower pass moves the pass invariant on by one cell |
| Rebuild.TowerRow | Bot.cpp:700-717 | handling one row of the tower pass moves the pass invariant on by one row |
| Rebuild.TowerLevels | Bot.cpp:700-717 | after the tower pass every cell holds its final access level (the ally pass; the enemy pass at Bot.cpp:742-759 is the same method) |
| Rebuild.ComputeLevels | Bot.cpp:677-717 | both passes leave the level array equal to Level at every cell |
| Rebuild.FullAdjacency | Bot.cpp:761-785 | adjacency_list has one entry per board cell, each holding the cell's accessible neighbours in N, S, E, W order |
| Rebuild.AdjacencyRow | Bot.cpp:763-785 | one more row of cells gets its adjacency entry, and the earlier entries stay |
| Rebuild.CollectPositions | Bot.cpp:787-797 | the two lists are exactly Positions for 'X' and 'O' |
| Rebuild.TerritoryAdjacency | Bot.cpp:799-845 | one entry per listed cell, holding its clamped neighbours of the same character |
| Rebuild.Territory | Bot.cpp:787-845 | both territory position lists and both territory adjacency maps are as the map describes |
| Rebuild.EnemyHeat | Bot.cpp:847-854 | every cell holds the sum of the levels of the enemy units within table distance 3 |
| Rebuild.Derive | Bot.cpp:623-855 | update_gamestate: cells, lists, both level arrays, all adjacency maps and the heat map are derived from the input, and both marker grids are all zero |
| Cuts.TerritoryAdjacencyUndirected | Bot.cpp:799-845 | a territory adjacency map is an undirected graph on the board without self-loops |
| Cuts.FullAdjacencyOk | Bot.cpp:761-785 | the full adjacency map has an entry for every board cell and lists only board cells |
| Search.ReconstructPath | Bot.cpp:1117-1129 | following came_from from a reached target gives a walk from the source to the target, no heavier than the target's recorded cost |
| Search.RouterOptimal | Bot.cpp:1093-1094 | when the target is popped with the least priority, no walk from the source to it is lighter than its recorded cost |
| Search.RouterExhausted | Bot.cpp:1080-1115 | an exhausted frontier means no walk from the source reaches the target |
| Search.Dijkstra | Bot.cpp:1069-1116 | a found path is a walk from the source to the target of least total step weight; none means the target is unreachable |
| Search.ChainKillSearch | Bot.cpp:1505-1526 | the source costs 10, every reached cell costs at least 10, came_from forms parent chains, and every reached cell is relaxed |
| Search.ChainDone | Bot.cpp:1511-1526 | once the frontier is empty, every reached cell is relaxed |
| Search.ChainKillAllCosts | Bot.cpp:1503-1529 | every cell reached costs 10 plus the weight of some walk to it into non-'O' cells, and every such walk ends at a reached cell no cheaper than 10 plus its weight |
| Search.ChainKillPath | Bot.cpp:1530-1560 | a found path is a lightest walk into non-'O' cells from the source to the target; none means no such walk exists |
| Territory.FindGraphFromSource | Bot.cpp:1317-1351 | empty exactly when the HQ is reachable without entering forbidden; otherwise the reachable cells, source first, without repeats |
| Territory.FloodClosed | Bot.cpp:1331-1348 | an exhausted flood has listed every reachable cell and never met the HQ |
| Articulation.ArticulationPointInner | Bot.cpp:1410-1450 | the call's post-state: u's subtree is seen and stamped, its lows are correct, and ap[u] holds exactly when u is a cut vertex |
| Articulation.RootSplit | Bot.cpp:1433-1435 | root rule: a root with a second child that is still unseen after the first child's call is a cut vertex |
| Articulation.ChildSeparates | Bot.cpp:1437-1439 | non-root rule: a child with low[child] >= disc[u] separates u's graph, so u is a cut vertex |
| Articulation.RootNotCut | Bot.cpp:1433-1435 | a root left unflagged after its scan is not a cut vertex |
| Articulation.NonRootNotCut | Bot.cpp:1437-1448 | a non-root left unflagged after its scan is not a cut vertex |
| Articulation.InitialState | Bot.cpp:1392-1397 | every position starts unseen, unflagged and with parent (-1, -1) |
| Articulation.SearchAll | Bot.cpp:1399-1401 | a search from every still-unseen position leaves every position seen and flagged exactly when it is a cut vertex |
| Articulation.Flagged | Bot.cpp:1403-1406 | the collected points are exactly the flagged keys, without repeats |
| Articulation.GetArticulationPoints | Bot.cpp:1381-1409 | exactly the cut vertices of the territory graph, over every component, without repeats |
| Cuts.ScoreGraph | Bot.cpp:1290-1316 | the loop computes the piece's score: per cell 10 per unit level, else 4 for a mine, 15 for a tower, 100 for an HQ, plus 20 near the scored HQ, plus 1 |
| Cuts.GraphScoreBounds | Bot.cpp:1294-1315 | a piece scores between its length and 121 times its length, and zero exactly when it is empty |
| Cuts.CutGain | Bot.cpp:1266-1276 | the gain is the sum of the scores of the pieces that the flood from each neighbour of ap returns |
| Cuts.PiecesScoreMeans | Bot.cpp:1264-1278 | a cut's gain is never negative, is zero exactly when every neighbour still reaches the HQ, and is at least each piece's length |
| Cuts.IsNearFacing | Bot.cpp:1359-1376 | true exactly when some cell of the other side's territory is within table distance 1 |
| Cuts.AttainableArticulationPoints | Bot.cpp:1352-1380 | exactly the cut vertices of the territory that are within distance 1 of the other side's territory, without repeats |
| Cuts.FindCuts | Bot.cpp:1253-1289 | the queue holds exactly the attainable articulation points, each with its cut gain |
| Cuts.ChainKillStart | Bot.cpp:1470-1479 | none, with start (0, 0), exactly when no priced cell is attainable; otherwise an attainable priced cell of least price |
| Cuts.ChainWeightPositive | Bot.cpp:1518 | when every cell asks for a level of at least 1, every step of a chain kill weighs at least 10 |
| Cuts.TrainAlongMeans | Bot.cpp:1499-1500 | one TRAIN per cell of the path, in order, at the level that cell asks for |
| Cuts.TrainOnPath | Bot.cpp:1499-1500 | the loop gives the TRAIN commands along the path |
| Cuts.AttemptChainkill | Bot.cpp:1454-1502 | price every cell by walks from the enemy HQ; pick the cheapest attainable start; issue commands exactly when that price fits the gold and the enemy HQ is reachable; the commands train along a cheapest walk from the start to the enemy HQ |
| Planning.GetScore | Bot.cpp:1154-1183 | a finite score exactly for a candidate cell: opened by the unit's level, not marked as objective or movement, not ours |
| Planning.ScoreUnderMoreMarks | Bot.cpp:1156 | with more objective cells marked, a finite score is unchanged and no score rises |
| Planning.FindTarget | Bot.cpp:1133-1153 | no cell scores above the result; a finite result is the first best cell of the x-major scan; -inf points at the enemy HQ |
| Planning.BestBid | Bot.cpp:1196-1208 | the winner is a waiting unit, no waiting unit can bid above the best bid, and a finite best bid is find_target's objective for the winner: its score for the target, strictly above every cell earlier in the scan |
| Planning.AwardKeeps | Bot.cpp:1214-1221 | marking the winner's target and placing the winner keeps the auction invariant |
| Planning.AssignObjectives | Bot.cpp:1184-1223 | the outcome is an Auction: the order holds distinct ally units with pairwise distinct candidate targets, scored as get_score says, in non-increasing score; the winner of each round took find_target's objective on that round's markers and bid at least as high as every ally unit not yet placed; the markers are exactly the targets; every dropped unit has no candidate left |
| Planning.OutbidsGrows | Bot.cpp:1196-1219 | a finite best bid extends the greedy rule: its winner outbids every unit not yet placed, waiting or dropped |
| Planning.WinnersGrow | Bot.cpp:1201-1219 | a finite best bid extends the record of winners holding find_target's objective on their round's markers |
| Planning.RoundScenesKept | Bot.cpp:1214-1218 | placing a winner leaves the earlier rounds' markers alone, and the current round's markers are the grid the loop holds |
| Planning.AwardRound | Bot.cpp:1214-1221 | a round with a finite best bid keeps the whole loop state of the auction |
| Planning.AuctionDone | Bot.cpp:1194-1222 | once no unit waits, the loop state is the auction outcome |
| Planning.ComputeNextStepScore | Bot.cpp:1052-1068 | a step weighs between 1 and 2001, and exactly 1 into a non-void cell no unit moves to |
| Planning.StepWeightPositive | Bot.cpp:1052-1068 | the router's step weights are all positive |
| Planning.GetPath | Bot.cpp:1040-1051 | the target itself when the unit stands on it or at table distance 1; otherwise the second cell of a lightest walk to it, or none when no walk reaches it |
| Planning.MoveIsOneStep | Bot.cpp:1031-1039 | an allowed move stays put or is one step between non-void cells, onto a cell the unit's level opens and no ally unit holds |
| Training.AttainableMeans | Bot.cpp:434-452 | a cell is attainable exactly when it or a four-adjacent cell is ours |
| Training.GetTrainingScore | Bot.cpp:917-943 | a finite score exactly when the level opens the cell and neither marker is set |
| Training.TrainingPrefersNewGround | Bot.cpp:934-939 | of two open cells equally far from both HQs and alike in enemy units and buildings, one not yet ours scores above one of ours, and an enemy cell scores exactly 10 above a neutral one |
| Training.HasOwnedNeighbour | Bot.cpp:960-967 | the inner scan finds a cell of ours at table distance 1 exactly when one exists |
| Training.NextToOwnedMeans | Bot.cpp:960-967 | with the floyd_warshall table, that means a non-void cell with a four-adjacent cell of ours |
| Training.AvailablePositions | Bot.cpp:948-971 | exactly the cells the level opens, unmarked for movement, next to ours, and for level 2 or more holding an enemy unit one level lower |
| Training.FindTrainingPositions | Bot.cpp:944-987 | those cells for levels 1 and 2 (nothing for level 3), valued by the training score (level 1) or the enemy heat (level 2) |
| Training.FindMaxInMap | Bot.cpp:175 | an entry that no other entry exceeds |
| Training.NbrUnitsAllyOfLevel | Bot.cpp:405-413 | the count of listed units of the level |
| Training.CountsAddUp | Bot.cpp:405-413 | with levels 1 to 3 the three counts add up to the number of units |
| Training.NbrMinesAlly | Bot.cpp:414-421 | the count of our mines among the buildings |
| Training.MineCountMeans | Bot.cpp:414-421 | no more mines than buildings, and none exactly when no building is a mine of ours |
| Training.NeedTrainUnits | Bot.cpp:988 | true exactly when at most 8 (level 1) or 4 (other levels) units of the level exist |
| Training.MineSites | Bot.cpp:875-879 | exactly our unbuilt mine spots, each valued by minus its table distance to our HQ |
| Training.BuyStep | Bot.cpp:881-895 | buying the best waiting site keeps the purchase invariant |
| Training.BuyMines | Bot.cpp:881-896 | distinct sites bought best first, and no site left unbought values more than any site bought; each paid at 20 + 4·(mines so far); gold stays non-negative after any purchase; with gold left for the next mine every site is bought |
| Training.BuildMines | Bot.cpp:866-897 | nothing with two mines or more; otherwise distinct mine sites in order of distance to our HQ, none farther than any mine site left unbought, paid as above, with every site bought when gold remains for the next one |
| Training.TowerSpot | Bot.cpp:900-905 | (1, 1) for an HQ at (0, 0) and (10, 10) for an HQ at (11, 11) |
| Training.TowerSpotBesideHQ | Bot.cpp:900-905 | for an HQ in either start corner the tower goes diagonally next to it |
| Training.BuildTowers | Bot.cpp:898-913 | one BUILD TOWER exactly when an enemy unit is within table distance 10 of our HQ, and nothing otherwise |
| GameState.FindHQ | Bot.cpp:422-433 | the first listed HQ of the side |
| GameState.CopyRows | Bot.cpp:583-590 | each map row is copied into cells_info, and characters past a short row are kept |
| GameState.SpawnStep | Bot.cpp:995-1003 | one more affordable spawn keeps "only paid spawns of the allowed levels, each with its TRAIN, never overdrawing" |
| GameState.GoldStaysPaid | Bot.cpp:995-1003 | spawns that start with non-negative gold end with non-negative gold |
| GameState.MoveStep | Bot.cpp:1019-1029 | one more unit of the order taking get_path's step when it may extends the units and the MOVE commands by exactly that step's outcome |
| GameState.NotYetMoved | Bot.cpp:1019-1029 | a unit later in the order still stands where it started |
| GameState.AfterMovesFacts | Bot.cpp:1019-1029 | the moves change only positions, leave every unit outside the order's walked prefix alone, and push at most one MOVE per unit walked |
| GameState.CutSpawnStep | Bot.cpp:1243-1248 | a spawn on an attainable cut whose gain exceeds its cost keeps "every cut spawn is on such a cut" |
| GameState.PickedStep | Bot.cpp:997-1003 | one more spawn on a best training position extends the units by that unit on that cell |
| GameState.PickedAppend | Bot.cpp:989-1009 | the level-2 spawns followed by the level-1 spawns are one run of best-position spawns |
| GameState.LevelRunStep | Bot.cpp:995-1003 | one more affordable spawn of the level on a best position keeps both the paid-spawn and the best-position facts |
| GameState.CutProgressInitially | Bot.cpp:1227-1233 | before the first pass nothing is popped and nothing trained |
| GameState.CutQueueStep | Bot.cpp:1235-1250 | popping the best cut left keeps what remains queued scored and the pops best first |
| GameState.PopOrderStep | Bot.cpp:1235-1250 | popping the best pair left keeps "popped and queued together are the queue" and "popped best first, none left better" |
| GameState.CutPassesStep | Bot.cpp:1235-1241 | a pass decided by the source's test on the gold the passes before left extends the decided passes |
| GameState.CutIdleStep | Bot.cpp:1241 | a pass that trains nothing leaves the units, commands and gold as the training passes give them |
| GameState.CutTrainedStep | Bot.cpp:1241-1248 | a pass that trains on its cut extends the units, commands and gold by that spawn and keeps every spawn paid and on a cut whose gain exceeds ten times its level |
| GameState.CutProgressStep | Bot.cpp:1235-1250 | one more pass on the best cut left, decided on the gold met, keeps the whole loop state of train_units_on_cuts |
| GameState.PairsTaken | Bot.cpp:1233-1251 | once the queue is empty the popped pairs are exactly the queued pairs |
| GameState.CutsAllTaken | Bot.cpp:1227-1252 | once the queue is empty a cut is met by a pass exactly when it is an attainable articulation point, with its gain as score |
| GameState.Game.constructor | Bot.cpp:551-566 | init: the mine spots, the center (5, 5), turn 0 and empty lists |
| GameState.Game.LoadTurn | Bot.cpp:567-619 | update_game on parsed input: turn + 1, the new units, buildings and funds, the copied map, no commands, both HQs found |
| GameState.Game.ComputeDistances | Bot.cpp:620-621 | on the first turn the table ends with the table facts; on any other turn it is unchanged |
| GameState.Game.UpdateGamestate | Bot.cpp:623-855 | the state is derived from the input and both marker grids are zero; the input and economy are kept |
| GameState.Game.RefreshForMovement | Bot.cpp:453-460 | the unit moves to dest, income rises by one if dest was not ours, dest becomes ours and the state is rebuilt |
| GameState.Game.RefreshForSpawn | Bot.cpp:461-470 | the unit is appended, gold drops by the cost, income drops by the upkeep and rises by one if dest was not ours, dest becomes ours and the state is rebuilt |
| GameState.Game.AssignObjectivesToUnits | Bot.cpp:1184-1223 | the stored order, objectives and markers are the Auction outcome on the state before the call (as Planning.AssignObjectives states, greedy rule included); the state now is the old one with those markers; nothing else changes |
| GameState.Game.StepUnit | Bot.cpp:1021-1028 | the unit moves exactly when get_path gives a step and unit_can_move_to_destination allows it on the state met, and then to that step, pushing its MOVE and committing the move; otherwise nothing changes |
| GameState.Game.TakeTurn | Bot.cpp:1021-1028 | one more unit of the order takes its step, as StepUnit states, and the walk so far is extended by it |
| GameState.Game.MoveUnits | Bot.cpp:1013-1030 | the order and objectives are the Auction outcome, greedy rule included (as AssignObjectivesToUnits states), on the state at the call, and the first unit meets that state with the auction's markers; each ordered unit in turn took get_path's step on the state it met exactly when unit_can_move_to_destination allowed it; the units and commands are exactly those moves and their MOVEs; the gold is kept and the state stays derived |
| GameState.Game.MoveInOrder | Bot.cpp:1019-1029 | the loop of move_units: every unit of the order takes its turn, the first on the state at the call; units and commands are exactly the allowed steps and their MOVEs |
| GameState.Game.SpawnThere | Bot.cpp:1002-1003 | the level's unit is appended and announced by its TRAIN, and its cost is paid |
| GameState.Game.TrainOne | Bot.cpp:997-1006 | trains on a spawn spot of greatest value when there is one, and changes nothing otherwise |
| GameState.Game.TrainRound | Bot.cpp:995-1006 | one round either stops with the level no longer wanted, unaffordable or without a training position, or spawns a unit of the level on a training position of greatest value on the state met and pays for it |
| GameState.Game.SpawnBest | Bot.cpp:997-1003 | for an affordable level, a unit on a training position of greatest value on the current state, or, with no position left, nothing at all |
| GameState.Game.TrainLevel | Bot.cpp:995-1007 | only paid spawns of the level, each on a training position of greatest value on the state it met; stops with the quota exceeded, the level unaffordable or no spawn spot left |
| GameState.Game.TrainUnits | Bot.cpp:989-1009 | only paid spawns of levels 1 and 2, never overdrawing, the level-2 units first, each on a training position of greatest value on the state it met; the level-1 loop ends for one of its three reasons |
| GameState.Game.TrainOnCut | Bot.cpp:1235-1248 | a unit of the cell's level is trained on the cut exactly when gain - 10·level > 0, the level is at most 3 and can_train_level holds on the gold and income met; it is appended, announced by its TRAIN and paid for; otherwise nothing changes |
| GameState.Game.TakeCut | Bot.cpp:1233-1250 | one pass pops the best queued cut and decides it as TrainOnCut states, extending the passes so far |
| GameState.Game.TrainOnQueue | Bot.cpp:1233-1251 | every queued cut is popped exactly once, in non-increasing gain, each decided as TrainOnCut states on the gold the passes before left; the units, commands and gold are exactly those of the training passes |
| GameState.Game.QueueCuts | Bot.cpp:1229-1231 | the queue holds exactly the attainable articulation points of the enemy territory on the current state, each with its gain; only the DFS clock moves |
| GameState.Game.TrainUnitsOnCuts | Bot.cpp:1227-1252 | the passes meet exactly the attainable articulation points of the enemy territory, each with its gain, in non-increasing gain; each trains exactly when the source's test holds on the gold left; the units, commands and gold are exactly those spawns, every one paid and on a cut whose gain exceeds ten times its level |
| GameState.Game.PlanChainkill | Bot.cpp:1458-1485 | the costs, start, price and commands meet the attempt_chainkill outcome for the current scene and gold |
| GameState.Game.AttemptChainkill | Bot.cpp:1454-1502 | attempt_chainkill's commands are appended, and units, view and gold are kept |
| GameState.Game.BuildMines | Bot.cpp:866-897 | nothing with two mines or more; the BUILD MINE commands go on distinct mine sites in order of distance to our HQ, none farther than a mine site left unbought; the gold drops by their price and stays non-negative; with gold left for the next mine every mine site is bought; nothing but commands and gold changes |
| GameState.Game.BuildTowers | Bot.cpp:898-913 | appends one BUILD TOWER on the tower spot of our HQ exactly when an enemy unit is within table distance 10 of it; units, view and gold are kept |
| GameState.Game.PlanTurn | Bot.cpp:1614-1625 | one turn keeps the state derived, and a turn that starts with gold to spare ends with gold to spare |
| GameState.Game.PlanMoves | Bot.cpp:1614-1617 | update_gamestate, move_units and attempt_chainkill keep the gold |
| GameState.Game.PlanTraining | Bot.cpp:1619-1625 | the training and building steps never overdraw gold that started non-negative |

## Left out

- Turn I/O is not modelled. This covers the `cin` parsing in `init` and
  `update_game`, `send_commands`, `Command::print` and the `operator<<` for
  command types. `Game.constructor` and `Game.LoadTurn` take the parsed
  values as parameters, and the commands stay a sequence.
- `Stopwatch`, the chrono clock and every `debug`/`cerr` dump are left out:
  they do not affect the plan.
- The endless `main` loop is left out. `Game.PlanTurn` models one pass of its
  body after `update_game`. `build_mines`, which `main` leaves commented out,
  is modelled on its own but is not part of `PlanTurn`.
- `double` arithmetic is replaced by integers. Every weight the bot uses is a
  whole number, so no rounding is lost.
- `shared_ptr` aliasing is not modelled. `units_ally`, `units_in_order` and
  `Cell::unit` refer to units by index into `units`, or by a copy of a unit's
  owner and level.
- Distances.FloydWarshall: the contract states the table facts (symmetric,
  zero diagonal, 1 on four-adjacent non-void pairs, INT_MAX from void cells,
  never below the Manhattan distance). It does not state that every entry is
  a shortest-path length.
- The 32-bit overflow of `distances[i][k] + distances[k][j]` in
  `floyd_warshall` is not modelled: integers are unbounded, and a sum is only
  formed of entries other than INT_MAX.
- The nondeterministic orders are not modelled exactly. The iteration orders
  of `unordered_map` and of the address-ordered `set<shared_ptr<Unit>>` are
  unspecified, and so is the tie order of `priority_queue`. The model picks
  arbitrarily and its contracts do not depend on the choice.
- Search.Dijkstra: when the frontier empties before the target is popped,
  the source calls `reconstruct_path` on an unreached target, and
  `came_from[target]` default-inserts (0, 0). Three cases follow. When
  (0, 0) is the unit's own cell, the path is `[source, target]`, and
  `get_path` returns a target at least two cells away, which
  `unit_can_move_to_destination` refuses. When (0, 0) was reached, the path
  runs from the source to (0, 0) and then jumps to the target, so `get_path`
  returns the first step toward (0, 0) and `move_units` may take it. When
  (0, 0) was not reached and is not the source, the loop never ends. The
  model returns `None` in all three cases (the target is unreachable).
  `Planning.GetPath` then returns `None` and `move_units` leaves the unit
  where it is, so the model does not take the step toward (0, 0) of the
  second case.
- The `assert(score == chainkill_cost)` of `attempt_chainkill` is not
  modelled. The reverse search over the full adjacency does not guarantee
  it: own HQ and mine cells are excluded only as targets, and the 'O' filter
  applies only to the next cell. As in the source, `attempt_chainkill` pays
  no gold for the TRAIN commands it pushes.
- The HQ lookup is a precondition. `getHQ` and `getOpponentHQ` fall off the end
  when a side has no HQ, which is undefined behaviour. `Game.LoadTurn`
  therefore requires both HQs among the buildings.
- Training.FindMaxInMap: `find_max_in_map` takes the map by value and
  returns `max_element`'s iterator into that copy, which is destroyed on
  return. Reading `->first` through it is undefined behaviour. The model
  returns a key of greatest value, which is what the caller evidently means.
  Among tied keys it picks any one. The source's choice among them depends
  on the hash table's iteration order, which is not modelled.
- GameState.Game.TrainOne: reads the training position through that
  dangling iterator (Bot.cpp:1001). The model trains on the key
  `Training.FindMaxInMap` gives, and does not capture the undefined read.
- The movement marker set by `refresh_gamestate_*` is not kept. The
  `update_gamestate` call right after it resets the marker, so the marker is
  never observable, and the model's refresh leaves both marker grids zero.
- GameState.Game.TrainUnits: the contract states the stop reason of the
  level-1 loop only. The level-2 loop's stop reason is stated by
  `Game.TrainLevel` but is not carried to the end of `TrainUnits`; neither
  is the state the first spawn met.
- GameState.Game.MoveUnits: each step records the state it met (as
  `Game.StepUnit` states), and the first is the state at the call with the
  auction's markers; a later step's state is not stated as the
  one the previous move's `refresh_gamestate_for_movement` left. The refresh
  works on the arrays in place, and no function gives its result.
- GameState.Game.TrainLevel: the first spawn's recorded state is the state
  at the call. A later spawn's recorded state is not stated as the one the
  previous spawn's `refresh_gamestate_for_spawn` left, for the same reason.
- GameState.Game.TrainUnitsOnCuts: the first pass's recorded state is the
  state at the call. A later pass's state is not tied to the previous
  spawn's refresh, for the same reason.
- GameState.Game.PlanTurn: the contract states the invariants and the gold
  bound. It does not state the full command list of a turn; each step's
  contract states its own commands.
- GameState.Game.PlanMoves: the contract states the invariants and that the
  gold is kept. The moves and the chain-kill commands are stated by
  `Game.MoveUnits` and `Game.AttemptChainkill` and are not carried to the end
  of `PlanMoves`, which would need the intermediate states.
- GameState.Game.PlanTraining: the contract states the invariants and the
  gold bound. The spawns and the tower are stated by
  `Game.TrainUnitsOnCuts`, `Game.TrainUnits` and `Game.BuildTowers` and
  are not carried to the end of `PlanTraining`, for the same reason.
- The order of two steps in `train_units_on_cuts` differs from the source,
  with the same outcome:
  - the source reads the top of the queue and pops it at the end of the loop
    body, while the model pops at the top;
  - `train_units` pushes the TRAIN command after the refresh, while
    `train_units_on_cuts` pushes it before. Both orders give the same
    commands and state.

  The gains in `train_units_on_cuts` are computed once, before any training,
  as in the source.
