/** Units, buildings and the per-cell occupancy record with its
    classification predicates. */
module Cells {
  import opened Grid
  import opened Wrappers

  /** Owner 0 is this agent ("ally"), owner 1 the opponent ("enemy"). */
  const Ally: int := 0
  const Enemy: int := 1

  datatype BuildingType = HQ | Mine | Tower

  /** A unit as the game reports it. Its objective is kept apart, in
      Game.objectives, indexed like Game.units. */
  datatype Unit = Unit(id: int, owner: int, level: int, p: Pos)

  datatype Building = Building(p: Pos, t: BuildingType, owner: int)

  predicate IsOwnedUnit(u: Unit) {
    u.owner == Ally
  }

  predicate IsHQ(b: Building) {
    b.t == HQ
  }

  predicate IsOwnedBuilding(b: Building) {
    b.owner == Ally
  }

  /** One board cell: at most one unit and at most one building (copies of
      the records the cell was rebuilt from), the mine-spot flag and the
      void flag. */
  datatype Cell = Cell(position: Pos, unit: Option<Unit>, building: Option<Building>, mine: bool, voidCell: bool)

  /** Cell(x, y): nothing on it, not a mine spot, not void. */
  function EmptyCell(p: Pos): Cell {
    Cell(p, None, None, false, false)
  }

  predicate IsEmpty(c: Cell) {
    c.unit.None? && c.building.None?
  }

  predicate IsOccupied(c: Cell) {
    c.unit.Some? || c.building.Some?
  }

  predicate IsOccupiedByUnit(c: Cell) {
    c.unit.Some?
  }

  predicate IsOccupiedByBuilding(c: Cell) {
    c.building.Some?
  }

  /** The building on the cell belongs to `owner` and is of kind `t`. */
  predicate HasBuildingOf(c: Cell, owner: int, t: BuildingType) {
    c.building.Some? && c.building.value.owner == owner && c.building.value.t == t
  }

  /** The unit on the cell belongs to `owner`. */
  predicate HasUnitOf(c: Cell, owner: int) {
    c.unit.Some? && c.unit.value.owner == owner
  }

  /** level_of_enemy_unit / level_of_ally_unit: -1 when there is no such unit. */
  function LevelOfUnitOf(c: Cell, owner: int): int {
    if HasUnitOf(c, owner) then c.unit.value.level else -1
  }

  predicate IsOccupiedByEnemyBuilding(c: Cell) {
    c.building.Some? && c.building.value.owner == Enemy
  }

  /** The agent's own HQ and mines cannot be entered by its own units. */
  predicate IsOccupiedByInaccessibleBuilding(c: Cell) {
    c.building.Some? && c.building.value.owner == Ally && (c.building.value.t == HQ || c.building.value.t == Mine)
  }

  predicate IsOccupiedByMine(c: Cell) {
    c.building.Some? && c.building.value.t == Mine
  }

  predicate IsOccupiedByHQ(c: Cell) {
    c.building.Some? && c.building.value.t == HQ
  }

  predicate IsOccupiedByTower(c: Cell) {
    c.building.Some? && c.building.value.t == Tower
  }

  predicate IsOccupiedByEnemyUnitOfLevel(c: Cell, level: int) {
    HasUnitOf(c, Enemy) && c.unit.value.level == level
  }

  /** The occupancy predicates partition as their names promise. */
  lemma OccupancyFacts(c: Cell)
    ensures IsEmpty(c) <==> !IsOccupied(c)
    ensures IsOccupied(c) <==> IsOccupiedByUnit(c) || IsOccupiedByBuilding(c)
    ensures IsOccupiedByInaccessibleBuilding(c) <==> HasBuildingOf(c, Ally, HQ) || HasBuildingOf(c, Ally, Mine)
    ensures IsOccupiedByBuilding(c) <==> IsOccupiedByMine(c) || IsOccupiedByHQ(c) || IsOccupiedByTower(c)
    ensures IsOccupiedByEnemyBuilding(c) <==> HasBuildingOf(c, Enemy, HQ) || HasBuildingOf(c, Enemy, Mine) || HasBuildingOf(c, Enemy, Tower)
  {
  }

  /** A unit level is reported exactly when such a unit is present. */
  lemma LevelOfUnitOfFacts(c: Cell, owner: int)
    requires c.unit.Some? ==> c.unit.value.level >= 1
    ensures LevelOfUnitOf(c, owner) >= 1 <==> HasUnitOf(c, owner)
    ensures !HasUnitOf(c, owner) ==> LevelOfUnitOf(c, owner) == -1
  {
  }
}
