/** The unit cost, upkeep and affordability tables. */
module Economy {

  const TowerCost: int := 15
  const Level1Cost: int := 10
  const Level2Cost: int := 20
  const Level3Cost: int := 30
  const Level1Upkeep: int := 1
  const Level2Upkeep: int := 4
  const Level3Upkeep: int := 20

  /** Gold needed to train a unit; 999 for a level outside 1..3. */
  function CostOfUnit(level: int): (r: int)
    ensures 1 <= level <= 3 ==> r == 10 * level
    ensures !(1 <= level <= 3) ==> r == 999
  {
    match level
    case 1 => Level1Cost
    case 2 => Level2Cost
    case 3 => Level3Cost
    case _ => 999
  }

  /** Income lost per turn for a unit; 999 for a level outside 1..3. */
  function UpkeepOfUnit(level: int): (r: int)
    ensures level == 1 ==> r == 1
    ensures level == 2 ==> r == 4
    ensures level == 3 ==> r == 20
    ensures !(1 <= level <= 3) ==> r == 999
  {
    match level
    case 1 => Level1Upkeep
    case 2 => Level2Upkeep
    case 3 => Level3Upkeep
    case _ => 999
  }

  /** can_train_level: the thresholds of can_train_level1..3. */
  function CanTrainLevel(gold: int, income: int, level: int): (r: bool)
    ensures r <==> 1 <= level <= 3 && gold >= CostOfUnit(level) && income >= UpkeepOfUnit(level)
  {
    match level
    case 1 => gold >= 10 && income >= 1
    case 2 => gold >= 20 && income >= 4
    case 3 => gold >= 30 && income >= 20
    case _ => false
  }

  /** Paying for a trainable unit never overdraws gold or income. */
  lemma TrainingIsAffordable(gold: int, income: int, level: int)
    requires CanTrainLevel(gold, income, level)
    ensures gold - CostOfUnit(level) >= 0
    ensures income - UpkeepOfUnit(level) >= 0
    ensures CostOfUnit(level) >= 10
  {
  }
}
