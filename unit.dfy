/**
 * A combatant on the battlefield: a reference to its stat block, its side, and the two
 * pieces of state a battle changes, current hit points and the actions left this turn.
 */
module Combatant {
  import opened Mathf
  import opened StatBlock

  /** Hit points after taking `amount` damage: never below zero. */
  function DamagedHP(hp: int, amount: int): (r: int)
    ensures r >= 0
    ensures r == 0 <==> hp <= amount
    ensures r > 0 ==> r == hp - amount
    ensures amount >= 0 && hp >= 0 ==> r <= hp
  {
    Max(0, hp - amount)
  }

  /** Hit points after receiving `amount` healing: never above the maximum. */
  function HealedHP(hp: int, maxHP: int, amount: int): (r: int)
    ensures r <= maxHP
    ensures r == maxHP <==> hp + amount >= maxHP
    ensures r < maxHP ==> r == hp + amount
    ensures amount >= 0 && hp <= maxHP ==> hp <= r
  {
    Min(maxHP, hp + amount)
  }

  /** Two hits in a row do what one hit of their total does; in particular the dead stay dead. */
  lemma DamageComposes(hp: int, a: int, b: int)
    requires hp >= 0 && a >= 0 && b >= 0
    ensures DamagedHP(DamagedHP(hp, a), b) == DamagedHP(hp, a + b)
    ensures hp == 0 ==> DamagedHP(hp, a) == 0
  {
  }

  /** Two heals in a row do what one heal of their total does, for a unit not above its maximum. */
  lemma HealComposes(hp: int, maxHP: int, a: int, b: int)
    requires hp <= maxHP && a >= 0 && b >= 0
    ensures HealedHP(HealedHP(hp, maxHP, a), maxHP, b) == HealedHP(hp, maxHP, a + b)
  {
  }

  /** Non-negative damage and healing keep hit points within 0..maxHP. */
  lemma HitPointBounds(hp: int, maxHP: int, amount: int)
    requires 0 <= hp <= maxHP && amount >= 0
    ensures 0 <= DamagedHP(hp, amount) <= maxHP
    ensures 0 <= HealedHP(hp, maxHP, amount) <= maxHP
  {
  }

  class Unit {
    const baseStats: Stats
    const isPlayerControlled: bool
    var currentHP: int
    var remainingActions: int

    /** A freshly spawned unit: hit points and actions are zero until `Init`. */
    constructor (stats: Stats, isPlayerControlled: bool)
      ensures baseStats == stats && this.isPlayerControlled == isPlayerControlled
      ensures currentHP == 0 && remainingActions == 0
    {
      baseStats := stats;
      this.isPlayerControlled := isPlayerControlled;
      currentHP, remainingActions := 0, 0;
    }

    predicate IsAlive()
      reads this
    {
      currentHP > 0
    }

    /** The bounds the battle keeps: positive maximum, 0 <= HP <= maximum, 0 <= actions <= per-turn allowance. */
    predicate Valid()
      reads this, baseStats
    {
      1 <= baseStats.maxHP && 0 <= currentHP <= baseStats.maxHP &&
      0 <= baseStats.actionsPerTurn && 0 <= remainingActions <= baseStats.actionsPerTurn
    }

    /** Clamps the stat block for the unit's side, then fills hit points and actions. */
    method Init()
      modifies this`currentHP, this`remainingActions
      modifies baseStats`str, baseStats`dex, baseStats`con, baseStats`intel, baseStats`wis, baseStats`cha
      modifies baseStats`proficiencyBonus
      ensures baseStats.ScoresWithin(ScoreFloor(isPlayerControlled), ScoreCeiling(isPlayerControlled))
      ensures 1 <= baseStats.proficiencyBonus <= 6
      ensures baseStats.str == Clamp(old(baseStats.str), ScoreFloor(isPlayerControlled), ScoreCeiling(isPlayerControlled))
      ensures baseStats.dex == Clamp(old(baseStats.dex), ScoreFloor(isPlayerControlled), ScoreCeiling(isPlayerControlled))
      ensures baseStats.con == Clamp(old(baseStats.con), ScoreFloor(isPlayerControlled), ScoreCeiling(isPlayerControlled))
      ensures baseStats.intel == Clamp(old(baseStats.intel), ScoreFloor(isPlayerControlled), ScoreCeiling(isPlayerControlled))
      ensures baseStats.wis == Clamp(old(baseStats.wis), ScoreFloor(isPlayerControlled), ScoreCeiling(isPlayerControlled))
      ensures baseStats.cha == Clamp(old(baseStats.cha), ScoreFloor(isPlayerControlled), ScoreCeiling(isPlayerControlled))
      ensures baseStats.proficiencyBonus == Clamp(old(baseStats.proficiencyBonus), 1, 6)
      ensures currentHP == baseStats.maxHP && remainingActions == baseStats.actionsPerTurn
      ensures 1 <= baseStats.maxHP && 0 <= baseStats.actionsPerTurn ==> Valid()
    {
      baseStats.ClampFor(isPlayerControlled);
      currentHP := baseStats.maxHP;
      remainingActions := baseStats.actionsPerTurn;
    }

    /** Refills the actions for a new round, dead or alive. */
    method BeginTurn()
      modifies this`remainingActions
      ensures remainingActions == baseStats.actionsPerTurn
      ensures old(Valid()) ==> Valid()
    {
      remainingActions := baseStats.actionsPerTurn;
    }

    /** Spends one action; the count never goes below zero. */
    method ConsumeAction()
      modifies this`remainingActions
      ensures remainingActions == Max(0, old(remainingActions) - 1)
      ensures old(remainingActions) > 0 ==> remainingActions == old(remainingActions) - 1
      ensures old(Valid()) ==> Valid()
    {
      remainingActions := Max(0, remainingActions - 1);
    }

    method ReceiveDamage(amount: int)
      modifies this`currentHP
      ensures currentHP == DamagedHP(old(currentHP), amount)
      ensures old(Valid()) && amount >= 0 ==> Valid()
    {
      currentHP := DamagedHP(currentHP, amount);
    }

    method ReceiveHeal(amount: int)
      modifies this`currentHP
      ensures currentHP == HealedHP(old(currentHP), baseStats.maxHP, amount)
      ensures old(Valid()) && amount >= 0 ==> Valid()
    {
      currentHP := HealedHP(currentHP, baseStats.maxHP, amount);
    }
  }
}
