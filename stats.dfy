/**
 * The stat block of a combatant: ability scores, armour class, weapon dice and flags,
 * caster data, and the bonuses derived from them. Setup mutates it in place (weapon,
 * spellbook, clamping); during a battle it is only read.
 */
module StatBlock {
  import opened Mathf
  import opened Catalog

  datatype CastingAbility = None | STR | DEX | CON | INT | WIS | CHA

  /** Ability modifier: floor((score - 10) / 2). */
  function Mod(score: int): (m: int)
    ensures 2 * m <= score - 10 < 2 * m + 2
  {
    (score - 10) / 2
  }

  lemma ModMonotone(a: int, b: int)
    requires a <= b
    ensures Mod(a) <= Mod(b)
  {
  }

  /** Lowest and highest ability score allowed: 8..20 for player characters, 1..30 otherwise. */
  function ScoreFloor(isPlayerControlled: bool): int { if isPlayerControlled then 8 else 1 }
  function ScoreCeiling(isPlayerControlled: bool): int { if isPlayerControlled then 20 else 30 }

  class Stats {
    var displayName: string
    var maxHP: int
    var armourClass: int
    /** Weapon damage dice XdY and the flat bonus added once per hit. */
    var damage: Dice
    var damageBonus: int
    /** Weapon reach in the model's distance unit (decimetres). */
    var attackRange: int
    var actionsPerTurn: int
    var initiativeBonus: int
    var canHeal: bool
    var healAmount: Dice
    /** Non-spell heal fires when an ally's HP fraction is at most this. */
    var healThreshold: real
    var str: int
    var dex: int
    var con: int
    var intel: int
    var wis: int
    var cha: int
    var weaponId: string
    var weaponName: string
    var isRanged: bool
    var finesse: bool
    var usingTwoHands: bool
    var proficiencyBonus: int
    var isCaster: bool
    var castingAbility: CastingAbility
    var classId: ClassId
    var knownSpells: seq<KnownSpell>

    /** A stat block with the field initialisers of the source. */
    constructor ()
      ensures displayName == "Unit" && maxHP == 10 && armourClass == 12
      ensures damage == Dice(1, 6) && damageBonus == 0 && attackRange == 22
      ensures actionsPerTurn == 1 && initiativeBonus == 2
      ensures !canHeal && healAmount == Dice(1, 6) && healThreshold == 0.4
      ensures str == 10 && dex == 10 && con == 10 && intel == 10 && wis == 10 && cha == 10
      ensures weaponId == "" && weaponName == ""
      ensures !isRanged && !finesse && !usingTwoHands && proficiencyBonus == 2
      ensures !isCaster && castingAbility == CastingAbility.None && classId == Fighter && knownSpells == []
    {
      displayName, maxHP, armourClass := "Unit", 10, 12;
      damage, damageBonus, attackRange := Dice(1, 6), 0, 22;
      actionsPerTurn, initiativeBonus := 1, 2;
      canHeal, healAmount, healThreshold := false, Dice(1, 6), 0.4;
      str, dex, con, intel, wis, cha := 10, 10, 10, 10, 10, 10;
      weaponId, weaponName := "", "";
      isRanged, finesse, usingTwoHands, proficiencyBonus := false, false, false, 2;
      isCaster, castingAbility, classId, knownSpells := false, CastingAbility.None, Fighter, [];
    }

    /**
     * A stat block built by an object initialiser: the given values, and the field
     * initialisers for the weapon, spell and two-hand fields.
     */
    constructor Initialised(displayName: string, maxHP: int, armourClass: int, damage: Dice, damageBonus: int,
                            attackRange: int, actionsPerTurn: int, initiativeBonus: int,
                            canHeal: bool, healAmount: Dice, healThreshold: real,
                            str: int, dex: int, con: int, intel: int, wis: int, cha: int,
                            isRanged: bool, proficiencyBonus: int, classId: ClassId)
      ensures this.displayName == displayName && this.maxHP == maxHP && this.armourClass == armourClass
      ensures this.damage == damage && this.damageBonus == damageBonus && this.attackRange == attackRange
      ensures this.actionsPerTurn == actionsPerTurn && this.initiativeBonus == initiativeBonus
      ensures this.canHeal == canHeal && this.healAmount == healAmount && this.healThreshold == healThreshold
      ensures this.str == str && this.dex == dex && this.con == con
      ensures this.intel == intel && this.wis == wis && this.cha == cha
      ensures this.isRanged == isRanged && this.proficiencyBonus == proficiencyBonus && this.classId == classId
      ensures weaponId == "" && weaponName == "" && !finesse && !usingTwoHands
      ensures !isCaster && castingAbility == CastingAbility.None && knownSpells == []
    {
      this.displayName, this.maxHP, this.armourClass := displayName, maxHP, armourClass;
      this.damage, this.damageBonus, this.attackRange := damage, damageBonus, attackRange;
      this.actionsPerTurn, this.initiativeBonus := actionsPerTurn, initiativeBonus;
      this.canHeal, this.healAmount, this.healThreshold := canHeal, healAmount, healThreshold;
      this.str, this.dex, this.con, this.intel, this.wis, this.cha := str, dex, con, intel, wis, cha;
      weaponId, weaponName := "", "";
      this.isRanged, finesse, usingTwoHands, this.proficiencyBonus := isRanged, false, false, proficiencyBonus;
      isCaster, castingAbility, this.classId, knownSpells := false, CastingAbility.None, classId, [];
    }

    /** The score of one ability (0 for no ability). */
    function Score(a: CastingAbility): int
      reads this
    {
      match a
      case None => 0
      case STR => str
      case DEX => dex
      case CON => con
      case INT => intel
      case WIS => wis
      case CHA => cha
    }

    /** Weapon attack bonus: ranged uses DEX, finesse melee the better of STR and DEX, other melee STR. */
    function AttackBonus(): (b: int)
      reads this
      ensures isRanged ==> b == Mod(dex) + proficiencyBonus
      ensures !isRanged && finesse ==> b >= Mod(str) + proficiencyBonus && b >= Mod(dex) + proficiencyBonus
      ensures !isRanged && finesse ==> b == Mod(str) + proficiencyBonus || b == Mod(dex) + proficiencyBonus
      ensures !isRanged && !finesse ==> b == Mod(str) + proficiencyBonus
    {
      if isRanged then Mod(dex) + proficiencyBonus
      else if finesse then Max(Mod(str), Mod(dex)) + proficiencyBonus
      else Mod(str) + proficiencyBonus
    }

    /** The modifier of exactly the casting ability, 0 when there is none. */
    function CastingMod(): (m: int)
      reads this
      ensures castingAbility == CastingAbility.None ==> m == 0
      ensures castingAbility != CastingAbility.None ==> m == Mod(Score(castingAbility))
    {
      match castingAbility
      case STR => Mod(str)
      case DEX => Mod(dex)
      case CON => Mod(con)
      case INT => Mod(intel)
      case WIS => Mod(wis)
      case CHA => Mod(cha)
      case None => 0
    }

    predicate HasSpellcasting()
      reads this
    {
      isCaster && castingAbility != CastingAbility.None
    }

    /** Spell attack bonus: casting modifier plus proficiency, or 0 without spellcasting. */
    function SpellAttackBonus(): (b: int)
      reads this
      ensures !HasSpellcasting() ==> b == 0
      ensures HasSpellcasting() ==> b == Mod(Score(castingAbility)) + proficiencyBonus
    {
      if !isCaster || castingAbility == CastingAbility.None then 0
      else CastingMod() + proficiencyBonus
    }

    /** Spell save DC: 10 without spellcasting, otherwise 8 plus the spell attack bonus. */
    function SpellSaveDC(): (dc: int)
      reads this
      ensures !HasSpellcasting() ==> dc == 10
      ensures HasSpellcasting() ==> dc == 8 + SpellAttackBonus()
    {
      if !isCaster || castingAbility == CastingAbility.None then 10
      else 8 + proficiencyBonus + CastingMod()
    }

    /**
     * The ability bonus a spell adds "as just the casting modifier", computed the way the
     * source does: spell attack bonus minus proficiency.
     */
    function SpellModAsWritten(): int
      reads this
    {
      SpellAttackBonus() - proficiencyBonus
    }

    /** The casting modifier alone: what the as-written bonus is meant to be. */
    function SpellAbilityBonus(): (b: int)
      reads this
      ensures HasSpellcasting() ==> b == SpellModAsWritten()
      ensures castingAbility == CastingAbility.None ==> b == 0
      ensures castingAbility != CastingAbility.None ==> b == Mod(Score(castingAbility))
    {
      CastingMod()
    }

    predicate ScoresWithin(lo: int, hi: int)
      reads this
    {
      lo <= str <= hi && lo <= dex <= hi && lo <= con <= hi &&
      lo <= intel <= hi && lo <= wis <= hi && lo <= cha <= hi
    }

    /** Clamps the six scores for the unit's side and the proficiency bonus into 1..6. */
    method ClampFor(isPlayerControlled: bool)
      modifies this`str, this`dex, this`con, this`intel, this`wis, this`cha, this`proficiencyBonus
      ensures ScoresWithin(ScoreFloor(isPlayerControlled), ScoreCeiling(isPlayerControlled))
      ensures 1 <= proficiencyBonus <= 6
      ensures str == Clamp(old(str), ScoreFloor(isPlayerControlled), ScoreCeiling(isPlayerControlled))
      ensures dex == Clamp(old(dex), ScoreFloor(isPlayerControlled), ScoreCeiling(isPlayerControlled))
      ensures con == Clamp(old(con), ScoreFloor(isPlayerControlled), ScoreCeiling(isPlayerControlled))
      ensures intel == Clamp(old(intel), ScoreFloor(isPlayerControlled), ScoreCeiling(isPlayerControlled))
      ensures wis == Clamp(old(wis), ScoreFloor(isPlayerControlled), ScoreCeiling(isPlayerControlled))
      ensures cha == Clamp(old(cha), ScoreFloor(isPlayerControlled), ScoreCeiling(isPlayerControlled))
      ensures proficiencyBonus == Clamp(old(proficiencyBonus), 1, 6)
    {
      var min := if isPlayerControlled then 8 else 1;
      var max := if isPlayerControlled then 20 else 30;
      str, dex, con, intel, wis, cha, proficiencyBonus :=
        Clamp(str, min, max), Clamp(dex, min, max), Clamp(con, min, max),
        Clamp(intel, min, max), Clamp(wis, min, max), Clamp(cha, min, max),
        Clamp(proficiencyBonus, 1, 6);
    }
  }

  /** For a caster, the save DC is exactly 8 more than the spell attack bonus; without spellcasting it is 10. */
  lemma SaveDCIsEightPlusAttack(s: Stats)
    ensures s.SpellSaveDC() == if s.HasSpellcasting() then 8 + s.SpellAttackBonus() else 10
  {
  }

  /**
   * The as-written spell ability bonus of a caster that has no casting ability (a Ranger) is
   * minus its proficiency bonus, while its casting modifier is 0.
   */
  lemma SpellModAsWrittenWithoutAbility(s: Stats)
    requires s.isCaster && s.castingAbility == CastingAbility.None
    ensures s.SpellModAsWritten() == -s.proficiencyBonus
    ensures s.SpellAbilityBonus() == 0
  {
  }
}
