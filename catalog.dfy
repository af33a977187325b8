/**
 * Shapes of the read-only rule tables the engine consumes: the class enumeration, the
 * per-class spell list entries, dice notation and the spell definition record. The
 * tables themselves (spell database, per-class spellbooks) are parameters of the model.
 */
module Catalog {

  datatype ClassId =
    | Barbarian | Bard | Cleric | Druid | Fighter | Monk | Paladin
    | Ranger | Rogue | Sorcerer | Warlock | Wizard | Artificer

  /** An entry of a class spell list: a spell-table id and the level the list claims for it. */
  datatype KnownSpell = KnownSpell(id: string, level: int)

  datatype SaveType = None | STR | DEX | CON | INT | WIS | CHA

  /** XdY dice, as Unity's Vector2Int: `x` dice of `y` sides. */
  datatype Dice = Dice(x: int, y: int)

  /**
   * A spell definition. `rangeDm` is the spell range in the abstract distance unit of
   * the model (decimetres); `level` 0 is a cantrip.
   */
  datatype SpellDef = SpellDef(
    id: string,
    name: string,
    level: int,
    diceCount: int,
    diceSides: int,
    flatBonus: int,
    darts: int,
    isHeal: bool,
    autoHit: bool,
    usesAttackRoll: bool,
    save: SaveType,
    halfOnSave: bool,
    damageType: string,
    addAbilityToDmg: bool,
    rangeDm: int,
    cantripScalesDice: bool,
    scalesWithSlot: bool,
    extraDartsPerSlot: int,
    extraDicePerSlot: int,
    extraFlatPerSlot: int)

  type SpellTable = map<string, SpellDef>
}
