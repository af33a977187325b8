/**
 * Weapon definitions and equipping a weapon into a stat block. The weapon table itself is
 * a parameter of the model.
 */
module Weapons {
  import opened Catalog
  import opened StatBlock

  datatype DamageType = Slashing | Piercing | Bludgeoning

  datatype RangeBand = RangeBand(normal: int, longRange: int)

  datatype WeaponDef = WeaponDef(
    id: string,
    name: string,
    diceCount: int,
    diceSides: int,
    damageType: DamageType,
    isRanged: bool,
    finesse: bool,
    twoHanded: bool,
    heavy: bool,
    reach: bool,
    hasRange: bool,
    range: RangeBand,
    hasVersatile: bool,
    versatile: Dice)

  type WeaponTable = map<string, WeaponDef>

  /** Attack ranges in decimetres: ranged 7.0 m, reach 3.5 m, other melee 2.2 m. */
  const RangedReachDm := 70
  const LongMeleeReachDm := 35
  const MeleeReachDm := 22

  /** The attack range a weapon gives: ranged wins over reach, reach over plain melee. */
  function ReachOf(w: WeaponDef): (r: int)
    ensures w.isRanged ==> r == RangedReachDm
    ensures !w.isRanged && w.reach ==> r == LongMeleeReachDm
    ensures !w.isRanged && !w.reach ==> r == MeleeReachDm
  {
    if w.isRanged then RangedReachDm else if w.reach then LongMeleeReachDm else MeleeReachDm
  }

  /** The damage dice a weapon gives: its versatile dice when it has them and is held in two hands. */
  function DiceOf(w: WeaponDef, twoHands: bool): (d: Dice)
    ensures w.hasVersatile && twoHands ==> d == w.versatile
    ensures !(w.hasVersatile && twoHands) ==> d == Dice(w.diceCount, w.diceSides)
  {
    if w.hasVersatile && twoHands then w.versatile else Dice(w.diceCount, w.diceSides)
  }

  /** Holding a weapon in two hands only matters for a versatile weapon. */
  lemma HandsMatterOnlyForVersatile(w: WeaponDef)
    requires !w.hasVersatile
    ensures DiceOf(w, true) == DiceOf(w, false)
  {
  }

  /**
   * Copies the weapon's dice, range class, finesse flag, id and name into the stat block; an
   * unknown id leaves the stat block as it is. Nothing else is touched.
   */
  method Equip(s: Stats, table: WeaponTable, weaponId: string, twoHands: bool)
    modifies s`damage, s`isRanged, s`attackRange, s`finesse, s`weaponId, s`weaponName
    ensures weaponId !in table ==> unchanged(s)
    ensures weaponId in table ==>
              var w := table[weaponId];
              s.damage == DiceOf(w, twoHands) && s.isRanged == w.isRanged &&
              s.attackRange == ReachOf(w) && s.finesse == w.finesse &&
              s.weaponId == w.id && s.weaponName == w.name
  {
    if weaponId !in table {
      return;
    }
    var w := table[weaponId];
    if w.hasVersatile && twoHands {
      s.damage := w.versatile;
    } else {
      s.damage := Dice(w.diceCount, w.diceSides);
    }
    s.isRanged := w.isRanged;
    s.attackRange := if w.isRanged then RangedReachDm else if w.reach then LongMeleeReachDm else MeleeReachDm;
    s.finesse := w.finesse;
    s.weaponId := w.id;
    s.weaponName := w.name;
  }
}
