/**
 * Dice and the resolution of one weapon attack, spell attack, auto-hit volley, saving-throw
 * spell or heal. Randomness is an explicit stream of raw draws read through a cursor, so
 * each resolution is a function of the stream and the position it starts reading at; the
 * methods return the position after the last draw they used.
 */
module Resolver {
  import opened Mathf
  import opened Catalog
  import opened SpellRules
  import opened StatBlock
  import opened Combatant

  /** The random source: an endless stream of raw draws. */
  type Rng = nat -> nat

  /** One die of `sides` faces read at position `at`; a die with fewer than one face shows 1. */
  function Face(rng: Rng, at: nat, sides: int): (f: int)
    ensures sides >= 1 ==> 1 <= f <= sides
    ensures sides < 1 ==> f == 1
  {
    if sides < 1 then 1 else 1 + rng(at) % sides
  }

  /** The total of `count` dice read at positions at, at+1, ...; no dice for a count of zero or less. */
  function SumDraws(rng: Rng, at: nat, count: int, sides: int): (s: int)
    ensures count <= 0 ==> s == 0
    ensures s >= Max(0, count)
    decreases count
  {
    if count <= 0 then 0
    else SumDraws(rng, at, count - 1, sides) + Face(rng, at + count - 1, sides)
  }

  /** Every die shows 1..sides, so `count` dice total between count and count * sides. */
  lemma {:induction false} SumDrawsBounds(rng: Rng, at: nat, count: nat, sides: int)
    requires sides >= 1
    ensures count <= SumDraws(rng, at, count, sides) <= count * sides
    decreases count
  {
    if count > 0 {
      SumDrawsBounds(rng, at, count - 1, sides);
      assert (count - 1) * sides + sides == count * sides;
    }
  }

  /** Reading `a` dice and then `b` more is reading `a + b` dice. */
  lemma {:induction false} SumDrawsSplit(rng: Rng, at: nat, a: nat, b: nat, sides: int)
    ensures SumDraws(rng, at, a, sides) + SumDraws(rng, at + a, b, sides) == SumDraws(rng, at, a + b, sides)
    decreases b
  {
    if b > 0 {
      SumDrawsSplit(rng, at, a, b - 1, sides);
    }
  }

  /** Rolls XdY: the sum of `dice.x` dice of `dice.y` sides, one draw per die. */
  method RollDice(dice: Dice, rng: Rng, at: nat) returns (total: int, next: nat)
    ensures total == SumDraws(rng, at, dice.x, dice.y)
    ensures next == at + Max(0, dice.x)
  {
    total := 0;
    var i := 0;
    while i < dice.x
      invariant 0 <= i <= Max(0, dice.x)
      invariant total == SumDraws(rng, at, i, dice.y)
    {
      total := total + Face(rng, at + i, dice.y);
      i := i + 1;
    }
    next := at + i;
  }

  /** Initiative: a d20 plus the bonus. */
  function RollInitiative(bonus: int, rng: Rng, at: nat): (init: int)
    ensures bonus + 1 <= init <= bonus + 20
    ensures init - bonus == Face(rng, at, 20)
  {
    Face(rng, at, 20) + bonus
  }

  datatype AttackParts = AttackParts(atkBonus: int, abilityMod: int, profBonus: int, abilityName: string)

  /**
   * The parts of a weapon attack bonus: ranged uses DEX; finesse uses DEX unless STR has the
   * strictly larger modifier; otherwise STR.
   */
  function AttackBonusParts(u: Unit): (p: AttackParts)
    reads u.baseStats
    ensures p.atkBonus == u.baseStats.AttackBonus()
    ensures p.atkBonus == p.abilityMod + p.profBonus && p.profBonus == u.baseStats.proficiencyBonus
    ensures p.abilityName == "DEX" || p.abilityName == "STR"
    ensures p.abilityName == "DEX" ==> p.abilityMod == Mod(u.baseStats.dex)
    ensures p.abilityName == "STR" ==> p.abilityMod == Mod(u.baseStats.str)
    ensures u.baseStats.isRanged ==> p.abilityName == "DEX"
    ensures !u.baseStats.isRanged && !u.baseStats.finesse ==> p.abilityName == "STR"
    ensures !u.baseStats.isRanged && u.baseStats.finesse ==>
              (p.abilityName == "DEX" <==> Mod(u.baseStats.dex) >= Mod(u.baseStats.str))
  {
    var s := u.baseStats;
    var (score, name) :=
      if s.isRanged then (s.dex, "DEX")
      else if s.finesse then (if Mod(s.dex) >= Mod(s.str) then (s.dex, "DEX") else (s.str, "STR"))
      else (s.str, "STR");
    AttackParts(Mod(score) + s.proficiencyBonus, Mod(score), s.proficiencyBonus, name)
  }

  /** The outcome of one attack roll: hit, critical, damage dealt and the next unread draw. */
  datatype Attack = Attack(hit: bool, crit: bool, damage: int, next: nat)

  /**
   * A d20 attack against armour class `ac`: a natural 20 is a critical and always hits,
   * otherwise it hits when d20 + bonus reaches the AC. A miss reads no damage dice. A hit
   * reads the dice pool once, a critical twice over, and `flat` is added once; the damage
   * is at least 1.
   */
  function AttackRoll(rng: Rng, at: nat, atkBonus: int, ac: int, pool: Dice, flat: int): (a: Attack)
    ensures a.crit <==> Face(rng, at, 20) == 20
    ensures a.hit <==> a.crit || Face(rng, at, 20) + atkBonus >= ac
    ensures !a.hit ==> a.damage == 0 && a.next == at + 1
    ensures a.hit ==> a.damage >= 1
    ensures a.hit ==> a.next == at + 1 + (if a.crit then Max(0, pool.x) + Max(0, pool.x) else Max(0, pool.x))
  {
    var d20 := Face(rng, at, 20);
    var crit := d20 == 20;
    if !(crit || d20 + atkBonus >= ac) then Attack(false, crit, 0, at + 1)
    else
      var n := Max(0, pool.x);
      var dice := if crit then n + n else n;
      Attack(true, crit, Max(1, SumDraws(rng, at + 1, dice, pool.y) + flat), at + 1 + dice)
  }

  /**
   * A hit rolls the pool once, and a critical rolls it again from where the first roll
   * stopped; the bonus is added once and the damage is at least 1.
   */
  lemma HitRollsPool(rng: Rng, at: nat, atkBonus: int, ac: int, pool: Dice, flat: int)
    requires AttackRoll(rng, at, atkBonus, ac, pool, flat).hit
    ensures var n := Max(0, pool.x);
            var crit := Face(rng, at, 20) == 20;
            AttackRoll(rng, at, atkBonus, ac, pool, flat) ==
              Attack(true, crit,
                     Max(1, SumDraws(rng, at + 1, pool.x, pool.y)
                            + (if crit then SumDraws(rng, at + 1 + n, pool.x, pool.y) else 0) + flat),
                     at + 1 + (if crit then n + n else n))
  {
    SumDrawsSplit(rng, at + 1, Max(0, pool.x), Max(0, pool.x), pool.y);
  }

  /** A larger attack bonus never turns a hit into a miss, and a larger AC never turns a miss into a hit. */
  lemma AttackHitMonotone(rng: Rng, at: nat, b1: int, b2: int, ac1: int, ac2: int, pool: Dice, flat: int)
    requires b1 <= b2 && ac2 <= ac1
    ensures AttackRoll(rng, at, b1, ac1, pool, flat).hit ==> AttackRoll(rng, at, b2, ac2, pool, flat).hit
  {
  }

  /** With well-formed dice the damage of a hit is at most the pool's maximum (doubled on a critical) plus the bonus. */
  lemma AttackDamageBounds(rng: Rng, at: nat, atkBonus: int, ac: int, pool: Dice, flat: int)
    requires pool.x >= 0 && pool.y >= 1
    ensures var a := AttackRoll(rng, at, atkBonus, ac, pool, flat);
            a.hit && !a.crit ==> a.damage <= Max(1, pool.x * pool.y + flat)
    ensures var a := AttackRoll(rng, at, atkBonus, ac, pool, flat);
            a.hit && a.crit ==> a.damage <= Max(1, 2 * pool.x * pool.y + flat)
    ensures var a := AttackRoll(rng, at, atkBonus, ac, pool, flat);
            a.hit ==> a.damage >= Max(1, pool.x + flat)
  {
    SumDrawsBounds(rng, at + 1, pool.x, pool.y);
    SumDrawsBounds(rng, at + 1, 2 * pool.x, pool.y);
    assert 2 * pool.x * pool.y == (2 * pool.x) * pool.y;
  }

  /** Weapon attack of `attacker` against `defender`, with the attacker's weapon dice and damage bonus. */
  method TryAttack(attacker: Unit, defender: Unit, rng: Rng, at: nat) returns (a: Attack)
    ensures a == AttackRoll(rng, at, attacker.baseStats.AttackBonus(), defender.baseStats.armourClass,
                            attacker.baseStats.damage, attacker.baseStats.damageBonus)
  {
    var d20 := Face(rng, at, 20);
    var parts := AttackBonusParts(attacker);
    var totalAtk := d20 + parts.atkBonus;
    var crit := d20 == 20;
    var hit := crit || totalAtk >= defender.baseStats.armourClass;
    if !hit {
      return Attack(false, crit, 0, at + 1);
    }
    var s := attacker.baseStats;
    var sum, cursor := RollDice(s.damage, rng, at + 1);
    var critSum := 0;
    if crit {
      critSum, cursor := RollDice(s.damage, rng, cursor);
    }
    HitRollsPool(rng, at, s.AttackBonus(), defender.baseStats.armourClass, s.damage, s.damageBonus);
    a := Attack(true, crit, Max(1, sum + critSum + s.damageBonus), cursor);
  }

  /**
   * The ability bonus a damaging spell adds, as written: for a caster, spell attack bonus
   * minus proficiency, which is meant to be the casting modifier.
   */
  function SpellDamageBonusAsWritten(s: Stats, spell: SpellDef): (b: int)
    reads s
    ensures !(spell.addAbilityToDmg && s.isCaster) ==> b == 0
    ensures spell.addAbilityToDmg && s.HasSpellcasting() ==> b == s.CastingMod()
    ensures spell.addAbilityToDmg && s.isCaster && s.castingAbility == CastingAbility.None ==> b == -s.proficiencyBonus
  {
    if spell.addAbilityToDmg && s.isCaster then s.SpellModAsWritten() else 0
  }

  /** The ability bonus a damaging or healing spell adds: the casting modifier of a caster, else 0. */
  function SpellDamageBonus(s: Stats, spell: SpellDef): (b: int)
    reads s
    ensures !(spell.addAbilityToDmg && s.isCaster) ==> b == 0
    ensures spell.addAbilityToDmg && s.isCaster ==> b == s.CastingMod()
    ensures s.HasSpellcasting() ==> b == SpellDamageBonusAsWritten(s, spell)
  {
    if spell.addAbilityToDmg && s.isCaster then s.SpellAbilityBonus() else 0
  }

  /**
   * The as-written bonus subtracts the proficiency bonus from a caster that has no casting
   * ability, where the casting modifier is 0.
   */
  lemma AsWrittenBonusNegativeWithoutAbility(s: Stats, spell: SpellDef)
    requires spell.addAbilityToDmg && s.isCaster && s.castingAbility == CastingAbility.None
    ensures SpellDamageBonusAsWritten(s, spell) == -s.proficiencyBonus
    ensures SpellDamageBonus(s, spell) == 0
  {
  }

  /**
   * The flat part of a spell attack's damage: the ability bonus plus the spell's flat bonus
   * once per dart (at least one).
   */
  function SpellFlat(spell: SpellDef, ability: int): int
  {
    ability + spell.flatBonus * Max(1, spell.darts)
  }

  /** Spell attack of `caster` with `spell` against `target`. */
  method TrySpellAttack(caster: Unit, target: Unit, spell: SpellDef, rng: Rng, at: nat) returns (a: Attack)
    ensures a == AttackRoll(rng, at, caster.baseStats.SpellAttackBonus(), target.baseStats.armourClass,
                            Dice(spell.diceCount, spell.diceSides), SpellFlat(spell, SpellDamageBonus(caster.baseStats, spell)))
  {
    var d20 := Face(rng, at, 20);
    var atkBonus := caster.baseStats.SpellAttackBonus();
    var crit := d20 == 20;
    var hit := crit || d20 + atkBonus >= target.baseStats.armourClass;
    if !hit {
      return Attack(false, crit, 0, at + 1);
    }
    var sum, cursor := RollDice(Dice(spell.diceCount, spell.diceSides), rng, at + 1);
    var extra := 0;
    if crit {
      extra, cursor := RollDice(Dice(spell.diceCount, spell.diceSides), rng, cursor);
    }
    var abilityBonus := 0;
    if spell.addAbilityToDmg && caster.baseStats.isCaster {
      abilityBonus := caster.baseStats.SpellAbilityBonus();
    }
    assert abilityBonus == SpellDamageBonus(caster.baseStats, spell);
    var flat := abilityBonus + spell.flatBonus * Max(1, spell.darts);
    HitRollsPool(rng, at, atkBonus, target.baseStats.armourClass, Dice(spell.diceCount, spell.diceSides), flat);
    a := Attack(true, crit, Max(1, sum + extra + flat), cursor);
  }

  /**
   * An auto-hit volley: max(1, darts) darts, each one die of the spell's sides plus the flat
   * bonus. Returns the total and the next unread draw.
   */
  method ResolveMagicMissile(spell: SpellDef, rng: Rng, at: nat) returns (total: int, next: nat)
    ensures var darts := Max(1, spell.darts);
            total == SumDraws(rng, at, darts, spell.diceSides) + darts * spell.flatBonus &&
            next == at + darts
    ensures spell.flatBonus >= 0 ==> total >= Max(1, spell.darts)
  {
    var darts := Max(1, spell.darts);
    total := 0;
    var i := 0;
    while i < darts
      invariant 0 <= i <= darts
      invariant total == SumDraws(rng, at, i, spell.diceSides) + i * spell.flatBonus
    {
      var r := Face(rng, at + i, spell.diceSides) + spell.flatBonus;
      total := total + r;
      assert (i + 1) * spell.flatBonus == i * spell.flatBonus + spell.flatBonus;
      i := i + 1;
    }
    next := at + darts;
  }

  /** The target's modifier for a saving throw of the given kind; 0 for none. */
  function SaveMod(s: Stats, save: SaveType): (m: int)
    reads s
    ensures save == SaveType.None ==> m == 0
    ensures save == SaveType.STR ==> m == Mod(s.str)
    ensures save == SaveType.DEX ==> m == Mod(s.dex)
    ensures save == SaveType.CON ==> m == Mod(s.con)
    ensures save == SaveType.INT ==> m == Mod(s.intel)
    ensures save == SaveType.WIS ==> m == Mod(s.wis)
    ensures save == SaveType.CHA ==> m == Mod(s.cha)
  {
    match save
    case STR => Mod(s.str)
    case DEX => Mod(s.dex)
    case CON => Mod(s.con)
    case INT => Mod(s.intel)
    case WIS => Mod(s.wis)
    case CHA => Mod(s.cha)
    case None => 0
  }

  /** The outcome of a saving-throw spell: damage, whether the target saved, and the next unread draw. */
  datatype SaveOutcome = SaveOutcome(damage: int, saved: bool, next: nat)

  /**
   * The target rolls d20 + its save modifier against the DC. A save against a spell without
   * half damage deals 0 and reads no damage dice; a save against a half-damage spell deals
   * half the dice (at least 1); a failed save deals the full dice.
   */
  function SaveRoll(rng: Rng, at: nat, dc: int, saveMod: int, spell: SpellDef): (o: SaveOutcome)
    ensures o.saved <==> Face(rng, at, 20) + saveMod >= dc
    ensures o.saved && !spell.halfOnSave ==> o.damage == 0 && o.next == at + 1
    ensures !(o.saved && !spell.halfOnSave) ==> o.next == at + 1 + Max(0, spell.diceCount)
    ensures o.saved && spell.halfOnSave ==>
              o.damage == Max(1, SumDraws(rng, at + 1, spell.diceCount, spell.diceSides) / 2)
    ensures !o.saved ==> o.damage == SumDraws(rng, at + 1, spell.diceCount, spell.diceSides)
    ensures o.damage >= 0
  {
    var d20 := Face(rng, at, 20);
    var saved := d20 + saveMod >= dc;
    if saved && !spell.halfOnSave then SaveOutcome(0, true, at + 1)
    else
      var sum := SumDraws(rng, at + 1, spell.diceCount, spell.diceSides);
      SaveOutcome(if saved then Max(1, TruncDiv(sum, 2)) else sum, saved, at + 1 + Max(0, spell.diceCount))
  }

  /** For the same draws, a successful save never deals more than a failed one when the spell rolls dice. */
  lemma SavedNeverWorse(rng: Rng, at: nat, dc1: int, dc2: int, saveMod: int, spell: SpellDef)
    requires spell.diceCount >= 1 && spell.diceSides >= 1
    requires SaveRoll(rng, at, dc1, saveMod, spell).saved && !SaveRoll(rng, at, dc2, saveMod, spell).saved
    ensures SaveRoll(rng, at, dc1, saveMod, spell).damage <= SaveRoll(rng, at, dc2, saveMod, spell).damage
  {
  }

  /** Saving-throw spell cast by `caster` on `target`, against the caster's spell save DC. */
  method ResolveSaveSpell(caster: Unit, target: Unit, spell: SpellDef, rng: Rng, at: nat) returns (o: SaveOutcome)
    ensures o == SaveRoll(rng, at, caster.baseStats.SpellSaveDC(), SaveMod(target.baseStats, spell.save), spell)
  {
    var dc := caster.baseStats.SpellSaveDC();
    var saveMod := SaveMod(target.baseStats, spell.save);
    var d20 := Face(rng, at, 20);
    var saved := d20 + saveMod >= dc;
    if saved && !spell.halfOnSave {
      return SaveOutcome(0, true, at + 1);
    }
    var sum, cursor := RollDice(Dice(spell.diceCount, spell.diceSides), rng, at + 1);
    if saved && spell.halfOnSave {
      sum := Max(1, TruncDiv(sum, 2));
    }
    o := SaveOutcome(sum, saved, cursor);
  }

  /** A non-spell heal: the caster's heal dice, at least 1. */
  method RollHeal(caster: Unit, rng: Rng, at: nat) returns (heal: int, next: nat)
    ensures heal == Max(1, SumDraws(rng, at, caster.baseStats.healAmount.x, caster.baseStats.healAmount.y))
    ensures heal >= 1
    ensures next == at + Max(0, caster.baseStats.healAmount.x)
  {
    var rolled: int;
    rolled, next := RollDice(caster.baseStats.healAmount, rng, at);
    heal := Max(1, rolled);
  }

  /**
   * Spell parameters scaled for the caster: a scaling cantrip multiplies its dice by the
   * cantrip tier; a slot-scaling levelled spell gains its per-slot extras for every slot
   * level above the first of the estimated slot.
   */
  method GetScaledParams(def: SpellDef, cls: ClassId, level: int)
    returns (diceCount: int, diceSides: int, flat: int, darts: int)
    ensures diceSides == def.diceSides
    ensures def.level == 0 && def.cantripScalesDice ==> diceCount == def.diceCount * CantripTier(level)
    ensures def.level >= 1 && def.scalesWithSlot ==>
              var above := EstimatedSlotLevel(cls, level) - 1;
              diceCount == def.diceCount + def.extraDicePerSlot * above &&
              darts == def.darts + def.extraDartsPerSlot * above &&
              flat == def.flatBonus + def.extraFlatPerSlot * above
    ensures !(def.level == 0 && def.cantripScalesDice) && !(def.level >= 1 && def.scalesWithSlot) ==>
              diceCount == def.diceCount && darts == def.darts && flat == def.flatBonus
    ensures def.level == 0 ==> darts == def.darts && flat == def.flatBonus
  {
    diceCount := def.diceCount;
    diceSides := def.diceSides;
    flat := def.flatBonus;
    darts := def.darts;

    if def.level == 0 && def.cantripScalesDice {
      var tier := CantripTier(level);
      diceCount := diceCount * Max(1, tier);
    }

    if def.level >= 1 && def.scalesWithSlot {
      var slot := EstimatedSlotLevel(cls, level);
      var above := Max(0, slot - 1);
      if def.extraDartsPerSlot != 0 { darts := darts + def.extraDartsPerSlot * above; }
      if def.extraDicePerSlot != 0 { diceCount := diceCount + def.extraDicePerSlot * above; }
      if def.extraFlatPerSlot != 0 { flat := flat + def.extraFlatPerSlot * above; }
    }
  }
}
