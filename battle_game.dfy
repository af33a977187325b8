/**
 * Battle setup: spawning a combatant from its roster record, loading its class spellbook
 * and casting ability, capping the spellbook by level, equipping its weapon and shield,
 * and finally initialising every combatant. The rule tables (spells, weapons, class
 * spellbooks) are parameters.
 */
module Setup {
  import opened Mathf
  import opened Catalog
  import opened SpellRules
  import opened StatBlock
  import opened Combatant
  import opened Weapons

  /** The per-class spell lists, before any capping by level. */
  type Spellbooks = ClassId -> seq<KnownSpell>

  /** A roster entry: a hero of the party or an enemy of the encounter. */
  datatype Recruit = Recruit(
    name: string, cls: ClassId, level: int,
    maxHP: int, armourClass: int,
    str: int, dex: int, con: int, intel: int, wis: int, cha: int,
    weaponId: string, twoHands: bool, shield: bool, isRanged: bool,
    canHeal: bool, healDice: Dice, healThreshold: real)

  /** Every spawned unit gets one action per turn and +2 initiative. */
  const SpawnActions := 1
  const SpawnInitiativeBonus := 2
  /** Attack range before a weapon is equipped, in decimetres: 6.5 m ranged, 2.2 m melee. */
  const SpawnRangedReachDm := 65
  const SpawnMeleeReachDm := 22

  /** The ability a class casts with: WIS, CHA or INT by class group, none for the rest. */
  function CastingAbilityFor(cls: ClassId): (a: CastingAbility)
    ensures a == CastingAbility.WIS <==> cls == Cleric || cls == Druid || cls == Paladin
    ensures a == CastingAbility.CHA <==> cls == Bard || cls == Sorcerer || cls == Warlock
    ensures a == CastingAbility.INT <==> cls == Wizard || cls == Artificer || cls == Rogue || cls == Fighter
    ensures a == CastingAbility.None <==> cls == Barbarian || cls == Monk || cls == Ranger
  {
    match cls
    case Cleric | Druid | Paladin => CastingAbility.WIS
    case Bard | Sorcerer | Warlock => CastingAbility.CHA
    case Wizard | Artificer | Rogue | Fighter => CastingAbility.INT
    case _ => CastingAbility.None
  }

  /**
   * A ranger follows the half-caster progression but is given no casting ability, so once
   * it can cast at all its spell attack bonus is 0 and its save DC 10.
   */
  lemma RangerCastsWithoutAbility()
    ensures ProgressionFor(Ranger) == Half
    ensures CastingAbilityFor(Ranger) == CastingAbility.None
    ensures AllowedAtLevel(Ranger, 2).l1 > 0
  {
  }

  /**
   * A level-1 half caster is a caster as soon as its class list is non-empty, yet its
   * capped spellbook is empty.
   */
  lemma {:induction false} LevelOneHalfCasterKeepsNoSpells(table: SpellTable, cls: ClassId, list: seq<KnownSpell>)
    requires ProgressionFor(cls) == Half
    ensures Trimmed(table, AllowedAtLevel(cls, 1), list) == []
  {
    var caps := AllowedAtLevel(cls, 1);
    assert caps == Caps(0, 0, 0, 0);
    assert Take(OfTier(table, list, 0), 0) == [];
    assert Take(OfTier(table, list, 1), 0) == [];
    assert Take(OfTier(table, list, 2), 0) == [];
    assert Take(OfTier(table, list, 3), 0) == [];
  }

  /** A fresh stat block and unit carrying the roster record's data, before any rules are applied. */
  method SpawnUnit(r: Recruit, isPlayerControlled: bool) returns (u: Unit)
    ensures fresh(u) && fresh(u.baseStats)
    ensures u.isPlayerControlled == isPlayerControlled
    ensures u.currentHP == 0 && u.remainingActions == 0
    ensures var s := u.baseStats;
            s.displayName == r.name && s.maxHP == r.maxHP && s.armourClass == r.armourClass &&
            s.damage == Dice(1, 6) && s.damageBonus == 0 &&
            s.attackRange == (if r.isRanged then SpawnRangedReachDm else SpawnMeleeReachDm) &&
            s.actionsPerTurn == SpawnActions && s.initiativeBonus == SpawnInitiativeBonus &&
            s.canHeal == r.canHeal && s.healAmount == r.healDice && s.healThreshold == r.healThreshold
    ensures var s := u.baseStats;
            s.str == r.str && s.dex == r.dex && s.con == r.con &&
            s.intel == r.intel && s.wis == r.wis && s.cha == r.cha &&
            s.isRanged == r.isRanged && s.proficiencyBonus == 2 && !s.finesse && !s.usingTwoHands &&
            s.classId == r.cls && !s.isCaster && s.castingAbility == CastingAbility.None && s.knownSpells == [] &&
            s.weaponId == "" && s.weaponName == ""
  {
    var s := new Stats.Initialised(r.name, r.maxHP, r.armourClass, Dice(1, 6), 0,
                                   if r.isRanged then SpawnRangedReachDm else SpawnMeleeReachDm,
                                   SpawnActions, SpawnInitiativeBonus, r.canHeal, r.healDice, r.healThreshold,
                                   r.str, r.dex, r.con, r.intel, r.wis, r.cha, r.isRanged, 2, r.cls);
    u := new Unit(s, isPlayerControlled);
  }

  /** Loads the class spell list uncapped, marks a caster by a non-empty list, and picks the casting ability. */
  method PostSpawnClassSetup(u: Unit, books: Spellbooks)
    modifies u.baseStats`knownSpells, u.baseStats`isCaster, u.baseStats`castingAbility
    ensures u.baseStats.knownSpells == books(u.baseStats.classId)
    ensures u.baseStats.isCaster <==> |books(u.baseStats.classId)| > 0
    ensures u.baseStats.castingAbility == CastingAbilityFor(u.baseStats.classId)
  {
    var s := u.baseStats;
    s.knownSpells := books(s.classId);
    s.isCaster := |s.knownSpells| > 0;
    s.castingAbility := CastingAbilityFor(s.classId);
  }

  /**
   * Equips a weapon and applies the derived rules: a shield rules out two-handed use, the
   * damage bonus is the attack ability's modifier, a shield with a melee weapon adds 2 AC,
   * and the requested id is recorded even when the table does not know it.
   */
  method EquipWeapon(u: Unit, weapons: WeaponTable, weaponId: string, twoHands: bool, shield: bool)
    modifies u.baseStats`damage, u.baseStats`isRanged, u.baseStats`attackRange, u.baseStats`finesse
    modifies u.baseStats`weaponId, u.baseStats`weaponName, u.baseStats`damageBonus, u.baseStats`armourClass
    ensures var s := u.baseStats;
            weaponId in weapons ==>
              var w := weapons[weaponId];
              s.damage == DiceOf(w, twoHands && !shield) && s.isRanged == w.isRanged &&
              s.attackRange == ReachOf(w) && s.finesse == w.finesse && s.weaponName == w.name
    ensures var s := u.baseStats;
            weaponId !in weapons ==>
              s.damage == old(s.damage) && s.isRanged == old(s.isRanged) &&
              s.attackRange == old(s.attackRange) && s.finesse == old(s.finesse) &&
              s.weaponName == old(s.weaponName)
    ensures u.baseStats.weaponId == weaponId
    ensures u.baseStats.damageBonus == u.baseStats.AttackBonus() - u.baseStats.proficiencyBonus
    ensures u.baseStats.armourClass ==
              old(u.baseStats.armourClass) + (if shield && !u.baseStats.isRanged then 2 else 0)
  {
    var s := u.baseStats;
    var hands := twoHands;
    if shield {
      hands := false;
    }
    Equip(s, weapons, weaponId, hands);

    var strMod := Mod(s.str);
    var dexMod := Mod(s.dex);
    if s.isRanged {
      s.damageBonus := dexMod;
    } else if s.finesse {
      s.damageBonus := Max(strMod, dexMod);
    } else {
      s.damageBonus := strMod;
    }

    if shield && !s.isRanged {
      s.armourClass := s.armourClass + 2;
    }

    s.weaponId := weaponId;
    if weaponId in weapons {
      s.weaponName := weapons[weaponId].name;
    }
  }

  /**
   * The rules applied to one freshly spawned combatant, in the order the battle uses:
   * proficiency from level, class spellbook and casting ability, spellbook capped by level,
   * then the weapon.
   */
  method SetUpCombatant(u: Unit, r: Recruit, spells: SpellTable, weapons: WeaponTable, books: Spellbooks)
    modifies u.baseStats`proficiencyBonus, u.baseStats`knownSpells, u.baseStats`isCaster, u.baseStats`castingAbility
    modifies u.baseStats`damage, u.baseStats`isRanged, u.baseStats`attackRange, u.baseStats`finesse
    modifies u.baseStats`weaponId, u.baseStats`weaponName, u.baseStats`damageBonus, u.baseStats`armourClass
    ensures u.baseStats.proficiencyBonus == ProficiencyForLevel(r.level)
    ensures u.baseStats.isCaster <==> |books(u.baseStats.classId)| > 0
    ensures u.baseStats.castingAbility == CastingAbilityFor(u.baseStats.classId)
    ensures u.baseStats.knownSpells ==
              Trimmed(spells, AllowedAtLevel(u.baseStats.classId, r.level), books(u.baseStats.classId))
    ensures var s := u.baseStats;
            r.weaponId in weapons ==>
              var w := weapons[r.weaponId];
              s.damage == DiceOf(w, r.twoHands && !r.shield) && s.isRanged == w.isRanged &&
              s.attackRange == ReachOf(w) && s.finesse == w.finesse && s.weaponName == w.name
    ensures var s := u.baseStats;
            r.weaponId !in weapons ==>
              s.damage == old(s.damage) && s.isRanged == old(s.isRanged) &&
              s.attackRange == old(s.attackRange) && s.finesse == old(s.finesse) &&
              s.weaponName == old(s.weaponName)
    ensures u.baseStats.weaponId == r.weaponId
    ensures u.baseStats.damageBonus == u.baseStats.AttackBonus() - u.baseStats.proficiencyBonus
    ensures u.baseStats.armourClass ==
              old(u.baseStats.armourClass) + (if r.shield && !u.baseStats.isRanged then 2 else 0)
  {
    u.baseStats.proficiencyBonus := ProficiencyForLevel(r.level);
    LearnSpells(u, spells, books, r.level);
    EquipWeapon(u, weapons, r.weaponId, r.twoHands, r.shield);
  }

  /** The class spellbook and casting ability, then the spellbook capped by level. */
  method LearnSpells(u: Unit, spells: SpellTable, books: Spellbooks, level: int)
    modifies u.baseStats`knownSpells, u.baseStats`isCaster, u.baseStats`castingAbility
    ensures u.baseStats.isCaster <==> |books(u.baseStats.classId)| > 0
    ensures u.baseStats.castingAbility == CastingAbilityFor(u.baseStats.classId)
    ensures u.baseStats.knownSpells ==
              Trimmed(spells, AllowedAtLevel(u.baseStats.classId, level), books(u.baseStats.classId))
  {
    PostSpawnClassSetup(u, books);
    var capped := TrimToCaps(spells, u.baseStats.classId, level, u.baseStats.knownSpells);
    u.baseStats.knownSpells := capped;
  }

  /**
   * `u` as `Unit.Init` leaves it, given its stat block's scores, proficiency bonus, maximum
   * hit points and actions per turn before: the scores clamped for its side, the bonus
   * into 1..6, the maximum and allowance kept, and hit points and actions filled.
   */
  ghost predicate InitialisedFrom(u: Unit, str: int, dex: int, con: int, intel: int, wis: int, cha: int,
                                  prof: int, maxHP: int, actions: int)
    reads u, u.baseStats
  {
    var s := u.baseStats;
    var lo, hi := ScoreFloor(u.isPlayerControlled), ScoreCeiling(u.isPlayerControlled);
    s.str == Clamp(str, lo, hi) && s.dex == Clamp(dex, lo, hi) && s.con == Clamp(con, lo, hi) &&
    s.intel == Clamp(intel, lo, hi) && s.wis == Clamp(wis, lo, hi) && s.cha == Clamp(cha, lo, hi) &&
    s.proficiencyBonus == Clamp(prof, 1, 6) &&
    s.maxHP == maxHP && s.actionsPerTurn == actions &&
    u.currentHP == maxHP && u.remainingActions == actions
  }

  /**
   * Initialises every spawned unit in turn, before registration. Each spawned unit has a
   * stat block of its own. Each ends with its scores and proficiency bonus clamped, at full
   * hit points with its full allowance of actions, and so within the battle's bounds.
   */
  method InitAll(units: seq<Unit>)
    requires forall i, j :: 0 <= i < j < |units| ==> units[i].baseStats != units[j].baseStats
    modifies (set u | u in units :: u)`currentHP, (set u | u in units :: u)`remainingActions
    modifies (set u | u in units :: u.baseStats)`str, (set u | u in units :: u.baseStats)`dex
    modifies (set u | u in units :: u.baseStats)`con, (set u | u in units :: u.baseStats)`intel
    modifies (set u | u in units :: u.baseStats)`wis, (set u | u in units :: u.baseStats)`cha
    modifies (set u | u in units :: u.baseStats)`proficiencyBonus
    ensures forall u :: u in units ==>
              InitialisedFrom(u, old(u.baseStats.str), old(u.baseStats.dex), old(u.baseStats.con),
                              old(u.baseStats.intel), old(u.baseStats.wis), old(u.baseStats.cha),
                              old(u.baseStats.proficiencyBonus), old(u.baseStats.maxHP),
                              old(u.baseStats.actionsPerTurn))
    ensures forall u :: u in units && 1 <= u.baseStats.maxHP && 0 <= u.baseStats.actionsPerTurn ==> u.Valid()
  {
    for i := 0 to |units|
      invariant forall j :: 0 <= j < i ==>
                  InitialisedFrom(units[j], old(units[j].baseStats.str), old(units[j].baseStats.dex),
                                  old(units[j].baseStats.con), old(units[j].baseStats.intel),
                                  old(units[j].baseStats.wis), old(units[j].baseStats.cha),
                                  old(units[j].baseStats.proficiencyBonus), old(units[j].baseStats.maxHP),
                                  old(units[j].baseStats.actionsPerTurn))
      invariant forall j :: i <= j < |units| ==> unchanged(units[j].baseStats)
    {
      assert units[i].baseStats in set u | u in units :: u.baseStats;
      units[i].Init();
    }
  }
}
