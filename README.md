# Turn-based combat rules engine, modelled in Dafny

This project models the rules engine of a turn-based, D&D 5e-flavoured combat simulator:

- **Stat derivation**: ability modifiers, the weapon attack bonus, the spell attack bonus, the save DC, and score clamping.
- **Combatant state**: hit points and actions, and the mutators that clamp them.
- **Dice-based resolution**:
  - weapon attacks with criticals;
  - spell attacks;
  - auto-hit volleys;
  - saving-throw spells;
  - heals.
- **Spell-list trimming**: a class spell list is trimmed to the caps of its caster progression and level.
- **Proficiency, cantrip tier and "effective slot" tables.**
- **Weapon and shield equipping.**
- **The per-action decision policy**: a strict priority cascade.
- **The initiative scheduler**: a stable descending initiative sort, a rotating round queue, and the battle-over check.

One Dafny module per source file, plus three shared modules:

| module | models |
|---|---|
| `Mathf` | the integer `Mathf` helpers (clamp, max, min) and C#'s truncating division |
| `Catalog` | class ids, spell-list entries, dice, the spell definition record |
| `Select` | the `Where(..).OrderBy(..).ThenByDescending(..).First()` idiom |
| `SpellRules` | `Rules/SpellRules.cs` |
| `StatBlock` | `Stats.cs` (a class with the stat block's fields) |
| `Combatant` | `Unit.cs` (a class whose methods update hit points and actions) |
| `Resolver` | `CombatResolver.cs` |
| `Weapons` | `Weapons.cs` |
| `Setup` | `BattleGame.cs` (setting up spawned units) |
| `Policy` | `SimpleAI.cs` |
| `Scheduler` | `TurnManager.cs` (a class with the unit list, the queue and the round flag) |

**Randomness.** The random generator becomes an explicit stream `rng: nat -> nat` and a cursor `at`.
- A die of `sides` faces shows `1 + rng(at) % sides`, so every face lies in `1..sides` by construction.
- Each resolution function returns the next unread position. Every outcome is therefore a deterministic function of the stream.

**Distances.** Distances are abstract non-negative integers (decimetres), supplied per action by a `Distance` function. Weapon and spell ranges are integers in the same unit: 2.2 m is 22, 3.5 m is 35, 7 m is 70 and 6.5 m is 65.

**Health fractions.** Health fractions are exact reals.

**Static tables.** The spell table, the weapon table and the class spellbooks are parameters of the model.

**Proof structure.** The decision is split from its execution:
- `Policy.Decide` is a pure function of what the unit sees.
- `Policy.TakeAction` carries the decision out on the units.
- `Scheduler.TurnManager` runs rounds over a `seq<Unit>` queue.
- The scheduler's methods carry the battle invariants: every unit keeps 0 <= HP <= max, and the dead stay dead. These hold for the model, which heals with the corrected spell heal (see "## Findings"). The program's own heal can take a unit below 0 HP. The scheduler's methods also carry the battle-over postconditions.

**Mutual wipe-out.** `BattleOver` reports "Enemies" whenever no player unit is alive, so on a mutual wipe-out the enemies win (`TurnManager.cs:117`, `Scheduler.MutualWipeOutGoesToEnemies`).

## Model

| member | source | states |
|---|---|---|
| Mathf.TruncDiv | Assets/Scripts/CombatResolver.cs:240 | C# `/` on ints truncates toward zero: the quotient has the dividend's sign (or is 0), and the remainder a - d*q has the dividend's sign and is smaller than the divisor in magnitude |
| Mathf.ClampIdempotent | Assets/Scripts/Stats.cs:112-125 | clamping an already clamped value changes nothing, so a second `ClampFor` with the same side leaves every score and the proficiency bonus as the first left them |
| Select.FirstBest | Assets/Scripts/SimpleAI.cs:106-114 | the element a stable `Where/OrderBy/ThenByDescending/First` query returns: it passes the filter, none exists iff no element passes, no passing element is ordered strictly before it, and it is strictly ahead of every earlier passing element |
| SpellRules.CapsTable | Assets/Scripts/Rules/SpellRules.cs:30-90 | every progression's caps table has the eleven rows 0..10, and row 0 is all zero |
| SpellRules.CapsRowIsTableRow | Assets/Scripts/Rules/SpellRules.cs:30-90 | the per-level case analysis the rules use is exactly row `lvl` of the table for every level 1..10 |
| SpellRules.AllowedAtLevelClamps | Assets/Scripts/Rules/SpellRules.cs:92-97 | the caps of a level 1..10 are that row of the class's progression table; any level of 10 or more gets row 10 and any level of 1 or less gets row 1 |
| SpellRules.Take | Assets/Scripts/Rules/SpellRules.cs:113-116 | a bucket filled under a cap is a prefix of the candidates, no longer than the cap, and as long as the cap allows |
| SpellRules.BucketStep | Assets/Scripts/Rules/SpellRules.cs:108-117 | scanning one more entry appends it to its tier's candidates only when the table puts it at that tier (relabelled with the table's level), and to the capped bucket only while the bucket is under its cap |
| SpellRules.Fill | Assets/Scripts/Rules/SpellRules.cs:110-116 | after one entry is scanned, a bucket holding the capped first entries of its tier still does, for the list one entry longer |
| SpellRules.TrimToCaps | Assets/Scripts/Rules/SpellRules.cs:100-123 | the result is, for each tier 0, 1, 2, 3 in turn, the first entries of that table level in input order within that tier's cap for the class and level |
| SpellRules.OfTierLevelled | Assets/Scripts/Rules/SpellRules.cs:110-116 | every entry kept for a tier is a spell of the table whose table level is that tier, and is listed with that level |
| SpellRules.OfTierConcat | Assets/Scripts/Rules/SpellRules.cs:108-118 | scanning two lists one after the other puts in a tier's bucket the candidates of the first followed by those of the second |
| SpellRules.TrimmedGrouped | Assets/Scripts/Rules/SpellRules.cs:108-122 | the trimmed list holds only spells of the table, each listed at its table level, all of levels 0..3, grouped in non-decreasing level order (cantrips first) |
| SpellRules.TrimmedWithinCaps | Assets/Scripts/Rules/SpellRules.cs:113-116 | the trimmed list holds at most `can` cantrips and at most `l1`/`l2`/`l3` spells of levels 1/2/3 |
| SpellRules.TrimmedIdempotent | Assets/Scripts/Rules/SpellRules.cs:100-123 | trimming an already trimmed list with the same caps returns it unchanged |
| SpellRules.TrimIgnoresListedLevel | Assets/Scripts/Rules/SpellRules.cs:110-116 | only the ids of the class list matter: two lists with the same ids trim alike whatever levels they claim |
| SpellRules.NonCasterTrimsToEmpty | Assets/Scripts/Rules/SpellRules.cs:76-89 | a class with no caster progression (Barbarian, Monk) trims every list to the empty list, at any level |
| SpellRules.ProficiencyForLevel | Assets/Scripts/Rules/SpellRules.cs:125-127 | the proficiency bonus lies in 2..6 for every level |
| SpellRules.ProficiencyMatchesSrd | Assets/Scripts/Rules/SpellRules.cs:125-127 | for levels 1..20 it equals the Character Advancement table of the D&D 5e SRD 5.1 (+2 at 1-4 up to +6 at 17-20) |
| SpellRules.ProficiencyMonotone | Assets/Scripts/Rules/SpellRules.cs:126-127 | the proficiency bonus never decreases as the level rises |
| SpellRules.CantripTier | Assets/Scripts/Rules/SpellRules.cs:132-139 | the cantrip tier lies in 1..4 |
| SpellRules.CantripTierMonotone | Assets/Scripts/Rules/SpellRules.cs:133-139 | the cantrip tier never decreases as the level rises |
| SpellRules.BaseSlot | Assets/Scripts/Rules/SpellRules.cs:146-158 | a full caster's slot lies in 1..9 |
| SpellRules.BaseSlotIsHalfLevel | Assets/Scripts/Rules/SpellRules.cs:146-158 | for levels of at least 1 the full-caster slot is half the level rounded up, at most 9 |
| SpellRules.EstimatedSlotLevel | Assets/Scripts/Rules/SpellRules.cs:143-168 | the effective slot level lies in 1..9 for every class and level |
| SpellRules.SlotTrails | Assets/Scripts/Rules/SpellRules.cs:160-167 | at one level a full caster's slot is at least a half caster's, which is at least a third caster's, which is at least 1; a non-caster's is 1 |
| SpellRules.SlotMonotone | Assets/Scripts/Rules/SpellRules.cs:143-168 | a class's effective slot never decreases as the level rises |
| StatBlock.Mod | Assets/Scripts/Stats.cs:65 | the modifier is the floor of (score - 10) / 2: 2m <= score - 10 < 2m + 2 |
| StatBlock.ModMonotone | Assets/Scripts/Stats.cs:65 | a higher score never has a lower modifier |
| StatBlock.Stats.constructor | Assets/Scripts/Stats.cs:16-62 | a new stat block holds the field initialisers: 10 HP, AC 12, 1d6, range 2.2 m, one action, +2 initiative, scores 10, proficiency 2, Fighter, no spells |
| StatBlock.Stats.Initialised | Assets/Scripts/BattleGame.cs:119-152 | a stat block built by the spawn's object initialiser holds exactly the given values, and the field initialisers for weapon id and name, finesse, two hands, the caster flag, casting ability and known spells |
| StatBlock.Stats.AttackBonus | Assets/Scripts/Stats.cs:67-76 | ranged: DEX modifier plus proficiency (ranged wins over finesse); finesse melee: the larger of the STR and DEX modifiers plus proficiency; other melee: STR modifier plus proficiency |
| StatBlock.Stats.CastingMod | Assets/Scripts/Stats.cs:97-109 | the modifier of exactly the ability named by the casting ability, and 0 for none |
| StatBlock.Stats.SpellAttackBonus | Assets/Scripts/Stats.cs:78-86 | 0 for a non-caster or a caster without a casting ability; otherwise the casting modifier plus proficiency |
| StatBlock.Stats.SpellSaveDC | Assets/Scripts/Stats.cs:88-95 | 10 without spellcasting; otherwise 8 plus the spell attack bonus |
| StatBlock.Stats.SpellAbilityBonus | Assets/Scripts/CombatResolver.cs:178-180 | the casting modifier alone (0 for no ability), which equals the as-written "spell attack bonus minus proficiency" whenever the unit has a casting ability |
| StatBlock.Stats.ClampFor | Assets/Scripts/Stats.cs:111-125 | each score becomes its clamp into 8..20 for a player unit or 1..30 otherwise, the proficiency bonus its clamp into 1..6; no other field changes |
| StatBlock.SaveDCIsEightPlusAttack | Assets/Scripts/Stats.cs:78-95 | for any stat block, the save DC is 8 plus the spell attack bonus with spellcasting, and 10 without |
| StatBlock.SpellModAsWrittenWithoutAbility | Assets/Scripts/Stats.cs:79-86 | for a caster with no casting ability, "spell attack bonus minus proficiency" is minus the proficiency bonus, while the casting modifier is 0 |
| Combatant.DamagedHP | Assets/Scripts/Unit.cs:32-34 | HP after damage is never negative, is 0 exactly when the damage reaches the HP, and otherwise is HP minus damage; non-negative damage never raises HP |
| Combatant.HealedHP | Assets/Scripts/Unit.cs:53-55 | HP after healing never exceeds the maximum, reaches it exactly when HP plus the amount does, and otherwise is HP plus the amount; a non-negative heal never lowers HP |
| Combatant.DamageComposes | Assets/Scripts/Unit.cs:32-34 | two hits in a row do what one hit of their total does; a unit at 0 HP stays at 0 |
| Combatant.HealComposes | Assets/Scripts/Unit.cs:53-55 | two heals in a row do what one heal of their total does |
| Combatant.HitPointBounds | Assets/Scripts/Unit.cs:32-55 | non-negative damage and healing keep HP within 0..maxHP |
| Combatant.Unit.constructor | Assets/Scripts/Unit.cs:3-8 | a new unit has its stat block and side, and 0 HP and 0 actions until initialised |
| Combatant.Unit.Init | Assets/Scripts/Unit.cs:13-20 | the stat block is clamped for the unit's side, then HP is set to the maximum and actions to the per-turn allowance; the unit is then within the battle's bounds |
| Combatant.Unit.BeginTurn | Assets/Scripts/Unit.cs:26 | actions become exactly the per-turn allowance; the bounds are kept |
| Combatant.Unit.ConsumeAction | Assets/Scripts/Unit.cs:28 | actions become max(0, actions - 1), exactly one fewer when any were left; the bounds are kept |
| Combatant.Unit.ReceiveDamage | Assets/Scripts/Unit.cs:32-34 | HP becomes `DamagedHP` of the old HP; non-negative damage keeps the bounds |
| Combatant.Unit.ReceiveHeal | Assets/Scripts/Unit.cs:53-55 | HP becomes `HealedHP` of the old HP; a non-negative heal keeps the bounds |
| Resolver.Face | Assets/Scripts/CombatResolver.cs:9 | a die of at least one side shows a face in 1..sides |
| Resolver.SumDraws | Assets/Scripts/CombatResolver.cs:11-16 | no dice total 0, and any dice total at least their count |
| Resolver.SumDrawsBounds | Assets/Scripts/CombatResolver.cs:11-16 | `count` dice of `sides` faces total between count and count * sides |
| Resolver.SumDrawsSplit | Assets/Scripts/CombatResolver.cs:105-120 | rolling `a` dice and then `b` more is rolling `a + b` dice, so a critical's second pool continues the stream |
| Resolver.RollDice | Assets/Scripts/CombatResolver.cs:11-16 | the loop's total is the sum of `x` dice of `y` sides read in order, one draw per die |
| Resolver.RollInitiative | Assets/Scripts/CombatResolver.cs:18 | initiative is a d20 plus the bonus, so it lies in bonus+1..bonus+20 |
| Resolver.AttackBonusParts | Assets/Scripts/CombatResolver.cs:23-51 | the parts sum to the stat block's attack bonus; DEX when ranged, STR for plain melee, and for finesse DEX unless STR's modifier is strictly larger |
| Resolver.AttackRoll | Assets/Scripts/CombatResolver.cs:54-121 | a natural 20 is a critical and always hits; otherwise hit iff d20 + bonus >= AC; a miss deals 0 and reads only the d20; a hit deals at least 1 and reads the pool once, twice on a critical |
| Resolver.HitRollsPool | Assets/Scripts/CombatResolver.cs:89-121 | a hit's damage is max(1, pool + second pool on a critical + the flat bonus once), the second pool read right after the first |
| Resolver.AttackHitMonotone | Assets/Scripts/CombatResolver.cs:62-65 | with the same d20, a larger bonus or a lower AC never turns a hit into a miss |
| Resolver.AttackDamageBounds | Assets/Scripts/CombatResolver.cs:89-121 | a hit deals between max(1, x + flat) and max(1, x*y + flat), or max(1, 2*x*y + flat) on a critical |
| Resolver.TryAttack | Assets/Scripts/CombatResolver.cs:54-133 | the weapon attack is `AttackRoll` with the attacker's attack bonus, the defender's AC, the weapon dice and the damage bonus |
| Resolver.SpellDamageBonusAsWritten | Assets/Scripts/CombatResolver.cs:178-180 | the bonus as the program computes it: 0 unless the spell adds the ability and the unit is a caster; the casting modifier for a caster with a casting ability; minus the proficiency bonus for a caster without one |
| Resolver.SpellDamageBonus | Assets/Scripts/CombatResolver.cs:178-180 | the ability bonus is 0 unless the spell adds it and the unit is a caster, then the casting modifier; it agrees with the as-written bonus whenever the unit has a casting ability |
| Resolver.AsWrittenBonusNegativeWithoutAbility | Assets/Scripts/CombatResolver.cs:178-180 | for a caster without a casting ability, the as-written bonus is minus the proficiency bonus, the corrected one 0 |
| Resolver.TrySpellAttack | Assets/Scripts/CombatResolver.cs:152-192 | the spell attack is `AttackRoll` with the spell attack bonus, the target's AC, the spell's dice, and the ability bonus plus flat bonus times max(1, darts) |
| Resolver.ResolveMagicMissile | Assets/Scripts/CombatResolver.cs:195-211 | max(1, darts) darts of one die each plus the flat bonus each; with a non-negative flat bonus the total is at least the number of darts |
| Resolver.SaveMod | Assets/Scripts/CombatResolver.cs:219-228 | the target's modifier for the named save ability, 0 for none |
| Resolver.SaveRoll | Assets/Scripts/CombatResolver.cs:214-244 | saved iff d20 + save modifier >= DC; saved without half deals 0 and reads no damage dice; saved with half deals max(1, dice/2); failed deals the full dice; never negative |
| Resolver.SavedNeverWorse | Assets/Scripts/CombatResolver.cs:237-240 | with the same draws, a successful save never deals more damage than a failed one |
| Resolver.ResolveSaveSpell | Assets/Scripts/CombatResolver.cs:214-244 | the save spell is `SaveRoll` against the caster's save DC with the target's modifier for the spell's save |
| Resolver.RollHeal | Assets/Scripts/CombatResolver.cs:247-260 | the heal is max(1, the heal dice), so at least 1 |
| Resolver.GetScaledParams | Assets/Scripts/CombatResolver.cs:266-291 | a scaling cantrip multiplies its dice by the cantrip tier; a slot-scaling levelled spell adds its per-slot extras times (slot - 1); anything else is unscaled; sides never change |
| Weapons.ReachOf | Assets/Scripts/Weapons.cs:104 | ranged gives 7 m, else reach 3.5 m, else 2.2 m |
| Weapons.DiceOf | Assets/Scripts/Weapons.cs:97-100 | the versatile dice iff the weapon is versatile and held in two hands, else the base dice |
| Weapons.HandsMatterOnlyForVersatile | Assets/Scripts/Weapons.cs:97-100 | for a weapon that is not versatile, holding it in two hands changes nothing |
| Weapons.Equip | Assets/Scripts/Weapons.cs:88-115 | an unknown id leaves the stat block unchanged; a known one sets dice, ranged flag, range class, finesse, id and name from the definition; no other field is touched |
| Setup.CastingAbilityFor | Assets/Scripts/BattleGame.cs:171-189 | WIS exactly for Cleric, Druid and Paladin; CHA exactly for Bard, Sorcerer and Warlock; INT exactly for Wizard, Artificer, Rogue and Fighter; none exactly for Barbarian, Monk and Ranger |
| Setup.RangerCastsWithoutAbility | Assets/Scripts/BattleGame.cs:171-189 | a ranger follows the half-caster progression and knows spells from level 2, yet gets no casting ability |
| Setup.LevelOneHalfCasterKeepsNoSpells | Assets/Scripts/BattleGame.cs:167-169 | a level-1 half caster whose class list is non-empty is marked a caster, yet its capped list is empty |
| Setup.SpawnUnit | Assets/Scripts/BattleGame.cs:106-161 | a fresh unit and stat block carrying the roster record, 1d6 and bonus 0, 6.5 m or 2.2 m range, one action, +2 initiative, proficiency 2, no finesse, no spells |
| Setup.PostSpawnClassSetup | Assets/Scripts/BattleGame.cs:164-190 | the known list is the untrimmed class list, the unit is a caster iff that list is non-empty, and the casting ability is the class's |
| Setup.EquipWeapon | Assets/Scripts/BattleGame.cs:193-221 | a shield rules out two hands; the weapon's fields as `Equip` sets them; damage bonus = attack bonus minus proficiency; AC +2 iff shield and melee; weapon id always the requested one |
| Setup.SetUpCombatant | Assets/Scripts/BattleGame.cs:57-63 | proficiency from level, the class's casting ability, the caster flag from the untrimmed list, the list trimmed to the level's caps; then the weapon: for a known id its dice (versatile only two-handed without a shield), ranged flag, reach, finesse and name, for an unknown id those fields kept; the requested id; damage bonus = attack bonus minus proficiency; AC +2 iff a shield with a melee weapon |
| Setup.LearnSpells | Assets/Scripts/BattleGame.cs:60-61 | the caster flag and casting ability from the class, and the known list trimmed from the class list |
| Setup.InitAll | Assets/Scripts/BattleGame.cs:98 | every spawned unit (each with its own stat block) ends as `Unit.Init` leaves it: its six scores clamped for its side, proficiency clamped into 1..6, maximum HP and actions per turn unchanged, full HP and full actions; so within the battle's bounds when its maximum is positive |
| Policy.HealthPct | Assets/Scripts/Unit.cs:30 | the health fraction clamped into 0..1: the fraction itself when already in range, and 0 for a unit at or below 0 HP |
| Policy.Look | Assets/Scripts/SimpleAI.cs:7 | the view of a unit list is one view per unit, in list order |
| Policy.Pick | Assets/Scripts/SimpleAI.cs:106-114 | the candidate a stable filtered query returns: lowest key, then highest tie-break, then earliest |
| Policy.NearestEnemy | Assets/Scripts/SimpleAI.cs:11-14 | a living enemy at least as near as every living enemy and strictly nearer than every earlier one; none iff no enemy lives |
| Policy.LowestAlly | Assets/Scripts/SimpleAI.cs:20 | a living ally whose clamped health fraction is the lowest, earliest on a tie; none iff no ally lives |
| Policy.WeaponTarget | Assets/Scripts/SimpleAI.cs:106-114 | a living enemy within weapon range that no other such enemy beats on lower unclamped fraction, then on higher target threat, and that beats every earlier one; none iff no living enemy is in range |
| Policy.ChooseSpell | Assets/Scripts/SimpleAI.cs:23-27 | a known spell the table defines and the query accepts, of least cost (heals: dice count times sides; others: level), earliest among equals; none iff no known spell qualifies |
| Policy.Chosen | Assets/Scripts/SimpleAI.cs:45-49 | the picked definition passes the query's filter, and has a non-negative flat bonus when the table has none negative |
| Policy.SpellStep | Assets/Scripts/SimpleAI.cs:17-88 | what the spell branch picks is a spell decision aimed within the unit lists |
| Policy.SpellStepHeal | Assets/Scripts/SimpleAI.cs:20-29 | the emergency heal fires iff the weakest living ally is at or below 45 % and the cheapest known heal reaches it |
| Policy.SpellHealTarget | Assets/Scripts/SimpleAI.cs:20-40 | when it fires, it heals that weakest living ally with that cheapest heal spell, which is in range |
| Policy.SpellStepDamage | Assets/Scripts/SimpleAI.cs:44-88 | damaging spells go to the nearest living enemy in the order auto-hit, spell attack, save, each lowest-level and only when in range and the earlier ones are not; nothing is cast iff no branch applies |
| Policy.Fallback | Assets/Scripts/SimpleAI.cs:91-131 | non-spell heal iff `canHeal` and the weakest living ally is at or below the threshold; else a weapon attack on the `WeaponTarget`; else a move towards the nearest enemy, only when no living enemy is in range |
| Policy.KindOf | Assets/Scripts/SimpleAI.cs:9-130 | the action type reported for a decision: NoAction exactly for doing nothing, Wait exactly when no enemy is left, Heal exactly for the two heals, Cast exactly for the three damaging spells, Attack exactly for a weapon strike, Move exactly for an advance |
| Policy.Decide | Assets/Scripts/SimpleAI.cs:7-131 | nothing iff the unit is dead or has no action left; wait iff, besides, no enemy lives; every index is within the ally and enemy lists |
| Policy.Engage | Assets/Scripts/SimpleAI.cs:14-131 | with a living enemy in sight the unit always does something other than nothing or waiting |
| Policy.DecideSpell | Assets/Scripts/SimpleAI.cs:17-88 | a spell is cast only by a unit with a non-empty known list, and it is what the spell branch picks against the nearest living enemy |
| Policy.DecideFallback | Assets/Scripts/SimpleAI.cs:91-131 | a non-spell heal, weapon attack or move happens only when the spell branch picks nothing (or the unit cannot cast), and it is what the fallback picks |
| Policy.SpellHealAsWritten | Assets/Scripts/SimpleAI.cs:31-36 | the heal as the program computes it: the dice alone when the spell adds no ability; otherwise the dice plus the casting modifier for a caster with a casting ability, and the dice minus the proficiency bonus for any other unit |
| Policy.SpellHealAmount | Assets/Scripts/SimpleAI.cs:31-37 | the corrected spell heal is never negative, is at least the dice plus the casting modifier when the spell adds it (and equals it when that is non-negative), and for a unit with spellcasting it is the as-written heal floored at 0 |
| Policy.AsWrittenHealDrivesHitPointsNegative | Assets/Scripts/SimpleAI.cs:31-37 | for a ranger with proficiency 3 rolling 1, the as-written heal is -2 and leaves an ally at 1 HP with -1; the corrected heal gives 1 and leaves 2 |
| Policy.Subject | Assets/Scripts/SimpleAI.cs:37-117 | a heal acts on the chosen ally, a damaging action on the chosen enemy |
| Policy.ImpactOf | Assets/Scripts/SimpleAI.cs:31-117 | heals restore a non-negative amount; damage comes only from attacks and spells and is at least 1 (a volley: when its flat bonus is non-negative); waiting and moving change nothing; the stream only advances |
| Policy.ImpactMatchesProgram | Assets/Scripts/SimpleAI.cs:31-37 | for a caster with a casting ability the modelled impact is the program's: a spell heal restores the as-written heal floored at 0, and a spell attack adds the as-written ability bonus |
| Policy.ImpactKeepsBounds | Assets/Scripts/SimpleAI.cs:31-117 | with no negative flat bonus, any decision keeps its subject's HP within 0..maxHP, and a dead subject stays dead unless healed |
| Policy.Carry | Assets/Scripts/SimpleAI.cs:31-117 | carrying out a decision rolls what `ImpactOf` predicts, changes the subject's HP accordingly, and no other unit's HP |
| Policy.Land | Assets/Scripts/SimpleAI.cs:31-117 | as `Carry`, and for a benign decision every unit of the battle stays within its bounds and the dead stay dead |
| Policy.Act | Assets/Scripts/SimpleAI.cs:12-130 | every decision other than doing nothing spends one action; its impact lands on its subject only; the battle's bounds are kept and the dead stay dead |
| Policy.TakeAction | Assets/Scripts/SimpleAI.cs:7-132 | the decision is `Decide` on what the unit saw; the action type matches it; nothing changes for a dead unit or one without actions; otherwise exactly one action is spent and the impact lands on the decision's subject only |
| Scheduler.NonNull | Assets/Scripts/TurnManager.cs:24 | dropping nulls keeps exactly the non-null units |
| Scheduler.NonNullAppend | Assets/Scripts/TurnManager.cs:24 | dropping nulls works piece by piece, so the units that remain keep their input order |
| Scheduler.NonNullKeepsUnits | Assets/Scripts/TurnManager.cs:24 | a list without nulls is registered unchanged |
| Scheduler.Registered | Assets/Scripts/TurnManager.cs:22-25 | a missing collection registers nothing; otherwise exactly the non-null units are registered |
| Scheduler.Rolled | Assets/Scripts/TurnManager.cs:36-37 | the k-th registered unit rolls d20 + its initiative bonus from the k-th draw and remembers its position |
| Scheduler.Insert | Assets/Scripts/TurnManager.cs:38 | inserting adds exactly the one entry |
| Scheduler.SortDescending | Assets/Scripts/TurnManager.cs:38 | the sort is a permutation of its input |
| Scheduler.InitiativeOrder | Assets/Scripts/TurnManager.cs:36-39 | the initiative order is a permutation of the rolled entries |
| Scheduler.InsertOrdered | Assets/Scripts/TurnManager.cs:38 | inserting an entry registered after all others into a stably ordered list keeps it ordered |
| Scheduler.SortOrdered | Assets/Scripts/TurnManager.cs:38 | sorting entries in registration order yields descending initiative, ties in registration order |
| Scheduler.SortUnits | Assets/Scripts/TurnManager.cs:38-44 | the sorted entries carry exactly the units of the input |
| Scheduler.InitiativeOrderIsStableDescending | Assets/Scripts/TurnManager.cs:36-39 | the queue order is descending in initiative, ties in registration order, and a permutation of the rolls |
| Scheduler.QueueIsPermutation | Assets/Scripts/TurnManager.cs:36-47 | the units queued hold every registered unit exactly as often as it is registered |
| Scheduler.Gather | Assets/Scripts/TurnManager.cs:77 | the units put back, in the order they were put back |
| Scheduler.QueueRotates | Assets/Scripts/TurnManager.cs:62-77 | dequeuing the head and putting it back or not keeps the queue equal to the rest of the round's queue followed by the units put back |
| Scheduler.Living | Assets/Scripts/TurnManager.cs:86-87 | a side's list of living units is no longer than the unit list; that its members are exactly the side's living units is `Scheduler.LivingMembers` |
| Scheduler.LivingMembers | Assets/Scripts/TurnManager.cs:86-87 | a side's list holds exactly its living registered units |
| Scheduler.Outcome | Assets/Scripts/TurnManager.cs:109-123 | over iff one side has no living unit; "Players" iff a player lives and no enemy does; "Enemies" iff no player lives |
| Scheduler.MutualWipeOutGoesToEnemies | Assets/Scripts/TurnManager.cs:117 | when nobody is alive, the enemies are reported the winners |
| Scheduler.LivingPartition | Assets/Scripts/TurnManager.cs:86-87 | a living unit is among its own side's allies and never among its enemies |
| Scheduler.SideAliveIffLiving | Assets/Scripts/TurnManager.cs:111-112 | a side is alive iff its list of living units is non-empty |
| Scheduler.AliveMask | Assets/Scripts/TurnManager.cs:63 | which queued units are alive, position by position |
| Scheduler.TurnManager.constructor | Assets/Scripts/TurnManager.cs:9-20 | no units, an empty queue and no round in progress |
| Scheduler.TurnManager.RegisterUnits | Assets/Scripts/TurnManager.cs:22-25 | the unit list becomes the registered (non-null) units |
| Scheduler.TurnManager.BuildInitiative | Assets/Scripts/TurnManager.cs:34-48 | the queue becomes the units in initiative order, a permutation of the registered units, one draw per unit |
| Scheduler.TurnManager.Requeue | Assets/Scripts/TurnManager.cs:41-47 | the queue is cleared and the entries' units enqueued in order |
| Scheduler.TurnManager.BattleOver | Assets/Scripts/TurnManager.cs:109-123 | over iff a side has no living unit, and then the round flag is cleared; otherwise the flag is untouched |
| Scheduler.TurnManager.BeginRound | Assets/Scripts/TurnManager.cs:57 | every unit, dead or alive, gets its full allowance of actions, and the bounds are kept |
| Scheduler.TurnManager.DoUnitAction | Assets/Scripts/TurnManager.cs:83-94 | the policy sees its own side's living units as allies and the other side's as enemies; an acting unit spends exactly one action; the decision's subject gets the HP `ImpactOf` predicts and every other unit keeps its HP; the bounds are kept; the dead stay dead |
| Scheduler.TurnManager.Step | Assets/Scripts/TurnManager.cs:71-74 | one action is spent, and the battle is over iff a side has no living unit left |
| Scheduler.TurnManager.Spend | Assets/Scripts/TurnManager.cs:71 | a living unit with an action left spends exactly one; the bounds are kept; the dead stay dead |
| Scheduler.TurnManager.Turn | Assets/Scripts/TurnManager.cs:69-75 | the unit acts until it is dead or out of actions, at most its allowance of times, unless a side falls first, which ends the battle |
| Scheduler.TurnManager.Visit | Assets/Scripts/TurnManager.cs:62-78 | a dead unit is dropped; a living one takes its turn and goes to the back of the queue, then the battle is checked |
| Scheduler.TurnManager.Advance | Assets/Scripts/TurnManager.cs:60-79 | one dequeue of the round keeps the round's invariant: queue = rest of the round's queue + units put back, those alive at round start, those dropped dead |
| Scheduler.TurnManager.Sweep | Assets/Scripts/TurnManager.cs:59-79 | the round loop runs exactly as many dequeues as the queue held at its start, unless the battle ends |
| Scheduler.TurnManager.Round | Assets/Scripts/TurnManager.cs:56-79 | after a round that did not end the battle, the queue is the subsequence of the round's queue that was alive at its start; every dropped unit was dead; the queue never grows and survivors keep their order |
| Scheduler.TurnManager.RunLoop | Assets/Scripts/TurnManager.cs:50-81 | the battle loop keeps the bounds and the dead dead; once it stops the battle it is over; it never reopens a battle |
| Scheduler.TurnManager.Open | Assets/Scripts/TurnManager.cs:29-30 | initiative is rolled, the queue is a permutation of the units and the round flag is set |
| Scheduler.TurnManager.StartBattle | Assets/Scripts/TurnManager.cs:27-32 | initiative is rolled and the loop run; whenever it stops the battle, one side has no living unit |

## Left out

- Rendering, logging and UI: `Debug.Log`, `CombatLog.Print`, floating texts, HP bars, and deactivating a slain unit's game object. These have no effect on the rules.
- Movement and geometry: `MoveTowards`, `Vector3` positions and the float fields `movePerAction` and `desiredRange`. Distances are abstract integers supplied per action, and a move only spends the action.
- Floating point: ranges are exact integers in decimetres and HP fractions are exact reals. Float rounding is not modelled.
- `System.Random`: it is an explicit stream of draws. A die with fewer than one face shows 1, so the model does not capture the exception `Random.Next` throws for a negative number of sides.
- The static tables are parameters and are not modelled: the spell database, the weapon database, the per-class spellbooks, the hero and encounter rosters.
  - The weapon table's case-insensitive key comparison is not modelled; weapon ids match exactly.
  - The spell table's case-insensitive key comparison (`Spells/SpellDefs.cs:55`) is not modelled either. Spell ids match exactly: in the policy's choice of a known spell (`Policy.ChooseSpell`) and in the trimming of class lists (`SpellRules.TrimToCaps`). The class lists use the table's own spelling of ids, so the difference shows only for an id spelled with other letter case.
- Policy.HealthPct: a unit whose maximum HP is 0 or less is measured against a maximum of 1. The source divides by that maximum.
- `BattleGame.Start`'s loops over the rosters, the prefab instantiation and the encounter lookup are not modelled. The setup of one unit is `Setup.SetUpCombatant`, and initialising all units is `Setup.InitAll`.
- Coroutine pacing: `GetDelay`, `WaitForSeconds` and the action delays are not modelled.
  - The pacing also matches an action type `CastSpell` that the policy never returns (it returns `Cast`). This affects only the delay.
- Scheduler.TurnManager.RunLoop: it takes a `rounds` bound, because the battle need not end (for instance two sides that cannot hurt each other). The model proves nothing about termination or the number of rounds.
- Policy.Act: the action is spent before the effect lands, while the source spends it after. The two touch different fields, so the end state is the same.
- Scheduler.TurnManager.DoUnitAction: the two identical branches on the unit's side are one call.
- Scheduler.TurnManager.DoUnitAction requires a spell table with no negative flat bonus (`NonNegativeFlats`), as the source's table is. With a negative one, an auto-hit volley could heal its target above its maximum, and the bounds invariant would not hold.
- Scheduler.TurnManager.StartBattle: it needs every unit to be within its bounds, which `Setup.InitAll` establishes for units with a positive maximum.
- Resolver.GetScaledParams takes the character level as a parameter: the source reads a `level` field that the stat block does not declare. The resolver never calls it, and spells resolve with unscaled dice, as in the source.
- `Unit.Init`'s copy of the display name onto the game object is not modelled.
- Policy.ImpactOf: a spell heal restores the corrected amount `SpellHealAmount` and a spell attack adds the corrected bonus `SpellDamageBonus`. The program's as-written heal and bonus differ for a unit without spellcasting and, for the heal, when it is negative (see "## Findings"). `Policy.ImpactMatchesProgram` states that the two agree for a caster with a casting ability, up to the heal's floor at 0.
- Policy.Carry: it carries out the corrected heal and bonus of `Policy.ImpactOf`, not the program's.
- Policy.Land: its bounds hold for the corrected heal; the program's heal can drop its target below 0 HP.
- Policy.Act: the same as `Policy.Land`.
- Policy.TakeAction: the hit points it predicts are those of the corrected heal and bonus.
- Resolver.TrySpellAttack: it adds the corrected bonus `SpellDamageBonus`, where the program adds "spell attack bonus minus proficiency". The two agree for a caster with a casting ability. No attack-roll spell of the program's own spell table adds the ability, so the difference shows only with another table.
- Scheduler.TurnManager.DoUnitAction: the bounds it keeps, and through it those of Step, Turn, Visit, Round, RunLoop and StartBattle, are those of the corrected heal.
- Setup.InitAll requires every spawned unit to have a stat block of its own, as each spawn creates one (`BattleGame.cs:119`). With a stat block shared by units of both sides, the scores would be clamped twice with different bounds.
- Null stat blocks and null known-spell lists are not modelled: a unit always has a stat block, and a missing list is the empty list.

## Findings

| source | as written | input that shows it | evidently intended | confidence | as-written member | corrected member |
|---|---|---|---|---|---|---|
| Assets/Scripts/SimpleAI.cs:32-37 | the spell heal adds "spell attack bonus minus proficiency" and is not floored | a ranger (caster, no casting ability) with proficiency 3 rolls 1 on a heal that adds the modifier: heal -2, an ally at 1 HP drops to -1 | add the casting modifier (0 without one) and never heal a negative amount | high; not executed | Policy.AsWrittenHealDrivesHitPointsNegative | Policy.SpellHealAmount |
| Assets/Scripts/CombatResolver.cs:178-180 | a spell's ability bonus is "spell attack bonus minus proficiency", commented as the casting modifier | a caster without a casting ability (a ranger) casting a spell that adds the modifier: bonus -proficiency instead of 0 | the casting modifier alone | high; not executed | Resolver.AsWrittenBonusNegativeWithoutAbility | Resolver.SpellDamageBonus |
