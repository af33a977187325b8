/**
 * The decision policy every combatant follows when it has an action to spend. The choice
 * itself is a pure function (`Decide`) of what the unit sees: its own state and, for each
 * ally and enemy, hit points, maximum, threat and distance. It is a priority cascade of
 * emergency spell heal, auto-hit spell, spell attack, saving-throw spell, non-spell heal,
 * weapon attack, and finally moving towards the nearest enemy. `TakeAction` looks at the
 * battlefield, decides, and carries the choice out: it rolls, changes the chosen unit's hit
 * points and spends one action.
 */
module Policy {
  import opened Mathf
  import opened Catalog
  import opened Select
  import opened StatBlock
  import opened Combatant
  import opened Resolver

  /** What an action turned out to be; `NoAction` is the source's `None`. */
  datatype ActionType = NoAction | Wait | Heal | Cast | Attack | Move

  /** Distance between two units in decimetres, as the battlefield measures it at this moment. */
  type Distance = (Unit, Unit) -> nat

  /** A living ally at or below this health fraction triggers the emergency spell heal. */
  const LowAllyThreshold: real := 0.45

  /** Another unit as the deciding unit sees it: hit points, maximum, threat and distance. */
  datatype Seen = Seen(hp: int, maxHP: int, threat: int, dm: nat)

  /** The deciding unit's own state, as far as the cascade consults it. */
  datatype Me = Me(hp: int, actions: int, isCaster: bool, known: seq<KnownSpell>,
                   canHeal: bool, healThreshold: real, attackRange: int)

  predicate Alive(v: Seen)
  {
    v.hp > 0
  }

  /** Current hit points over maximum hit points (a maximum below 1 counts as 1), unclamped. */
  function HpFraction(v: Seen): real
  {
    v.hp as real / Max(1, v.maxHP) as real
  }

  /** The health fraction clamped into 0..1. */
  function HealthPct(v: Seen): (p: real)
    ensures 0.0 <= p <= 1.0
    ensures 0.0 <= HpFraction(v) <= 1.0 ==> p == HpFraction(v)
    ensures v.hp <= 0 ==> p == 0.0
  {
    var f := HpFraction(v);
    if f < 0.0 then 0.0 else if f > 1.0 then 1.0 else f
  }

  /** How dangerous a unit looks: its maximum dice roll plus its damage bonus. */
  function Threat(s: Stats): int
    reads s
  {
    s.damage.x * s.damage.y + s.damageBonus
  }

  /** The stat blocks of a list of units. */
  function StatsOf(us: seq<Unit>): set<Stats>
  {
    set u | u in us :: u.baseStats
  }

  function SeenFrom(self: Unit, u: Unit, dist: Distance): Seen
    reads u, u.baseStats
  {
    Seen(u.currentHP, u.baseStats.maxHP, Threat(u.baseStats), dist(self, u))
  }

  /** How `self` sees each unit of a list, in list order. */
  function Look(self: Unit, us: seq<Unit>, dist: Distance): (vs: seq<Seen>)
    reads us, StatsOf(us)
    ensures |vs| == |us|
    ensures forall i :: 0 <= i < |us| ==> vs[i] == SeenFrom(self, us[i], dist)
  {
    if us == [] then []
    else Look(self, us[..|us| - 1], dist) + [SeenFrom(self, us[|us| - 1], dist)]
  }

  function MeOf(self: Unit): Me
    reads self, self.baseStats
  {
    var s := self.baseStats;
    Me(self.currentHP, self.remainingActions, s.isCaster, s.knownSpells, s.canHeal, s.healThreshold, s.attackRange)
  }

  /** One element as a `Where(..).OrderBy(..).ThenByDescending(..)` query sees it. */
  datatype Candidate = Candidate(ok: bool, key: real, tie: int)

  /** The index of the first element the query returns, if any passes the filter. */
  function Pick(cs: seq<Candidate>): (r: Option<nat>)
    ensures r.Some? ==> r.value < |cs| && cs[r.value].ok
    ensures r.None? <==> forall j :: 0 <= j < |cs| ==> !cs[j].ok
    ensures r.Some? ==> forall j :: 0 <= j < |cs| && cs[j].ok ==>
              cs[r.value].key < cs[j].key || (cs[r.value].key == cs[j].key && cs[r.value].tie >= cs[j].tie)
    ensures r.Some? ==> forall j :: 0 <= j < r.value && cs[j].ok ==>
              cs[r.value].key < cs[j].key || (cs[r.value].key == cs[j].key && cs[r.value].tie > cs[j].tie)
  {
    FirstBest(cs, (c: Candidate) => c.ok, (c: Candidate) => c.key, (c: Candidate) => c.tie)
  }

  function ByDistance(vs: seq<Seen>): (cs: seq<Candidate>)
    ensures |cs| == |vs|
    ensures forall i :: 0 <= i < |vs| ==> cs[i] == Candidate(Alive(vs[i]), vs[i].dm as real, 0)
  {
    if vs == [] then [] else ByDistance(vs[..|vs| - 1]) + [Candidate(Alive(vs[|vs| - 1]), vs[|vs| - 1].dm as real, 0)]
  }

  function ByHealth(vs: seq<Seen>): (cs: seq<Candidate>)
    ensures |cs| == |vs|
    ensures forall i :: 0 <= i < |vs| ==> cs[i] == Candidate(Alive(vs[i]), HealthPct(vs[i]), 0)
  {
    if vs == [] then [] else ByHealth(vs[..|vs| - 1]) + [Candidate(Alive(vs[|vs| - 1]), HealthPct(vs[|vs| - 1]), 0)]
  }

  function ByWeaponPriority(me: Me, vs: seq<Seen>): (cs: seq<Candidate>)
    ensures |cs| == |vs|
    ensures forall i :: 0 <= i < |vs| ==>
              cs[i] == Candidate(Alive(vs[i]) && InWeaponRange(me, vs[i]), HpFraction(vs[i]), vs[i].threat)
  {
    if vs == [] then []
    else
      var v := vs[|vs| - 1];
      ByWeaponPriority(me, vs[..|vs| - 1]) + [Candidate(Alive(v) && InWeaponRange(me, v), HpFraction(v), v.threat)]
  }

  /** The nearest living enemy; on equal distance the earliest in the list. */
  function NearestEnemy(enemies: seq<Seen>): (r: Option<nat>)
    ensures r.Some? ==> r.value < |enemies| && Alive(enemies[r.value])
    ensures r.None? <==> forall j :: 0 <= j < |enemies| ==> !Alive(enemies[j])
    ensures r.Some? ==> forall j :: 0 <= j < |enemies| && Alive(enemies[j]) ==> enemies[r.value].dm <= enemies[j].dm
    ensures r.Some? ==> forall j :: 0 <= j < r.value && Alive(enemies[j]) ==> enemies[r.value].dm < enemies[j].dm
  {
    Pick(ByDistance(enemies))
  }

  /** The living ally with the lowest health fraction; on a tie the earliest in the list. */
  function LowestAlly(allies: seq<Seen>): (r: Option<nat>)
    ensures r.Some? ==> r.value < |allies| && Alive(allies[r.value])
    ensures r.None? <==> forall j :: 0 <= j < |allies| ==> !Alive(allies[j])
    ensures r.Some? ==> forall j :: 0 <= j < |allies| && Alive(allies[j]) ==> HealthPct(allies[r.value]) <= HealthPct(allies[j])
    ensures r.Some? ==> forall j :: 0 <= j < r.value && Alive(allies[j]) ==> HealthPct(allies[r.value]) < HealthPct(allies[j])
  {
    Pick(ByHealth(allies))
  }

  predicate InWeaponRange(me: Me, v: Seen)
  {
    v.dm <= me.attackRange
  }

  /** `a` is strictly ahead of `b` in the weapon ordering: lower fraction, then higher threat. */
  predicate WeakerOrMoreDangerous(a: Seen, b: Seen)
  {
    HpFraction(a) < HpFraction(b) || (HpFraction(a) == HpFraction(b) && a.threat > b.threat)
  }

  /**
   * The weapon target: among living enemies within weapon reach, the lowest unclamped
   * hit-point fraction, then the highest threat, then the earliest in the list.
   */
  function WeaponTarget(me: Me, enemies: seq<Seen>): (r: Option<nat>)
    ensures r.Some? ==> r.value < |enemies| && Alive(enemies[r.value]) && InWeaponRange(me, enemies[r.value])
    ensures r.None? <==> forall j :: 0 <= j < |enemies| ==> !(Alive(enemies[j]) && InWeaponRange(me, enemies[j]))
    ensures r.Some? ==> forall j :: 0 <= j < |enemies| && Alive(enemies[j]) && InWeaponRange(me, enemies[j]) ==>
              !WeakerOrMoreDangerous(enemies[j], enemies[r.value])
    ensures r.Some? ==> forall j :: 0 <= j < r.value && Alive(enemies[j]) && InWeaponRange(me, enemies[j]) ==>
              WeakerOrMoreDangerous(enemies[r.value], enemies[j])
  {
    Pick(ByWeaponPriority(me, enemies))
  }

  /** The four spell queries of the cascade. */
  datatype SpellKind = Healing | AutoHit | SpellAttack | SavingThrow

  /** Whether a spell definition passes the query's filter. */
  predicate Fits(kind: SpellKind, d: SpellDef)
  {
    match kind
    case Healing => d.isHeal
    case AutoHit => d.autoHit && !d.isHeal
    case SpellAttack => d.usesAttackRoll && !d.isHeal
    case SavingThrow => d.save != SaveType.None && !d.isHeal
  }

  /** The query's ordering key: the maximum roll for heals, the spell level otherwise. */
  function Cost(kind: SpellKind, d: SpellDef): int
  {
    if kind == Healing then d.diceCount * d.diceSides else d.level
  }

  /** A known spell the table defines and the query accepts. */
  predicate Usable(known: seq<KnownSpell>, table: SpellTable, kind: SpellKind, j: int)
  {
    0 <= j < |known| && known[j].id in table && Fits(kind, table[known[j].id])
  }

  function BySpellCost(known: seq<KnownSpell>, table: SpellTable, kind: SpellKind): (cs: seq<Candidate>)
    ensures |cs| == |known|
    ensures forall i :: 0 <= i < |known| ==>
              cs[i].ok == Usable(known, table, kind, i) && cs[i].tie == 0 &&
              (cs[i].ok ==> cs[i].key == Cost(kind, table[known[i].id]) as real)
  {
    if known == [] then []
    else
      var k := known[|known| - 1];
      var ok := k.id in table && Fits(kind, table[k.id]);
      var prefix := BySpellCost(known[..|known| - 1], table, kind);
      assert forall i :: 0 <= i < |known| - 1 ==> Usable(known[..|known| - 1], table, kind, i) == Usable(known, table, kind, i);
      prefix + [Candidate(ok, if ok then Cost(kind, table[k.id]) as real else 0.0, 0)]
  }

  /**
   * The spell a query picks from the caster's known list: a usable one of least cost, the
   * earliest among equals. Known ids the table lacks are skipped.
   */
  function ChooseSpell(known: seq<KnownSpell>, table: SpellTable, kind: SpellKind): (r: Option<nat>)
    ensures r.Some? ==> Usable(known, table, kind, r.value)
    ensures r.None? <==> forall j :: 0 <= j < |known| ==> !Usable(known, table, kind, j)
    ensures r.Some? ==> forall j :: Usable(known, table, kind, j) ==>
              Cost(kind, table[known[r.value].id]) <= Cost(kind, table[known[j].id])
    ensures r.Some? ==> forall j :: 0 <= j < r.value && Usable(known, table, kind, j) ==>
              Cost(kind, table[known[r.value].id]) < Cost(kind, table[known[j].id])
  {
    var cs := BySpellCost(known, table, kind);
    var r := Pick(cs);
    if r.None? then r
    else
      var i := r.value;
      assert forall j :: Usable(known, table, kind, j) ==> cs[j].ok && cs[i].key <= cs[j].key;
      assert forall j :: 0 <= j < i && Usable(known, table, kind, j) ==> cs[j].ok && cs[i].key < cs[j].key;
      r
  }

  /** What the unit does with this action, with indices into the ally and enemy lists. */
  datatype Decision =
    | Idle
    | NoTarget
    | SpellHeal(ally: nat, spell: SpellDef)
    | Volley(target: nat, spell: SpellDef)
    | SpellStrike(target: nat, spell: SpellDef)
    | SaveSpell(target: nat, spell: SpellDef)
    | ClassHeal(ally: nat)
    | Strike(target: nat)
    | Advance(target: nat)

  predicate InBounds(d: Decision, nAllies: nat, nEnemies: nat)
  {
    match d
    case SpellHeal(i, _) => i < nAllies
    case ClassHeal(i) => i < nAllies
    case Volley(t, _) => t < nEnemies
    case SpellStrike(t, _) => t < nEnemies
    case SaveSpell(t, _) => t < nEnemies
    case Strike(t) => t < nEnemies
    case Advance(t) => t < nEnemies
    case _ => true
  }

  predicate IsSpell(d: Decision)
  {
    d.SpellHeal? || d.Volley? || d.SpellStrike? || d.SaveSpell?
  }

  /** The definition of the known spell a query picked. */
  function Chosen(known: seq<KnownSpell>, table: SpellTable, kind: SpellKind): (d: SpellDef)
    requires ChooseSpell(known, table, kind).Some?
    ensures Fits(kind, d)
    ensures NonNegativeFlats(table) ==> d.flatBonus >= 0
  {
    var j := ChooseSpell(known, table, kind).value;
    assert Usable(known, table, kind, j);
    table[known[j].id]
  }

  /** No spell in the table subtracts a flat amount. */
  predicate NonNegativeFlats(table: SpellTable)
  {
    forall id :: id in table ==> table[id].flatBonus >= 0
  }

  /** Whether the spell query of this kind picks a spell whose range reaches `dm`. */
  predicate Castable(known: seq<KnownSpell>, table: SpellTable, kind: SpellKind, dm: nat)
  {
    ChooseSpell(known, table, kind).Some? && dm <= Chosen(known, table, kind).rangeDm
  }

  /** Whether the emergency spell heal fires: the weakest living ally is at or below 45 % and a heal reaches it. */
  predicate SpellHealDue(me: Me, allies: seq<Seen>, table: SpellTable)
  {
    LowestAlly(allies).Some? && HealthPct(allies[LowestAlly(allies).value]) <= LowAllyThreshold &&
    Castable(me.known, table, Healing, allies[LowestAlly(allies).value].dm)
  }

  /**
   * The spell part of the cascade for a caster whose nearest living enemy is `target`:
   * emergency heal on the weakest living ally at or below 45 %, then the cheapest auto-hit
   * spell, the lowest spell attack and the lowest saving-throw spell, each only if it reaches.
   */
  function SpellStep(me: Me, allies: seq<Seen>, enemies: seq<Seen>, target: nat, table: SpellTable): (r: Option<Decision>)
    requires target < |enemies|
    ensures r.Some? ==> IsSpell(r.value) && InBounds(r.value, |allies|, |enemies|)
    ensures r.Some? && NonNegativeFlats(table) ==> r.value.spell.flatBonus >= 0
  {
    var reach := enemies[target].dm;
    if SpellHealDue(me, allies, table) then Some(SpellHeal(LowestAlly(allies).value, Chosen(me.known, table, Healing)))
    else if Castable(me.known, table, AutoHit, reach) then Some(Volley(target, Chosen(me.known, table, AutoHit)))
    else if Castable(me.known, table, SpellAttack, reach) then Some(SpellStrike(target, Chosen(me.known, table, SpellAttack)))
    else if Castable(me.known, table, SavingThrow, reach) then Some(SaveSpell(target, Chosen(me.known, table, SavingThrow)))
    else Option.None
  }

  /**
   * The emergency heal fires exactly when the weakest living ally is at or below 45 % and the
   * cheapest known heal reaches it.
   */
  lemma SpellStepHeal(me: Me, allies: seq<Seen>, enemies: seq<Seen>, target: nat, table: SpellTable)
    requires target < |enemies|
    ensures var r := SpellStep(me, allies, enemies, target, table);
            r.Some? && r.value.SpellHeal? <==> SpellHealDue(me, allies, table)
  {
    if SpellHealDue(me, allies, table) {
      SpellHealTarget(me, allies, enemies, target, table);
    } else {
      var reach := enemies[target].dm;
      assert SpellStep(me, allies, enemies, target, table) ==
        if Castable(me.known, table, AutoHit, reach) then Some(Volley(target, Chosen(me.known, table, AutoHit)))
        else if Castable(me.known, table, SpellAttack, reach) then Some(SpellStrike(target, Chosen(me.known, table, SpellAttack)))
        else if Castable(me.known, table, SavingThrow, reach) then Some(SaveSpell(target, Chosen(me.known, table, SavingThrow)))
        else Option.None;
    }
  }

  /** The emergency heal targets the weakest living ally, at or below 45 %, with the cheapest known heal that reaches it. */
  lemma SpellHealTarget(me: Me, allies: seq<Seen>, enemies: seq<Seen>, target: nat, table: SpellTable)
    requires target < |enemies|
    requires SpellHealDue(me, allies, table)
    ensures var r := SpellStep(me, allies, enemies, target, table);
            r.Some? && r.value.SpellHeal? &&
            LowestAlly(allies) == Some(r.value.ally) && r.value.spell.isHeal &&
            r.value.spell == Chosen(me.known, table, Healing) &&
            HealthPct(allies[r.value.ally]) <= LowAllyThreshold && allies[r.value.ally].dm <= r.value.spell.rangeDm
  {
    var a := LowestAlly(allies).value;
    var sp := Chosen(me.known, table, Healing);
    assert SpellStep(me, allies, enemies, target, table) == Some(SpellHeal(a, sp));
    assert Fits(Healing, sp);
  }

  /**
   * Otherwise the damaging spells go to the nearest enemy in the order auto-hit, spell
   * attack, saving throw, each only when the one before does not reach; nothing is cast when
   * none reaches.
   */
  lemma SpellStepDamage(me: Me, allies: seq<Seen>, enemies: seq<Seen>, target: nat, table: SpellTable)
    requires target < |enemies|
    ensures var r := SpellStep(me, allies, enemies, target, table);
            r.Some? && !r.value.SpellHeal? ==> r.value.target == target && enemies[target].dm <= r.value.spell.rangeDm
    ensures var r := SpellStep(me, allies, enemies, target, table);
            r.Some? && r.value.Volley? ==>
              r.value.spell == Chosen(me.known, table, AutoHit) && r.value.spell.autoHit && !r.value.spell.isHeal
    ensures var r := SpellStep(me, allies, enemies, target, table);
            r.Some? && r.value.SpellStrike? ==>
              !Castable(me.known, table, AutoHit, enemies[target].dm) &&
              r.value.spell == Chosen(me.known, table, SpellAttack) &&
              r.value.spell.usesAttackRoll && !r.value.spell.isHeal
    ensures var r := SpellStep(me, allies, enemies, target, table);
            r.Some? && r.value.SaveSpell? ==>
              !Castable(me.known, table, AutoHit, enemies[target].dm) &&
              !Castable(me.known, table, SpellAttack, enemies[target].dm) &&
              r.value.spell == Chosen(me.known, table, SavingThrow) &&
              r.value.spell.save != SaveType.None && !r.value.spell.isHeal
    ensures var r := SpellStep(me, allies, enemies, target, table);
            r.None? <==>
              !SpellHealDue(me, allies, table) &&
              !Castable(me.known, table, AutoHit, enemies[target].dm) &&
              !Castable(me.known, table, SpellAttack, enemies[target].dm) &&
              !Castable(me.known, table, SavingThrow, enemies[target].dm)
  {
    var reach := enemies[target].dm;
    var r := SpellStep(me, allies, enemies, target, table);
    if SpellHealDue(me, allies, table) {
      assert r.value.SpellHeal?;
    } else if Castable(me.known, table, AutoHit, reach) {
      assert r.value.Volley?;
    } else if Castable(me.known, table, SpellAttack, reach) {
      assert r.value.SpellStrike?;
    } else if Castable(me.known, table, SavingThrow, reach) {
      assert r.value.SaveSpell?;
    }
  }

  /** Whether the non-spell heal fires: the weakest living ally is at or below the unit's threshold. */
  predicate ClassHealDue(me: Me, allies: seq<Seen>)
  {
    me.canHeal && LowestAlly(allies).Some? && HealthPct(allies[LowestAlly(allies).value]) <= me.healThreshold
  }

  /**
   * What a unit does when no spell applies: the non-spell heal, else a weapon attack on the
   * weakest enemy in reach, else a move towards the nearest enemy `near`.
   */
  function Fallback(me: Me, allies: seq<Seen>, enemies: seq<Seen>, near: nat): (d: Decision)
    requires near < |enemies|
    ensures d.ClassHeal? || d.Strike? || d.Advance?
    ensures InBounds(d, |allies|, |enemies|)
    ensures d.ClassHeal? <==> ClassHealDue(me, allies)
    ensures d.ClassHeal? ==>
              LowestAlly(allies) == Some(d.ally) && Alive(allies[d.ally]) && HealthPct(allies[d.ally]) <= me.healThreshold
    ensures d.Strike? ==>
              !ClassHealDue(me, allies) && WeaponTarget(me, enemies) == Some(d.target) &&
              Alive(enemies[d.target]) && InWeaponRange(me, enemies[d.target])
    ensures d.Advance? ==>
              !ClassHealDue(me, allies) && d.target == near &&
              forall j :: 0 <= j < |enemies| && Alive(enemies[j]) ==> !InWeaponRange(me, enemies[j])
  {
    if ClassHealDue(me, allies) then ClassHeal(LowestAlly(allies).value)
    else
      var t := WeaponTarget(me, enemies);
      if t.Some? then Strike(t.value) else Advance(near)
  }

  /** Whether the unit may cast at all: a caster with a non-empty known list. */
  predicate CanCast(me: Me)
  {
    me.isCaster && |me.known| > 0
  }

  /**
   * The whole cascade for one action: nothing when dead or out of actions, wait when no
   * enemy lives, else the spell step for a caster, else the fallback.
   */
  function Decide(me: Me, allies: seq<Seen>, enemies: seq<Seen>, table: SpellTable): (d: Decision)
    ensures InBounds(d, |allies|, |enemies|)
    ensures d.Idle? <==> me.hp <= 0 || me.actions <= 0
    ensures d.NoTarget? <==> me.hp > 0 && me.actions > 0 && forall j :: 0 <= j < |enemies| ==> !Alive(enemies[j])
    ensures IsSpell(d) && NonNegativeFlats(table) ==> d.spell.flatBonus >= 0
  {
    if me.hp <= 0 || me.actions <= 0 then Idle
    else
      var near := NearestEnemy(enemies);
      if near.None? then NoTarget
      else Engage(me, allies, enemies, near.value, table)
  }

  /** With a living enemy in sight: the spell step for a caster, else the fallback. */
  function Engage(me: Me, allies: seq<Seen>, enemies: seq<Seen>, near: nat, table: SpellTable): (d: Decision)
    requires near < |enemies|
    ensures !d.Idle? && !d.NoTarget? && InBounds(d, |allies|, |enemies|)
    ensures IsSpell(d) && NonNegativeFlats(table) ==> d.spell.flatBonus >= 0
  {
    var spell := if CanCast(me) then SpellStep(me, allies, enemies, near, table) else Option.None;
    if spell.Some? then spell.value
    else Fallback(me, allies, enemies, near)
  }

  /** A spell decision is what the spell step picks for a caster, aimed at the nearest living enemy. */
  lemma DecideSpell(me: Me, allies: seq<Seen>, enemies: seq<Seen>, table: SpellTable)
    requires IsSpell(Decide(me, allies, enemies, table))
    ensures CanCast(me) && NearestEnemy(enemies).Some?
    ensures SpellStep(me, allies, enemies, NearestEnemy(enemies).value, table) == Some(Decide(me, allies, enemies, table))
  {
    var near := NearestEnemy(enemies);
    assert me.hp > 0 && me.actions > 0 && near.Some?;
    if !CanCast(me) || SpellStep(me, allies, enemies, near.value, table).None? {
      assert false;
    }
  }

  /**
   * A heal without a spell, a weapon attack or a move happens only when the spell step picks
   * nothing (or the unit cannot cast), and is what the fallback picks.
   */
  lemma DecideFallback(me: Me, allies: seq<Seen>, enemies: seq<Seen>, table: SpellTable)
    requires var d := Decide(me, allies, enemies, table); d.ClassHeal? || d.Strike? || d.Advance?
    ensures NearestEnemy(enemies).Some?
    ensures CanCast(me) ==> SpellStep(me, allies, enemies, NearestEnemy(enemies).value, table).None?
    ensures Decide(me, allies, enemies, table) == Fallback(me, allies, enemies, NearestEnemy(enemies).value)
  {
    var near := NearestEnemy(enemies);
    assert me.hp > 0 && me.actions > 0 && near.Some?;
    if CanCast(me) && SpellStep(me, allies, enemies, near.value, table).Some? {
      assert false;
    }
  }

  /** The action type each decision reports. */
  function KindOf(d: Decision): (k: ActionType)
    ensures k == NoAction <==> d.Idle?
    ensures k == Wait <==> d.NoTarget?
    ensures k == Heal <==> d.SpellHeal? || d.ClassHeal?
    ensures k == Cast <==> d.Volley? || d.SpellStrike? || d.SaveSpell?
    ensures k == ActionType.Attack <==> d.Strike?
    ensures k == Move <==> d.Advance?
  {
    match d
    case Idle => NoAction
    case NoTarget => Wait
    case SpellHeal(_, _) => Heal
    case ClassHeal(_) => Heal
    case Volley(_, _) => Cast
    case SpellStrike(_, _) => Cast
    case SaveSpell(_, _) => Cast
    case Strike(_) => ActionType.Attack
    case Advance(_) => Move
  }

  /**
   * The spell heal as written: the dice plus, when the spell adds the ability, spell attack
   * bonus minus proficiency (for any unit, caster or not), not floored.
   */
  function SpellHealAsWritten(roll: int, s: Stats, spell: SpellDef): (h: int)
    reads s
    ensures !spell.addAbilityToDmg ==> h == roll
    ensures spell.addAbilityToDmg && s.HasSpellcasting() ==> h == roll + s.CastingMod()
    ensures spell.addAbilityToDmg && !s.HasSpellcasting() ==> h == roll - s.proficiencyBonus
  {
    roll + (if spell.addAbilityToDmg then s.SpellModAsWritten() else 0)
  }

  /**
   * The spell heal: the dice plus the casting modifier when the spell adds the ability,
   * never negative. For a unit with spellcasting it is the as-written heal floored at 0.
   */
  function SpellHealAmount(roll: int, s: Stats, spell: SpellDef): (h: int)
    reads s
    ensures h >= 0
    ensures spell.addAbilityToDmg ==> h >= roll + s.CastingMod()
    ensures spell.addAbilityToDmg && roll + s.CastingMod() >= 0 ==> h == roll + s.CastingMod()
    ensures !spell.addAbilityToDmg ==> h == Max(0, roll)
    ensures s.HasSpellcasting() ==> h == Max(0, SpellHealAsWritten(roll, s, spell))
  {
    Max(0, roll + (if spell.addAbilityToDmg then s.SpellAbilityBonus() else 0))
  }

  /**
   * A caster without a casting ability (a ranger) and proficiency 3 who rolls 1 on a spell
   * heal that adds the ability modifier heals -2 as written, dropping an ally at 1 hit
   * point to -1; the corrected heal gives 1.
   */
  lemma AsWrittenHealDrivesHitPointsNegative(s: Stats, spell: SpellDef)
    requires s.isCaster && s.castingAbility == CastingAbility.None && s.proficiencyBonus == 3
    requires spell.addAbilityToDmg
    ensures SpellHealAsWritten(1, s, spell) == -2
    ensures HealedHP(1, 44, SpellHealAsWritten(1, s, spell)) == -1
    ensures SpellHealAmount(1, s, spell) == 1
    ensures HealedHP(1, 44, SpellHealAmount(1, s, spell)) == 2
  {
  }

  /** The hit-point change an action makes, and the next unread draw. */
  datatype Impact =
    | NoChange(next: nat)
    | Damage(amount: int, next: nat)
    | Restore(amount: int, next: nat)

  /** The unit a decision acts on; `self` for the decisions that touch no one. */
  function Subject(d: Decision, self: Unit, allies: seq<Unit>, enemies: seq<Unit>): (u: Unit)
    requires InBounds(d, |allies|, |enemies|)
    ensures d.SpellHeal? || d.ClassHeal? ==> u == allies[d.ally]
    ensures d.Volley? || d.SpellStrike? || d.SaveSpell? || d.Strike? ==> u == enemies[d.target]
  {
    match d
    case SpellHeal(i, _) => allies[i]
    case ClassHeal(i) => allies[i]
    case Volley(t, _) => enemies[t]
    case SpellStrike(t, _) => enemies[t]
    case SaveSpell(t, _) => enemies[t]
    case Strike(t) => enemies[t]
    case _ => self
  }

  /**
   * What carrying out decision `d` by a unit with stat block `caster` on a unit with stat
   * block `subject` does, reading the draws from `at` on.
   */
  function ImpactOf(d: Decision, caster: Stats, subject: Stats, rng: Rng, at: nat): (r: Impact)
    reads caster, subject
    ensures r.next >= at
    ensures r.Restore? ==> r.amount >= 0 && (d.SpellHeal? || d.ClassHeal?)
    ensures r.Damage? ==> d.Volley? || d.SpellStrike? || d.SaveSpell? || d.Strike?
    ensures r.Damage? && !(d.Volley? && d.spell.flatBonus < 0) ==> r.amount >= 1
    ensures d.Idle? || d.NoTarget? || d.Advance? ==> r == NoChange(at)
  {
    match d
    case Idle => NoChange(at)
    case NoTarget => NoChange(at)
    case Advance(_) => NoChange(at)
    case SpellHeal(_, sp) =>
      Restore(SpellHealAmount(SumDraws(rng, at, sp.diceCount, sp.diceSides), caster, sp), at + Max(0, sp.diceCount))
    case ClassHeal(_) =>
      Restore(Max(1, SumDraws(rng, at, caster.healAmount.x, caster.healAmount.y)), at + Max(0, caster.healAmount.x))
    case Volley(_, sp) =>
      var darts := Max(1, sp.darts);
      Damage(SumDraws(rng, at, darts, sp.diceSides) + darts * sp.flatBonus, at + darts)
    case SpellStrike(_, sp) =>
      var a := AttackRoll(rng, at, caster.SpellAttackBonus(), subject.armourClass,
                          Dice(sp.diceCount, sp.diceSides), SpellFlat(sp, SpellDamageBonus(caster, sp)));
      if a.hit then Damage(a.damage, a.next) else NoChange(a.next)
    case SaveSpell(_, sp) =>
      var o := SaveRoll(rng, at, caster.SpellSaveDC(), SaveMod(subject, sp.save), sp);
      if o.damage > 0 then Damage(o.damage, o.next) else NoChange(o.next)
    case Strike(_) =>
      var a := AttackRoll(rng, at, caster.AttackBonus(), subject.armourClass, caster.damage, caster.damageBonus);
      if a.hit then Damage(a.damage, a.next) else NoChange(a.next)
  }

  /** The subject's hit points after an impact. */
  function HitPointsAfter(hp: int, maxHP: int, imp: Impact): int
  {
    match imp
    case NoChange(_) => hp
    case Damage(amount, _) => DamagedHP(hp, amount)
    case Restore(amount, _) => HealedHP(hp, maxHP, amount)
  }

  /**
   * Where the modelled impact is the program's: for a caster with a casting ability, a spell
   * heal restores the as-written amount floored at 0 (the same amount whenever the
   * as-written one is not negative), and a spell attack adds the as-written ability bonus.
   */
  lemma ImpactMatchesProgram(d: Decision, caster: Stats, subject: Stats, rng: Rng, at: nat)
    requires caster.HasSpellcasting()
    requires d.SpellHeal? || d.SpellStrike?
    ensures var roll := SumDraws(rng, at, d.spell.diceCount, d.spell.diceSides);
            d.SpellHeal? ==>
              ImpactOf(d, caster, subject, rng, at) ==
                Restore(Max(0, SpellHealAsWritten(roll, caster, d.spell)), at + Max(0, d.spell.diceCount))
    ensures d.SpellStrike? ==>
              var a := AttackRoll(rng, at, caster.SpellAttackBonus(), subject.armourClass,
                                  Dice(d.spell.diceCount, d.spell.diceSides),
                                  SpellFlat(d.spell, SpellDamageBonusAsWritten(caster, d.spell)));
              ImpactOf(d, caster, subject, rng, at) == if a.hit then Damage(a.damage, a.next) else NoChange(a.next)
  {
  }

  /**
   * An action keeps its subject's hit points within 0..maxHP when its spell has no negative
   * flat bonus; the dead stay dead unless healed.
   */
  lemma ImpactKeepsBounds(d: Decision, caster: Stats, subject: Stats, rng: Rng, at: nat, hp: int)
    requires IsSpell(d) ==> d.spell.flatBonus >= 0
    requires 0 <= hp <= subject.maxHP
    ensures 0 <= HitPointsAfter(hp, subject.maxHP, ImpactOf(d, caster, subject, rng, at)) <= subject.maxHP
    ensures hp == 0 && !(d.SpellHeal? || d.ClassHeal?) ==> HitPointsAfter(hp, subject.maxHP, ImpactOf(d, caster, subject, rng, at)) == 0
  {
  }

  /** Every unit of the lists keeps the battle's bounds. */
  predicate AllValid(us: seq<Unit>)
    reads us, StatsOf(us)
  {
    forall u :: u in us ==> u.Valid()
  }

  /**
   * A decision that cannot break the battle's bounds: its spell has no negative flat bonus
   * and a heal goes to a living ally.
   */
  predicate Benign(d: Decision, allies: seq<Unit>)
    reads allies
  {
    (IsSpell(d) ==> d.spell.flatBonus >= 0) &&
    ((d.SpellHeal? || d.ClassHeal?) ==> d.ally < |allies| && allies[d.ally].IsAlive())
  }

  /**
   * Carries out decision `d`: rolls from `at`, damages or heals the decision's subject and
   * returns what happened (the impact `ImpactOf` predicts); no other unit's hit points change.
   */
  method Carry(d: Decision, self: Unit, allies: seq<Unit>, enemies: seq<Unit>, rng: Rng, at: nat) returns (imp: Impact)
    requires InBounds(d, |allies|, |enemies|)
    modifies allies`currentHP, enemies`currentHP
    ensures imp == ImpactOf(d, self.baseStats, Subject(d, self, allies, enemies).baseStats, rng, at)
    ensures Subject(d, self, allies, enemies).currentHP ==
              HitPointsAfter(old(Subject(d, self, allies, enemies).currentHP), Subject(d, self, allies, enemies).baseStats.maxHP, imp)
    ensures forall u :: (u in allies || u in enemies) && u != Subject(d, self, allies, enemies) ==> u.currentHP == old(u.currentHP)
  {
    match d {
    case Idle =>
      imp := NoChange(at);
    case NoTarget =>
      imp := NoChange(at);
    case Advance(_) =>
      imp := NoChange(at);
    case SpellHeal(i, sp) =>
      var roll, next := RollDice(Dice(sp.diceCount, sp.diceSides), rng, at);
      imp := Restore(SpellHealAmount(roll, self.baseStats, sp), next);
      allies[i].ReceiveHeal(imp.amount);
    case ClassHeal(i) =>
      var heal, next := RollHeal(self, rng, at);
      imp := Restore(heal, next);
      allies[i].ReceiveHeal(heal);
    case Volley(t, sp) =>
      var dmg, next := ResolveMagicMissile(sp, rng, at);
      imp := Damage(dmg, next);
      enemies[t].ReceiveDamage(dmg);
    case SpellStrike(t, sp) =>
      var a := TrySpellAttack(self, enemies[t], sp, rng, at);
      if a.hit {
        imp := Damage(a.damage, a.next);
        enemies[t].ReceiveDamage(a.damage);
      } else {
        imp := NoChange(a.next);
      }
    case SaveSpell(t, sp) =>
      var o := ResolveSaveSpell(self, enemies[t], sp, rng, at);
      if o.damage > 0 {
        imp := Damage(o.damage, o.next);
        enemies[t].ReceiveDamage(o.damage);
      } else {
        imp := NoChange(o.next);
      }
    case Strike(t) =>
      var a := TryAttack(self, enemies[t], rng, at);
      if a.hit {
        imp := Damage(a.damage, a.next);
        enemies[t].ReceiveDamage(a.damage);
      } else {
        imp := NoChange(a.next);
      }
    }
  }

  /**
   * Carries out a decision already taken: a decision other than `Idle` spends one action
   * of `self`, and the decision has its impact on its subject.
   */
  method Act(d: Decision, self: Unit, allies: seq<Unit>, enemies: seq<Unit>, rng: Rng, at: nat, ghost world: seq<Unit>)
    returns (imp: Impact)
    requires InBounds(d, |allies|, |enemies|)
    modifies self`remainingActions, allies`currentHP, enemies`currentHP
    ensures d.Idle? ==> self.remainingActions == old(self.remainingActions)
    ensures !d.Idle? ==> self.remainingActions == Max(0, old(self.remainingActions) - 1)
    ensures imp == ImpactOf(d, self.baseStats, Subject(d, self, allies, enemies).baseStats, rng, at)
    ensures Subject(d, self, allies, enemies).currentHP ==
              HitPointsAfter(old(Subject(d, self, allies, enemies).currentHP), Subject(d, self, allies, enemies).baseStats.maxHP, imp)
    ensures forall u :: (u in allies || u in enemies) && u != Subject(d, self, allies, enemies) ==> u.currentHP == old(u.currentHP)
    ensures old(AllValid(world)) && old(Benign(d, allies)) ==> AllValid(world)
    ensures old(AllValid(world)) && old(Benign(d, allies)) ==>
              forall u :: u in world && old(u.currentHP) == 0 ==> u.currentHP == 0
  {
    if !d.Idle? {
      // The source spends the action after the effect; the two touch different fields.
      self.ConsumeAction();
    }
    imp := Land(d, self, allies, enemies, rng, at, world);
  }

  /** The impact of a decision on its subject, which keeps every unit of `world` within its bounds. */
  method Land(d: Decision, self: Unit, allies: seq<Unit>, enemies: seq<Unit>, rng: Rng, at: nat, ghost world: seq<Unit>)
    returns (imp: Impact)
    requires InBounds(d, |allies|, |enemies|)
    modifies allies`currentHP, enemies`currentHP
    ensures imp == ImpactOf(d, self.baseStats, Subject(d, self, allies, enemies).baseStats, rng, at)
    ensures Subject(d, self, allies, enemies).currentHP ==
              HitPointsAfter(old(Subject(d, self, allies, enemies).currentHP), Subject(d, self, allies, enemies).baseStats.maxHP, imp)
    ensures forall u :: (u in allies || u in enemies) && u != Subject(d, self, allies, enemies) ==> u.currentHP == old(u.currentHP)
    ensures old(AllValid(world)) && old(Benign(d, allies)) ==> AllValid(world)
    ensures old(AllValid(world)) && old(Benign(d, allies)) ==>
              forall u :: u in world && old(u.currentHP) == 0 ==> u.currentHP == 0
  {
    var who := Subject(d, self, allies, enemies);
    ghost var hpBefore := who.currentHP;
    ghost var benign := AllValid(world) && Benign(d, allies);
    imp := Carry(d, self, allies, enemies, rng, at);
    if benign && who in world {
      ImpactKeepsBounds(d, self.baseStats, who.baseStats, rng, at, hpBefore);
    }
  }

  /**
   * Spends one action of `self` as the cascade decides on what `self` sees now: consumes an
   * action and carries the decision out; a dead unit or one with no actions left does
   * nothing. Returns the action type, the decision and its impact (whose `next` is the first
   * unread draw). Movement is not modelled: moving only spends the action.
   */
  method TakeAction(self: Unit, allies: seq<Unit>, enemies: seq<Unit>, table: SpellTable, dist: Distance, rng: Rng, at: nat,
                    ghost world: seq<Unit>)
    returns (kind: ActionType, d: Decision, imp: Impact)
    modifies self`remainingActions, allies`currentHP, enemies`currentHP
    ensures d == old(Decide(MeOf(self), Look(self, allies, dist), Look(self, enemies, dist), table))
    ensures kind == KindOf(d)
    ensures d.Idle? ==> self.remainingActions == old(self.remainingActions)
    ensures !d.Idle? ==> self.remainingActions == old(self.remainingActions) - 1
    ensures InBounds(d, |allies|, |enemies|)
    ensures imp == ImpactOf(d, self.baseStats, Subject(d, self, allies, enemies).baseStats, rng, at)
    ensures Subject(d, self, allies, enemies).currentHP ==
              HitPointsAfter(old(Subject(d, self, allies, enemies).currentHP), Subject(d, self, allies, enemies).baseStats.maxHP, imp)
    ensures forall u :: (u in allies || u in enemies) && u != Subject(d, self, allies, enemies) ==> u.currentHP == old(u.currentHP)
    ensures old(AllValid(world)) && old(Benign(d, allies)) ==> AllValid(world)
    ensures old(AllValid(world)) && old(Benign(d, allies)) ==>
              forall u :: u in world && old(u.currentHP) == 0 ==> u.currentHP == 0
  {
    d := Decide(MeOf(self), Look(self, allies, dist), Look(self, enemies, dist), table);
    kind := KindOf(d);
    imp := Act(d, self, allies, enemies, rng, at, world);
  }
}
