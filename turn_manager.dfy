/**
 * The battle scheduler: the registered units, the initiative queue that rotates round after
 * round, and the loop that lets every living unit spend its actions until one side has no
 * living unit left.
 */
module Scheduler {
  import opened Mathf
  import opened Catalog
  import opened Select
  import opened StatBlock
  import opened Combatant
  import opened Resolver
  import opened Policy

  // ---------------------------------------------------------------------------------------
  // Registration
  // ---------------------------------------------------------------------------------------

  /** The non-null units of `s`, in their order. */
  function NonNull(s: seq<Unit?>): (r: seq<Unit>)
    ensures |r| <= |s|
    ensures forall i :: 0 <= i < |r| ==> r[i] in s
    ensures forall i :: 0 <= i < |s| && s[i] != null ==> s[i] in r
  {
    if s == [] then []
    else if s[|s| - 1] == null then NonNull(s[..|s| - 1])
    else NonNull(s[..|s| - 1]) + [s[|s| - 1]]
  }

  /** Dropping nulls works piece by piece, so the order of the units that remain is kept. */
  lemma {:induction false} NonNullAppend(a: seq<Unit?>, b: seq<Unit?>)
    ensures NonNull(a + b) == NonNull(a) + NonNull(b)
    decreases |b|
  {
    if b != [] {
      var b' := b[..|b| - 1];
      assert (a + b)[..|a + b| - 1] == a + b';
      NonNullAppend(a, b');
    } else {
      assert a + b == a;
    }
  }

  /** A list without nulls is registered as it is. */
  lemma {:induction false} NonNullKeepsUnits(s: seq<Unit?>)
    requires forall i :: 0 <= i < |s| ==> s[i] != null
    ensures NonNull(s) == s
  {
    if s != [] {
      NonNullKeepsUnits(s[..|s| - 1]);
    }
  }

  /** The registered list: the non-null units, or nothing when no collection is given. */
  function Registered(units: Option<seq<Unit?>>): (r: seq<Unit>)
    ensures units.None? ==> r == []
    ensures units.Some? ==> forall i :: 0 <= i < |r| ==> r[i] in units.value
    ensures units.Some? ==> forall i :: 0 <= i < |units.value| && units.value[i] != null ==> units.value[i] in r
  {
    if units.None? then [] else NonNull(units.value)
  }

  // ---------------------------------------------------------------------------------------
  // Initiative
  // ---------------------------------------------------------------------------------------

  /** A unit with its rolled initiative and its registration position. */
  datatype Entry = Entry(unit: Unit, init: int, pos: nat)

  /** Every unit rolls d20 + its initiative bonus, in registration order, one draw each. */
  function Rolled(us: seq<Unit>, rng: Rng, at: nat): (r: seq<Entry>)
    reads StatsOf(us)
    ensures |r| == |us|
    ensures forall k :: 0 <= k < |us| ==>
              r[k] == Entry(us[k], RollInitiative(us[k].baseStats.initiativeBonus, rng, at + k), k)
  {
    if us == [] then []
    else
      var n := |us| - 1;
      assert StatsOf(us[..n]) <= StatsOf(us) by {
        forall s | s in StatsOf(us[..n]) ensures s in StatsOf(us) {
          var u :| u in us[..n] && u.baseStats == s;
          assert u in us;
        }
      }
      Rolled(us[..n], rng, at) + [Entry(us[n], RollInitiative(us[n].baseStats.initiativeBonus, rng, at + n), n)]
  }

  /** `a` goes ahead of `b` in the queue: higher initiative, or the same and registered earlier. */
  predicate Ahead(a: Entry, b: Entry)
  {
    a.init > b.init || (a.init == b.init && a.pos < b.pos)
  }

  predicate Ordered(s: seq<Entry>)
  {
    forall i, j :: 0 <= i < j < |s| ==> Ahead(s[i], s[j])
  }

  /** Inserts `e` behind every entry whose initiative is at least its own. */
  function Insert(e: Entry, s: seq<Entry>): (r: seq<Entry>)
    ensures |r| == |s| + 1
    ensures multiset(r) == multiset(s) + multiset{e}
    decreases |s|
  {
    if s == [] || s[0].init < e.init then [e] + s
    else
      assert s == [s[0]] + s[1..];
      [s[0]] + Insert(e, s[1..])
  }

  /** `OrderByDescending(init)`, a stable sort, as insertion of each entry in turn. */
  function SortDescending(s: seq<Entry>): (r: seq<Entry>)
    ensures multiset(r) == multiset(s)
    ensures |r| == |s|
  {
    if s == [] then []
    else
      assert s == s[..|s| - 1] + [s[|s| - 1]];
      Insert(s[|s| - 1], SortDescending(s[..|s| - 1]))
  }

  /** The entries in the order the initiative queue receives them. */
  function InitiativeOrder(us: seq<Unit>, rng: Rng, at: nat): (r: seq<Entry>)
    reads StatsOf(us)
    ensures multiset(r) == multiset(Rolled(us, rng, at))
  {
    SortDescending(Rolled(us, rng, at))
  }

  /** The units of a list of entries. */
  function Units(s: seq<Entry>): (r: seq<Unit>)
    ensures |r| == |s|
    ensures forall k :: 0 <= k < |s| ==> r[k] == s[k].unit
  {
    if s == [] then [] else Units(s[..|s| - 1]) + [s[|s| - 1].unit]
  }

  /** The tail of an ordered list is ordered. */
  lemma OrderedTail(s: seq<Entry>)
    requires Ordered(s) && s != []
    ensures Ordered(s[1..])
  {
    forall i, j | 0 <= i < j < |s| - 1 ensures Ahead(s[1..][i], s[1..][j]) {
      assert s[1..][i] == s[i + 1] && s[1..][j] == s[j + 1];
    }
  }

  /** An entry ahead of every entry of an ordered list can head it. */
  lemma OrderedCons(a: Entry, t: seq<Entry>)
    requires Ordered(t)
    requires forall x :: x in t ==> Ahead(a, x)
    ensures Ordered([a] + t)
  {
    var r := [a] + t;
    forall i, j | 0 <= i < j < |r| ensures Ahead(r[i], r[j]) {
      assert r[j] == t[j - 1];
      if i > 0 {
        assert r[i] == t[i - 1];
      }
    }
  }

  lemma {:induction false} InsertOrdered(e: Entry, s: seq<Entry>)
    requires Ordered(s)
    requires forall x :: x in s ==> x.pos < e.pos
    ensures Ordered(Insert(e, s))
    decreases |s|
  {
    if s == [] {
    } else if s[0].init < e.init {
      forall x | x in s ensures Ahead(e, x) {
        var j :| 0 <= j < |s| && s[j] == x;
        if j > 0 {
          assert Ahead(s[0], s[j]);
        }
      }
      OrderedCons(e, s);
    } else {
      var t := Insert(e, s[1..]);
      OrderedTail(s);
      assert forall x :: x in s[1..] ==> x in s;
      InsertOrdered(e, s[1..]);
      forall x | x in t ensures Ahead(s[0], x) {
        assert x in multiset(s[1..]) + multiset{e};
        if x != e {
          var j :| 0 <= j < |s[1..]| && s[1..][j] == x;
          assert s[j + 1] == x;
        }
      }
      OrderedCons(s[0], t);
    }
  }

  lemma {:induction false} SortOrdered(s: seq<Entry>)
    requires forall i, j :: 0 <= i < j < |s| ==> s[i].pos < s[j].pos
    ensures Ordered(SortDescending(s))
    decreases |s|
  {
    if s != [] {
      var n := |s| - 1;
      var p := s[..n];
      forall i, j | 0 <= i < j < |p| ensures p[i].pos < p[j].pos {
        assert p[i] == s[i] && p[j] == s[j];
      }
      forall i | 0 <= i < |p| ensures p[i].pos < s[n].pos {
        assert p[i] == s[i];
      }
      SortOrdered(p);
      SortKeepsBound(p, s[n].pos);
      InsertOrdered(s[n], SortDescending(p));
    }
  }

  /** Sorting brings in no entry from outside: a bound on every position survives it. */
  lemma SortKeepsBound(p: seq<Entry>, bound: nat)
    requires forall i :: 0 <= i < |p| ==> p[i].pos < bound
    ensures forall x :: x in SortDescending(p) ==> x.pos < bound
  {
    forall x | x in SortDescending(p) ensures x.pos < bound {
      assert x in multiset(SortDescending(p));
      assert x in p;
    }
  }

  lemma {:induction false} InsertUnits(e: Entry, s: seq<Entry>)
    ensures multiset(Units(Insert(e, s))) == multiset(Units(s)) + multiset{e.unit}
    decreases |s|
  {
    if s != [] && s[0].init >= e.init {
      InsertUnits(e, s[1..]);
      InsertUnitsBehind(e, s[0], s[1..]);
      assert [s[0]] + s[1..] == s;
    } else {
      InsertUnitsFront(e, s);
    }
  }

  /** `InsertUnits` when `e` goes in front. */
  lemma InsertUnitsFront(e: Entry, s: seq<Entry>)
    requires s == [] || s[0].init < e.init
    ensures multiset(Units(Insert(e, s))) == multiset(Units(s)) + multiset{e.unit}
  {
    assert Insert(e, s) == [e] + s;
    UnitsCons(e, s);
  }

  /** The inductive step of `InsertUnits` when the head `h` stays in front. */
  lemma InsertUnitsBehind(e: Entry, h: Entry, r: seq<Entry>)
    requires h.init >= e.init
    requires multiset(Units(Insert(e, r))) == multiset(Units(r)) + multiset{e.unit}
    ensures multiset(Units(Insert(e, [h] + r))) == multiset(Units([h] + r)) + multiset{e.unit}
  {
    InsertBehind(e, h, r);
    UnitsCons(h, Insert(e, r));
    UnitsCons(h, r);
  }

  /** Unfolds `Insert` one step when the head `h` stays in front. */
  lemma InsertBehind(e: Entry, h: Entry, r: seq<Entry>)
    requires h.init >= e.init
    ensures Insert(e, [h] + r) == [h] + Insert(e, r)
  {
    assert ([h] + r)[1..] == r;
  }

  lemma UnitsCons(e: Entry, s: seq<Entry>)
    ensures Units([e] + s) == [e.unit] + Units(s)
  {
    var l := Units([e] + s);
    var r := [e.unit] + Units(s);
    assert |l| == |r|;
    forall k | 0 <= k < |l| ensures l[k] == r[k] {
      if k > 0 {
        assert ([e] + s)[k] == s[k - 1];
      }
    }
  }

  lemma {:induction false} SortUnits(s: seq<Entry>)
    ensures multiset(Units(SortDescending(s))) == multiset(Units(s))
    decreases |s|
  {
    if s != [] {
      var n := |s| - 1;
      SortUnits(s[..n]);
      InsertUnits(s[n], SortDescending(s[..n]));
      assert Units(s) == Units(s[..n]) + [s[n].unit] by {
        assert s[..n] == s[..|s| - 1];
      }
    }
  }

  /**
   * The initiative queue: a permutation of the registered units whose rolls are descending,
   * where units that rolled the same keep their registration order.
   */
  lemma InitiativeOrderIsStableDescending(us: seq<Unit>, rng: Rng, at: nat)
    ensures var o := InitiativeOrder(us, rng, at);
            forall i, j :: 0 <= i < j < |o| ==> o[i].init >= o[j].init
    ensures var o := InitiativeOrder(us, rng, at);
            forall i, j :: 0 <= i < j < |o| && o[i].init == o[j].init ==> o[i].pos < o[j].pos
    ensures multiset(InitiativeOrder(us, rng, at)) == multiset(Rolled(us, rng, at))
  {
    SortOrdered(Rolled(us, rng, at));
  }

  /** The queue built from the initiative order holds every registered unit exactly as often. */
  lemma QueueIsPermutation(us: seq<Unit>, rng: Rng, at: nat)
    ensures multiset(Units(InitiativeOrder(us, rng, at))) == multiset(us)
  {
    var rolled := Rolled(us, rng, at);
    SortUnits(rolled);
    assert Units(rolled) == us;
  }

  // ---------------------------------------------------------------------------------------
  // The rotating queue
  // ---------------------------------------------------------------------------------------

  /** Strictly increasing positions, all below `n`. */
  predicate Positions(idx: seq<nat>, n: nat)
  {
    (forall j :: 0 <= j < |idx| ==> idx[j] < n) &&
    (forall j, k :: 0 <= j < k < |idx| ==> idx[j] < idx[k])
  }

  /** The elements of `s` at the positions `idx`, in that order. */
  function Gather(s: seq<Unit>, idx: seq<nat>): (r: seq<Unit>)
    requires forall j :: 0 <= j < |idx| ==> idx[j] < |s|
    ensures |r| == |idx|
    ensures forall j :: 0 <= j < |idx| ==> r[j] == s[idx[j]]
  {
    if idx == [] then [] else Gather(s, idx[..|idx| - 1]) + [s[idx[|idx| - 1]]]
  }

  lemma GatherSnoc(s: seq<Unit>, idx: seq<nat>, i: nat)
    requires forall j :: 0 <= j < |idx| ==> idx[j] < |s|
    requires i < |s|
    ensures Gather(s, idx + [i]) == Gather(s, idx) + [s[i]]
  {
    assert (idx + [i])[..|idx|] == idx;
  }

  /**
   * One step of a round: the queue `start[i..]` followed by the units put back so far loses
   * its head, and the head goes to the back when it is put back.
   */
  lemma QueueRotates(start: seq<Unit>, kept: seq<nat>, i: nat, back: bool)
    requires i < |start| && Positions(kept, i)
    ensures var kept' := if back then kept + [i] else kept;
            Positions(kept', i + 1) &&
            (start[i..] + Gather(start, kept))[1..] + (if back then [start[i]] else []) == start[i + 1..] + Gather(start, kept')
  {
    var g := Gather(start, kept);
    DropHead(start[i..], g);
    assert start[i..][1..] == start[i + 1..];
    if back {
      GatherSnoc(start, kept, i);
      assert (start[i + 1..] + g) + [start[i]] == start[i + 1..] + (g + [start[i]]);
    } else {
      assert (start[i + 1..] + g) + [] == start[i + 1..] + g;
    }
  }

  /** Every gathered element is an element of the list it was gathered from. */
  lemma GatherWithin(s: seq<Unit>, idx: seq<nat>)
    requires forall j :: 0 <= j < |idx| ==> idx[j] < |s|
    ensures forall u :: u in Gather(s, idx) ==> u in s
  {
    forall u | u in Gather(s, idx) ensures u in s {
      var j :| 0 <= j < |idx| && Gather(s, idx)[j] == u;
      assert s[idx[j]] == u;
    }
  }

  lemma DropHead(a: seq<Unit>, b: seq<Unit>)
    requires a != []
    ensures (a + b)[1..] == a[1..] + b
  {
  }

  // ---------------------------------------------------------------------------------------
  // Sides and the end of the battle
  // ---------------------------------------------------------------------------------------

  datatype Side = Players | Enemies

  /** The living units of one side, in registration order. */
  function Living(us: seq<Unit>, player: bool): (r: seq<Unit>)
    reads us
    ensures |r| <= |us|
  {
    if us == [] then []
    else
      var u := us[|us| - 1];
      var rest := Living(us[..|us| - 1], player);
      if u.isPlayerControlled == player && u.IsAlive() then rest + [u] else rest
  }

  /** Exactly the living units of the side, each registered. */
  lemma {:induction false} LivingMembers(us: seq<Unit>, player: bool)
    ensures forall i :: 0 <= i < |Living(us, player)| ==>
              var u := Living(us, player)[i]; u in us && u.isPlayerControlled == player && u.IsAlive()
    ensures forall u :: u in us && u.isPlayerControlled == player && u.IsAlive() ==> u in Living(us, player)
  {
    if us != [] {
      var n := |us| - 1;
      LivingMembers(us[..n], player);
      assert us == us[..n] + [us[n]];
    }
  }

  predicate SideAlive(us: seq<Unit>, player: bool)
    reads us
  {
    exists u :: u in us && u.isPlayerControlled == player && u.IsAlive()
  }

  /** The battle's result: over when a side has no living unit; "Players" only if a player lives. */
  function Outcome(us: seq<Unit>): (o: Option<Side>)
    reads us
    ensures o.None? <==> SideAlive(us, true) && SideAlive(us, false)
    ensures o == Some(Players) <==> SideAlive(us, true) && !SideAlive(us, false)
    ensures o == Some(Enemies) <==> !SideAlive(us, true)
  {
    var players := SideAlive(us, true);
    var enemies := SideAlive(us, false);
    if !players || !enemies then Some(if players then Players else Enemies) else Option.None
  }

  /** When both sides are wiped out at once the enemies are reported as the winners. */
  lemma MutualWipeOutGoesToEnemies(us: seq<Unit>)
    requires forall u :: u in us ==> !u.IsAlive()
    ensures Outcome(us) == Some(Enemies)
  {
  }

  /** No living unit of a side is left out of that side's list, and no other unit is in it. */
  lemma LivingPartition(us: seq<Unit>, u: Unit)
    requires u in us && u.IsAlive()
    ensures u in Living(us, u.isPlayerControlled) && u !in Living(us, !u.isPlayerControlled)
  {
    LivingMembers(us, u.isPlayerControlled);
    LivingMembers(us, !u.isPlayerControlled);
  }

  /** A living unit's side is alive exactly when its list of living allies is not empty. */
  lemma SideAliveIffLiving(us: seq<Unit>, player: bool)
    ensures SideAlive(us, player) <==> Living(us, player) != []
  {
    LivingMembers(us, player);
    if Living(us, player) != [] {
      assert Living(us, player)[0] in Living(us, player);
    }
  }

  /** Which of the units are alive, position by position. */
  function AliveMask(us: seq<Unit>): (r: seq<bool>)
    reads us
    ensures |r| == |us| && forall k :: 0 <= k < |us| ==> r[k] == us[k].IsAlive()
  {
    if us == [] then [] else AliveMask(us[..|us| - 1]) + [us[|us| - 1].IsAlive()]
  }

  // ---------------------------------------------------------------------------------------
  // The scheduler
  // ---------------------------------------------------------------------------------------

  class TurnManager {
    var allUnits: seq<Unit>
    var roundOrder: seq<Unit>
    var roundActive: bool

    constructor ()
      ensures allUnits == [] && roundOrder == [] && !roundActive
    {
      allUnits, roundOrder, roundActive := [], [], false;
    }

    /** Every unit within its bounds, and every queued unit a registered one. */
    predicate Valid()
      reads this, allUnits, StatsOf(allUnits)
    {
      AllValid(allUnits) && forall u :: u in roundOrder ==> u in allUnits
    }

    method RegisterUnits(units: Option<seq<Unit?>>)
      modifies this`allUnits
      ensures allUnits == Registered(units)
    {
      allUnits := Registered(units);
    }

    /**
     * Rolls initiative for every unit (the k-th registered unit reads the draw at `at + k`) and
     * refills the queue in the stable descending order of the rolls.
     */
    method BuildInitiative(rng: Rng, at: nat) returns (next: nat)
      modifies this`roundOrder
      ensures roundOrder == Units(old(InitiativeOrder(allUnits, rng, at)))
      ensures multiset(roundOrder) == multiset(allUnits)
      ensures forall u :: u in roundOrder ==> u in allUnits
      ensures old(AllValid(allUnits)) ==> AllValid(allUnits)
      ensures next == at + |allUnits|
    {
      var rolled := InitiativeOrder(allUnits, rng, at);
      QueueIsPermutation(allUnits, rng, at);
      Requeue(rolled);
      assert forall u :: u in roundOrder ==> u in allUnits by {
        assert forall u :: u in roundOrder ==> u in multiset(allUnits);
      }
      next := at + |allUnits|;
    }

    /** Clears the queue and enqueues the units of `rolled` in order. */
    method Requeue(rolled: seq<Entry>)
      modifies this`roundOrder
      ensures roundOrder == Units(rolled)
      ensures old(AllValid(allUnits)) ==> AllValid(allUnits)
    {
      roundOrder := [];
      var i := 0;
      while i < |rolled|
        invariant 0 <= i <= |rolled|
        invariant |roundOrder| == i
        invariant forall k :: 0 <= k < i ==> roundOrder[k] == rolled[k].unit
      {
        roundOrder := roundOrder + [rolled[i].unit];
        i := i + 1;
      }
    }

    /** Ends the battle when a side has no living unit. */
    method BattleOver() returns (over: bool)
      modifies this`roundActive
      ensures over <==> Outcome(allUnits).Some?
      ensures over ==> !roundActive
      ensures !over ==> roundActive == old(roundActive)
    {
      var players := exists u :: u in allUnits && u.isPlayerControlled && u.IsAlive();
      var enemies := exists u :: u in allUnits && !u.isPlayerControlled && u.IsAlive();
      over := !players || !enemies;
      if over {
        roundActive := false;
      }
    }

    /** Refills every unit's actions, the dead ones' included. */
    method BeginRound()
      requires AllValid(allUnits)
      modifies allUnits`remainingActions
      ensures forall u :: u in allUnits ==> u.remainingActions == u.baseStats.actionsPerTurn
      ensures AllValid(allUnits)
    {
      var i := 0;
      while i < |allUnits|
        invariant 0 <= i <= |allUnits|
        invariant forall k :: 0 <= k < i ==> allUnits[k].remainingActions == allUnits[k].baseStats.actionsPerTurn
        invariant AllValid(allUnits)
      {
        allUnits[i].BeginTurn();
        i := i + 1;
      }
    }

    /**
     * One action of `current`: the policy sees the living units of its own side as allies and
     * those of the other side as enemies, and carries out what it decides.
     */
    method DoUnitAction(current: Unit, table: SpellTable, dist: Distance, rng: Rng, at: nat)
      returns (kind: ActionType, d: Decision, imp: Impact, next: nat)
      requires current in allUnits && AllValid(allUnits) && NonNegativeFlats(table)
      modifies current`remainingActions, allUnits`currentHP
      ensures d == old(Decide(MeOf(current),
                              Look(current, Living(allUnits, current.isPlayerControlled), dist),
                              Look(current, Living(allUnits, !current.isPlayerControlled), dist), table))
      ensures kind == KindOf(d)
      ensures d.Idle? ==> current.remainingActions == old(current.remainingActions)
      ensures !d.Idle? ==> current.remainingActions == old(current.remainingActions) - 1
      ensures old(current.IsAlive()) && old(current.remainingActions) > 0 ==>
                current.remainingActions == old(current.remainingActions) - 1
      ensures var allies := old(Living(allUnits, current.isPlayerControlled));
              var enemies := old(Living(allUnits, !current.isPlayerControlled));
              InBounds(d, |allies|, |enemies|) &&
              var who := Subject(d, current, allies, enemies);
              imp == ImpactOf(d, current.baseStats, who.baseStats, rng, at) &&
              who.currentHP == HitPointsAfter(old(who.currentHP), who.baseStats.maxHP, imp) &&
              forall u :: u in allUnits && u != who ==> u.currentHP == old(u.currentHP)
      ensures AllValid(allUnits)
      ensures forall u :: u in allUnits && old(u.currentHP) == 0 ==> u.currentHP == 0
      ensures next == imp.next && next >= at
    {
      var allies := Living(allUnits, current.isPlayerControlled);
      var enemies := Living(allUnits, !current.isPlayerControlled);
      LivingMembers(allUnits, current.isPlayerControlled);
      LivingMembers(allUnits, !current.isPlayerControlled);
      kind, d, imp := TakeAction(current, allies, enemies, table, dist, rng, at, allUnits);
      assert old(Benign(d, allies));
      next := imp.next;
    }

    /**
     * One pass of the turn loop: `current`, alive and with an action left, acts once, and the
     * battle is checked.
     */
    method Step(current: Unit, table: SpellTable, dist: Distance, rng: Rng, at: nat) returns (over: bool, next: nat)
      requires current in allUnits && AllValid(allUnits) && NonNegativeFlats(table)
      requires current.IsAlive() && current.remainingActions > 0
      modifies this`roundActive, current`remainingActions, allUnits`currentHP
      ensures current.remainingActions == old(current.remainingActions) - 1
      ensures AllValid(allUnits)
      ensures forall u :: u in allUnits && old(u.currentHP) == 0 ==> u.currentHP == 0
      ensures over <==> Outcome(allUnits).Some?
      ensures over ==> !roundActive
      ensures !over ==> roundActive == old(roundActive)
      ensures next >= at
    {
      next := Spend(current, table, dist, rng, at);
      over := BattleOver();
    }

    /** `current`, alive and with an action left, acts once and so spends one action. */
    method Spend(current: Unit, table: SpellTable, dist: Distance, rng: Rng, at: nat) returns (next: nat)
      requires current in allUnits && AllValid(allUnits) && NonNegativeFlats(table)
      requires current.IsAlive() && current.remainingActions > 0
      modifies current`remainingActions, allUnits`currentHP
      ensures current.remainingActions == old(current.remainingActions) - 1
      ensures AllValid(allUnits)
      ensures forall u :: u in allUnits && old(u.currentHP) == 0 ==> u.currentHP == 0
      ensures next >= at
    {
      var kind, d;
      var imp;
      kind, d, imp, next := DoUnitAction(current, table, dist, rng, at);
    }

    /**
     * The turn of `current`: it acts while it is alive and has actions left, and the battle
     * is checked after every action.
     */
    method Turn(current: Unit, table: SpellTable, dist: Distance, rng: Rng, at: nat)
      returns (over: bool, acted: nat, next: nat)
      requires current in allUnits && AllValid(allUnits) && NonNegativeFlats(table)
      modifies this`roundActive, current`remainingActions, allUnits`currentHP
      ensures AllValid(allUnits)
      ensures forall u :: u in allUnits && old(u.currentHP) == 0 ==> u.currentHP == 0
      ensures acted + current.remainingActions == old(current.remainingActions)
      ensures acted <= current.baseStats.actionsPerTurn
      ensures over <==> Outcome(allUnits).Some? && acted > 0
      ensures over ==> !roundActive
      ensures !over ==> roundActive == old(roundActive) && (!current.IsAlive() || current.remainingActions == 0)
      ensures next >= at
    {
      over, acted, next := false, 0, at;
      while current.IsAlive() && current.remainingActions > 0
        invariant AllValid(allUnits)
        invariant forall u :: u in allUnits && old(u.currentHP) == 0 ==> u.currentHP == 0
        invariant acted + current.remainingActions == old(current.remainingActions)
        invariant roundActive == old(roundActive)
        invariant acted > 0 ==> Outcome(allUnits).None?
        invariant next >= at
        decreases current.remainingActions
      {
        over, next := Step(current, table, dist, rng, next);
        acted := acted + 1;
        if over {
          return;
        }
      }
    }

    /**
     * The visit of one dequeued unit: a dead unit is skipped; a living one takes its turn
     * and, unless the battle ended during it, goes to the back of the queue, after which the
     * battle is checked again.
     */
    method Visit(current: Unit, table: SpellTable, dist: Distance, rng: Rng, at: nat)
      returns (over: bool, requeued: bool, next: nat)
      requires AllValid(allUnits) && current in allUnits && NonNegativeFlats(table)
      modifies this`roundOrder, this`roundActive, current`remainingActions, allUnits`currentHP
      ensures AllValid(allUnits)
      ensures forall u :: u in allUnits && old(u.currentHP) == 0 ==> u.currentHP == 0
      ensures roundOrder == old(roundOrder) + (if requeued then [current] else [])
      ensures !over ==> (requeued <==> old(current.IsAlive()))
      ensures over ==> !roundActive && Outcome(allUnits).Some?
      ensures !over ==> roundActive == old(roundActive)
      ensures next >= at
    {
      over, requeued, next := false, false, at;
      if !current.IsAlive() {
        return;
      }
      var acted;
      over, acted, next := Turn(current, table, dist, rng, at);
      if over {
        return;
      }
      roundOrder := roundOrder + [current];
      requeued := true;
      over := BattleOver();
    }

    /**
     * Where a round stands after `i` of the units it found queued in `start` have been
     * dequeued: `kept` lists, in order, the positions of those put back; the queue is the
     * rest of `start` followed by them; every unit put back was alive when the round began
     * (`alive0`), every unit dropped is dead, and every unit still to come that was dead
     * when the round began still is.
     */
    ghost predicate Midway(start: seq<Unit>, alive0: seq<bool>, kept: seq<nat>, i: nat)
      reads this, start
    {
      i <= |start| == |alive0| && Positions(kept, i) &&
      roundOrder == start[i..] + Gather(start, kept) &&
      (forall j :: 0 <= j < |kept| ==> alive0[kept[j]]) &&
      (forall k :: 0 <= k < i && k !in kept ==> start[k].currentHP == 0) &&
      (forall k :: i <= k < |start| && !alive0[k] ==> start[k].currentHP == 0)
    }

    /** One step of a round: the head of the queue, `start[i]`, is dequeued and visited. */
    method Advance(ghost start: seq<Unit>, ghost alive0: seq<bool>, ghost kept: seq<nat>, i: nat,
                   table: SpellTable, dist: Distance, rng: Rng, at: nat)
      returns (over: bool, next: nat, ghost kept': seq<nat>)
      requires Valid() && NonNegativeFlats(table)
      requires forall u :: u in start ==> u in allUnits
      requires i < |start| && Midway(start, alive0, kept, i)
      modifies this`roundOrder, this`roundActive, allUnits`currentHP, allUnits`remainingActions
      ensures Valid()
      ensures forall u :: u in allUnits && old(u.currentHP) == 0 ==> u.currentHP == 0
      ensures over ==> !roundActive && Outcome(allUnits).Some?
      ensures !over ==> roundActive == old(roundActive) && Midway(start, alive0, kept', i + 1)
      ensures next >= at
    {
      var current := roundOrder[0];
      assert current == start[i] && current in allUnits;
      ghost var rest := (start[i..] + Gather(start, kept))[1..];
      roundOrder := roundOrder[1..];
      assert roundOrder == rest;
      var requeued;
      kept' := kept;
      over, requeued, next := Visit(current, table, dist, rng, at);
      if over {
        return;
      }
      forall k | 0 <= k < |start| && start[k].currentHP != 0 ensures old(start[k].currentHP) != 0 {
        assert start[k] in allUnits;
      }
      assert requeued ==> alive0[i];
      assert roundOrder == rest + (if requeued then [start[i]] else []);
      QueueRotates(start, kept, i, requeued);
      kept' := if requeued then kept + [i] else kept;
      forall j | 0 <= j < |kept'| ensures alive0[kept'[j]] {
        if j == |kept| { assert requeued && kept'[j] == i; }
        else { assert kept'[j] == kept[j]; }
      }
      forall k | 0 <= k < i + 1 && k !in kept' ensures start[k].currentHP == 0 {
        if k < i { assert k !in kept; } else { assert !requeued; }
      }
    }

    /**
     * One round: dequeues exactly as many units as the queue held at its start; a dead unit
     * is dropped, a living one takes its turn and goes to the back of the queue. `kept` lists
     * the positions, in the queue as the round found it, of the units put back, in order.
     */
    method Round(table: SpellTable, dist: Distance, rng: Rng, at: nat) returns (over: bool, next: nat, ghost kept: seq<nat>)
      requires Valid() && NonNegativeFlats(table)
      modifies this`roundOrder, this`roundActive, allUnits`currentHP, allUnits`remainingActions
      ensures Valid()
      ensures forall u :: u in allUnits && old(u.currentHP) == 0 ==> u.currentHP == 0
      ensures over ==> !roundActive && Outcome(allUnits).Some?
      ensures !over ==> roundActive == old(roundActive)
      ensures !over ==> Positions(kept, |old(roundOrder)|) && roundOrder == Gather(old(roundOrder), kept)
      ensures !over ==> forall j :: 0 <= j < |kept| ==> old(roundOrder[kept[j]].IsAlive())
      ensures !over ==> forall k :: 0 <= k < |old(roundOrder)| && k !in kept ==> !old(roundOrder)[k].IsAlive()
      ensures next >= at
    {
      ghost var start := roundOrder;
      ghost var alive0 := AliveMask(start);
      assert Midway(start, alive0, [], 0) by {
        forall k | 0 <= k < |start| && !alive0[k] ensures start[k].currentHP == 0 {
          assert start[k] in allUnits && start[k].Valid();
        }
      }
      over, next, kept := Sweep(start, alive0, table, dist, rng, at);
      if !over {
        assert start[|start|..] == [];
      }
    }

    /** The loop of a round, from `Midway` at its start to `Midway` at its end. */
    method Sweep(ghost start: seq<Unit>, ghost alive0: seq<bool>, table: SpellTable, dist: Distance, rng: Rng, at: nat)
      returns (over: bool, next: nat, ghost kept: seq<nat>)
      requires Valid() && NonNegativeFlats(table)
      requires (forall u :: u in start ==> u in allUnits) && Midway(start, alive0, [], 0)
      modifies this`roundOrder, this`roundActive, allUnits`currentHP, allUnits`remainingActions
      ensures Valid()
      ensures forall u :: u in allUnits && old(u.currentHP) == 0 ==> u.currentHP == 0
      ensures over ==> !roundActive && Outcome(allUnits).Some?
      ensures !over ==> roundActive == old(roundActive) && Midway(start, alive0, kept, |start|)
      ensures next >= at
    {
      var count := |roundOrder|;
      var i: nat := 0;
      over, next, kept := false, at, [];
      while i < count
        invariant i <= count == |start|
        invariant Valid()
        invariant forall u :: u in allUnits && old(u.currentHP) == 0 ==> u.currentHP == 0
        invariant roundActive == old(roundActive)
        invariant Midway(start, alive0, kept, i)
        invariant next >= at
      {
        over, next, kept := Advance(start, alive0, kept, i, table, dist, rng, next);
        if over {
          return;
        }
        i := i + 1;
      }
    }

    /**
     * The battle loop. Each round first checks whether the battle is over, then refills every
     * unit's actions and plays one round. `rounds` bounds the number of rounds played.
     */
    method RunLoop(table: SpellTable, dist: Distance, rng: Rng, at: nat, rounds: nat) returns (next: nat)
      requires Valid() && NonNegativeFlats(table)
      modifies this`roundOrder, this`roundActive, allUnits`currentHP, allUnits`remainingActions
      ensures Valid()
      ensures forall u :: u in allUnits && old(u.currentHP) == 0 ==> u.currentHP == 0
      ensures roundActive ==> old(roundActive)
      ensures old(roundActive) && !roundActive ==> Outcome(allUnits).Some?
      ensures !old(roundActive) ==> roundOrder == old(roundOrder) && next == at
      ensures next >= at
    {
      next := at;
      var left := rounds;
      while roundActive && left > 0
        invariant Valid()
        invariant forall u :: u in allUnits && old(u.currentHP) == 0 ==> u.currentHP == 0
        invariant roundActive ==> old(roundActive)
        invariant old(roundActive) && !roundActive ==> Outcome(allUnits).Some?
        invariant !old(roundActive) ==> roundOrder == old(roundOrder) && next == at
        invariant next >= at
        decreases left
      {
        var over := BattleOver();
        if over {
          return;
        }
        BeginRound();
        ghost var kept;
        over, next, kept := Round(table, dist, rng, next);
        if over {
          return;
        }
        left := left - 1;
      }
    }

    /** Rolls initiative, opens the battle and runs the loop. */
    method StartBattle(table: SpellTable, dist: Distance, rng: Rng, at: nat, rounds: nat) returns (next: nat)
      requires AllValid(allUnits) && NonNegativeFlats(table)
      modifies this`roundOrder, this`roundActive, allUnits`currentHP, allUnits`remainingActions
      ensures Valid()
      ensures forall u :: u in allUnits && old(u.currentHP) == 0 ==> u.currentHP == 0
      ensures !roundActive ==> Outcome(allUnits).Some?
      ensures next >= at + |allUnits|
    {
      next := Open(rng, at);
      next := RunLoop(table, dist, rng, next, rounds);
    }

    /** The first half of starting a battle: initiative is rolled and the battle is open. */
    method Open(rng: Rng, at: nat) returns (next: nat)
      requires AllValid(allUnits)
      modifies this`roundOrder, this`roundActive
      ensures Valid() && roundActive
      ensures multiset(roundOrder) == multiset(allUnits)
      ensures next == at + |allUnits|
    {
      next := BuildInitiative(rng, at);
      roundActive := true;
    }
  }
}
