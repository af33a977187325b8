/**
 * Spell progression rules: caster tier per class, known-spell caps per level, trimming a
 * class spell list to those caps, proficiency bonus, cantrip tier and effective slot level.
 */
module SpellRules {
  import opened Mathf
  import opened Catalog

  datatype CasterProgression = None | Third | Half | Full

  function ProgressionFor(cls: ClassId): CasterProgression
  {
    match cls
    case Barbarian => CasterProgression.None
    case Fighter => Third
    case Rogue => Third
    case Paladin => Half
    case Ranger => Half
    case Bard => Full
    case Cleric => Full
    case Druid => Full
    case Sorcerer => Full
    case Warlock => Full
    case Wizard => Full
    case Artificer => Half
    case Monk => CasterProgression.None
  }

  /** How many cantrips, 1st-, 2nd- and 3rd-level spells a caster may know. */
  datatype Caps = Caps(can: nat, l1: nat, l2: nat, l3: nat)

  /** The caps table of one progression, indexed by character level 0..10 (row 0 unused). */
  function CapsTable(p: CasterProgression): (t: seq<Caps>)
    ensures |t| == 11
    ensures t[0] == Caps(0, 0, 0, 0)
  {
    match p
    case Full => [Caps(0, 0, 0, 0),
                  Caps(3, 2, 0, 0), Caps(3, 3, 0, 0), Caps(3, 4, 2, 0), Caps(4, 4, 3, 0), Caps(4, 4, 3, 2),
                  Caps(4, 4, 3, 3), Caps(4, 4, 3, 3), Caps(4, 4, 3, 3), Caps(4, 4, 3, 3), Caps(5, 4, 3, 3)]
    case Half => [Caps(0, 0, 0, 0),
                  Caps(0, 0, 0, 0), Caps(0, 2, 0, 0), Caps(0, 3, 0, 0), Caps(0, 3, 2, 0), Caps(0, 4, 2, 0),
                  Caps(0, 4, 3, 0), Caps(0, 4, 3, 0), Caps(0, 4, 3, 2), Caps(0, 4, 3, 2), Caps(0, 4, 3, 2)]
    case Third => [Caps(0, 0, 0, 0),
                   Caps(0, 0, 0, 0), Caps(0, 0, 0, 0), Caps(0, 2, 0, 0), Caps(0, 2, 0, 0), Caps(0, 3, 0, 0),
                   Caps(0, 3, 2, 0), Caps(0, 3, 2, 0), Caps(0, 4, 2, 0), Caps(0, 4, 2, 0), Caps(0, 4, 3, 0)]
    case None => seq(11, _ => Caps(0, 0, 0, 0))
  }

  /**
   * Row `lvl` (1..10) of the caps table of a progression, written as a case analysis so
   * that using it does not unfold the whole table; `CapsRowIsTableRow` ties it to the table.
   */
  function CapsRow(p: CasterProgression, lvl: int): Caps
  {
    match p
    case Full =>
      if lvl <= 1 then Caps(3, 2, 0, 0) else if lvl == 2 then Caps(3, 3, 0, 0)
      else if lvl == 3 then Caps(3, 4, 2, 0) else if lvl == 4 then Caps(4, 4, 3, 0)
      else if lvl == 5 then Caps(4, 4, 3, 2) else if lvl <= 9 then Caps(4, 4, 3, 3)
      else Caps(5, 4, 3, 3)
    case Half =>
      if lvl <= 1 then Caps(0, 0, 0, 0) else if lvl == 2 then Caps(0, 2, 0, 0)
      else if lvl == 3 then Caps(0, 3, 0, 0) else if lvl == 4 then Caps(0, 3, 2, 0)
      else if lvl == 5 then Caps(0, 4, 2, 0) else if lvl <= 7 then Caps(0, 4, 3, 0)
      else Caps(0, 4, 3, 2)
    case Third =>
      if lvl <= 2 then Caps(0, 0, 0, 0) else if lvl <= 4 then Caps(0, 2, 0, 0)
      else if lvl == 5 then Caps(0, 3, 0, 0) else if lvl <= 7 then Caps(0, 3, 2, 0)
      else if lvl <= 9 then Caps(0, 4, 2, 0) else Caps(0, 4, 3, 0)
    case None => Caps(0, 0, 0, 0)
  }

  lemma CapsRowIsTableRow(p: CasterProgression, lvl: int)
    requires 1 <= lvl <= 10
    ensures CapsRow(p, lvl) == CapsTable(p)[lvl]
  {
  }

  /** The caps row for a class at a level, the level first clamped into 1..10. */
  function AllowedAtLevel(cls: ClassId, level: int): (caps: Caps)
  {
    CapsRow(ProgressionFor(cls), Clamp(level, 1, 10))
  }

  /**
   * The caps of a level are the table row of that level; any level of 10 or more gets the
   * level-10 row and any level of 1 or less the level-1 row.
   */
  lemma AllowedAtLevelClamps(cls: ClassId, level: int)
    ensures 1 <= level <= 10 ==> AllowedAtLevel(cls, level) == CapsTable(ProgressionFor(cls))[level]
    ensures level >= 10 ==> AllowedAtLevel(cls, level) == CapsTable(ProgressionFor(cls))[10]
    ensures level <= 1 ==> AllowedAtLevel(cls, level) == CapsTable(ProgressionFor(cls))[1]
  {
    CapsRowIsTableRow(ProgressionFor(cls), Clamp(level, 1, 10));
  }

  // ---------- Trimming a spell list ----------

  /** The spell table holds the entry's id, at level `tier`. */
  predicate InTier(table: SpellTable, ks: KnownSpell, tier: int)
  {
    ks.id in table && table[ks.id].level == tier
  }

  /** In input order, the entries whose table level is `tier`, relabelled with that level. */
  function OfTier(table: SpellTable, s: seq<KnownSpell>, tier: int): seq<KnownSpell>
  {
    if s == [] then []
    else
      var last := s[|s| - 1];
      OfTier(table, s[..|s| - 1], tier) + (if InTier(table, last, tier) then [KnownSpell(last.id, tier)] else [])
  }

  /** The longest prefix of `s` with at most `n` elements. */
  function Take<T>(s: seq<T>, n: nat): (r: seq<T>)
    ensures |r| <= n && r <= s
    ensures |r| == if |s| <= n then |s| else n
  {
    if |s| <= n then s else s[..n]
  }

  /** What trimming to `caps` keeps: per tier 0..3, the first entries within the cap, tiers in order. */
  function Trimmed(table: SpellTable, caps: Caps, s: seq<KnownSpell>): seq<KnownSpell>
  {
    Take(OfTier(table, s, 0), caps.can) + Take(OfTier(table, s, 1), caps.l1)
      + Take(OfTier(table, s, 2), caps.l2) + Take(OfTier(table, s, 3), caps.l3)
  }

  /** The bucket that holds the first entries of tier `tier`, after one more entry is scanned. */
  lemma {:induction false} BucketStep(table: SpellTable, s: seq<KnownSpell>, x: KnownSpell, tier: int, cap: nat)
    ensures OfTier(table, s + [x], tier) == OfTier(table, s, tier) + (if InTier(table, x, tier) then [KnownSpell(x.id, tier)] else [])
    ensures Take(OfTier(table, s + [x], tier), cap) ==
            if InTier(table, x, tier) && |Take(OfTier(table, s, tier), cap)| < cap
            then Take(OfTier(table, s, tier), cap) + [KnownSpell(x.id, tier)]
            else Take(OfTier(table, s, tier), cap)
  {
    assert (s + [x])[..|s + [x]| - 1] == s;
  }

  /**
   * One entry scanned into the bucket of tier `tier`: a spell of the table at that level is
   * appended while the bucket is under its cap; anything else leaves the bucket alone.
   */
  method Fill(table: SpellTable, ghost seen: seq<KnownSpell>, ks: KnownSpell, tier: int, cap: nat, bucket: seq<KnownSpell>)
    returns (b: seq<KnownSpell>)
    requires bucket == Take(OfTier(table, seen, tier), cap)
    ensures b == Take(OfTier(table, seen + [ks], tier), cap)
  {
    BucketStep(table, seen, ks, tier, cap);
    if ks.id in table && table[ks.id].level == tier && |bucket| < cap {
      b := bucket + [KnownSpell(ks.id, tier)];
    } else {
      b := bucket;
    }
  }

  /**
   * Fills four buckets in one pass over the class list, adding an entry to the bucket of
   * its table level while that bucket is under its cap, then concatenates the buckets.
   */
  method TrimToCaps(table: SpellTable, cls: ClassId, level: int, baseList: seq<KnownSpell>)
    returns (result: seq<KnownSpell>)
    ensures result == Trimmed(table, AllowedAtLevel(cls, level), baseList)
  {
    var caps := AllowedAtLevel(cls, level);
    var can: seq<KnownSpell> := [];
    var l1: seq<KnownSpell> := [];
    var l2: seq<KnownSpell> := [];
    var l3: seq<KnownSpell> := [];
    for i := 0 to |baseList|
      invariant can == Take(OfTier(table, baseList[..i], 0), caps.can)
      invariant l1 == Take(OfTier(table, baseList[..i], 1), caps.l1)
      invariant l2 == Take(OfTier(table, baseList[..i], 2), caps.l2)
      invariant l3 == Take(OfTier(table, baseList[..i], 3), caps.l3)
    {
      var ks := baseList[i];
      assert baseList[..i + 1] == baseList[..i] + [ks];
      can := Fill(table, baseList[..i], ks, 0, caps.can, can);
      l1 := Fill(table, baseList[..i], ks, 1, caps.l1, l1);
      l2 := Fill(table, baseList[..i], ks, 2, caps.l2, l2);
      l3 := Fill(table, baseList[..i], ks, 3, caps.l3, l3);
    }
    assert baseList[..|baseList|] == baseList;
    result := can + l1 + l2 + l3;
  }

  // ---------- Properties of trimming ----------

  /** Every entry of `s` is in the table at its own level. */
  ghost predicate TableLevelled(table: SpellTable, s: seq<KnownSpell>)
  {
    forall i :: 0 <= i < |s| ==> s[i].id in table && table[s[i].id].level == s[i].level
  }

  lemma {:induction false} OfTierLevelled(table: SpellTable, s: seq<KnownSpell>, tier: int)
    ensures TableLevelled(table, OfTier(table, s, tier))
    ensures forall i :: 0 <= i < |OfTier(table, s, tier)| ==> OfTier(table, s, tier)[i].level == tier
  {
    if s != [] {
      var last := s[|s| - 1];
      var p := OfTier(table, s[..|s| - 1], tier);
      var q: seq<KnownSpell> := if InTier(table, last, tier) then [KnownSpell(last.id, tier)] else [];
      OfTierLevelled(table, s[..|s| - 1], tier);
      assert OfTier(table, s, tier) == p + q;
      forall i | 0 <= i < |p + q|
        ensures (p + q)[i].id in table && table[(p + q)[i].id].level == (p + q)[i].level == tier
      {
        if i < |p| { assert (p + q)[i] == p[i]; } else { assert (p + q)[i] == q[i - |p|]; }
      }
    }
  }

  lemma {:induction false} OfTierConcat(table: SpellTable, a: seq<KnownSpell>, b: seq<KnownSpell>, tier: int)
    ensures OfTier(table, a + b, tier) == OfTier(table, a, tier) + OfTier(table, b, tier)
  {
    if b == [] {
      assert a + b == a;
    } else {
      assert (a + b)[..|a + b| - 1] == a + b[..|b| - 1];
      OfTierConcat(table, a, b[..|b| - 1], tier);
    }
  }

  /** Filtering a list whose entries are all table-levelled at `tier` keeps it whole. */
  lemma {:induction false} OfTierOfOneTier(table: SpellTable, s: seq<KnownSpell>, t: int, tier: int)
    requires TableLevelled(table, s)
    requires forall i :: 0 <= i < |s| ==> s[i].level == t
    ensures OfTier(table, s, tier) == if t == tier then s else []
  {
    if s != [] {
      OfTierOfOneTier(table, s[..|s| - 1], t, tier);
      assert s == s[..|s| - 1] + [s[|s| - 1]];
    }
  }

  lemma TakeOfOneTier(table: SpellTable, s: seq<KnownSpell>, tier: int, cap: nat)
    ensures TableLevelled(table, Take(OfTier(table, s, tier), cap))
    ensures forall i :: 0 <= i < |Take(OfTier(table, s, tier), cap)| ==> Take(OfTier(table, s, tier), cap)[i].level == tier
  {
    OfTierLevelled(table, s, tier);
  }

  /**
   * The trimmed list is grouped by tier, cantrips first, and every entry is a spell of the
   * table at exactly the level it is listed with (unknown ids and levels above 3 are dropped).
   */
  lemma TrimmedGrouped(table: SpellTable, caps: Caps, s: seq<KnownSpell>)
    ensures TableLevelled(table, Trimmed(table, caps, s))
    ensures forall i :: 0 <= i < |Trimmed(table, caps, s)| ==> 0 <= Trimmed(table, caps, s)[i].level <= 3
    ensures forall i, j :: 0 <= i < j < |Trimmed(table, caps, s)| ==>
              Trimmed(table, caps, s)[i].level <= Trimmed(table, caps, s)[j].level
  {
    TakeOfOneTier(table, s, 0, caps.can);
    TakeOfOneTier(table, s, 1, caps.l1);
    TakeOfOneTier(table, s, 2, caps.l2);
    TakeOfOneTier(table, s, 3, caps.l3);
  }

  /** How many entries of `s` carry level `tier`. */
  function CountLevel(s: seq<KnownSpell>, tier: int): nat
  {
    if s == [] then 0 else CountLevel(s[..|s| - 1], tier) + (if s[|s| - 1].level == tier then 1 else 0)
  }

  lemma {:induction false} CountLevelConcat(a: seq<KnownSpell>, b: seq<KnownSpell>, tier: int)
    ensures CountLevel(a + b, tier) == CountLevel(a, tier) + CountLevel(b, tier)
  {
    if b == [] {
      assert a + b == a;
    } else {
      assert (a + b)[..|a + b| - 1] == a + b[..|b| - 1];
      CountLevelConcat(a, b[..|b| - 1], tier);
    }
  }

  lemma {:induction false} CountLevelOfOneTier(s: seq<KnownSpell>, t: int, tier: int)
    requires forall i :: 0 <= i < |s| ==> s[i].level == t
    ensures CountLevel(s, tier) == if t == tier then |s| else 0
  {
    if s != [] {
      CountLevelOfOneTier(s[..|s| - 1], t, tier);
    }
  }

  /** The trimmed list holds at most `caps.can` cantrips and at most `caps.l1/l2/l3` spells of levels 1/2/3. */
  lemma TrimmedWithinCaps(table: SpellTable, caps: Caps, s: seq<KnownSpell>)
    ensures CountLevel(Trimmed(table, caps, s), 0) <= caps.can
    ensures CountLevel(Trimmed(table, caps, s), 1) <= caps.l1
    ensures CountLevel(Trimmed(table, caps, s), 2) <= caps.l2
    ensures CountLevel(Trimmed(table, caps, s), 3) <= caps.l3
  {
    var a, b, c, d := Take(OfTier(table, s, 0), caps.can), Take(OfTier(table, s, 1), caps.l1),
                      Take(OfTier(table, s, 2), caps.l2), Take(OfTier(table, s, 3), caps.l3);
    TakeOfOneTier(table, s, 0, caps.can);
    TakeOfOneTier(table, s, 1, caps.l1);
    TakeOfOneTier(table, s, 2, caps.l2);
    TakeOfOneTier(table, s, 3, caps.l3);
    CountLevelConcat(a + b + c, d, 0); CountLevelConcat(a + b, c, 0); CountLevelConcat(a, b, 0);
    CountLevelConcat(a + b + c, d, 1); CountLevelConcat(a + b, c, 1); CountLevelConcat(a, b, 1);
    CountLevelConcat(a + b + c, d, 2); CountLevelConcat(a + b, c, 2); CountLevelConcat(a, b, 2);
    CountLevelConcat(a + b + c, d, 3); CountLevelConcat(a + b, c, 3); CountLevelConcat(a, b, 3);
    forall t | 0 <= t <= 3
      ensures CountLevel(a, t) == (if t == 0 then |a| else 0)
      ensures CountLevel(b, t) == (if t == 1 then |b| else 0)
      ensures CountLevel(c, t) == (if t == 2 then |c| else 0)
      ensures CountLevel(d, t) == (if t == 3 then |d| else 0)
    {
      CountLevelOfOneTier(a, 0, t);
      CountLevelOfOneTier(b, 1, t);
      CountLevelOfOneTier(c, 2, t);
      CountLevelOfOneTier(d, 3, t);
    }
  }

  /** Filtering four one-tier buckets (tiers 0, 1, 2, 3) picks out the bucket of the requested tier. */
  lemma OfTierOfBuckets(table: SpellTable, a: seq<KnownSpell>, b: seq<KnownSpell>, c: seq<KnownSpell>, d: seq<KnownSpell>, tier: int)
    requires TableLevelled(table, a) && forall i :: 0 <= i < |a| ==> a[i].level == 0
    requires TableLevelled(table, b) && forall i :: 0 <= i < |b| ==> b[i].level == 1
    requires TableLevelled(table, c) && forall i :: 0 <= i < |c| ==> c[i].level == 2
    requires TableLevelled(table, d) && forall i :: 0 <= i < |d| ==> d[i].level == 3
    ensures OfTier(table, a + b + c + d, tier) ==
            (if tier == 0 then a else []) + (if tier == 1 then b else []) + (if tier == 2 then c else []) + (if tier == 3 then d else [])
  {
    OfTierConcat(table, a + b + c, d, tier);
    OfTierConcat(table, a + b, c, tier);
    OfTierConcat(table, a, b, tier);
    OfTierOfOneTier(table, a, 0, tier);
    OfTierOfOneTier(table, b, 1, tier);
    OfTierOfOneTier(table, c, 2, tier);
    OfTierOfOneTier(table, d, 3, tier);
  }

  /** Trimming an already trimmed list with the same caps changes nothing. */
  lemma TrimmedIdempotent(table: SpellTable, caps: Caps, s: seq<KnownSpell>)
    ensures Trimmed(table, caps, Trimmed(table, caps, s)) == Trimmed(table, caps, s)
  {
    var a, b, c, d := Take(OfTier(table, s, 0), caps.can), Take(OfTier(table, s, 1), caps.l1),
                      Take(OfTier(table, s, 2), caps.l2), Take(OfTier(table, s, 3), caps.l3);
    TakeOfOneTier(table, s, 0, caps.can);
    TakeOfOneTier(table, s, 1, caps.l1);
    TakeOfOneTier(table, s, 2, caps.l2);
    TakeOfOneTier(table, s, 3, caps.l3);
    BucketsWithinCaps(table, caps, a, b, c, d);
  }

  /** Four buckets already levelled and within their caps are left as they are by trimming. */
  lemma BucketsWithinCaps(table: SpellTable, caps: Caps, a: seq<KnownSpell>, b: seq<KnownSpell>, c: seq<KnownSpell>, d: seq<KnownSpell>)
    requires TableLevelled(table, a) && forall i :: 0 <= i < |a| ==> a[i].level == 0
    requires TableLevelled(table, b) && forall i :: 0 <= i < |b| ==> b[i].level == 1
    requires TableLevelled(table, c) && forall i :: 0 <= i < |c| ==> c[i].level == 2
    requires TableLevelled(table, d) && forall i :: 0 <= i < |d| ==> d[i].level == 3
    requires |a| <= caps.can && |b| <= caps.l1 && |c| <= caps.l2 && |d| <= caps.l3
    ensures Trimmed(table, caps, a + b + c + d) == a + b + c + d
  {
    OfTierOfBuckets(table, a, b, c, d, 0);
    OfTierOfBuckets(table, a, b, c, d, 1);
    OfTierOfBuckets(table, a, b, c, d, 2);
    OfTierOfBuckets(table, a, b, c, d, 3);
  }

  /** Only the ids matter: the level written in a class list entry is ignored in favour of the table's. */
  lemma {:induction false} TrimIgnoresListedLevel(table: SpellTable, caps: Caps, s: seq<KnownSpell>, s': seq<KnownSpell>)
    requires |s| == |s'|
    requires forall i :: 0 <= i < |s| ==> s[i].id == s'[i].id
    ensures Trimmed(table, caps, s) == Trimmed(table, caps, s')
  {
    forall tier ensures OfTier(table, s, tier) == OfTier(table, s', tier) {
      OfTierSameIds(table, s, s', tier);
    }
  }

  lemma {:induction false} OfTierSameIds(table: SpellTable, s: seq<KnownSpell>, s': seq<KnownSpell>, tier: int)
    requires |s| == |s'|
    requires forall i :: 0 <= i < |s| ==> s[i].id == s'[i].id
    ensures OfTier(table, s, tier) == OfTier(table, s', tier)
  {
    if s != [] {
      OfTierSameIds(table, s[..|s| - 1], s'[..|s'| - 1], tier);
    }
  }

  /** Classes without a spell progression (Barbarian, Monk) always trim to the empty list. */
  lemma NonCasterTrimsToEmpty(table: SpellTable, cls: ClassId, level: int, s: seq<KnownSpell>)
    requires ProgressionFor(cls) == CasterProgression.None
    ensures Trimmed(table, AllowedAtLevel(cls, level), s) == []
  {
    assert AllowedAtLevel(cls, level) == Caps(0, 0, 0, 0);
  }

  // ---------- Proficiency, cantrip tier, slot estimate ----------

  /** Proficiency bonus by character level, clamped into 2..6. */
  function ProficiencyForLevel(level: int): (p: int)
    ensures 2 <= p <= 6
  {
    Clamp(2 + (Max(level, 1) - 1) / 4, 2, 6)
  }

  /** The Character Advancement table of the D&D 5e SRD 5.1 (levels 1..20). */
  function SrdProficiency(level: int): int
    requires 1 <= level <= 20
  {
    if level <= 4 then 2 else if level <= 8 then 3 else if level <= 12 then 4 else if level <= 16 then 5 else 6
  }

  lemma ProficiencyMatchesSrd(level: int)
    requires 1 <= level <= 20
    ensures ProficiencyForLevel(level) == SrdProficiency(level)
  {
    var q := (level - 1) / 4;
    assert 4 * q <= level - 1 < 4 * q + 4;
  }

  lemma ProficiencyMonotone(a: int, b: int)
    requires a <= b
    ensures ProficiencyForLevel(a) <= ProficiencyForLevel(b)
  {
    var qa, qb := (Max(a, 1) - 1) / 4, (Max(b, 1) - 1) / 4;
    assert 4 * qa <= Max(a, 1) - 1 < 4 * qa + 4;
    assert 4 * qb <= Max(b, 1) - 1 < 4 * qb + 4;
    assert qa <= qb;
  }

  /** Cantrip dice multiplier by character level: 1 below 5, 2 from 5, 3 from 11, 4 from 17. */
  function CantripTier(characterLevel: int): (t: int)
    ensures 1 <= t <= 4
  {
    if characterLevel >= 17 then 4
    else if characterLevel >= 11 then 3
    else if characterLevel >= 5 then 2
    else 1
  }

  lemma CantripTierMonotone(a: int, b: int)
    requires a <= b
    ensures CantripTier(a) <= CantripTier(b)
  {
  }

  /** Highest slot of a full caster by character level. */
  function BaseSlot(characterLevel: int): (s: int)
    ensures 1 <= s <= 9
  {
    if characterLevel >= 17 then 9
    else if characterLevel >= 15 then 8
    else if characterLevel >= 13 then 7
    else if characterLevel >= 11 then 6
    else if characterLevel >= 9 then 5
    else if characterLevel >= 7 then 4
    else if characterLevel >= 5 then 3
    else if characterLevel >= 3 then 2
    else 1
  }

  /** The full-caster slot is the SRD's "highest slot" column: half the level rounded up, at most 9. */
  lemma BaseSlotIsHalfLevel(characterLevel: int)
    requires characterLevel >= 1
    ensures BaseSlot(characterLevel) == Min(9, (characterLevel + 1) / 2)
  {
  }

  /** Effective slot level: full casters use the base slot, half casters trail by 2, third casters by 3. */
  function EstimatedSlotLevel(cls: ClassId, characterLevel: int): (slot: int)
    ensures 1 <= slot <= 9
  {
    var baseSlot := BaseSlot(characterLevel);
    match ProgressionFor(cls)
    case Full => baseSlot
    case Half => Clamp(baseSlot - 2, 1, 9)
    case Third => Clamp(baseSlot - 3, 1, 9)
    case None => 1
  }

  /** At the same level a full caster's slot is at least a half caster's, which is at least a third caster's. */
  lemma SlotTrails(full: ClassId, half: ClassId, third: ClassId, other: ClassId, characterLevel: int)
    requires ProgressionFor(full) == Full && ProgressionFor(half) == Half && ProgressionFor(third) == Third
    ensures EstimatedSlotLevel(full, characterLevel) >= EstimatedSlotLevel(half, characterLevel)
    ensures EstimatedSlotLevel(half, characterLevel) >= EstimatedSlotLevel(third, characterLevel)
    ensures EstimatedSlotLevel(third, characterLevel) >= 1
    ensures ProgressionFor(other) == CasterProgression.None ==> EstimatedSlotLevel(other, characterLevel) == 1
  {
  }

  lemma SlotMonotone(cls: ClassId, a: int, b: int)
    requires a <= b
    ensures EstimatedSlotLevel(cls, a) <= EstimatedSlotLevel(cls, b)
  {
  }
}
