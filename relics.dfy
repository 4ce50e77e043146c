/** Gear derivation of pkg/hsrtct/relics.go: a relic build's main stats,
    substat rolls and set effects become a list of buffs, using four
    constant tables. */
module Relics {
  import opened Elements
  import opened AttackTags
  import opened Stats

  /** Quality of a substat roll; the source keys it by name, so any other
      name is possible and is `UnknownRollType` here. */
  datatype RollType = RollTypeMin | RollTypeAvg | RollTypeMax | UnknownRollType

  /** Value of a relic's main stat, independent of the relic's level. */
  const MainStatValues: map<Stat, real> := map[
    Spd := 25.0,
    Hp := 705.6,
    Atk := 352.8,
    Def := 352.8,
    HpPct := 43.20,
    AtkPct := 43.20,
    DefPct := 54.0,
    BreakEffect := 64.80,
    EffectHitRate := 43.20,
    EffectRes := 43.20,
    EnergyRegenerationRate := 19.0,
    OutgoingHealingBoost := 35.0,
    DmgBonus := 39.0,
    CritRate := 32.40,
    CritDmg := 64.80
  ]

  /** Value of one minimum substat roll. */
  const SubstatMinRoll: map<Stat, real> := map[
    Spd := 2.00, Hp := 33.87, Atk := 16.93, Def := 16.93,
    HpPct := 3.46, AtkPct := 3.46, DefPct := 4.32, BreakEffect := 5.18,
    EffectHitRate := 3.46, EffectRes := 3.46, CritRate := 2.59, CritDmg := 5.18
  ]

  /** Value of one average substat roll. */
  const SubstatAvgRoll: map<Stat, real> := map[
    Spd := 2.30, Hp := 38.10, Atk := 19.05, Def := 19.05,
    HpPct := 3.89, AtkPct := 3.89, DefPct := 4.86, BreakEffect := 5.83,
    EffectHitRate := 3.89, EffectRes := 3.89, CritRate := 2.92, CritDmg := 5.83
  ]

  /** Value of one maximum substat roll. */
  const SubstatMaxRoll: map<Stat, real> := map[
    Spd := 2.60, Hp := 42.34, Atk := 21.17, Def := 21.17,
    HpPct := 4.32, AtkPct := 4.32, DefPct := 5.40, BreakEffect := 6.48,
    EffectHitRate := 4.32, EffectRes := 4.32, CritRate := 3.24, CritDmg := 6.48
  ]

  /** A table lookup with Go's map semantics: a missing key reads as zero. */
  function Lookup(table: map<Stat, real>, s: Stat): (v: real)
    ensures s in table ==> v == table[s]
    ensures s !in table ==> v == 0.0
  {
    if s in table then table[s] else 0.0
  }

  /** The per-roll value of a substat: the table chosen by the roll type,
      zero for an unknown roll type. */
  function UnitRoll(rollType: RollType, s: Stat): (r: real)
    ensures r >= 0.0
    ensures rollType == UnknownRollType || s !in SubstatAvgRoll ==> r == 0.0
  {
    match rollType
    case RollTypeMin => Lookup(SubstatMinRoll, s)
    case RollTypeAvg => Lookup(SubstatAvgRoll, s)
    case RollTypeMax => Lookup(SubstatMaxRoll, s)
    case UnknownRollType => 0.0
  }

  /** A substat on a relic or a build. `cache` is the source's private
      memo field: zero until `Value` stores the per-roll value in it. */
  datatype RelicSubstat = RelicSubstat(stat: Stat, rolls: int, rollType: RollType, cache: real)

  /** What a call to `Value` returns, and the substat as the call leaves it. */
  datatype Valued = Valued(value: real, after: RelicSubstat)

  /** `RelicSubstat.Value` as the source writes it: a filled cache is
      returned as it is; otherwise the per-roll value is looked up, stored in
      the cache, and returned multiplied by the number of rolls. */
  function SubstatValue(rs: RelicSubstat): (r: Valued)
    ensures rs.cache != 0.0 ==> r.value == rs.cache && r.after == rs
    ensures rs.cache == 0.0 ==> r.after == rs.(cache := UnitRoll(rs.rollType, rs.stat))
    ensures rs.cache == 0.0 ==> r.value == r.after.cache * rs.rolls as real
  {
    if rs.cache != 0.0 then Valued(rs.cache, rs)
    else
      var unit := UnitRoll(rs.rollType, rs.stat);
      Valued(unit * rs.rolls as real, rs.(cache := unit))
  }

  /** On an empty cache, `Value` returns the table value times the number of
      rolls and leaves the per-roll value in the cache. */
  lemma FirstValueCall(rs: RelicSubstat)
    requires rs.cache == 0.0
    ensures SubstatValue(rs).value == UnitRoll(rs.rollType, rs.stat) * rs.rolls as real
    ensures SubstatValue(rs).after.cache == UnitRoll(rs.rollType, rs.stat)
    ensures SubstatValue(rs).after.(cache := 0.0) == rs
  {
  }

  /** The stats that have a substat roll value: the same twelve in all three
      tables. */
  lemma SubstatTablesKeys()
    ensures SubstatMinRoll.Keys == SubstatAvgRoll.Keys == SubstatMaxRoll.Keys
      == {Spd, Hp, Atk, Def, HpPct, AtkPct, DefPct, BreakEffect, EffectHitRate, EffectRes, CritRate, CritDmg}
  {
  }

  /** For every stat that rolls, a minimum roll is worth less than an
      average one, and an average one less than a maximum one. */
  lemma RollTablesOrdered(s: Stat)
    requires s in SubstatAvgRoll
    ensures 0.0 < UnitRoll(RollTypeMin, s) < UnitRoll(RollTypeAvg, s) < UnitRoll(RollTypeMax, s)
  {
  }

  /** An unknown roll type, or a stat without a roll value (DmgBonus, for
      one), yields zero and leaves the cache empty, so the next call looks the
      table up again. */
  lemma UnrollableSubstatIsZero(rs: RelicSubstat)
    requires rs.cache == 0.0
    requires rs.rollType == UnknownRollType || rs.stat !in SubstatAvgRoll
    ensures SubstatValue(rs) == Valued(0.0, rs)
  {
    SubstatTablesKeys();
  }

  /** Once the cache holds a value, `Value` returns it without multiplying by
      the number of rolls: two calls on one substat disagree whenever the roll
      is worth something and there is not exactly one roll. */
  lemma SecondValueCallDropsRolls(rs: RelicSubstat)
    requires rs.cache == 0.0 && UnitRoll(rs.rollType, rs.stat) != 0.0 && rs.rolls != 1
    ensures SubstatValue(SubstatValue(rs).after).value != SubstatValue(rs).value
  {
    var unit, n := UnitRoll(rs.rollType, rs.stat), rs.rolls as real;
    assert SubstatValue(SubstatValue(rs).after).value == unit;
    assert unit * n - unit == unit * (n - 1.0);
    assert n - 1.0 != 0.0;
  }

  /** The concrete case: three average CritRate rolls are worth 8.76 on the
      first call and 2.92 on the second. */
  lemma SecondValueCallExample()
    ensures var rs := RelicSubstat(CritRate, 3, RollTypeAvg, 0.0);
      SubstatValue(rs).value == 8.76 && SubstatValue(SubstatValue(rs).after).value == 2.92
  {
  }

  /** `Value` as intended: the cache holds the per-roll value, and every call
      multiplies it by the number of rolls. */
  function CorrectedSubstatValue(rs: RelicSubstat): (r: Valued)
    ensures r.after.(cache := rs.cache) == rs
    ensures r.value == r.after.cache * rs.rolls as real
  {
    if rs.cache != 0.0 then Valued(rs.cache * rs.rolls as real, rs)
    else
      var unit := UnitRoll(rs.rollType, rs.stat);
      Valued(unit * rs.rolls as real, rs.(cache := unit))
  }

  /** The cache is empty or holds the substat's per-roll value: the only
      states `Value` produces from an empty cache. */
  predicate CacheConsistent(rs: RelicSubstat) {
    rs.cache == 0.0 || rs.cache == UnitRoll(rs.rollType, rs.stat)
  }

  /** The corrected `Value` returns the table value times the rolls on every
      call, and keeps the cache consistent; on an empty cache it agrees with
      the source. */
  lemma CorrectedValueStable(rs: RelicSubstat)
    requires CacheConsistent(rs)
    ensures CorrectedSubstatValue(rs).value == UnitRoll(rs.rollType, rs.stat) * rs.rolls as real
    ensures CacheConsistent(CorrectedSubstatValue(rs).after)
    ensures CorrectedSubstatValue(CorrectedSubstatValue(rs).after).value == CorrectedSubstatValue(rs).value
    ensures rs.cache == 0.0 ==> CorrectedSubstatValue(rs) == SubstatValue(rs)
  {
  }

  /** `RelicSubstat.AsBuff`: the substat's stat at the value `Value`
      returns, for every tag and element. The source calls `Value` on a
      copy, so the cache it fills is dropped with that copy. */
  function SubstatBuff(rs: RelicSubstat): (b: Buff)
    ensures b.stat == rs.stat && b.damageTag == AnyAttack && b.element == AnyElement
    ensures rs.cache == 0.0 ==> b.value == UnitRoll(rs.rollType, rs.stat) * rs.rolls as real
    ensures rs.cache != 0.0 ==> b.value == rs.cache
  {
    Buff(rs.stat, SubstatValue(rs).value, AnyAttack, AnyElement)
  }

  /** One buff per substat, in order. */
  function SubstatBuffs(subStats: seq<RelicSubstat>): (bs: seq<Buff>)
    ensures |bs| == |subStats|
  {
    if subStats == [] then []
    else SubstatBuffs(subStats[..|subStats| - 1]) + [SubstatBuff(subStats[|subStats| - 1])]
  }

  /** The `i`-th buff is the `i`-th substat's. */
  lemma {:induction false} SubstatBuffsPointwise(subStats: seq<RelicSubstat>)
    ensures forall i :: 0 <= i < |subStats| ==> SubstatBuffs(subStats)[i] == SubstatBuff(subStats[i])
  {
    if subStats != [] {
      var init := subStats[..|subStats| - 1];
      SubstatBuffsPointwise(init);
      assert SubstatBuffs(subStats) == SubstatBuffs(init) + [SubstatBuff(subStats[|subStats| - 1])];
    }
  }

  datatype Relic = Relic(setName: string, mainStat: Stat, subStats: seq<RelicSubstat>)

  /** The buff of a relic's main stat: the table value, zero when the stat is
      not in the table. */
  function MainStatBuff(r: Relic): Buff {
    Buff(r.mainStat, Lookup(MainStatValues, r.mainStat), AnyAttack, AnyElement)
  }

  /** `Relic.AsBuffs`: the main-stat buff first, then one buff per substat. */
  function RelicBuffs(r: Relic): (bs: seq<Buff>)
    ensures |bs| == 1 + |r.subStats|
  {
    [MainStatBuff(r)] + SubstatBuffs(r.subStats)
  }

  /** A relic's buffs: its main stat at the table value first, then its
      substats in order, all for every tag and element. */
  lemma RelicBuffsLayout(r: Relic)
    ensures RelicBuffs(r)[0].stat == r.mainStat && RelicBuffs(r)[0].value == Lookup(MainStatValues, r.mainStat)
    ensures forall i :: 1 <= i < |RelicBuffs(r)| ==> RelicBuffs(r)[i] == SubstatBuff(r.subStats[i - 1])
    ensures forall i :: 0 <= i < |RelicBuffs(r)| ==> RelicBuffs(r)[i].damageTag == AnyAttack && RelicBuffs(r)[i].element == AnyElement
  {
    SubstatBuffsPointwise(r.subStats);
  }

  /** The eight stats the main-stat table has no value for; as a main stat
      each of them is worth zero. */
  lemma MainStatTableKeys()
    ensures SpdPct !in MainStatValues && Aggro !in MainStatValues && DefIgnore !in MainStatValues && DefShred !in MainStatValues
    ensures ElementalRes !in MainStatValues && ResShred !in MainStatValues && ResPen !in MainStatValues && Vulnerability !in MainStatValues
  {
  }

  /** Exactly six relic slots. */
  type SixRelics = s: seq<Relic> | |s| == 6
    witness [Relic("", Hp, []), Relic("", Hp, []), Relic("", Hp, []),
             Relic("", Hp, []), Relic("", Hp, []), Relic("", Hp, [])]

  datatype RelicBuild = RelicBuild(id: nat, relics: SixRelics, subStats: seq<RelicSubstat>, setEffects: seq<Buff>)

  /** The relics' buffs, slot after slot. */
  function RelicsBuffs(relics: seq<Relic>): seq<Buff> {
    if relics == [] then []
    else RelicsBuffs(relics[..|relics| - 1]) + RelicBuffs(relics[|relics| - 1])
  }

  /** Every buff of a relic applies to every tag and element. */
  lemma {:induction false} RelicsBuffsWildcard(relics: seq<Relic>)
    ensures forall i :: 0 <= i < |RelicsBuffs(relics)| ==>
      RelicsBuffs(relics)[i].damageTag == AnyAttack && RelicsBuffs(relics)[i].element == AnyElement
  {
    if relics != [] {
      var init, last := relics[..|relics| - 1], relics[|relics| - 1];
      RelicsBuffsWildcard(init);
      RelicBuffsLayout(last);
      assert RelicsBuffs(relics) == RelicsBuffs(init) + RelicBuffs(last);
    }
  }

  /** Number of buffs the first `k` relics contribute. */
  function SlotOffset(relics: seq<Relic>, k: nat): nat
    requires k <= |relics|
  {
    |RelicsBuffs(relics[..k])|
  }

  /** The buffs of the first `m` relics are a prefix of all the relics'. */
  lemma {:induction false} RelicsBuffsPrefix(relics: seq<Relic>, m: nat)
    requires m <= |relics|
    ensures RelicsBuffs(relics[..m]) <= RelicsBuffs(relics)
    decreases |relics|
  {
    var n := |relics|;
    if m == n {
      assert relics[..m] == relics;
    } else {
      var init := relics[..n - 1];
      RelicsBuffsPrefix(init, m);
      assert init[..m] == relics[..m];
      assert RelicsBuffs(relics) == RelicsBuffs(init) + RelicBuffs(relics[n - 1]);
    }
  }

  /** Slot `k`'s buffs sit, in order, between the offsets of slots `k` and
      `k + 1`; each slot adds one main-stat buff and one per substat. */
  lemma RelicsBuffsSlot(relics: seq<Relic>, k: nat)
    requires k < |relics|
    ensures SlotOffset(relics, k + 1) == SlotOffset(relics, k) + 1 + |relics[k].subStats|
    ensures SlotOffset(relics, k + 1) <= |RelicsBuffs(relics)|
    ensures RelicsBuffs(relics)[SlotOffset(relics, k)..SlotOffset(relics, k + 1)] == RelicBuffs(relics[k])
  {
    var upTo := relics[..k + 1];
    assert upTo[..|upTo| - 1] == relics[..k] && upTo[|upTo| - 1] == relics[k];
    var before, slot := RelicsBuffs(relics[..k]), RelicBuffs(relics[k]);
    assert RelicsBuffs(upTo) == before + slot;
    RelicsBuffsPrefix(relics, k + 1);
    var all := RelicsBuffs(relics);
    assert all[..|before| + |slot|] == before + slot;
    assert all[|before|..|before| + |slot|] == (before + slot)[|before|..];
  }

  /** `RelicBuild.AsBuffs`: the six relics' buffs in slot order, then one
      buff per build substat, then the set effects as they are; everything
      but the set effects has wildcard filters. */
  function BuildBuffs(rb: RelicBuild): (bs: seq<Buff>)
    ensures |bs| == |RelicsBuffs(rb.relics)| + |rb.subStats| + |rb.setEffects|
  {
    RelicsBuffs(rb.relics) + SubstatBuffs(rb.subStats) + rb.setEffects
  }

  /** A build's buffs are its relics' buffs, then one buff per build-level
      substat, then the set effects; everything before the set effects
      applies to every attack and element. */
  lemma BuildBuffsLayout(rb: RelicBuild)
    ensures BuildBuffs(rb)[..|RelicsBuffs(rb.relics)|] == RelicsBuffs(rb.relics)
    ensures forall i :: 0 <= i < |rb.subStats| ==> BuildBuffs(rb)[|RelicsBuffs(rb.relics)| + i] == SubstatBuff(rb.subStats[i])
    ensures BuildBuffs(rb)[|BuildBuffs(rb)| - |rb.setEffects|..] == rb.setEffects
    ensures forall i :: 0 <= i < |BuildBuffs(rb)| - |rb.setEffects| ==>
      BuildBuffs(rb)[i].damageTag == AnyAttack && BuildBuffs(rb)[i].element == AnyElement
  {
    var fromRelics, fromSubstats := RelicsBuffs(rb.relics), SubstatBuffs(rb.subStats);
    var bs := BuildBuffs(rb);
    RelicsBuffsWildcard(rb.relics);
    SubstatBuffsPointwise(rb.subStats);
    assert bs == fromRelics + fromSubstats + rb.setEffects;
    assert bs[..|fromRelics|] == fromRelics;
    assert bs[|bs| - |rb.setEffects|..] == rb.setEffects;
  }

  /** Slot `k` of a build (0 to 5) contributes its relic's buffs at offsets
      `SlotOffset(k)` to `SlotOffset(k + 1)`, and the six slots together
      account for all buffs before the build's substats. */
  lemma BuildBuffsSlot(rb: RelicBuild, k: nat)
    requires k < 6
    ensures SlotOffset(rb.relics, k) < SlotOffset(rb.relics, k + 1) <= SlotOffset(rb.relics, 6)
    ensures SlotOffset(rb.relics, 6) == |RelicsBuffs(rb.relics)|
    ensures BuildBuffs(rb)[SlotOffset(rb.relics, k)..SlotOffset(rb.relics, k + 1)] == RelicBuffs(rb.relics[k])
  {
    var fromRelics := RelicsBuffs(rb.relics);
    assert rb.relics[..6] == rb.relics;
    RelicsBuffsSlot(rb.relics, k);
    var lo, hi := SlotOffset(rb.relics, k), SlotOffset(rb.relics, k + 1);
    var rest := SubstatBuffs(rb.subStats) + rb.setEffects;
    assert BuildBuffs(rb) == fromRelics + rest;
    SliceOfPrefix(fromRelics, rest, lo, hi);
  }

  /** A slice that lies inside the first part of a concatenation. */
  lemma SliceOfPrefix(a: seq<Buff>, b: seq<Buff>, lo: nat, hi: nat)
    requires lo <= hi <= |a|
    ensures (a + b)[lo..hi] == a[lo..hi]
  {
    assert forall i :: lo <= i < hi ==> (a + b)[i] == a[i];
  }
}
