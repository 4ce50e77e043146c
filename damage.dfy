/** The damage formula of pkg/hsrtct/damage.go: six multiplicative factors
    for one attack of a character against an enemy (base damage, average
    crit, damage bonus, resistance, defense and vulnerability) and their
    product. */
module Damage {
  import opened Elements
  import opened AttackTags
  import opened Stats
  import opened Text
  import opened BuffSums
  import opened Characters

  datatype Option<T> = None | Some(value: T)

  /** The one way the formula fails. */
  datatype DamageError = ErrInvalidScalingStat

  /** An enemy as the formula sees it: its level, the buffs it carries and
      the debuffs placed on it. */
  datatype Enemy = Enemy(level: int, buffs: seq<Buff>, debuffs: seq<Buff>)

  /** One attack: the stat it scales with, its multiplier in percent, its
      element and tag. `buffs` is carried but read by no calculation. */
  datatype Attack = Attack(id: nat, scalingStat: Stat, multiplier: real, element: Element, attackTag: AttackTag, buffs: seq<Buff>)

  /** `CalcBaseDamage`: the final value of the scaling stat times the
      multiplier, for Hp, Atk and Def; any other scaling stat fails with
      value zero. */
  function CalcBaseDamage(c: Character, e: Enemy, a: Attack): (r: (real, Option<DamageError>))
    ensures r.1 == None <==> a.scalingStat in {Hp, Atk, Def}
    ensures r.1 != None ==> r == (0.0, Some(ErrInvalidScalingStat))
    ensures r.1 == None ==> r.0 == PercentOf(FinalStat(c, a.scalingStat, a.attackTag, a.element), a.multiplier)
  {
    match a.scalingStat
    case Hp => (PercentOf(FinalStat(c, Hp, a.attackTag, a.element), a.multiplier), None)
    case Atk => (PercentOf(FinalStat(c, Atk, a.attackTag, a.element), a.multiplier), None)
    case Def => (PercentOf(FinalStat(c, Def, a.attackTag, a.element), a.multiplier), None)
    case _ => (0.0, Some(ErrInvalidScalingStat))
  }

  /** Base damage is linear in the attack's multiplier. */
  lemma BaseDamageLinear(c: Character, e: Enemy, a: Attack, k: real)
    requires a.scalingStat in {Hp, Atk, Def}
    ensures CalcBaseDamage(c, e, a.(multiplier := k * a.multiplier)).0 == k * CalcBaseDamage(c, e, a).0
  {
    var f := FinalStat(c, a.scalingStat, a.attackTag, a.element);
    assert PercentOf(f, k * a.multiplier) == k * PercentOf(f, a.multiplier);
  }

  /** `CalcAvgCritMultiplier`: one plus the crit rate, capped at 100, times
      the crit damage, both in percent. Crit damage is not capped. */
  function CalcAvgCritMultiplier(c: Character, e: Enemy, a: Attack): real {
    var critRate := FinalStat(c, CritRate, a.attackTag, a.element);
    var critDamage := FinalStat(c, CritDmg, a.attackTag, a.element);
    var rate := if critRate < 100.0 then critRate else 100.0;
    1.0 + (rate / 100.0 * critDamage / 100.0)
  }

  /** From a crit rate of 100 on, every hit crits: the multiplier is one
      plus the crit damage, whatever the rate above 100. */
  lemma CritRateCapped(c: Character, e: Enemy, a: Attack)
    requires FinalStat(c, CritRate, a.attackTag, a.element) >= 100.0
    ensures CalcAvgCritMultiplier(c, e, a) == 1.0 + FinalStat(c, CritDmg, a.attackTag, a.element) / 100.0
  {
  }

  /** With a crit rate between 0 and 100 and non-negative crit damage, the
      average multiplier lies between no crit and a guaranteed crit. */
  lemma CritMultiplierBounds(c: Character, e: Enemy, a: Attack)
    requires 0.0 <= FinalStat(c, CritRate, a.attackTag, a.element) <= 100.0
    requires FinalStat(c, CritDmg, a.attackTag, a.element) >= 0.0
    ensures 1.0 <= CalcAvgCritMultiplier(c, e, a) <= 1.0 + FinalStat(c, CritDmg, a.attackTag, a.element) / 100.0
  {
    var rate, dmg := FinalStat(c, CritRate, a.attackTag, a.element), FinalStat(c, CritDmg, a.attackTag, a.element);
    CritTermBounds(rate, dmg);
    assert CalcAvgCritMultiplier(c, e, a) == 1.0 + (rate / 100.0 * dmg / 100.0);
  }

  /** The crit term for a rate within [0, 100] lies between zero and the
      crit damage. */
  lemma CritTermBounds(rate: real, dmg: real)
    requires 0.0 <= rate <= 100.0 && dmg >= 0.0
    ensures 0.0 <= rate / 100.0 * dmg / 100.0 <= dmg / 100.0
  {
    var x := rate / 100.0;
    MulMono(0.0, x, dmg);
    MulMono(x, 1.0, dmg);
  }

  /** Without applicable CritRate or CritDmg buffs, the base values 5 and 50
      give an average crit multiplier of 1.025. */
  lemma CritMultiplierWithoutBuffs(c: Character, e: Enemy, a: Attack)
    requires forall b :: b in AllBuffsOf(c) && b.Applies(a.attackTag, a.element) ==>
      b.stat != CritRate && b.stat != CritDmg
    ensures CalcAvgCritMultiplier(c, e, a) == 1.025
  {
    var rate, dmg := FinalStat(c, CritRate, a.attackTag, a.element), FinalStat(c, CritDmg, a.attackTag, a.element);
    UnpairedStatAtBase(c, CritRate, a.attackTag, a.element);
    UnpairedStatAtBase(c, CritDmg, a.attackTag, a.element);
    CritBaseValues(c);
    CritOfBaseValues(rate, dmg);
  }

  /** A stat without a percent twin keeps its base value when no buff that
      applies to the query has that stat. */
  lemma UnpairedStatAtBase(c: Character, stat: Stat, tag: AttackTag, elem: Element)
    requires !stat.IsPaired()
    requires forall b :: b in AllBuffsOf(c) && b.Applies(tag, elem) ==> b.stat != stat
    ensures FinalStat(c, stat, tag, elem) == BaseValue(c, stat)
  {
    FinalStatWithoutContributingBuffs(c, stat, tag, elem);
  }

  /** Crit rate starts at 5 and crit damage at 50, whatever the character. */
  lemma CritBaseValues(c: Character)
    ensures BaseValue(c, CritRate) == 5.0 && BaseValue(c, CritDmg) == 50.0
  {
  }

  /** The crit formula at a rate of 5 and a damage of 50. */
  lemma CritOfBaseValues(rate: real, dmg: real)
    requires rate == 5.0 && dmg == 50.0
    ensures 1.0 + ((if rate < 100.0 then rate else 100.0) / 100.0 * dmg / 100.0) == 1.025
  {
  }

  /** `CalcDmgBonusMult`: one plus the final damage bonus in percent. */
  function CalcDmgBonusMult(c: Character, e: Enemy, a: Attack): real {
    1.0 + FinalStat(c, DmgBonus, a.attackTag, a.element) / 100.0
  }

  /** Damage bonus starts from zero: the multiplier is one plus the matching
      DmgBonus buffs of the character, light cone and relics. */
  lemma DmgBonusMultSum(c: Character, e: Enemy, a: Attack)
    ensures var all := AllBuffsOf(c);
      CalcDmgBonusMult(c, e, a) == 1.0 + SumMatching(all, |all|, DmgBonus, a.attackTag, a.element) / 100.0
  {
    FinalStatOther(c, DmgBonus, a.attackTag, a.element);
  }

  /** The enemy's effective resistance in percent: its matching ElementalRes
      buffs, less the matching ResShred debuffs on it, less the matching
      ResPen among the character's buffs. */
  function Resistance(c: Character, e: Enemy, a: Attack): real {
    var all := AllBuffsOf(c);
    SumMatching(e.buffs, |e.buffs|, ElementalRes, a.attackTag, a.element)
      - SumMatching(e.debuffs, |e.debuffs|, ResShred, a.attackTag, a.element)
      - SumMatching(all, |all|, ResPen, a.attackTag, a.element)
  }

  /** The resistance multiplier: one less the effective resistance. */
  function ResistanceMultiplier(c: Character, e: Enemy, a: Attack): real {
    1.0 - Resistance(c, e, a) / 100.0
  }

  /** One filtered pass of damage.go: the sum of the values of the buffs
      in `bs` that have `stat` and whose element and tag match the attack. */
  method SumMatchingBuffs(bs: seq<Buff>, stat: Stat, tag: AttackTag, elem: Element) returns (total: real)
    ensures total == SumMatching(bs, |bs|, stat, tag, elem)
  {
    total := 0.0;
    for i := 0 to |bs|
      invariant total == SumMatching(bs, i, stat, tag, elem)
    {
      var buff := bs[i];
      SumMatchingStep(bs, i, stat, tag, elem);
      if buff.stat == stat && buff.element.Is(elem) && buff.damageTag.Is(tag) {
        total := total + buff.value;
      }
    }
  }

  /** `CalcResistanceMultiplier`: three passes, adding the enemy's
      resistance, taking off the shred on it and the character's
      penetration. */
  method CalcResistanceMultiplier(c: Character, e: Enemy, a: Attack) returns (m: real)
    ensures m == ResistanceMultiplier(c, e, a)
  {
    var res := SumMatchingBuffs(e.buffs, ElementalRes, a.attackTag, a.element);
    var shred := SumMatchingBuffs(e.debuffs, ResShred, a.attackTag, a.element);
    res := res - shred;
    var allBuffs := AllBuffs(c);
    var penetration := SumMatchingBuffs(allBuffs, ResPen, a.attackTag, a.element);
    res := res - penetration;
    m := 1.0 - res / 100.0;
  }

  /** Without resistance, shred or penetration that matches the attack, the
      multiplier is exactly one. */
  lemma ResistanceMultiplierNeutral(c: Character, e: Enemy, a: Attack)
    requires forall b :: b in e.buffs ==> b.stat != ElementalRes || !b.Applies(a.attackTag, a.element)
    requires forall b :: b in e.debuffs ==> b.stat != ResShred || !b.Applies(a.attackTag, a.element)
    requires forall b :: b in AllBuffsOf(c) ==> b.stat != ResPen || !b.Applies(a.attackTag, a.element)
    ensures ResistanceMultiplier(c, e, a) == 1.0
  {
    var all := AllBuffsOf(c);
    NoMatchingBuffs(e.buffs, ElementalRes, a.attackTag, a.element);
    NoMatchingBuffs(e.debuffs, ResShred, a.attackTag, a.element);
    NoMatchingBuffs(all, ResPen, a.attackTag, a.element);
  }

  /** A list with no buff of `stat` applying to the query sums to zero. */
  lemma NoMatchingBuffs(bs: seq<Buff>, stat: Stat, tag: AttackTag, elem: Element)
    requires forall b :: b in bs ==> b.stat != stat || !b.Applies(tag, elem)
    ensures SumMatching(bs, |bs|, stat, tag, elem) == 0.0
  {
    forall i | 0 <= i < |bs|
      ensures bs[i].stat != stat || !bs[i].Applies(tag, elem)
    {
      assert bs[i] in bs;
    }
    SumMatchingIrrelevant(bs, |bs|, stat, tag, elem);
  }

  /** Resistance penetration on the character raises the multiplier by its
      value in percent when it matches the attack, and leaves it alone
      otherwise. */
  lemma ResPenRaisesResistanceMultiplier(c: Character, e: Enemy, a: Attack, b: Buff)
    requires b.stat == ResPen
    ensures ResistanceMultiplier(c.(buffs := c.buffs + [b]), e, a)
      == ResistanceMultiplier(c, e, a) + (if b.Applies(a.attackTag, a.element) then b.value / 100.0 else 0.0)
  {
    AllBuffsAddedBuff(c, b, ResPen, a.attackTag, a.element);
  }

  /** The enemy's defense before level scaling: 200 plus 10 per level. */
  function BaseDef(e: Enemy): real {
    200.0 + 10.0 * (e.level as real)
  }

  /** Matching DefShred debuffs on the enemy plus matching DefIgnore among
      the character's buffs, in percent. */
  function DefReduction(c: Character, e: Enemy, a: Attack): real {
    var all := AllBuffsOf(c);
    SumMatching(e.debuffs, |e.debuffs|, DefShred, a.attackTag, a.element)
      + SumMatching(all, |all|, DefIgnore, a.attackTag, a.element)
  }

  /** `x` scaled by `factor`. */
  function ScaleBy(x: real, factor: real): real {
    x * factor
  }

  /** Defense from its parts: `baseDef` scaled by one plus `defPct` less
      `defReduction` (both in percent), plus `flatDef`, never below zero. */
  function ClampedDef(baseDef: real, defPct: real, defReduction: real, flatDef: real): (t: real)
    ensures t >= 0.0
  {
    var raw := ScaleBy(baseDef, 1.0 + defPct / 100.0 - defReduction / 100.0) + flatDef;
    if raw > 0.0 then raw else 0.0
  }

  /** The enemy's defense. The enemy's own Def and DefPct buffs count
      whatever their filters. */
  function TotalDef(c: Character, e: Enemy, a: Attack): (t: real)
    ensures t >= 0.0
  {
    ClampedDef(BaseDef(e), SumOfStat(e.buffs, |e.buffs|, DefPct), DefReduction(c, e, a), SumOfStat(e.buffs, |e.buffs|, Def))
  }

  /** The attacker's level term: 200 plus 10 per level. */
  function LevelTerm(c: Character): real {
    200.0 + 10.0 * (c.level as real)
  }

  /** The denominator of the defense multiplier. */
  function DefenseDenominator(c: Character, e: Enemy, a: Attack): real {
    TotalDef(c, e, a) + LevelTerm(c)
  }

  /** One less the share of defense `t` in the denominator `t + k`. */
  function DefenseFactor(t: real, k: real): real
    requires t + k != 0.0
  {
    1.0 - t / (t + k)
  }

  /** The defense multiplier: one less the enemy's share of defense against
      the attacker's level term. */
  function DefenseMultiplier(c: Character, e: Enemy, a: Attack): real
    requires DefenseDenominator(c, e, a) != 0.0
  {
    DefenseFactor(TotalDef(c, e, a), LevelTerm(c))
  }

  /** The first pass of `CalcDefenseMultiplier`: the enemy's flat Def and
      its DefPct, each buff counted whatever its filters. */
  method SumEnemyDef(bs: seq<Buff>) returns (flatDef: real, defPct: real)
    ensures flatDef == SumOfStat(bs, |bs|, Def)
    ensures defPct == SumOfStat(bs, |bs|, DefPct)
  {
    flatDef, defPct := 0.0, 0.0;
    for i := 0 to |bs|
      invariant flatDef == SumOfStat(bs, i, Def)
      invariant defPct == SumOfStat(bs, i, DefPct)
    {
      var buff := bs[i];
      SumOfStatStep(bs, i, Def);
      SumOfStatStep(bs, i, DefPct);
      if buff.stat == Def {
        flatDef := flatDef + buff.value;
      }
      if buff.stat == DefPct {
        defPct := defPct + buff.value;
      }
    }
  }

  /** `CalcDefenseMultiplier`: three passes accumulating flat defense,
      percent defense and the reduction, then the clamp and the quotient. */
  method CalcDefenseMultiplier(c: Character, e: Enemy, a: Attack) returns (m: real)
    requires DefenseDenominator(c, e, a) != 0.0
    ensures m == DefenseMultiplier(c, e, a)
  {
    var baseDef := 200.0 + 10.0 * (e.level as real);
    var flatDef, defPct := SumEnemyDef(e.buffs);
    var defReduction := SumDefReduction(c, e, a);
    var totalDef := ScaleBy(baseDef, 1.0 + defPct / 100.0 - defReduction / 100.0) + flatDef;
    totalDef := if totalDef > 0.0 then totalDef else 0.0;
    TotalDefFromSums(c, e, a, baseDef, flatDef, defPct, defReduction);
    ClampedDefIs(baseDef, defPct, defReduction, flatDef, totalDef);
    assert totalDef == TotalDef(c, e, a);
    var denominator := totalDef + 200.0 + 10.0 * (c.level as real);
    m := 1.0 - totalDef / denominator;
    DefenseFactorIs(totalDef, LevelTerm(c), denominator);
  }

  /** The factor written with its denominator named (a restatement, as
      `Characters.FinalStatOver` explains). */
  lemma DefenseFactorIs(t: real, k: real, d: real)
    requires d == t + k && d != 0.0
    ensures DefenseFactor(t, k) == 1.0 - t / d
  {
  }

  /** The clamp of the method, step by step, is `ClampedDef` (a
      restatement, as `Characters.FinalStatOver` explains). */
  lemma ClampedDefIs(baseDef: real, defPct: real, defReduction: real, flatDef: real, totalDef: real)
    requires var raw := ScaleBy(baseDef, 1.0 + defPct / 100.0 - defReduction / 100.0) + flatDef;
      totalDef == if raw > 0.0 then raw else 0.0
    ensures totalDef == ClampedDef(baseDef, defPct, defReduction, flatDef)
  {
  }

  /** The enemy's defense from its base and the three sums (a
      restatement, as `Characters.FinalStatOver` explains). */
  lemma TotalDefFromSums(c: Character, e: Enemy, a: Attack, baseDef: real, flatDef: real, defPct: real, defReduction: real)
    requires baseDef == BaseDef(e) && flatDef == SumOfStat(e.buffs, |e.buffs|, Def)
    requires defPct == SumOfStat(e.buffs, |e.buffs|, DefPct) && defReduction == DefReduction(c, e, a)
    ensures TotalDef(c, e, a) == ClampedDef(baseDef, defPct, defReduction, flatDef)
  {
  }

  /** The second and third passes of `CalcDefenseMultiplier`: the matching
      DefShred debuffs on the enemy, then the matching DefIgnore among the
      character's buffs. */
  method SumDefReduction(c: Character, e: Enemy, a: Attack) returns (defReduction: real)
    ensures defReduction == DefReduction(c, e, a)
  {
    defReduction := SumMatchingBuffs(e.debuffs, DefShred, a.attackTag, a.element);
    var allBuffs := AllBuffs(c);
    var ignored := SumMatchingBuffs(allBuffs, DefIgnore, a.attackTag, a.element);
    defReduction := defReduction + ignored;
  }

  /** For a positive attacker level term the quotient lies in (0, 1], and it
      is one exactly when the enemy's defense is zero. */
  lemma DefenseMultiplierRange(c: Character, e: Enemy, a: Attack)
    requires LevelTerm(c) > 0.0
    ensures DefenseDenominator(c, e, a) > 0.0
    ensures 0.0 < DefenseMultiplier(c, e, a) <= 1.0
    ensures DefenseMultiplier(c, e, a) == 1.0 <==> TotalDef(c, e, a) == 0.0
  {
    DefenseFactorRange(TotalDef(c, e, a), LevelTerm(c));
  }

  /** For defense `t >= 0` against a positive level term the factor lies in
      (0, 1], and it is one exactly when `t` is zero. */
  lemma DefenseFactorRange(t: real, k: real)
    requires t >= 0.0 && k > 0.0
    ensures t + k > 0.0 && 0.0 < DefenseFactor(t, k) <= 1.0
    ensures DefenseFactor(t, k) == 1.0 <==> t == 0.0
  {
    QuotientBelowOne(t, t + k);
  }

  /** `t / d` lies in [0, 1) for `0 <= t < d`, and is zero only for `t == 0`. */
  lemma QuotientBelowOne(t: real, d: real)
    requires 0.0 <= t < d
    ensures 0.0 <= t / d < 1.0
    ensures t / d == 0.0 <==> t == 0.0
  {
    var q := t / d;
    assert q * d == t;
    FactorBelowOne(q, t, d);
  }

  /** A factor that scales a positive `d` down to `t` in [0, d) lies in
      [0, 1). */
  lemma FactorBelowOne(q: real, t: real, d: real)
    requires q * d == t && 0.0 <= t < d
    ensures 0.0 <= q < 1.0
  {
    if q < 0.0 {
      MulStrictMono(q, 0.0, d);
      assert false;
    }
    if q >= 1.0 {
      MulMono(1.0, q, d);
      assert false;
    }
  }

  lemma MulStrictMono(x: real, y: real, d: real)
    requires x < y && d > 0.0
    ensures x * d < y * d
  {
  }

  lemma MulMono(x: real, y: real, d: real)
    requires x <= y && d >= 0.0
    ensures x * d <= y * d
  {
  }

  /** A smaller defense is a smaller share of its denominator. */
  lemma QuotientMonotone(t1: real, t2: real, k: real)
    requires 0.0 <= t1 <= t2 && k > 0.0
    ensures DefenseFactor(t2, k) <= DefenseFactor(t1, k)
  {
    assert t1 * k <= t2 * k;
    assert t1 * (t2 + k) == t1 * t2 + t1 * k;
    assert t2 * (t1 + k) == t1 * t2 + t2 * k;
    DivCross(t1, t1 + k, t2, t2 + k);
  }

  /** Comparing two quotients by cross-multiplying. */
  lemma DivCross(a: real, d1: real, b: real, d2: real)
    requires d1 > 0.0 && d2 > 0.0 && a * d2 <= b * d1
    ensures a / d1 <= b / d2
  {
    var x, y := a / d1, b / d2;
    assert x * d1 == a;
    assert y * d2 == b;
    assert d1 * d2 > 0.0;
    assert x * (d1 * d2) <= y * (d1 * d2);
  }

  /** A defense shred debuff of non-negative value never lowers the defense
      multiplier, as long as the enemy's base defense is non-negative. */
  lemma DefShredRaisesDefenseMultiplier(c: Character, e: Enemy, a: Attack, b: Buff)
    requires b.stat == DefShred && b.value >= 0.0
    requires e.level >= -20 && LevelTerm(c) > 0.0
    ensures var shredded := e.(debuffs := e.debuffs + [b]);
      DefenseDenominator(c, shredded, a) > 0.0 && DefenseDenominator(c, e, a) > 0.0 &&
      DefenseMultiplier(c, shredded, a) >= DefenseMultiplier(c, e, a)
  {
    var shredded := e.(debuffs := e.debuffs + [b]);
    DefShredLowersTotalDef(c, e, a, b);
    QuotientMonotone(TotalDef(c, shredded, a), TotalDef(c, e, a), LevelTerm(c));
  }

  /** A defense shred debuff of non-negative value never raises the enemy's
      defense, as long as its base defense is non-negative. */
  lemma DefShredLowersTotalDef(c: Character, e: Enemy, a: Attack, b: Buff)
    requires b.stat == DefShred && b.value >= 0.0 && e.level >= -20
    ensures TotalDef(c, e.(debuffs := e.debuffs + [b]), a) <= TotalDef(c, e, a)
  {
    var shredded := e.(debuffs := e.debuffs + [b]);
    DefShredAddsReduction(c, e, a, b);
    assert shredded.buffs == e.buffs && BaseDef(shredded) == BaseDef(e);
    ClampedDefMonotone(BaseDef(e), SumOfStat(e.buffs, |e.buffs|, DefPct),
      DefReduction(c, e, a), DefReduction(c, shredded, a), SumOfStat(e.buffs, |e.buffs|, Def));
  }

  /** A defense shred debuff adds its value to the reduction when it
      matches the attack, and nothing otherwise. */
  lemma DefShredAddsReduction(c: Character, e: Enemy, a: Attack, b: Buff)
    requires b.stat == DefShred
    ensures DefReduction(c, e.(debuffs := e.debuffs + [b]), a)
      == DefReduction(c, e, a) + (if b.Applies(a.attackTag, a.element) then b.value else 0.0)
  {
    SumMatchingConcat(e.debuffs, [b], DefShred, a.attackTag, a.element);
  }

  /** For a non-negative base, a larger reduction never gives more defense. */
  lemma ClampedDefMonotone(baseDef: real, defPct: real, r1: real, r2: real, flatDef: real)
    requires baseDef >= 0.0 && r1 <= r2
    ensures ClampedDef(baseDef, defPct, r2, flatDef) <= ClampedDef(baseDef, defPct, r1, flatDef)
  {
    ScaledDefenseMonotone(baseDef, 1.0 + defPct / 100.0, r1 / 100.0, r2 / 100.0);
  }

  /** A larger reduction never raises a non-negative base scaled by it. */
  lemma ScaledDefenseMonotone(base: real, scale: real, r1: real, r2: real)
    requires base >= 0.0 && r1 <= r2
    ensures ScaleBy(base, scale - r2) <= ScaleBy(base, scale - r1)
  {
    assert ScaleBy(base, scale - r1) - ScaleBy(base, scale - r2) == base * (r2 - r1);
  }

  /** `CalcVulnerabilityMultiplier`'s specification: one plus the matching
      Vulnerability debuffs on the enemy, in percent. The character's own
      buffs play no part. */
  function VulnerabilityMultiplier(c: Character, e: Enemy, a: Attack): real {
    1.0 + SumMatching(e.debuffs, |e.debuffs|, Vulnerability, a.attackTag, a.element) / 100.0
  }

  /** `CalcVulnerabilityMultiplier`: one pass over the enemy's debuffs. */
  method CalcVulnerabilityMultiplier(c: Character, e: Enemy, a: Attack) returns (m: real)
    ensures m == VulnerabilityMultiplier(c, e, a)
  {
    var vuln := SumMatchingBuffs(e.debuffs, Vulnerability, a.attackTag, a.element);
    m := 1.0 + vuln / 100.0;
  }

  /** A vulnerability debuff adds its value in percent to the multiplier
      when it matches the attack, and nothing otherwise. */
  lemma VulnerabilityDebuffAdds(c: Character, e: Enemy, a: Attack, b: Buff)
    requires b.stat == Vulnerability
    ensures VulnerabilityMultiplier(c, e.(debuffs := e.debuffs + [b]), a)
      == VulnerabilityMultiplier(c, e, a) + (if b.Applies(a.attackTag, a.element) then b.value / 100.0 else 0.0)
  {
    SumMatchingConcat(e.debuffs, [b], Vulnerability, a.attackTag, a.element);
  }

  /** Defense is computed only once the base damage has succeeded, so only
      then must its quotient be defined. */
  predicate DefenseDefined(c: Character, e: Enemy, a: Attack) {
    a.scalingStat in {Hp, Atk, Def} ==> DefenseDenominator(c, e, a) != 0.0
  }

  /** `CalcAvgDamage`: zero and the base damage's error when that fails,
      otherwise the product of the six factors. */
  function CalcAvgDamage(c: Character, e: Enemy, a: Attack): (r: (real, Option<DamageError>))
    requires DefenseDefined(c, e, a)
    ensures r.1 == CalcBaseDamage(c, e, a).1
    ensures r.1 != None ==> r.0 == 0.0
  {
    var (baseDamage, err) := CalcBaseDamage(c, e, a);
    if err != None then (0.0, err)
    else
      (baseDamage * CalcAvgCritMultiplier(c, e, a) * CalcDmgBonusMult(c, e, a)
         * ResistanceMultiplier(c, e, a) * DefenseMultiplier(c, e, a) * VulnerabilityMultiplier(c, e, a), None)
  }

  /** Average damage fails exactly for a scaling stat other than Hp, Atk and
      Def. */
  lemma AvgDamageFails(c: Character, e: Enemy, a: Attack)
    requires DefenseDefined(c, e, a)
    ensures CalcAvgDamage(c, e, a).1 != None <==> a.scalingStat !in {Hp, Atk, Def}
    ensures CalcAvgDamage(c, e, a).1 != None ==> CalcAvgDamage(c, e, a) == (0.0, Some(ErrInvalidScalingStat))
  {
  }

  /** An attack with a zero multiplier does no damage. */
  lemma AvgDamageZeroMultiplier(c: Character, e: Enemy, a: Attack)
    requires DefenseDefined(c, e, a) && a.multiplier == 0.0
    ensures CalcAvgDamage(c, e, a).0 == 0.0
  {
    if a.scalingStat in {Hp, Atk, Def} {
      assert CalcBaseDamage(c, e, a).0 == 0.0;
    }
  }

  /** The headings of the five lines after the first, each opening its
      line. */
  function Heading(k: nat): string
    requires k < 5
  {
    match k
    case 0 => "\nCrit Multiplier: "
    case 1 => "\nDamage Bonus Multiplier: "
    case 2 => "\nResistance Multiplier: "
    case 3 => "\nDefense Multiplier: "
    case 4 => "\nVulnerability Multiplier: "
  }

  /** The text of a successful explanation: six lines, one per factor, each
      value rendered by `render`. */
  function ExplainText(render: real -> string, base: real, crit: real, bonus: real, res: real, def: real, vuln: real): (t: string)
    ensures |t| > 13 && t[..13] == "Base Damage: "
  {
    var t := "Base Damage: " + render(base)
      + Heading(0) + render(crit)
      + Heading(1) + render(bonus)
      + Heading(2) + render(res)
      + Heading(3) + render(def)
      + Heading(4) + render(vuln);
    assert t == "Base Damage: " + t[13..];
    t
  }

  /** `ExplainDamage`: the empty text and the base damage's error when that
      fails, otherwise the six factors explained line by line. */
  function ExplainDamage(c: Character, e: Enemy, a: Attack, render: real -> string): (r: (string, Option<DamageError>))
    requires DefenseDefined(c, e, a)
    ensures r.1 == CalcAvgDamage(c, e, a).1
    ensures r.1 != None ==> r.0 == ""
  {
    var (baseDamage, err) := CalcBaseDamage(c, e, a);
    if err != None then ("", err)
    else
      (ExplainText(render, baseDamage, CalcAvgCritMultiplier(c, e, a), CalcDmgBonusMult(c, e, a),
         ResistanceMultiplier(c, e, a), DefenseMultiplier(c, e, a), VulnerabilityMultiplier(c, e, a)), None)
  }

  /** A heading that opens a new line and holds no other newline. */
  predicate StartsLine(heading: string) {
    |heading| > 0 && heading[0] == '\n' && '\n' !in heading[1..]
  }

  /** Each heading opens a line and holds no other newline. */
  lemma HeadingStartsLine(k: nat)
    requires k < 5
    ensures StartsLine(Heading(k))
  {
    match k
    case 0 => TitleStartsLine("Crit Multiplier: ");
    case 1 => TitleStartsLine("Damage Bonus Multiplier: ");
    case 2 => TitleStartsLine("Resistance Multiplier: ");
    case 3 => TitleStartsLine("Defense Multiplier: ");
    case 4 => TitleStartsLine("Vulnerability Multiplier: ");
  }

  lemma TitleStartsLine(title: string)
    requires '\n' !in title
    ensures StartsLine("\n" + title)
  {
    assert ("\n" + title)[1..] == title;
  }

  /** One more line adds one newline to the count. */
  lemma CountNextLine(prefix: string, heading: string, value: string)
    requires StartsLine(heading) && '\n' !in value
    ensures CountChar(prefix + heading + value, '\n') == CountChar(prefix, '\n') + 1
  {
    CountCharAppend(prefix + heading, value, '\n');
    CountCharAppend(prefix, heading, '\n');
    NoOccurrenceCount(heading[1..], '\n');
    NoOccurrenceCount(value, '\n');
  }

  /** When rendered numbers hold no newline, an explanation has exactly
      six lines. */
  lemma ExplainTextLines(render: real -> string, base: real, crit: real, bonus: real, res: real, def: real, vuln: real)
    requires forall x :: '\n' !in render(x)
    ensures CountChar(ExplainText(render, base, crit, bonus, res, def, vuln), '\n') == 5
  {
    var line0 := "Base Damage: " + render(base);
    assert '\n' !in "Base Damage: ";
    NoOccurrenceCount(line0, '\n');
    var line1 := line0 + Heading(0) + render(crit);
    HeadingStartsLine(0);
    CountNextLine(line0, Heading(0), render(crit));
    var line2 := line1 + Heading(1) + render(bonus);
    HeadingStartsLine(1);
    CountNextLine(line1, Heading(1), render(bonus));
    var line3 := line2 + Heading(2) + render(res);
    HeadingStartsLine(2);
    CountNextLine(line2, Heading(2), render(res));
    var line4 := line3 + Heading(3) + render(def);
    HeadingStartsLine(3);
    CountNextLine(line3, Heading(3), render(def));
    HeadingStartsLine(4);
    CountNextLine(line4, Heading(4), render(vuln));
  }
}
