/** Stat aggregation of pkg/hsrtct/character.go: a character's base values,
    its light cone and its relic build, folded with every buff that applies
    to a query into the final value of one stat. */
module Characters {
  import opened Elements
  import opened AttackTags
  import opened Stats
  import opened BuffSums
  import opened Relics

  datatype LightCone = LightCone(level: int, baseHp: real, baseAtk: real, baseDef: real, buffs: seq<Buff>)

  /** A character, with its light cone and relic build embedded in it. */
  datatype Character = Character(
    level: int,
    baseHp: real, baseAtk: real, baseDef: real, baseSpd: real, baseAggro: real,
    element: Element,
    lightCone: LightCone,
    relicBuild: RelicBuild,
    buffs: seq<Buff>)

  /** Every buff of the character: its own, then the light cone's, then the
      relic build's. */
  function AllBuffsOf(c: Character): seq<Buff> {
    c.buffs + c.lightCone.buffs + BuildBuffs(c.relicBuild)
  }

  /** Copy `src` into `dst` from `offset` on, as Go's `copy` does when the
      destination has room. */
  method CopyInto(dst: array<Buff>, offset: nat, src: seq<Buff>)
    requires offset + |src| <= dst.Length
    modifies dst
    ensures dst[..] == old(dst[..offset]) + src + old(dst[offset + |src|..])
  {
    for i := 0 to |src|
      invariant dst[..offset] == old(dst[..offset])
      invariant dst[offset..offset + i] == src[..i]
      invariant dst[offset + |src|..] == old(dst[offset + |src|..])
      invariant dst[offset + i..offset + |src|] == old(dst[offset + i..offset + |src|])
    {
      dst[offset + i] := src[i];
      assert dst[offset..offset + i + 1] == dst[offset..offset + i] + [src[i]];
      assert src[..i + 1] == src[..i] + [src[i]];
    }
    assert dst[..] == dst[..offset] + dst[offset..offset + |src|] + dst[offset + |src|..];
  }

  /** `Character.AllBuffs`: a slice of the summed length, filled with the
      character's buffs, then the light cone's, then the relic build's. */
  method AllBuffs(c: Character) returns (all: seq<Buff>)
    ensures all == AllBuffsOf(c)
  {
    var own, cone, gear := c.buffs, c.lightCone.buffs, BuildBuffs(c.relicBuild);
    var buffer := new Buff[|own| + |cone| + |gear|];
    CopyInto(buffer, 0, own);
    assert buffer[..|own|] == own;
    ghost var afterOwn := buffer[..];
    CopyInto(buffer, |own|, cone);
    assert buffer[..] == afterOwn[..|own|] + cone + afterOwn[|own| + |cone|..];
    assert buffer[..|own| + |cone|] == own + cone;
    ghost var afterCone := buffer[..];
    CopyInto(buffer, |own| + |cone|, gear);
    assert buffer[..] == afterCone[..|own| + |cone|] + gear + afterCone[|own| + |cone| + |gear|..];
    all := buffer[..];
    assert all == own + cone + gear;
  }

  /** The value a stat starts from before any buff. */
  function BaseValue(c: Character, stat: Stat): real {
    match stat
    case Hp => c.baseHp + c.lightCone.baseHp
    case Atk => c.baseAtk + c.lightCone.baseAtk
    case Def => c.baseDef + c.lightCone.baseDef
    case Spd => c.baseSpd
    case Aggro => c.baseAggro
    case CritRate => 5.0
    case CritDmg => 50.0
    case EnergyRegenerationRate => 100.0
    case _ => 0.0
  }

  /** `pct` percent of `base`. */
  function PercentOf(base: real, pct: real): real {
    base * pct / 100.0
  }

  /** The inner switch of `FinalStatValue`: what a buff that passed the
      filter adds to `stat`. A buff of the stat itself adds its value; Hp,
      Atk, Def and Spd also take their percent twin as a percentage of the
      base value; nothing else counts. */
  function StatContribution(b: Buff, stat: Stat, base: real): (r: real)
    ensures b.stat != stat && !(stat.IsPaired() && b.stat == PercentTwin(stat)) ==> r == 0.0
    ensures b.value >= 0.0 && base >= 0.0 ==> r >= 0.0
  {
    if b.stat == stat then b.value
    else if stat.IsPaired() && b.stat == PercentTwin(stat) then PercentOf(base, b.value)
    else 0.0
  }

  /** What one buff adds to `stat` for an action with this tag and element. */
  function Contribution(b: Buff, stat: Stat, base: real, tag: AttackTag, elem: Element): real {
    if b.Applies(tag, elem) then StatContribution(b, stat, base) else 0.0
  }

  /** Sum of the contributions of the first `n` buffs of `bs`. */
  function SumContributions(bs: seq<Buff>, n: nat, stat: Stat, base: real, tag: AttackTag, elem: Element): real
    requires n <= |bs|
  {
    if n == 0 then 0.0
    else SumContributions(bs, n - 1, stat, base, tag, elem) + Contribution(bs[n - 1], stat, base, tag, elem)
  }

  lemma SumContributionsStep(bs: seq<Buff>, i: nat, stat: Stat, base: real, tag: AttackTag, elem: Element)
    requires i < |bs|
    ensures SumContributions(bs, i + 1, stat, base, tag, elem)
      == SumContributions(bs, i, stat, base, tag, elem)
         + (if bs[i].damageTag.Is(tag) && bs[i].element.Is(elem) then StatContribution(bs[i], stat, base) else 0.0)
  {
  }

  /** The final value of `stat` for an action with this tag and element. */
  function FinalStat(c: Character, stat: Stat, tag: AttackTag, elem: Element): real {
    var all := AllBuffsOf(c);
    BaseValue(c, stat) + SumContributions(all, |all|, stat, BaseValue(c, stat), tag, elem)
  }

  /** The final value over a given buff list and base value. Like the
      other `...Over` and `...Is` lemmas of this model, it only restates a
      definition: the method that calls it then reasons about its own local
      variables, which keeps its proof within the solver's budget. */
  lemma FinalStatOver(c: Character, stat: Stat, tag: AttackTag, elem: Element, all: seq<Buff>, base: real)
    requires all == AllBuffsOf(c) && base == BaseValue(c, stat)
    ensures FinalStat(c, stat, tag, elem) == base + SumContributions(all, |all|, stat, base, tag, elem)
  {
  }

  /** `Character.FinalStatValue`: the base value, then one pass over all
      buffs adding what each applicable buff contributes. */
  method FinalStatValue(c: Character, stat: Stat, tag: AttackTag, element: Element) returns (value: real)
    ensures value == FinalStat(c, stat, tag, element)
  {
    var baseValue := BaseValue(c, stat);
    value := baseValue;
    var allBuffs := AllBuffs(c);
    for i := 0 to |allBuffs|
      invariant value == baseValue + SumContributions(allBuffs, i, stat, baseValue, tag, element)
    {
      var buff := allBuffs[i];
      SumContributionsStep(allBuffs, i, stat, baseValue, tag, element);
      if !buff.damageTag.Is(tag) || !buff.element.Is(element) {
        continue;
      }
      value := value + StatContribution(buff, stat, baseValue);
    }
    FinalStatOver(c, stat, tag, element, allBuffs, baseValue);
  }

  /** Percentages of one base add up. */
  lemma PercentOfAdd(base: real, x: real, y: real)
    ensures PercentOf(base, x + y) == PercentOf(base, x) + PercentOf(base, y)
  {
  }

  /** For Hp, Atk, Def and Spd the contributions split into the flat buffs
      of the stat plus their percent twins taken against the base value. */
  lemma {:induction false} SumContributionsPaired(bs: seq<Buff>, n: nat, stat: Stat, base: real, tag: AttackTag, elem: Element)
    requires n <= |bs| && stat.IsPaired()
    ensures SumContributions(bs, n, stat, base, tag, elem)
      == SumMatching(bs, n, stat, tag, elem) + PercentOf(base, SumMatching(bs, n, PercentTwin(stat), tag, elem))
  {
    if n > 0 {
      SumContributionsPaired(bs, n - 1, stat, base, tag, elem);
      PercentOfAdd(base, SumMatching(bs, n - 1, PercentTwin(stat), tag, elem), MatchingValue(bs[n - 1], PercentTwin(stat), tag, elem));
    }
  }

  /** For every other stat only the buffs of exactly that stat count. */
  lemma {:induction false} SumContributionsOther(bs: seq<Buff>, n: nat, stat: Stat, base: real, tag: AttackTag, elem: Element)
    requires n <= |bs| && !stat.IsPaired()
    ensures SumContributions(bs, n, stat, base, tag, elem) == SumMatching(bs, n, stat, tag, elem)
  {
    if n > 0 {
      SumContributionsOther(bs, n - 1, stat, base, tag, elem);
    }
  }

  /** The final value of Hp, Atk, Def or Spd: the base, plus every matching
      flat buff, plus every matching percent-twin buff as a percentage of the
      base. Percent buffs add to one another; they do not compound. */
  lemma FinalStatPaired(c: Character, stat: Stat, tag: AttackTag, elem: Element)
    requires stat.IsPaired()
    ensures var all, base := AllBuffsOf(c), BaseValue(c, stat);
      FinalStat(c, stat, tag, elem)
        == base + SumMatching(all, |all|, stat, tag, elem) + PercentOf(base, SumMatching(all, |all|, PercentTwin(stat), tag, elem))
  {
    var all := AllBuffsOf(c);
    SumContributionsPaired(all, |all|, stat, BaseValue(c, stat), tag, elem);
  }

  /** The final value of any other stat: its base plus the sum of the
      matching buffs of that very stat (so `AtkPct` queried alone is the sum
      of the matching `AtkPct` buffs). */
  lemma FinalStatOther(c: Character, stat: Stat, tag: AttackTag, elem: Element)
    requires !stat.IsPaired()
    ensures var all := AllBuffsOf(c);
      FinalStat(c, stat, tag, elem) == BaseValue(c, stat) + SumMatching(all, |all|, stat, tag, elem)
  {
    var all := AllBuffsOf(c);
    SumContributionsOther(all, |all|, stat, BaseValue(c, stat), tag, elem);
  }

  /** A query with the wildcard tag and element counts every buff of the
      stat whatever its filters, and for Hp, Atk, Def and Spd every buff of
      its percent twin as well. */
  lemma FinalStatWildcard(c: Character, stat: Stat)
    ensures var all, base := AllBuffsOf(c), BaseValue(c, stat);
      FinalStat(c, stat, AnyAttack, AnyElement)
        == base + SumOfStat(all, |all|, stat)
           + (if stat.IsPaired() then PercentOf(base, SumOfStat(all, |all|, PercentTwin(stat))) else 0.0)
  {
    var all := AllBuffsOf(c);
    SumMatchingWildcard(all, |all|, stat);
    if stat.IsPaired() {
      FinalStatPaired(c, stat, AnyAttack, AnyElement);
      SumMatchingWildcard(all, |all|, PercentTwin(stat));
    } else {
      FinalStatOther(c, stat, AnyAttack, AnyElement);
    }
  }

  /** Buffs that do not apply to the query, or that apply but have neither
      the queried stat nor its percent twin, add nothing. */
  lemma {:induction false} SumContributionsInapplicable(bs: seq<Buff>, n: nat, stat: Stat, base: real, tag: AttackTag, elem: Element)
    requires n <= |bs|
    requires forall i :: 0 <= i < n && bs[i].Applies(tag, elem) ==>
      bs[i].stat != stat && !(stat.IsPaired() && bs[i].stat == PercentTwin(stat))
    ensures SumContributions(bs, n, stat, base, tag, elem) == 0.0
  {
    if n > 0 {
      SumContributionsInapplicable(bs, n - 1, stat, base, tag, elem);
    }
  }

  /** When no buff that applies to the query has the queried stat or, for
      Hp, Atk, Def and Spd, its percent twin, the final value is the base
      value. (Some buff always applies: the six relics' main stats are
      wildcards.) */
  lemma FinalStatWithoutContributingBuffs(c: Character, stat: Stat, tag: AttackTag, elem: Element)
    requires forall b :: b in AllBuffsOf(c) && b.Applies(tag, elem) ==>
      b.stat != stat && !(stat.IsPaired() && b.stat == PercentTwin(stat))
    ensures FinalStat(c, stat, tag, elem) == BaseValue(c, stat)
  {
    var all := AllBuffsOf(c);
    forall i | 0 <= i < |all| && all[i].Applies(tag, elem)
      ensures all[i].stat != stat && !(stat.IsPaired() && all[i].stat == PercentTwin(stat))
    {
      assert all[i] in all;
    }
    SumContributionsInapplicable(all, |all|, stat, BaseValue(c, stat), tag, elem);
  }

  lemma {:induction false} SumContributionsPrefix(bs: seq<Buff>, ext: seq<Buff>, n: nat, stat: Stat, base: real, tag: AttackTag, elem: Element)
    requires n <= |bs|
    ensures SumContributions(bs + ext, n, stat, base, tag, elem) == SumContributions(bs, n, stat, base, tag, elem)
  {
    if n > 0 {
      SumContributionsPrefix(bs, ext, n - 1, stat, base, tag, elem);
      assert (bs + ext)[n - 1] == bs[n - 1];
    }
  }

  lemma {:induction false} SumContributionsAppend(a: seq<Buff>, b: seq<Buff>, n: nat, stat: Stat, base: real, tag: AttackTag, elem: Element)
    requires n <= |b|
    ensures SumContributions(a + b, |a| + n, stat, base, tag, elem)
      == SumContributions(a, |a|, stat, base, tag, elem) + SumContributions(b, n, stat, base, tag, elem)
  {
    if n == 0 {
      SumContributionsPrefix(a, b, |a|, stat, base, tag, elem);
    } else {
      SumContributionsAppend(a, b, n - 1, stat, base, tag, elem);
      assert (a + b)[|a| + n - 1] == b[n - 1];
    }
  }

  /** The last element of `bs` sits somewhere in a permutation `cs` of
      it, and what is left on both sides is again a permutation. */
  lemma PermutationSplit<T>(bs: seq<T>, cs: seq<T>) returns (j: nat)
    requires |bs| > 0 && multiset(bs) == multiset(cs)
    ensures j < |cs| && cs[j] == bs[|bs| - 1]
    ensures multiset(bs[..|bs| - 1]) == multiset(cs[..j] + cs[j + 1..])
  {
    var last := |bs| - 1;
    assert bs == bs[..last] + [bs[last]];
    assert bs[last] in multiset(cs);
    j :| 0 <= j < |cs| && cs[j] == bs[last];
    assert cs == cs[..j] + [cs[j]] + cs[j + 1..];
    assert multiset(cs) == multiset(cs[..j]) + multiset{cs[j]} + multiset(cs[j + 1..]);
    assert multiset(bs) == multiset(bs[..last]) + multiset{bs[last]};
    assert multiset(cs[..j] + cs[j + 1..]) == multiset(cs[..j]) + multiset(cs[j + 1..]);
    calc {
      multiset(bs[..last]);
      multiset(bs) - multiset{bs[last]};
      (multiset(cs[..j]) + multiset(cs[j + 1..]) + multiset{cs[j]}) - multiset{cs[j]};
      multiset(cs[..j]) + multiset(cs[j + 1..]);
    }
  }

  /** Taking one buff out of a list takes its contribution out of the sum. */
  lemma SumContributionsRemove(cs: seq<Buff>, j: nat, stat: Stat, base: real, tag: AttackTag, elem: Element)
    requires j < |cs|
    ensures var rest := cs[..j] + cs[j + 1..];
      SumContributions(cs, |cs|, stat, base, tag, elem)
        == SumContributions(rest, |rest|, stat, base, tag, elem) + Contribution(cs[j], stat, base, tag, elem)
  {
    var before, after := cs[..j], cs[j + 1..];
    assert cs == (before + [cs[j]]) + after;
    SumContributionsAppend(before + [cs[j]], after, |after|, stat, base, tag, elem);
    SumContributionsAppend(before, [cs[j]], 1, stat, base, tag, elem);
    SumContributionsAppend(before, after, |after|, stat, base, tag, elem);
  }

  /** The order of the buffs does not matter: lists holding the same buffs
      the same number of times sum to the same contribution. */
  lemma {:induction false} SumContributionsPermutation(bs: seq<Buff>, cs: seq<Buff>, stat: Stat, base: real, tag: AttackTag, elem: Element)
    requires multiset(bs) == multiset(cs)
    ensures SumContributions(bs, |bs|, stat, base, tag, elem) == SumContributions(cs, |cs|, stat, base, tag, elem)
    decreases |bs|
  {
    if bs == [] {
      assert |cs| == |multiset(cs)| == 0;
    } else {
      var last := |bs| - 1;
      var j := PermutationSplit(bs, cs);
      var rest := cs[..j] + cs[j + 1..];
      SumContributionsPermutation(bs[..last], rest, stat, base, tag, elem);
      SumContributionsPrefix(bs[..last], [bs[last]], last, stat, base, tag, elem);
      assert bs == bs[..last] + [bs[last]];
      SumContributionsRemove(cs, j, stat, base, tag, elem);
    }
  }

  /** Reordering the character's own buffs never changes a final value. */
  lemma FinalStatReorderedBuffs(c: Character, buffs: seq<Buff>, stat: Stat, tag: AttackTag, elem: Element)
    requires multiset(buffs) == multiset(c.buffs)
    ensures FinalStat(c.(buffs := buffs), stat, tag, elem) == FinalStat(c, stat, tag, elem)
  {
    var d := c.(buffs := buffs);
    assert multiset(AllBuffsOf(d)) == multiset(AllBuffsOf(c));
    SumContributionsPermutation(AllBuffsOf(d), AllBuffsOf(c), stat, BaseValue(c, stat), tag, elem);
  }

  /** The sum over a concatenation of two whole lists. */
  lemma SumContributionsConcat(a: seq<Buff>, b: seq<Buff>, stat: Stat, base: real, tag: AttackTag, elem: Element)
    ensures SumContributions(a + b, |a + b|, stat, base, tag, elem)
      == SumContributions(a, |a|, stat, base, tag, elem) + SumContributions(b, |b|, stat, base, tag, elem)
  {
    SumContributionsAppend(a, b, |b|, stat, base, tag, elem);
  }

  /** Giving the character one more buff adds exactly that buff's
      contribution to the final value; a buff that does not apply to the
      query changes nothing. */
  lemma FinalStatAddedBuff(c: Character, b: Buff, stat: Stat, tag: AttackTag, elem: Element)
    ensures FinalStat(c.(buffs := c.buffs + [b]), stat, tag, elem)
      == FinalStat(c, stat, tag, elem) + Contribution(b, stat, BaseValue(c, stat), tag, elem)
  {
    var cone, gear := c.lightCone.buffs, BuildBuffs(c.relicBuild);
    var base := BaseValue(c, stat);
    assert BaseValue(c.(buffs := c.buffs + [b]), stat) == base;
    SumContributionsConcat(c.buffs + [b] + cone, gear, stat, base, tag, elem);
    SumContributionsConcat(c.buffs + [b], cone, stat, base, tag, elem);
    SumContributionsConcat(c.buffs, [b], stat, base, tag, elem);
    SumContributionsConcat(c.buffs + cone, gear, stat, base, tag, elem);
    SumContributionsConcat(c.buffs, cone, stat, base, tag, elem);
  }

  /** Giving the character one more buff adds that buff's value to every
      filtered sum over its buffs whose stat and filters the buff matches. */
  lemma AllBuffsAddedBuff(c: Character, b: Buff, stat: Stat, tag: AttackTag, elem: Element)
    ensures var before, after := AllBuffsOf(c), AllBuffsOf(c.(buffs := c.buffs + [b]));
      SumMatching(after, |after|, stat, tag, elem)
        == SumMatching(before, |before|, stat, tag, elem) + MatchingValue(b, stat, tag, elem)
  {
    var cone, gear := c.lightCone.buffs, BuildBuffs(c.relicBuild);
    SumMatchingConcat(c.buffs + [b] + cone, gear, stat, tag, elem);
    SumMatchingConcat(c.buffs + [b], cone, stat, tag, elem);
    SumMatchingConcat(c.buffs, [b], stat, tag, elem);
    SumMatchingConcat(c.buffs + cone, gear, stat, tag, elem);
    SumMatchingConcat(c.buffs, cone, stat, tag, elem);
  }
}
