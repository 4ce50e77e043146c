/** Sums of buff values over the first `n` buffs of a list, the
    accumulations that pkg/hsrtct/character.go and pkg/hsrtct/damage.go
    perform in their loops. Each sum adds the `n`-th buff to the sum of the
    first `n - 1`, the order in which the source's loops accumulate; the sum
    over a whole list is the one with `n == |bs|`. */
module BuffSums {
  import opened Elements
  import opened AttackTags
  import opened Stats

  /** What buff `b` adds to a sum of `stat` restricted to `tag` and `elem`. */
  function MatchingValue(b: Buff, stat: Stat, tag: AttackTag, elem: Element): real {
    if b.stat == stat && b.Applies(tag, elem) then b.value else 0.0
  }

  /** Sum of the values of the first `n` buffs of `stat` that apply to `tag`
      and `elem`. */
  function SumMatching(bs: seq<Buff>, n: nat, stat: Stat, tag: AttackTag, elem: Element): real
    requires n <= |bs|
  {
    if n == 0 then 0.0
    else SumMatching(bs, n - 1, stat, tag, elem) + MatchingValue(bs[n - 1], stat, tag, elem)
  }

  /** Sum of the values of the first `n` buffs of `stat`, whatever their
      filters. */
  function SumOfStat(bs: seq<Buff>, n: nat, stat: Stat): real
    requires n <= |bs|
  {
    if n == 0 then 0.0
    else SumOfStat(bs, n - 1, stat) + (if bs[n - 1].stat == stat then bs[n - 1].value else 0.0)
  }

  /** One more buff adds its value exactly when it has the stat and passes
      both filters. */
  lemma SumMatchingStep(bs: seq<Buff>, i: nat, stat: Stat, tag: AttackTag, elem: Element)
    requires i < |bs|
    ensures SumMatching(bs, i + 1, stat, tag, elem) == SumMatching(bs, i, stat, tag, elem)
      + (if bs[i].stat == stat && bs[i].element.Is(elem) && bs[i].damageTag.Is(tag) then bs[i].value else 0.0)
  {
  }

  lemma SumOfStatStep(bs: seq<Buff>, i: nat, stat: Stat)
    requires i < |bs|
    ensures SumOfStat(bs, i + 1, stat) == SumOfStat(bs, i, stat) + (if bs[i].stat == stat then bs[i].value else 0.0)
  {
  }

  /** A prefix sum only looks at the prefix. */
  lemma {:induction false} SumMatchingPrefix(bs: seq<Buff>, ext: seq<Buff>, n: nat, stat: Stat, tag: AttackTag, elem: Element)
    requires n <= |bs|
    ensures SumMatching(bs + ext, n, stat, tag, elem) == SumMatching(bs, n, stat, tag, elem)
  {
    if n > 0 {
      SumMatchingPrefix(bs, ext, n - 1, stat, tag, elem);
      assert (bs + ext)[n - 1] == bs[n - 1];
    }
  }

  /** Summing over a concatenation sums the two parts. */
  lemma {:induction false} SumMatchingAppend(a: seq<Buff>, b: seq<Buff>, n: nat, stat: Stat, tag: AttackTag, elem: Element)
    requires n <= |b|
    ensures SumMatching(a + b, |a| + n, stat, tag, elem)
      == SumMatching(a, |a|, stat, tag, elem) + SumMatching(b, n, stat, tag, elem)
  {
    if n == 0 {
      SumMatchingPrefix(a, b, |a|, stat, tag, elem);
    } else {
      SumMatchingAppend(a, b, n - 1, stat, tag, elem);
      assert (a + b)[|a| + n - 1] == b[n - 1];
    }
  }

  /** The sum over a concatenation of two whole lists. */
  lemma SumMatchingConcat(a: seq<Buff>, b: seq<Buff>, stat: Stat, tag: AttackTag, elem: Element)
    ensures SumMatching(a + b, |a + b|, stat, tag, elem)
      == SumMatching(a, |a|, stat, tag, elem) + SumMatching(b, |b|, stat, tag, elem)
  {
    SumMatchingAppend(a, b, |b|, stat, tag, elem);
  }

  lemma {:induction false} SumOfStatPrefix(bs: seq<Buff>, ext: seq<Buff>, n: nat, stat: Stat)
    requires n <= |bs|
    ensures SumOfStat(bs + ext, n, stat) == SumOfStat(bs, n, stat)
  {
    if n > 0 {
      SumOfStatPrefix(bs, ext, n - 1, stat);
      assert (bs + ext)[n - 1] == bs[n - 1];
    }
  }

  lemma {:induction false} SumOfStatAppend(a: seq<Buff>, b: seq<Buff>, n: nat, stat: Stat)
    requires n <= |b|
    ensures SumOfStat(a + b, |a| + n, stat) == SumOfStat(a, |a|, stat) + SumOfStat(b, n, stat)
  {
    if n == 0 {
      SumOfStatPrefix(a, b, |a|, stat);
    } else {
      SumOfStatAppend(a, b, n - 1, stat);
      assert (a + b)[|a| + n - 1] == b[n - 1];
    }
  }

  /** A query with a wildcard tag and a wildcard element counts every buff
      of the stat, whatever its filters. */
  lemma {:induction false} SumMatchingWildcard(bs: seq<Buff>, n: nat, stat: Stat)
    requires n <= |bs|
    ensures SumMatching(bs, n, stat, AnyAttack, AnyElement) == SumOfStat(bs, n, stat)
  {
    if n > 0 {
      SumMatchingWildcard(bs, n - 1, stat);
    }
  }

  /** Buffs of other stats, or that do not apply, add nothing. */
  lemma {:induction false} SumMatchingIrrelevant(bs: seq<Buff>, n: nat, stat: Stat, tag: AttackTag, elem: Element)
    requires n <= |bs|
    requires forall i :: 0 <= i < n ==> bs[i].stat != stat || !bs[i].Applies(tag, elem)
    ensures SumMatching(bs, n, stat, tag, elem) == 0.0
  {
    if n > 0 {
      SumMatchingIrrelevant(bs, n - 1, stat, tag, elem);
    }
  }

  /** With non-negative buff values, a sum never decreases as buffs are
      added and is itself non-negative. */
  lemma {:induction false} SumMatchingMonotone(bs: seq<Buff>, m: nat, n: nat, stat: Stat, tag: AttackTag, elem: Element)
    requires m <= n <= |bs|
    requires forall i :: 0 <= i < |bs| ==> bs[i].value >= 0.0
    ensures 0.0 <= SumMatching(bs, m, stat, tag, elem) <= SumMatching(bs, n, stat, tag, elem)
    decreases n
  {
    if m < n {
      SumMatchingMonotone(bs, m, n - 1, stat, tag, elem);
    } else if n > 0 {
      SumMatchingMonotone(bs, n - 1, n - 1, stat, tag, elem);
    }
  }
}
