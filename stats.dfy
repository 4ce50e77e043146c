/** The stat vocabulary and the `Buff` record of pkg/hsrtct/stat.go. */
module Stats {
  import opened Elements
  import opened AttackTags
  import opened Text

  /** The 23 stats, declared in the source's order. */
  datatype Stat =
    | Hp | Atk | Def | Spd
    | HpPct | AtkPct | DefPct | SpdPct
    | CritRate | CritDmg | OutgoingHealingBoost | EffectHitRate | EffectRes
    | EnergyRegenerationRate | BreakEffect | DefIgnore | DefShred | Aggro
    | DmgBonus | ElementalRes | ResShred | ResPen | Vulnerability
  {
    /** The stat's name as the source spells it. */
    function Name(): string {
      match this
      case Hp => "Hp"
      case Atk => "Atk"
      case Def => "Def"
      case Spd => "Spd"
      case HpPct => "HpPct"
      case AtkPct => "AtkPct"
      case DefPct => "DefPct"
      case SpdPct => "SpdPct"
      case CritRate => "CritRate"
      case CritDmg => "CritDmg"
      case OutgoingHealingBoost => "OutgoingHealingBoost"
      case EffectHitRate => "EffectHitRate"
      case EffectRes => "EffectRes"
      case EnergyRegenerationRate => "EnergyRegenerationRate"
      case BreakEffect => "BreakEffect"
      case DefIgnore => "DefIgnore"
      case DefShred => "DefShred"
      case Aggro => "Aggro"
      case DmgBonus => "DmgBonus"
      case ElementalRes => "ElementalRes"
      case ResShred => "ResShred"
      case ResPen => "ResPen"
      case Vulnerability => "Vulnerability"
    }

    /** Position of the stat in the source's declaration. */
    function Ordinal(): (n: nat)
      ensures n < 23
    {
      match this
      case Hp => 0
      case Atk => 1
      case Def => 2
      case Spd => 3
      case HpPct => 4
      case AtkPct => 5
      case DefPct => 6
      case SpdPct => 7
      case CritRate => 8
      case CritDmg => 9
      case OutgoingHealingBoost => 10
      case EffectHitRate => 11
      case EffectRes => 12
      case EnergyRegenerationRate => 13
      case BreakEffect => 14
      case DefIgnore => 15
      case DefShred => 16
      case Aggro => 17
      case DmgBonus => 18
      case ElementalRes => 19
      case ResShred => 20
      case ResPen => 21
      case Vulnerability => 22
    }

    /** Hp, Atk, Def and Spd: the stats that have a percent twin. */
    predicate IsPaired() {
      this == Hp || this == Atk || this == Def || this == Spd
    }

    /** HpPct, AtkPct, DefPct and SpdPct: the percent twins. */
    predicate IsPercent() {
      this == HpPct || this == AtkPct || this == DefPct || this == SpdPct
    }

    /** Stats whose value is shown without a trailing "%". */
    predicate IsFlatDisplay() {
      this == Hp || this == Atk || this == Def || this == Spd || this == Aggro
    }
  }

  /** The percent twin of a paired stat. */
  function PercentTwin(s: Stat): (p: Stat)
    requires s.IsPaired()
    ensures p.IsPercent()
  {
    match s
    case Hp => HpPct
    case Atk => AtkPct
    case Def => DefPct
    case Spd => SpdPct
  }

  /** A percent twin is named after its flat stat with "Pct" appended. */
  lemma PercentTwinName(s: Stat)
    requires s.IsPaired()
    ensures PercentTwin(s).Name() == s.Name() + "Pct"
  {
  }

  /** Every stat once, in declaration order. */
  function StatKeys(): (keys: seq<Stat>)
    ensures |keys| == 23
    ensures forall i :: 0 <= i < |keys| ==> keys[i].Ordinal() == i
    ensures forall s: Stat :: keys[s.Ordinal()] == s
  {
    [ Hp, Atk, Def, Spd,
      HpPct, AtkPct, DefPct, SpdPct,
      CritRate, CritDmg, OutgoingHealingBoost, EffectHitRate, EffectRes,
      EnergyRegenerationRate, BreakEffect, DefIgnore, DefShred, Aggro,
      DmgBonus, ElementalRes, ResShred, ResPen, Vulnerability ]
  }

  /** No stat appears twice in `StatKeys`. */
  lemma StatKeysDistinct()
    ensures forall i, j :: 0 <= i < j < |StatKeys()| ==> StatKeys()[i] != StatKeys()[j]
  {
    var keys := StatKeys();
    forall i, j | 0 <= i < j < |keys|
      ensures keys[i] != keys[j]
    {
      assert keys[i].Ordinal() == i && keys[j].Ordinal() == j;
    }
  }

  /** A conditional additive modifier: `value` is added to `stat` for actions
      that match both filters. */
  datatype Buff = Buff(stat: Stat, value: real, damageTag: AttackTag, element: Element)
  {
    /** The buff applies to an action with this tag and element. */
    predicate Applies(tag: AttackTag, elem: Element) {
      damageTag.Is(tag) && element.Is(elem)
    }
  }

  /** The stat's display name: its first "Pct" becomes "%". */
  function PrettyStat(s: Stat): string {
    ReplaceFirst(s.Name(), "Pct", "%")
  }

  /** A percent twin is displayed as its flat stat's name followed by "%"
      ("AtkPct" becomes "Atk%"). */
  lemma PrettyPercentStat(s: Stat)
    requires s.IsPaired()
    ensures PrettyStat(PercentTwin(s)) == s.Name() + "%"
  {
    var b, n := s.Name(), PercentTwin(s).Name();
    PercentTwinName(s);
    assert n == b + "Pct";
    assert 'P' !in b;
    assert OccursAt(n, "Pct", |b|);
    forall j | 0 <= j < |b| ensures !OccursAt(n, "Pct", j) {
      if j + 3 <= |n| { assert n[j..j + 3][0] == n[j] == b[j]; }
    }
    ReplaceFirstAt(n, "Pct", "%", |b|);
    assert n[..|b|] == b;
  }

  /** Every other stat is displayed under its own name, "ResPen" included
      (its "P" does not start a "Pct"). */
  lemma PrettyOtherStat(s: Stat)
    requires !s.IsPercent()
    ensures PrettyStat(s) == s.Name()
  {
    var n := s.Name();
    if s == ResPen {
      forall i ensures !OccursAt(n, "Pct", i) {
        if 0 <= i && i + 3 <= |n| {
          assert n[i..i + 3][0] == n[i] && n[i..i + 3][1] == n[i + 1];
        }
      }
    } else {
      assert 'P' !in n;
      NoOccurrenceWithoutLead(n, "Pct");
    }
    ReplaceFirstAbsent(n, "Pct", "%");
  }

  /** "%" after the value, except for the flat-display stats. */
  function ValueSuffix(s: Stat): (suffix: string)
    ensures suffix == "" <==> s.IsFlatDisplay()
  {
    if s.IsFlatDisplay() then "" else "%"
  }

  /** "(name)" for a filter, nothing for the wildcard's empty name. */
  function FilterText(name: string): (t: string)
    ensures t == "" <==> name == ""
  {
    if name != "" then "(" + name + ")" else ""
  }

  /** A buff as text: value, suffix, a space, the display name, then
      "(tag)" and "(element)" for the filters that are not wildcards. The
      number formatting ("%.1f") is the `render` parameter. */
  function BuffString(b: Buff, render: real -> string): (r: string)
    ensures |r| > |render(b.value)| + |PrettyStat(b.stat)|
    ensures r[..|render(b.value)|] == render(b.value)
  {
    var result := render(b.value) + ValueSuffix(b.stat) + " " + PrettyStat(b.stat);
    var result := result + FilterText(b.damageTag.Name());
    result + FilterText(b.element.Name())
  }

  /** The character right after `head` in a rendered buff is the first one
      of the value suffix, or the separating space when the suffix is empty. */
  lemma LayoutAfterValue(head: string, suffix: string, statText: string, tagText: string, elemText: string)
    ensures var r := head + (suffix + " " + statText) + tagText + elemText;
      |head| < |r| && r[..|head|] == head && r[|head|] == (if suffix == "" then ' ' else suffix[0])
  {
    var middle := suffix + " " + statText;
    var r := head + middle + tagText + elemText;
    assert r == head + (middle + (tagText + elemText));
    assert r[..|head|] == head;
    assert r[|head|] == middle[0];
  }

  /** `BuffString` split into the rendered value, the stat part and the two
      filter parts. */
  lemma BuffStringParts(b: Buff, render: real -> string)
    ensures BuffString(b, render) == render(b.value) + (ValueSuffix(b.stat) + " " + PrettyStat(b.stat))
      + FilterText(b.damageTag.Name()) + FilterText(b.element.Name())
  {
  }

  /** Right after the rendered value comes "%" exactly when the stat is not
      one of Hp, Atk, Def, Spd and Aggro. */
  lemma BuffStringValueSuffix(b: Buff, render: real -> string)
    ensures var r, head := BuffString(b, render), render(b.value);
      |head| < |r| && r[..|head|] == head && (r[|head|] == '%' <==> !b.stat.IsFlatDisplay())
  {
    BuffStringParts(b, render);
    LayoutAfterValue(render(b.value), ValueSuffix(b.stat), PrettyStat(b.stat),
      FilterText(b.damageTag.Name()), FilterText(b.element.Name()));
  }

  /** The flat stat whose percent twin `p` is. */
  function FlatOf(p: Stat): (s: Stat)
    requires p.IsPercent()
    ensures s.IsPaired() && PercentTwin(s) == p
  {
    match p
    case HpPct => Hp
    case AtkPct => Atk
    case DefPct => Def
    case SpdPct => Spd
  }

  lemma StatNameWithoutParens(s: Stat)
    ensures '(' !in s.Name()
  {
  }

  /** No display name of a stat holds a parenthesis. */
  lemma PrettyStatWithoutParens(s: Stat)
    ensures '(' !in PrettyStat(s)
  {
    if s.IsPercent() {
      var flat := FlatOf(s);
      PrettyPercentStat(flat);
      StatNameWithoutParens(flat);
      assert PrettyStat(s) == flat.Name() + "%";
    } else {
      PrettyOtherStat(s);
      StatNameWithoutParens(s);
    }
  }

  /** A filter's text holds one "(" when the filter is not a wildcard. */
  lemma FilterTextParens(name: string)
    requires '(' !in name
    ensures CountChar(FilterText(name), '(') == if name == "" then 0 else 1
  {
    if name != "" {
      NoOccurrenceCount(name + ")", '(');
      CountCharAppend("(", name + ")", '(');
      assert FilterText(name) == "(" + (name + ")");
    }
  }

  /** The filter part of a rendered buff, over arbitrary texts. */
  lemma LayoutFilters(head: string, middle: string, tagName: string, elemName: string)
    requires '(' !in middle && '(' !in tagName && '(' !in elemName
    ensures var r := head + middle + FilterText(tagName) + FilterText(elemName);
      |head| <= |r| && r[..|head|] == head &&
      CountChar(r[|head|..], '(') == (if tagName != "" then 1 else 0) + (if elemName != "" then 1 else 0)
    ensures var r := head + middle + FilterText(tagName) + FilterText(elemName);
      (tagName != "" && elemName != "" ==> EndsWith(r, "(" + tagName + ")(" + elemName + ")")) &&
      (tagName != "" && elemName == "" ==> EndsWith(r, "(" + tagName + ")")) &&
      (tagName == "" && elemName != "" ==> EndsWith(r, "(" + elemName + ")")) &&
      (tagName == "" && elemName == "" ==> r == head + middle)
  {
    var tagPart, elemPart := FilterText(tagName), FilterText(elemName);
    var r := head + middle + tagPart + elemPart;
    assert r == head + (middle + (tagPart + elemPart));
    assert r[..|head|] == head;
    assert r[|head|..] == middle + (tagPart + elemPart);
    NoOccurrenceCount(middle, '(');
    CountCharAppend(middle, tagPart + elemPart, '(');
    CountCharAppend(tagPart, elemPart, '(');
    FilterTextParens(tagName);
    FilterTextParens(elemName);
    if tagName != "" && elemName != "" {
      assert tagPart + elemPart == "(" + tagName + ")(" + elemName + ")";
      assert r == (head + middle) + (tagPart + elemPart);
    }
  }

  /** After the rendered value there is one "(" per filter that is not a
      wildcard; the tag's "(tag)" comes before the element's "(element)",
      and a buff with both wildcards is rendered without parentheses. */
  lemma BuffStringFilters(b: Buff, render: real -> string)
    ensures var r, head := BuffString(b, render), render(b.value);
      |head| <= |r| && r[..|head|] == head &&
      CountChar(r[|head|..], '(') == (if b.damageTag != AnyAttack then 1 else 0) + (if b.element != AnyElement then 1 else 0)
    ensures b.damageTag != AnyAttack && b.element != AnyElement ==>
      EndsWith(BuffString(b, render), "(" + b.damageTag.Name() + ")(" + b.element.Name() + ")")
    ensures b.damageTag != AnyAttack && b.element == AnyElement ==>
      EndsWith(BuffString(b, render), "(" + b.damageTag.Name() + ")")
    ensures b.damageTag == AnyAttack && b.element != AnyElement ==>
      EndsWith(BuffString(b, render), "(" + b.element.Name() + ")")
    ensures b.damageTag == AnyAttack && b.element == AnyElement ==>
      BuffString(b, render) == render(b.value) + ValueSuffix(b.stat) + " " + PrettyStat(b.stat)
  {
    var head, middle := render(b.value), ValueSuffix(b.stat) + " " + PrettyStat(b.stat);
    var tagName, elemName := b.damageTag.Name(), b.element.Name();
    BuffStringParts(b, render);
    StatPartWithoutParens(b.stat);
    FilterNamesWithoutParens(b);
    LayoutFilters(head, middle, tagName, elemName);
  }

  lemma FilterNamesWithoutParens(b: Buff)
    ensures '(' !in b.damageTag.Name() && '(' !in b.element.Name()
  {
  }

  lemma StatPartWithoutParens(s: Stat)
    ensures '(' !in ValueSuffix(s) + " " + PrettyStat(s)
  {
    PrettyStatWithoutParens(s);
  }
}
