# hsr-tct damage core in Dafny

This project models the stat and damage resolution engine of hsr-tct, a
Honkai: Star Rail team calculator. A character's gear is a light cone and a
relic build of six relics, and gear becomes a list of buffs. Each buff is an
additive modifier of one stat, filtered by an attack tag and an element, with
an explicit wildcard for each. The buffs that apply to a query fold into the
final value of a stat. Hp, Atk, Def and Spd also take their percent twins as
a percentage of the base value. The damage of one attack against one enemy is
the product of six factors: base damage, average crit, damage bonus,
resistance, defense and vulnerability. The model also covers the A1 cell
notation used by the spreadsheet front end.

Modules, one per source file:

- `Elements`: element.go.
- `AttackTags`: the tag type of damage.go.
- `Stats`: stat.go.
- `Relics`: relics.go.
- `Characters`: character.go.
- `Damage`: damage.go.
- `Sheets`: `spreadsheetCoordinate` of cmd/hsrtctsheets/main.go.
- `BuffSums` and `Text`: the filtered sums and the string helpers those modules share.

How the source is modelled:

- `float64` is `real`.
- Go's `(value, error)` results are a pair with an `Option<DamageError>`.
- Characters, enemies, attacks and gear are passed by value in Go, so here they are datatypes.
- The accumulator loops are methods proved against recursive sum functions:
  - `FinalStatValue`;
  - `AllBuffs`, which copies into an array;
  - the resistance, defense and vulnerability passes;
  - `spreadsheetCoordinate`.
- The functions state what the source computes, and lemmas prove what it promises about those functions.

Facts of the code that shape the model:

- Crit applies to every attack tag, damage over time included (pkg/hsrtct/damage.go:83-88).
- There is no damage-reduction stat among the 23 stats (pkg/hsrtct/stat.go:10-34), and the average damage is the product of exactly six factors (pkg/hsrtct/damage.go:35-46).
- Buffs are typed `DamageTag` in stat.go, but tags are declared as `AttackTag` in damage.go. Both are the one `AttackTag` datatype here.
- `Enemy` is not declared in the files modelled. Its fields `level`, `buffs` and `debuffs` are inferred from how damage.go uses them.

## Model

| member | source | states |
|---|---|---|
| Elements.Element.Name | pkg/hsrtct/element.go:3-14 | an element's name is empty exactly for the wildcard `AnyElement` |
| Elements.Element.Is | pkg/hsrtct/element.go:16-18 | two elements match when they are equal or either one is the wildcard; the lemmas below state its properties |
| Elements.IsByName | pkg/hsrtct/element.go:3-18 | matching is the source's comparison of name strings: equal names, or either name empty |
| Elements.NameInjective | pkg/hsrtct/element.go:5-14 | distinct elements have distinct names, so keying by name and by constructor agree |
| Elements.IsReflexive | pkg/hsrtct/element.go:16-18 | every element matches itself |
| Elements.IsSymmetric | pkg/hsrtct/element.go:16-18 | `a.Is(b)` equals `b.Is(a)` |
| Elements.AnyElementMatchesAll | pkg/hsrtct/element.go:6-18 | the wildcard matches every element, itself included, from either side |
| Elements.ConcreteElementsMatchOnlyThemselves | pkg/hsrtct/element.go:16-18 | two non-wildcard elements match if and only if they are equal |
| Elements.IsNotTransitive | pkg/hsrtct/element.go:16-18 | Fire matches the wildcard, the wildcard matches Ice, but Fire does not match Ice |
| AttackTags.AttackTag.Name | pkg/hsrtct/damage.go:11-20 | a tag's name is empty exactly for the wildcard `AnyAttack` |
| AttackTags.AttackTag.Is | pkg/hsrtct/damage.go:22-24 | two tags match when they are equal or either one is the wildcard; the lemmas below state its properties |
| AttackTags.IsByName | pkg/hsrtct/damage.go:11-24 | matching is the source's comparison of name strings: equal names, or either name empty |
| AttackTags.NameInjective | pkg/hsrtct/damage.go:13-20 | distinct tags have distinct names |
| AttackTags.IsReflexive | pkg/hsrtct/damage.go:22-24 | every tag matches itself |
| AttackTags.IsSymmetric | pkg/hsrtct/damage.go:22-24 | tag matching is symmetric |
| AttackTags.AnyAttackMatchesAll | pkg/hsrtct/damage.go:14-24 | the wildcard tag matches every tag from either side |
| AttackTags.ConcreteTagsMatchOnlyThemselves | pkg/hsrtct/damage.go:22-24 | two non-wildcard tags match if and only if they are equal |
| Text.IndexFrom | pkg/hsrtct/stat.go:54 | the result is -1 or an occurrence at or after the start, and no occurrence lies between the start and the result |
| Text.ReplaceFirst | pkg/hsrtct/stat.go:54 | replacing with a count of one: without an occurrence the string is returned as it is; otherwise the text before the first occurrence, then the replacement, then the text after the occurrence |
| Text.ReplaceFirstAbsent | pkg/hsrtct/stat.go:54 | replacing a pattern that does not occur leaves the string as it is |
| Text.ReplaceFirstAt | pkg/hsrtct/stat.go:54 | only the first occurrence is replaced; the text before it and after it, later occurrences included, is kept |
| Stats.Stat.Name | pkg/hsrtct/stat.go:11-33 | each stat's string value, spelled as the source's constant; `PrettyStat` and `BuffString` render it, and Stats.PercentTwinName relates the paired names |
| Stats.Buff.Applies | pkg/hsrtct/character.go:53-55 | a buff applies to a query when its tag filter matches the query's tag and its element filter matches the query's element, wildcards included |
| Stats.StatKeys | pkg/hsrtct/stat.go:36-44 | 23 keys; the key at index i is the i-th declared stat, and every stat sits at its declaration index |
| Stats.StatKeysDistinct | pkg/hsrtct/stat.go:36-44 | no stat appears twice among the keys |
| Stats.PercentTwinName | pkg/hsrtct/stat.go:11-18 | the percent twin of Hp, Atk, Def or Spd is named after it with "Pct" appended |
| Stats.PrettyStat | pkg/hsrtct/stat.go:54 | the display name: the first "Pct" of the stat's name becomes "%"; the next three rows state what that gives for each stat |
| Stats.PrettyPercentStat | pkg/hsrtct/stat.go:54 | a percent twin is displayed as its flat stat's name followed by "%" |
| Stats.PrettyOtherStat | pkg/hsrtct/stat.go:54 | every other stat is displayed under its own name; "ResPen" is unchanged although it holds a "P" |
| Stats.PrettyStatWithoutParens | pkg/hsrtct/stat.go:54 | no stat's display name holds "(" |
| Stats.ValueSuffix | pkg/hsrtct/stat.go:55-58 | the value suffix is empty exactly for Hp, Atk, Def, Spd and Aggro, and "%" otherwise |
| Stats.FilterText | pkg/hsrtct/stat.go:61-67 | a filter's text is empty exactly when its name is empty |
| Stats.BuffString | pkg/hsrtct/stat.go:53-70 | the rendering starts with the rendered value and is longer than the value and the display name together; the next two rows give its layout |
| Stats.BuffStringValueSuffix | pkg/hsrtct/stat.go:55-59 | the rendered buff starts with the rendered value, and the next character is "%" exactly when the stat is not Hp, Atk, Def, Spd or Aggro |
| Stats.BuffStringFilters | pkg/hsrtct/stat.go:61-69 | after the value, one "(" per non-wildcard filter; "(tag)" comes before "(element)"; with two wildcards there are no parentheses |
| Relics.Lookup | pkg/hsrtct/relics.go:33 | a missing key reads as zero, as a Go map lookup does |
| Relics.UnitRoll | pkg/hsrtct/relics.go:67-75 | the per-roll value is never negative, and is zero for an unknown roll type or a stat the roll tables lack |
| Relics.RollTablesOrdered | pkg/hsrtct/relics.go:107-153 | for every stat that rolls, 0 < minimum roll < average roll < maximum roll |
| Relics.SubstatValue | pkg/hsrtct/relics.go:62-78 | as written: a filled cache is returned alone and unchanged; an empty cache is filled with the per-roll value, and that value times the number of rolls is returned |
| Relics.FirstValueCall | pkg/hsrtct/relics.go:62-77 | on an empty cache the result is the table value times the rolls, the cache then holds the table value, and nothing else changes |
| Relics.SubstatTablesKeys | pkg/hsrtct/relics.go:107-153 | the three roll tables cover the same twelve stats |
| Relics.UnrollableSubstatIsZero | pkg/hsrtct/relics.go:67-76 | an unknown roll type, or a stat absent from the roll tables, yields zero and leaves the cache empty |
| Relics.SecondValueCallDropsRolls | pkg/hsrtct/relics.go:62-78 | a second call on the same substat returns a different value whenever the roll is worth something and the roll count is not one |
| Relics.SecondValueCallExample | pkg/hsrtct/relics.go:62-78 | three average CritRate rolls give 8.76 on the first call and 2.92 on the second |
| Relics.CorrectedSubstatValue | pkg/hsrtct/relics.go:62-78 | corrected: every call returns the cached per-roll value times the rolls, and only the cache may change |
| Relics.CorrectedValueStable | pkg/hsrtct/relics.go:62-78 | with a consistent cache the corrected value is the table value times the rolls on every call; it keeps the cache consistent and agrees with the source on an empty cache |
| Relics.SubstatBuff | pkg/hsrtct/relics.go:55-60 | a substat's buff has the substat's stat and wildcard tag and element; its value is what `Value` returns as written: the table value times the rolls on an empty cache, and the cache alone otherwise |
| Relics.SubstatBuffsPointwise | pkg/hsrtct/relics.go:37-43 | the i-th substat buff is the buff of the i-th substat |
| Relics.MainStatBuff | pkg/hsrtct/relics.go:31-35 | the main stat at its table value with wildcard filters; Relics.RelicBuffsLayout states it |
| Relics.RelicBuffs | pkg/hsrtct/relics.go:28-46 | a relic gives one buff more than it has substats |
| Relics.RelicBuffsLayout | pkg/hsrtct/relics.go:28-46 | the main stat comes first at its table value, then each substat's buff in order, all with wildcard filters |
| Relics.MainStatTableKeys | pkg/hsrtct/relics.go:89-105 | SpdPct, Aggro, DefIgnore, DefShred, ElementalRes, ResShred, ResPen and Vulnerability have no main-stat value, so as main stats they give zero |
| Relics.RelicsBuffs | pkg/hsrtct/relics.go:12-14 | the relics' buffs concatenated in slot order; Relics.RelicsBuffsSlot and Relics.RelicsBuffsWildcard state its layout |
| Relics.RelicsBuffsWildcard | pkg/hsrtct/relics.go:12-14 | every buff derived from the relics has wildcard tag and element |
| Relics.RelicsBuffsSlot | pkg/hsrtct/relics.go:12-14 | slot k's buffs sit in order between the offsets of slots k and k + 1, and each slot adds one buff plus one per substat |
| Relics.BuildBuffs | pkg/hsrtct/relics.go:10-20 | a build's buff count is the relics' buffs plus the build's substats plus the set effects |
| Relics.BuildBuffsLayout | pkg/hsrtct/relics.go:10-20 | relic buffs first, then one buff per build substat, then the set effects verbatim; everything before the set effects has wildcard filters |
| Relics.BuildBuffsSlot | pkg/hsrtct/relics.go:10-20 | each of the six slots contributes its relic's buffs at its offsets, and the six slots account for every buff before the build's substats |
| BuffSums.SumMatchingWildcard | pkg/hsrtct/character.go:53-55 | a sum with wildcard tag and element counts every buff of the stat, whatever its filters |
| BuffSums.SumMatchingMonotone | pkg/hsrtct/damage.go:97-113 | with non-negative values a filtered sum is non-negative and never decreases as buffs are added |
| BuffSums.SumMatchingConcat | pkg/hsrtct/damage.go:97-113 | a filtered sum over a concatenation is the sum of the two parts |
| Characters.CopyInto | pkg/hsrtct/character.go:21-23 | copying writes the source at the offset and leaves the rest of the array as it was |
| Characters.AllBuffs | pkg/hsrtct/character.go:19-25 | all buffs are the character's own, then the light cone's, then the relic build's |
| Characters.BaseValue | pkg/hsrtct/character.go:29-48 | the base of a query: character plus light cone for Hp, Atk and Def, the character's own Spd and Aggro, 5 for CritRate, 50 for CritDmg, 100 for EnergyRegenerationRate, zero otherwise |
| Characters.StatContribution | pkg/hsrtct/character.go:57-85 | a buff that passed the filters adds nothing unless it has the queried stat or, for Hp, Atk, Def and Spd, the percent twin; with a non-negative value and base it never subtracts |
| Characters.FinalStat | pkg/hsrtct/character.go:28-89 | the final value as a recursive sum: the base plus the contribution of every buff that passes both filters; Characters.FinalStatValue is proved equal to it |
| Characters.FinalStatValue | pkg/hsrtct/character.go:28-89 | the loop returns the base value plus the contribution of every buff that passes both filters |
| Characters.FinalStatPaired | pkg/hsrtct/character.go:57-81 | for Hp, Atk, Def and Spd: base plus matching flat buffs plus the matching percent-twin sum as a percentage of the base, so percent buffs add and do not compound |
| Characters.FinalStatOther | pkg/hsrtct/character.go:82-85 | every other stat is its base plus the matching buffs of exactly that stat |
| Characters.FinalStatWildcard | pkg/hsrtct/character.go:50-87 | a wildcard query counts every buff of the stat whatever its filters, and for Hp, Atk, Def and Spd every buff of the percent twin as a percentage of the base |
| Characters.FinalStatWithoutContributingBuffs | pkg/hsrtct/character.go:28-89 | when no applicable buff has the queried stat or, for Hp, Atk, Def and Spd, its percent twin, the final value is the base value |
| Characters.SumContributionsPermutation | pkg/hsrtct/character.go:52-87 | two lists holding the same buffs the same number of times give the same sum |
| Characters.FinalStatReorderedBuffs | pkg/hsrtct/character.go:50-88 | reordering the character's buffs never changes a final value |
| Characters.FinalStatAddedBuff | pkg/hsrtct/character.go:52-87 | one more buff adds exactly its contribution, which is zero when it does not apply |
| Characters.AllBuffsAddedBuff | pkg/hsrtct/character.go:19-25 | one more character buff adds its value to every filtered sum over all buffs that it matches |
| Damage.CalcBaseDamage | pkg/hsrtct/damage.go:68-81 | fails with `ErrInvalidScalingStat` and zero exactly when the scaling stat is not Hp, Atk or Def; otherwise the final scaling stat times the multiplier over 100 |
| Damage.BaseDamageLinear | pkg/hsrtct/damage.go:71-76 | base damage scales linearly with the multiplier |
| Damage.CalcAvgCritMultiplier | pkg/hsrtct/damage.go:83-88 | one plus the crit rate, capped at 100, times the crit damage, both in percent; the next three rows state its bounds |
| Damage.CritRateCapped | pkg/hsrtct/damage.go:83-88 | from a crit rate of 100 on, the multiplier is exactly one plus the crit damage over 100 |
| Damage.CritMultiplierBounds | pkg/hsrtct/damage.go:83-88 | with crit rate in [0, 100] and non-negative crit damage, the multiplier lies between 1 and 1 + crit damage / 100 |
| Damage.CritMultiplierWithoutBuffs | pkg/hsrtct/damage.go:83-88 | with no applicable CritRate or CritDmg buff, the base values 5 and 50 give a multiplier of 1.025 |
| Damage.CalcDmgBonusMult | pkg/hsrtct/damage.go:90-92 | one plus the final DmgBonus for the attack's tag and element over 100 |
| Damage.DmgBonusMultSum | pkg/hsrtct/damage.go:90-92 | the multiplier is one plus the matching DmgBonus buffs over 100 |
| Damage.ResistanceMultiplier | pkg/hsrtct/damage.go:94-116 | one less the effective resistance over 100; Damage.CalcResistanceMultiplier is proved equal to it |
| Damage.SumMatchingBuffs | pkg/hsrtct/damage.go:97-101 | one filtered pass returns the sum of the values of the buffs with the stat that match tag and element |
| Damage.CalcResistanceMultiplier | pkg/hsrtct/damage.go:94-116 | one less (matching enemy ElementalRes, less matching ResShred debuffs, less matching ResPen among all buffs) over 100 |
| Damage.ResistanceMultiplierNeutral | pkg/hsrtct/damage.go:94-116 | with no matching resistance, shred or penetration the multiplier is exactly one |
| Damage.ResPenRaisesResistanceMultiplier | pkg/hsrtct/damage.go:109-115 | a ResPen buff on the character raises the multiplier by its value over 100 when it matches, and by nothing otherwise |
| Damage.ClampedDef | pkg/hsrtct/damage.go:145-146 | the clamped defense is never negative |
| Damage.SumEnemyDef | pkg/hsrtct/damage.go:124-131 | the first pass sums the enemy's Def and DefPct buffs whatever their filters |
| Damage.SumDefReduction | pkg/hsrtct/damage.go:133-143 | the reduction is the matching DefShred debuffs plus the matching DefIgnore among all buffs |
| Damage.DefenseMultiplier | pkg/hsrtct/damage.go:118-149 | one less the clamped defense over that defense plus 200 plus 10 per attacker level; Damage.CalcDefenseMultiplier is proved equal to it |
| Damage.CalcDefenseMultiplier | pkg/hsrtct/damage.go:118-149 | the result is one less the enemy's clamped defense over that defense plus 200 plus 10 per attacker level |
| Damage.DefenseMultiplierRange | pkg/hsrtct/damage.go:145-148 | when 200 + 10 * level > 0, the multiplier lies in (0, 1] and is one exactly when the enemy's defense is zero |
| Damage.DefenseFactorRange | pkg/hsrtct/damage.go:148 | for defense t >= 0 and level term k > 0, 1 - t/(t + k) lies in (0, 1] and is one exactly when t is zero |
| Damage.DefShredAddsReduction | pkg/hsrtct/damage.go:133-137 | a DefShred debuff adds its value to the reduction when it matches, and nothing otherwise |
| Damage.DefShredLowersTotalDef | pkg/hsrtct/damage.go:133-146 | a non-negative DefShred debuff never raises the enemy's defense while its base defense is non-negative |
| Damage.DefShredRaisesDefenseMultiplier | pkg/hsrtct/damage.go:133-148 | a non-negative DefShred debuff never lowers the defense multiplier |
| Damage.VulnerabilityMultiplier | pkg/hsrtct/damage.go:151-159 | one plus the matching Vulnerability debuffs over 100; Damage.CalcVulnerabilityMultiplier is proved equal to it |
| Damage.CalcVulnerabilityMultiplier | pkg/hsrtct/damage.go:151-159 | one plus the matching Vulnerability debuffs on the enemy over 100 |
| Damage.VulnerabilityDebuffAdds | pkg/hsrtct/damage.go:151-159 | a Vulnerability debuff raises the multiplier by its value over 100 when it matches, and by nothing otherwise |
| Damage.CalcAvgDamage | pkg/hsrtct/damage.go:35-46 | fails exactly when the base damage fails, with the same error and value zero |
| Damage.AvgDamageFails | pkg/hsrtct/damage.go:35-46 | average damage fails exactly for a scaling stat other than Hp, Atk and Def, and then returns zero and `ErrInvalidScalingStat` |
| Damage.AvgDamageZeroMultiplier | pkg/hsrtct/damage.go:35-46 | an attack with a zero multiplier does zero damage |
| Damage.ExplainText | pkg/hsrtct/damage.go:58-65 | an explanation starts with "Base Damage: " |
| Damage.ExplainDamage | pkg/hsrtct/damage.go:48-66 | fails exactly when average damage fails, with the same error and the empty text |
| Damage.ExplainTextLines | pkg/hsrtct/damage.go:58-65 | when rendered numbers hold no newline, an explanation has exactly six lines |
| Sheets.Letter | cmd/hsrtctsheets/main.go:141 | a base-26 digit becomes a letter from 'A' to 'Z' |
| Sheets.ColumnLetters | cmd/hsrtctsheets/main.go:138-143 | the letters are empty exactly when the one-based column is not positive |
| Sheets.Coordinate | cmd/hsrtctsheets/main.go:136-145 | the column letters of col + 1 followed by `%d` of row + 1; Sheets.CoordinateShape and Sheets.CoordinateInjective state its properties |
| Sheets.SpreadsheetCoordinate | cmd/hsrtctsheets/main.go:136-145 | the loop returns the bijective base-26 letters of col + 1 followed by the decimal form of row + 1 |
| Sheets.ColumnNumberOfLetters | cmd/hsrtctsheets/main.go:138-143 | the column letters are letters, and reading them back with 'A' = 1 to 'Z' = 26 gives col + 1 |
| Sheets.LettersOfColumnNumber | cmd/hsrtctsheets/main.go:138-143 | every run of letters is the column letters of the number it spells, so the notation is a bijection |
| Sheets.ColumnWidth | cmd/hsrtctsheets/main.go:139-143 | one letter for col < 26, two letters for 26 <= col < 702 |
| Sheets.DecimalValueOfDigits | cmd/hsrtctsheets/main.go:144 | the row digits are digits, and reading them back gives the number |
| Sheets.CoordinateShape | cmd/hsrtctsheets/main.go:136-145 | a coordinate is a non-empty run of letters spelling col + 1, followed by digits spelling row + 1 |
| Sheets.CoordinateInjective | cmd/hsrtctsheets/main.go:136-145 | distinct non-negative (row, col) cells have distinct coordinates |
| Sheets.ColumnExamples | cmd/hsrtctsheets/main.go:138-143 | columns 0, 25, 26, 27, 701 and 702 are A, Z, AA, AB, ZZ and AAA |
| Sheets.CoordinateExamples | cmd/hsrtctsheets/main.go:136-145 | (0, 0) is "A1" and (9, 27) is "AB10" |

## Left out

- Floating point: `float64` is `real`. Rounding, NaN and infinities are not modelled.
  - Go divides by a zero defense denominator into NaN or an infinity. `DefenseMultiplier` and `CalcDefenseMultiplier` require that denominator to be non-zero.
  - `CalcAvgDamage` and `ExplainDamage` require it too, but only when the base damage succeeds, which is when the source reaches that division.
- Number formatting: `%.1f` in `Buff.String` and `%v` in `ExplainDamage` are a `render` parameter. The model does not fix the digits they print.
- Integer width: levels, roll counts, rows and columns are unbounded integers. Go's `int` overflow is not modelled.
- Damage.CalcResistanceMultiplier: the source subtracts each shred and penetration value from the running total one at a time. The method subtracts each pass's sum once. Over reals the two are equal.
- Damage.CalcAvgDamage: the success case is the product of the six factors, which is its body. No separate lemma restates it. For the resistance, defense and vulnerability factors it uses the specification functions that the loop methods are proved equal to.
- Characters.FinalStatValue: the per-stat `switch` inside the loop is the function `StatContribution`. The loop calls it rather than repeating the four paired cases inline.
- The IDs and names of characters and light cones are dropped, because no calculation reads them. The relic build's `id`, a relic's `setName` and the attack's `id` are kept but unused. `Attack.buffs` is kept but unused, as in the source.
- Stats, elements and attack tags are closed datatypes with one constructor per constant of the source. In Go they are string types (pkg/hsrtct/stat.go:8, pkg/hsrtct/element.go:3, pkg/hsrtct/damage.go:11), and cmd/hsrtctsheets/read.go converts arbitrary cell text into them: stats at lines 82-96, 155 and 231, elements at lines 56, 158 and 233, and tags at lines 159 and 232. A name outside the constants, which the source would carry through unmatched, cannot be represented. Roll types keep such names as `UnknownRollType`.
- The scenario, area-of-effect and splash logic that the tests refer to is not part of this model, because the files modelled do not define it. So are the persistence, web server, spreadsheet reading and command-line layers.
- `RelicBuild.AsBuffs` and `Relic.AsBuffs` loop over copies of the substats, so they never change the build. As functions on values they cannot change it, and no separate lemma states it.

## Findings

| source | as written | input that shows it | evidently intended | confidence | as-written member | corrected member |
|---|---|---|---|---|---|---|
| pkg/hsrtct/relics.go:62-78 | `Value` returns a non-zero cache as it is. On an empty cache it stores the per-roll value but returns that value times `Rolls`, so a second call on the same substat returns the per-roll value alone. | `RelicSubstat{Stat: CritRate, Rolls: 3, RollType: RollTypeAvg}`: the first call gives 8.76, the second 2.92 | every call returns the per-roll value times `Rolls` | high (not executed); latent in the code shown, because every call (relics.go:13, 16, 37-40) is on a range copy whose cache is empty, so the model's buffs use `Value` as written | Relics.SubstatValue, Relics.SecondValueCallDropsRolls, Relics.SecondValueCallExample | Relics.CorrectedSubstatValue, Relics.CorrectedValueStable |
