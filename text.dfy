/** String helpers: Go's strings.Replace with a count of 1, and character
    counting used to state facts about rendered text. */
module Text {

  /** `pat` occurs in `s` at index `i`. */
  predicate OccursAt(s: string, pat: string, i: int) {
    0 <= i && i + |pat| <= |s| && s[i..i + |pat|] == pat
  }

  /** Index of the first occurrence of `pat` in `s` at or after `from`, or
      -1 when there is none (Go's strings.Index when `from` is 0). */
  function IndexFrom(s: string, pat: string, from: nat): (r: int)
    ensures r == -1 || (from <= r && OccursAt(s, pat, r))
    ensures forall j :: from <= j && (r == -1 || j < r) ==> !OccursAt(s, pat, j)
    decreases |s| - from
  {
    if from + |pat| > |s| then -1
    else if OccursAt(s, pat, from) then from
    else IndexFrom(s, pat, from + 1)
  }

  /** Replace the first occurrence of `pat` in `s` by `rep`: Go's
      strings.Replace with a count of 1, which splices `rep` in at the index
      of the first match (an empty pattern matches at the start). */
  function ReplaceFirst(s: string, pat: string, rep: string): (r: string)
    ensures IndexFrom(s, pat, 0) < 0 ==> r == s
    ensures var i := IndexFrom(s, pat, 0);
      i >= 0 ==> |r| == |s| - |pat| + |rep| && r[..i] == s[..i] && r[i..i + |rep|] == rep && r[i + |rep|..] == s[i + |pat|..]
  {
    var i := IndexFrom(s, pat, 0);
    if i < 0 then s else s[..i] + rep + s[i + |pat|..]
  }

  /** Without an occurrence of `pat`, nothing is replaced. */
  lemma ReplaceFirstAbsent(s: string, pat: string, rep: string)
    requires forall i :: !OccursAt(s, pat, i)
    ensures ReplaceFirst(s, pat, rep) == s
  {
  }

  /** Only the first occurrence, at `i`, is replaced; the text before it and
      everything after it are kept, later occurrences included. */
  lemma ReplaceFirstAt(s: string, pat: string, rep: string, i: int)
    requires OccursAt(s, pat, i)
    requires forall j :: 0 <= j < i ==> !OccursAt(s, pat, j)
    ensures ReplaceFirst(s, pat, rep) == s[..i] + rep + s[i + |pat|..]
  {
    var r := IndexFrom(s, pat, 0);
    assert r == i;
  }

  /** A string in which the first character of `pat` never appears holds no
      occurrence of `pat`. */
  lemma NoOccurrenceWithoutLead(n: string, pat: string)
    requires |pat| > 0 && pat[0] !in n
    ensures forall i :: !OccursAt(n, pat, i)
  {
    forall i ensures !OccursAt(n, pat, i) {
      if 0 <= i && i + |pat| <= |n| { assert n[i..i + |pat|][0] == n[i]; }
    }
  }

  /** Number of occurrences of `c` in `s`. */
  function CountChar(s: string, c: char): nat {
    if s == [] then 0 else CountChar(s[1..], c) + (if s[0] == c then 1 else 0)
  }

  lemma CountCharAppend(a: string, b: string, c: char)
    ensures CountChar(a + b, c) == CountChar(a, c) + CountChar(b, c)
  {
    if a == [] {
      assert a + b == b;
    } else {
      assert (a + b)[1..] == a[1..] + b;
      CountCharAppend(a[1..], b, c);
    }
  }

  /** `t` is a suffix of `s`. */
  predicate EndsWith(s: string, t: string) {
    |t| <= |s| && s[|s| - |t|..] == t
  }

  lemma NoOccurrenceCount(s: string, c: char)
    requires c !in s
    ensures CountChar(s, c) == 0
  {
    if s != [] { NoOccurrenceCount(s[1..], c); }
  }
}
