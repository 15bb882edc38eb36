/**
 * The string operations the core relies on, written out: `indexOf`,
 * `includes`, `startsWith`, `endsWith`, `replace` with a string pattern,
 * the decimal printing of an index inside a template literal, and the
 * global regular-expression scans shared by the document lint and the
 * generated-output check.
 */
module Strings {
  import opened Wrappers

  /** `pat` occurs in `s` starting at position `k`. */
  predicate OccursAt(s: string, pat: string, k: nat) {
    k + |pat| <= |s| && s[k..k + |pat|] == pat
  }

  /** `s.indexOf(pat, from)`: the first occurrence of `pat` at or after `from`. */
  function IndexOfFrom(s: string, pat: string, from: nat): (r: Option<nat>)
    decreases |s| - from
    ensures r.Some? ==> from <= r.value && OccursAt(s, pat, r.value)
    ensures r.Some? ==> forall k :: from <= k < r.value ==> !OccursAt(s, pat, k)
    ensures r.None? ==> forall k :: from <= k ==> !OccursAt(s, pat, k)
  {
    if from + |pat| > |s| then None
    else if s[from..from + |pat|] == pat then Some(from)
    else IndexOfFrom(s, pat, from + 1)
  }

  /** `k` is the first occurrence of `pat` at or after `from`. */
  predicate FirstAt(s: string, pat: string, from: nat, k: nat) {
    from <= k && OccursAt(s, pat, k) && forall m :: from <= m < k ==> !OccursAt(s, pat, m)
  }

  /** The first occurrence is what `indexOf` finds. */
  lemma IndexOfFromFirst(s: string, pat: string, from: nat, k: nat)
    requires FirstAt(s, pat, from, k)
    ensures IndexOfFrom(s, pat, from) == Some(k)
  {
  }

  function IndexOf(s: string, pat: string): Option<nat> {
    IndexOfFrom(s, pat, 0)
  }

  /** `s.includes(pat)`. */
  predicate Contains(s: string, pat: string) {
    IndexOf(s, pat).Some?
  }

  /** `includes` holds exactly when the pattern occurs somewhere. */
  lemma ContainsIff(s: string, pat: string, k: nat)
    ensures OccursAt(s, pat, k) ==> Contains(s, pat)
    ensures Contains(s, pat) ==> OccursAt(s, pat, IndexOf(s, pat).value)
  {
  }

  /** `s.startsWith(p)`. */
  predicate StartsWith(s: string, p: string) {
    |p| <= |s| && s[..|p|] == p
  }

  /** `s.endsWith(p)`. */
  predicate EndsWith(s: string, p: string) {
    |p| <= |s| && s[|s| - |p|..] == p
  }

  /** `s.replace(pat, rep)` with a string pattern: only the first occurrence is replaced. */
  function ReplaceFirst(s: string, pat: string, rep: string): string {
    match IndexOf(s, pat)
    case None => s
    case Some(k) => s[..k] + rep + s[k + |pat|..]
  }

  function DigitChar(d: nat): (c: char)
    requires d < 10
    ensures '0' <= c <= '9'
  {
    "0123456789"[d]
  }

  /** The decimal text of a natural number, as `${index}` prints it. */
  function NatToString(n: nat): (r: string)
    decreases n
    ensures |r| > 0
    ensures forall i :: 0 <= i < |r| ==> '0' <= r[i] <= '9'
  {
    if n < 10 then [DigitChar(n)] else NatToString(n / 10) + [DigitChar(n % 10)]
  }

  /** A character of the regular-expression class `\w`. */
  predicate IsWordChar(c: char) {
    ('a' <= c <= 'z') || ('A' <= c <= 'Z') || ('0' <= c <= '9') || c == '_'
  }

  /** The text between an opening occurrence at `i` and a `]}` at `j` has the shape of a match. */
  lemma MatchShape(s: string, open: string, i: nat, j: nat)
    requires OccursAt(s, open, i) && OccursAt(s, "]}", j) && i + |open| <= j
    ensures MatchShaped(s[i..j + 2], open)
  {
    var m := s[i..j + 2];
    assert m[..|open|] == s[i..i + |open|];
    assert m[|m| - 2..] == s[j..j + 2];
  }

  /** The positions `start..end` of one match in the text. */
  datatype Span = Span(start: nat, end: nat)

  /** The next match at or after `from`: an occurrence of `open`, then the first `]}` after it. */
  function NextLiteral(s: string, open: string, from: nat): (r: Option<Span>)
    ensures r.Some? ==> from <= r.value.start <= r.value.end <= |s| && MatchShaped(s[r.value.start..r.value.end], open)
    ensures r.Some? ==> (FirstAt(s, open, from, r.value.start) && r.value.start + |open| + 2 <= r.value.end
      && FirstAt(s, "]}", r.value.start + |open|, r.value.end - 2))
  {
    match IndexOfFrom(s, open, from)
    case None => None
    case Some(i) =>
      match IndexOfFrom(s, "]}", i + |open|)
      case None => None
      case Some(j) =>
        MatchShape(s, open, i, j);
        Some(Span(i, j + 2))
  }

  /** No occurrence of `open` at or after `from` has a `]}` after it: nothing more matches. */
  ghost predicate NoLiteralFrom(s: string, open: string, from: nat) {
    forall i: nat, j: nat :: from <= i && OccursAt(s, open, i) && i + |open| <= j ==> !OccursAt(s, "]}", j)
  }
  /** There is no next match exactly when no opening is ever followed by `]}`. */
  lemma NextLiteralNoneIff(s: string, open: string, from: nat)
    ensures NextLiteral(s, open, from).None? <==> NoLiteralFrom(s, open, from)
  {
    match IndexOfFrom(s, open, from)
    case None =>
    case Some(i) =>
      match IndexOfFrom(s, "]}", i + |open|)
      case None =>
        forall i': nat, j: nat | from <= i' && OccursAt(s, open, i') && i' + |open| <= j
          ensures !OccursAt(s, "]}", j)
        {
          assert i <= i';
        }
      case Some(j) =>
        assert OccursAt(s, open, i) && OccursAt(s, "]}", j);
  }


  /** The scan from `from` finds nothing exactly when nothing more matches. */
  lemma LiteralMatchesEmptyIff(s: string, open: string, from: nat)
    ensures LiteralMatchesFrom(s, open, from) == [] <==> NoLiteralFrom(s, open, from)
  {
    NextLiteralNoneIff(s, open, from);
  }

  /**
   * All matches, left to right and without overlap, of the global pattern
   * `open[\s\S]*?\]\}` where `open` is a literal ending in `[`: the pattern
   * behind `/data=\{(\[[\s\S]*?\])\}/g` and `/metrics=\{(\[[\s\S]*?\])\}/g`.
   * A match starts at an occurrence of `open` and stops at the first `]}`
   * after it; once an occurrence of `open` has no `]}` after it, no later
   * one has either, so scanning stops.
   */
  function LiteralMatchesFrom(s: string, open: string, from: nat): (ms: seq<string>)
    decreases |s| - from
    ensures forall k :: 0 <= k < |ms| ==> MatchShaped(ms[k], open)
  {
    match NextLiteral(s, open, from)
    case None => []
    case Some(sp) => [s[sp.start..sp.end]] + LiteralMatchesFrom(s, open, sp.end)
  }

  /** The shape of one match of `open[\s\S]*?\]\}`: the opening literal, then a `]}` that does not overlap it. */
  predicate MatchShaped(m: string, open: string) {
    StartsWith(m, open) && EndsWith(m, "]}") && |open| + 2 <= |m|
  }

  /** One step of the scan: the next match, then the scan after it. */
  lemma LiteralMatchesStep(s: string, open: string, from: nat, i: nat, j: nat)
    requires NextLiteral(s, open, from) == Some(Span(i, j))
    ensures LiteralMatchesFrom(s, open, from) == [s[i..j]] + LiteralMatchesFrom(s, open, j)
  {
  }

  function LiteralMatches(s: string, open: string): seq<string> {
    LiteralMatchesFrom(s, open, 0)
  }
}
