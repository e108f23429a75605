/**
 * The `font-family` stripper shared by the reader's HTML loader: the
 * substitution of every match of the pattern
 *   (?<=;|"|\s)font-family[^;]*(;)?
 * by the empty string. A match starts at an occurrence of `font-family`
 * whose preceding character in the ORIGINAL string is `;`, `"` or white
 * space, and runs to and including the next `;`, or to the end of the string
 * when none follows. The substitution scans left to right and resumes after
 * each match.
 *
 * `Scan` is that left-to-right scan; `KeptFrom` is an independent, declarative
 * reference (keep exactly the characters that lie in no match span), and
 * `ScanMatchesReference` proves the two agree.
 */
module FontFamily {

  const Needle: string := "font-family"

  /** Python's `str.isspace`, which is what `\s` matches in a `str` pattern. */
  predicate IsSpace(c: char) {
    || c == '\t' || c == '\n' || c == '\U{0B}' || c == '\U{0C}' || c == '\r'
    || ('\U{1C}' <= c <= '\U{1F}') || c == ' ' || c == '\U{85}' || c == '\U{A0}'
    || c == '\U{1680}' || ('\U{2000}' <= c <= '\U{200A}') || c == '\U{2028}' || c == '\U{2029}'
    || c == '\U{202F}' || c == '\U{205F}' || c == '\U{3000}'
  }

  /**
   * The one-character lookbehind `(?<=;|"|\s)`. None of its characters
   * occurs in `font-family`, so a match never starts inside another one.
   */
  predicate Lookbehind(c: char) {
    c == ';' || c == '"' || IsSpace(c)
  }

  /** `font-family` occurs at index `m` of `s`. */
  predicate NeedleAt(s: string, m: nat) {
    m + |Needle| <= |s| && s[m..m + |Needle|] == Needle
  }

  /** A match of the whole pattern starts at index `i`; the lookbehind fails at the start of the string. */
  predicate MatchAt(s: string, i: nat) {
    0 < i && NeedleAt(s, i) && Lookbehind(s[i - 1])
  }

  /** The index of the first `;` at or after `j`, or `|s|` when there is none. */
  function NextSemi(s: string, j: nat): (k: nat)
    requires j <= |s|
    ensures j <= k <= |s|
    ensures k < |s| ==> s[k] == ';'
    ensures forall t :: j <= t < k ==> s[t] != ';'
    decreases |s| - j
  {
    if j == |s| then |s|
    else if s[j] == ';' then j
    else NextSemi(s, j + 1)
  }

  /**
   * Where the match starting at `i` ends (exclusive): `[^;]*` is greedy and
   * `(;)?` takes the `;` if there is one, so the match ends just after the
   * first `;` past the needle, or at the end of the string.
   */
  function MatchEnd(s: string, i: nat): (e: nat)
    requires MatchAt(s, i)
    ensures i + |Needle| <= e <= |s|
    ensures e < |s| ==> i + |Needle| < e && s[e - 1] == ';'
  {
    var k := NextSemi(s, i + |Needle|);
    if k < |s| then k + 1 else |s|
  }

  /**
   * The `;` a match consumes is the first one after the needle: no `;` lies
   * between the needle and the end of the match, and a match that runs to the
   * end of the string met none before its last character.
   */
  lemma MatchEndIsFirstSemicolon(s: string, i: nat)
    requires MatchAt(s, i)
    ensures var e := MatchEnd(s, i);
      && (forall t :: i + |Needle| <= t < e - 1 ==> s[t] != ';')
      && ((forall t :: i + |Needle| <= t < |s| ==> s[t] != ';') ==> e == |s|)
  {
  }

  /** The substitution, scanning the original string from index `i`. */
  function Scan(s: string, i: nat): (r: string)
    requires i <= |s|
    ensures |r| <= |s| - i
    decreases |s| - i
  {
    if i == |s| then ""
    else if MatchAt(s, i) then Scan(s, MatchEnd(s, i))
    else [s[i]] + Scan(s, i + 1)
  }

  /** Index `p` lies inside the span of some match that starts at or before it. */
  ghost predicate Removed(s: string, p: nat) {
    exists m: nat :: m <= p && MatchAt(s, m) && p < MatchEnd(s, m)
  }

  /** The reference: the characters of `s[i..]` that lie in no match span, in their original order. */
  ghost function KeptFrom(s: string, i: nat): string
    requires i <= |s|
    decreases |s| - i
  {
    if i == |s| then ""
    else (if Removed(s, i) then "" else [s[i]]) + KeptFrom(s, i + 1)
  }

  /** No match that starts before `i` reaches past `i`. */
  ghost predicate Boundary(s: string, i: nat) {
    forall m: nat :: m < i && MatchAt(s, m) ==> MatchEnd(s, m) <= i
  }

  /** `NextSemi` is the only index with its three properties. */
  lemma NextSemiUnique(s: string, j: nat, k: nat)
    requires j <= k <= |s|
    requires k < |s| ==> s[k] == ';'
    requires forall t :: j <= t < k ==> s[t] != ';'
    ensures NextSemi(s, j) == k
  {
  }

  /** No character of `font-family` can serve as the lookbehind. */
  lemma NeedleCharsAreNotLookbehind(s: string, m: nat, p: nat)
    requires NeedleAt(s, m)
    requires m <= p < m + |Needle|
    ensures !Lookbehind(s[p]) && s[p] != ';'
  {
    assert s[p] == s[m..m + |Needle|][p - m] == Needle[p - m];
  }

  /**
   * A match that starts inside the span of an earlier one ends where that
   * span ends, so the declarative reference and the scan carve out the same
   * spans.
   */
  lemma NestedMatchEnd(s: string, m0: nat, m: nat)
    requires MatchAt(s, m0) && MatchAt(s, m)
    requires m0 < m < MatchEnd(s, m0)
    ensures MatchEnd(s, m) == MatchEnd(s, m0)
  {
    if m < m0 + |Needle| {
      NeedleCharsAreNotLookbehind(s, m0, m - 1);
      assert false;
    }
    var q := NextSemi(s, m0 + |Needle|);
    if q < m + |Needle| {
      NeedleCharsAreNotLookbehind(s, m, q);
      assert false;
    }
    NextSemiUnique(s, m + |Needle|, q);
  }

  /** The reference keeps nothing of a match's span, from any point inside it on. */
  lemma {:induction false} SkipSpan(s: string, p: nat, e: nat)
    requires p <= e <= |s|
    requires forall t :: p <= t < e ==> Removed(s, t)
    ensures KeptFrom(s, p) == KeptFrom(s, e)
    decreases e - p
  {
    if p < e {
      RemovedDropped(s, p);
      SkipSpan(s, p + 1, e);
    }
  }

  lemma RemovedDropped(s: string, i: nat)
    requires i < |s| && Removed(s, i)
    ensures KeptFrom(s, i) == KeptFrom(s, i + 1)
  {
  }

  /** Every character of a match span is removed. */
  lemma SpanRemoved(s: string, m: nat)
    requires MatchAt(s, m)
    ensures forall t :: m <= t < MatchEnd(s, m) ==> Removed(s, t)
  {
    forall t | m <= t < MatchEnd(s, m)
      ensures Removed(s, t)
    {
      assert m <= t && MatchAt(s, m) && t < MatchEnd(s, m);
    }
  }

  /** From a boundary, the scan keeps exactly the characters the reference keeps. */
  lemma {:induction false} ScanMatchesReference(s: string, i: nat)
    requires i <= |s|
    requires Boundary(s, i)
    ensures Scan(s, i) == KeptFrom(s, i)
    decreases |s| - i
  {
    if i == |s| {
    } else if MatchAt(s, i) {
      var e := MatchEnd(s, i);
      SpanRemoved(s, i);
      SkipSpan(s, i, e);
      forall m: nat | m < e && MatchAt(s, m)
        ensures MatchEnd(s, m) <= e
      {
        if i < m {
          NestedMatchEnd(s, i, m);
        }
      }
      ScanMatchesReference(s, e);
    } else {
      assert !Removed(s, i);
      assert Boundary(s, i + 1);
      ScanMatchesReference(s, i + 1);
    }
  }

  /** Without any match, the reference keeps every character. */
  lemma {:induction false} NoMatchKeepsAll(s: string, i: nat)
    requires i <= |s|
    requires forall m: nat :: m <= |s| ==> !MatchAt(s, m)
    ensures KeptFrom(s, i) == s[i..]
    decreases |s| - i
  {
    if i < |s| {
      assert !Removed(s, i);
      NoMatchKeepsAll(s, i + 1);
      assert s[i..] == [s[i]] + s[i + 1..];
    }
  }

  /** A string without `font-family` is left as it is. */
  lemma NoNeedleUnchanged(s: string)
    ensures (forall m: nat :: m <= |s| ==> !NeedleAt(s, m)) ==> KeptFrom(s, 0) == s
  {
    if forall m: nat :: m <= |s| ==> !NeedleAt(s, m) {
      NoMatchKeepsAll(s, 0);
    }
  }

  /** Where no match starts, the scan keeps the character and moves on. */
  lemma ScanKeeps(s: string, i: nat)
    requires i < |s| && !MatchAt(s, i)
    ensures Scan(s, i) == [s[i]] + Scan(s, i + 1)
  {
  }

  /** Over a stretch where no match starts, the scan copies the text as it is. */
  lemma {:induction false} CopiedRun(s: string, i: nat, j: nat)
    requires i <= j <= |s|
    requires forall p :: i <= p < j ==> !MatchAt(s, p)
    ensures Scan(s, i) == s[i..j] + Scan(s, j)
    decreases j - i
  {
    if i < j {
      CopiedRun(s, i + 1, j);
      CopiedRunStep(s, i, j);
    }
  }

  lemma CopiedRunStep(s: string, i: nat, j: nat)
    requires i < j <= |s| && !MatchAt(s, i)
    requires Scan(s, i + 1) == s[i + 1..j] + Scan(s, j)
    ensures Scan(s, i) == s[i..j] + Scan(s, j)
  {
    ScanKeeps(s, i);
    var head, mid, rest := [s[i]], s[i + 1..j], Scan(s, j);
    assert s[i..j] == head + mid;
    ConcatAssoc(head, mid, rest);
  }

  lemma ConcatAssoc(a: string, b: string, c: string)
    ensures a + (b + c) == (a + b) + c
  {
  }

  /**
   * A `font-family` at the start of the string, or after a character other
   * than `;`, `"` and white space, is copied whole once the scan reaches it.
   */
  lemma UnmatchedNeedleKept(s: string, m: nat)
    requires NeedleAt(s, m)
    requires m == 0 || !Lookbehind(s[m - 1])
    ensures Scan(s, m) == Needle + Scan(s, m + |Needle|)
  {
    forall p | m <= p < m + |Needle|
      ensures !MatchAt(s, p)
    {
      if m < p {
        NeedleCharsAreNotLookbehind(s, m, p - 1);
      }
    }
    CopiedRun(s, m, m + |Needle|);
  }

  lemma NeedleStartsWithF(s: string, m: nat)
    requires NeedleAt(s, m)
    ensures s[m] == 'f'
  {
    assert s[m] == s[m..m + |Needle|][0];
  }

  /** Where no `f` occurs no match can start, so the scan copies straight through. */
  lemma CopiedWithoutF(s: string, i: nat, j: nat)
    requires i <= j <= |s|
    requires 'f' !in s[i..j]
    ensures Scan(s, i) == s[i..j] + Scan(s, j)
  {
    forall p | i <= p < j
      ensures !MatchAt(s, p)
    {
      assert s[p] == s[i..j][p - i];
      if NeedleAt(s, p) {
        NeedleStartsWithF(s, p);
      }
    }
    CopiedRun(s, i, j);
  }

  /** A `font-family` right after a lookbehind character starts a match. */
  lemma MatchAfterLookbehind(pre: string, rest: string)
    requires |pre| > 0 && Lookbehind(pre[|pre| - 1])
    ensures MatchAt(pre + Needle + rest, |pre|)
  {
    var s := pre + Needle + rest;
    assert s[|pre|..|pre| + |Needle|] == Needle;
    assert s[|pre| - 1] == pre[|pre| - 1];
  }

  /**
   * A declaration after a lookbehind character, closed by `;`, is cut out
   * together with that `;`.
   */
  lemma RemovesClosedDeclaration(pre: string, decl: string, post: string)
    requires |pre| > 0 && Lookbehind(pre[|pre| - 1])
    requires 'f' !in pre && ';' !in decl && 'f' !in post
    ensures Scan(pre + Needle + decl + ";" + post, 0) == pre + post
  {
    var s := pre + Needle + decl + ";" + post;
    ClosedDeclarationLayout(s, pre, decl, post);
    ScanOfClosedMatch(s, pre, post, |pre| + |Needle| + |decl| + 1);
  }

  /** The scan of text without `f`, a match closed by the `;` at `k`, and text without `f`. */
  lemma ScanOfClosedMatch(s: string, pre: string, post: string, e: nat)
    requires MatchAt(s, |pre|) && MatchEnd(s, |pre|) == e
    requires s[..|pre|] == pre && s[e..] == post && 'f' !in pre && 'f' !in post
    ensures Scan(s, 0) == pre + post
  {
    assert s[0..|pre|] == s[..|pre|];
    CopiedWithoutF(s, 0, |pre|);
    CopiedToEnd(s, e);
  }

  /** Without an `f` in the rest of the string, the scan copies the rest. */
  lemma CopiedToEnd(s: string, i: nat)
    requires i <= |s| && 'f' !in s[i..]
    ensures Scan(s, i) == s[i..]
  {
    assert s[i..|s|] == s[i..];
    CopiedWithoutF(s, i, |s|);
    assert Scan(s, |s|) == "";
  }

  /** Where the pieces of a closed declaration lie in the whole string. */
  lemma ClosedDeclarationLayout(s: string, pre: string, decl: string, post: string)
    requires s == pre + Needle + decl + ";" + post
    requires |pre| > 0 && Lookbehind(pre[|pre| - 1]) && ';' !in decl
    ensures MatchAt(s, |pre|) && MatchEnd(s, |pre|) == |pre| + |Needle| + |decl| + 1
    ensures s[..|pre|] == pre && s[|pre| + |Needle| + |decl| + 1..] == post
  {
    var n := |pre|;
    assert s == pre + Needle + (decl + ";" + post);
    MatchAfterLookbehind(pre, decl + ";" + post);
    forall t | n + |Needle| <= t < n + |Needle| + |decl|
      ensures s[t] != ';'
    {
      assert s[t] == decl[t - n - |Needle|];
    }
    NextSemiUnique(s, n + |Needle|, n + |Needle| + |decl|);
  }

  /** A declaration after a lookbehind character with no `;` after it is cut out to the end. */
  lemma RemovesOpenDeclaration(pre: string, decl: string)
    requires |pre| > 0 && Lookbehind(pre[|pre| - 1])
    requires 'f' !in pre && ';' !in decl
    ensures Scan(pre + Needle + decl, 0) == pre
  {
    var s := pre + Needle + decl;
    OpenDeclarationPrefix(s, pre, decl);
    OpenDeclarationSpan(s, pre, decl);
  }

  lemma OpenDeclarationPrefix(s: string, pre: string, decl: string)
    requires s == pre + Needle + decl && 'f' !in pre
    ensures Scan(s, 0) == pre + Scan(s, |pre|)
  {
    assert s[..|pre|] == pre;
    CopiedWithoutF(s, 0, |pre|);
  }

  lemma OpenDeclarationSpan(s: string, pre: string, decl: string)
    requires s == pre + Needle + decl
    requires |pre| > 0 && Lookbehind(pre[|pre| - 1]) && ';' !in decl
    ensures Scan(s, |pre|) == ""
  {
    var n := |pre|;
    MatchAfterLookbehind(pre, decl);
    forall t | n + |Needle| <= t < |s|
      ensures s[t] != ';'
    {
      assert s[t] == decl[t - n - |Needle|];
    }
    NextSemiUnique(s, n + |Needle|, |s|);
  }
}
