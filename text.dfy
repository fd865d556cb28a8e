/**
  String comparisons used by the classifier and the backoff mapping.

  .NET's `StringComparison.OrdinalIgnoreCase` compares strings code unit by
  code unit after mapping each one to upper case; `ToLowerInvariant` maps each
  one to lower case. This module models both mappings on the ASCII letters
  only, which is where every pattern and keyword of the core lives.
 */
module Text {

  /** The upper-case mapping applied by an ordinal ignore-case comparison. */
  function FoldChar(c: char): char {
    if 'a' <= c <= 'z' then (c as int - 32) as char else c
  }

  /** The lower-case mapping applied by `ToLowerInvariant`. */
  function LowerChar(c: char): char {
    if 'A' <= c <= 'Z' then (c as int + 32) as char else c
  }

  function Fold(s: string): (r: string)
    ensures |r| == |s|
  {
    if s == [] then [] else [FoldChar(s[0])] + Fold(s[1..])
  }

  function ToLowerInvariant(s: string): (r: string)
    ensures |r| == |s|
  {
    if s == [] then [] else [LowerChar(s[0])] + ToLowerInvariant(s[1..])
  }

  lemma {:induction false} FoldAt(s: string, i: int)
    requires 0 <= i < |s|
    ensures Fold(s)[i] == FoldChar(s[i])
  {
    if i > 0 {
      FoldAt(s[1..], i - 1);
    }
  }

  lemma {:induction false} LowerAt(s: string, i: int)
    requires 0 <= i < |s|
    ensures ToLowerInvariant(s)[i] == LowerChar(s[i])
  {
    if i > 0 {
      LowerAt(s[1..], i - 1);
    }
  }

  lemma {:induction false} FoldConcat(a: string, b: string)
    ensures Fold(a + b) == Fold(a) + Fold(b)
  {
    if a == [] {
      assert a + b == b;
    } else {
      assert (a + b)[0] == a[0] && (a + b)[1..] == a[1..] + b;
      FoldConcat(a[1..], b);
    }
  }

  /** Two characters are equal ignoring case exactly when their lower-case forms are equal. */
  lemma FoldCharAgreesWithLowerChar(c: char, d: char)
    ensures FoldChar(c) == FoldChar(d) <==> LowerChar(c) == LowerChar(d)
  {
  }

  /** `string.Equals(a, b, StringComparison.OrdinalIgnoreCase)`. */
  predicate EqualsIgnoreCase(a: string, b: string) {
    Fold(a) == Fold(b)
  }

  /**
    Comparing after upper-casing and comparing after lower-casing decide the
    same equalities: the two spellings of a case-insensitive comparison in the
    two copies of the service agree.
   */
  lemma EqualsIgnoreCaseIffLowerEqual(a: string, b: string)
    ensures EqualsIgnoreCase(a, b) <==> ToLowerInvariant(a) == ToLowerInvariant(b)
  {
    if |a| == |b| {
      if Fold(a) == Fold(b) {
        forall i | 0 <= i < |a|
          ensures ToLowerInvariant(a)[i] == ToLowerInvariant(b)[i]
        {
          FoldAt(a, i);
          FoldAt(b, i);
          LowerAt(a, i);
          LowerAt(b, i);
          FoldCharAgreesWithLowerChar(a[i], b[i]);
        }
      }
      if ToLowerInvariant(a) == ToLowerInvariant(b) {
        forall i | 0 <= i < |a|
          ensures Fold(a)[i] == Fold(b)[i]
        {
          FoldAt(a, i);
          FoldAt(b, i);
          LowerAt(a, i);
          LowerAt(b, i);
          FoldCharAgreesWithLowerChar(a[i], b[i]);
        }
      }
    }
  }

  /** The pattern `p` occurs in `s` at position `i`, ignoring case. */
  predicate MatchesAt(s: string, p: string, i: int) {
    0 <= i && i + |p| <= |s| && Fold(s[i..i + |p|]) == Fold(p)
  }

  /** Search for a case-insensitive occurrence of `p` in `s` at position `i` or later. */
  function ContainsFrom(s: string, p: string, i: nat): (r: bool)
    decreases |s| - i
    ensures r <==> exists k :: i <= k && MatchesAt(s, p, k)
  {
    if i + |p| > |s| then false
    else if MatchesAt(s, p, i) then true
    else ContainsFrom(s, p, i + 1)
  }

  /** `s.Contains(p, StringComparison.OrdinalIgnoreCase)`. */
  function ContainsIgnoreCase(s: string, p: string): (r: bool)
    ensures r <==> exists k :: MatchesAt(s, p, k)
  {
    ContainsFrom(s, p, 0)
  }

  /** The `foreach` over a pattern array that returns as soon as one pattern occurs. */
  function ContainsAnyIgnoreCase(s: string, patterns: seq<string>): (r: bool)
    ensures r <==> exists j :: 0 <= j < |patterns| && ContainsIgnoreCase(s, patterns[j])
  {
    if patterns == [] then false
    else if ContainsIgnoreCase(s, patterns[0]) then true
    else ContainsAnyIgnoreCase(s, patterns[1..])
  }
  /** A pattern occurs in any text that has, somewhere, a piece equal to it ignoring case. */
  lemma OccursInside(a: string, m: string, b: string, p: string)
    requires Fold(m) == Fold(p)
    ensures ContainsIgnoreCase(a + m + b, p)
  {
    var s := a + m + b;
    assert |m| == |p|;
    assert s[|a|..|a| + |p|] == m;
    assert MatchesAt(s, p, |a|);
  }

  /**
    A pattern that holds a letter which the text holds in neither case does
    not occur in the text, ignoring case.
   */
  lemma AbsentLetterRulesOut(s: string, p: string, t: int, c: char)
    requires 0 <= t < |p| && p[t] == c && 'a' <= c <= 'z'
    requires forall i :: 0 <= i < |s| ==> s[i] != c && s[i] != FoldChar(c)
    ensures !ContainsIgnoreCase(s, p)
  {
    forall k | 0 <= k && k + |p| <= |s|
      ensures !MatchesAt(s, p, k)
    {
      FoldAt(s[k..k + |p|], t);
      FoldAt(p, t);
      assert s[k..k + |p|][t] == s[k + t];
      assert Fold(s[k..k + |p|])[t] != Fold(p)[t];
    }
  }
}
