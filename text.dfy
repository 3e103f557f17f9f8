/**
 * String operations the core takes from the JavaScript host: `indexOf` with a
 * string argument and `String.prototype.replace` with a string pattern, which
 * replaces the first occurrence only.
 */
module Text {
  import opened Wrappers

  /** `pat` occurs in `s` starting at index `i`. */
  predicate OccursAt(s: string, pat: string, i: nat) {
    i + |pat| <= |s| && s[i..i + |pat|] == pat
  }

  /** `k` is the least index at which `pat` occurs in `s`. */
  predicate IsFirstOccurrence(s: string, pat: string, k: nat) {
    OccursAt(s, pat, k) && forall i: nat :: i < k ==> !OccursAt(s, pat, i)
  }

  /** `pat` occurs nowhere in `s`. */
  ghost predicate Absent(s: string, pat: string) {
    forall i: nat :: !OccursAt(s, pat, i)
  }

  /** `s.indexOf(pat)`, with `None` for JavaScript's -1. The empty pattern is found at 0. */
  function IndexOf(s: string, pat: string): (r: Option<nat>)
    ensures r.Some? ==> OccursAt(s, pat, r.value)
    decreases |s|
  {
    if |s| < |pat| then None
    else if s[..|pat|] == pat then Some(0)
    else
      match IndexOf(s[1..], pat)
      case None => None
      case Some(k) =>
        assert s[1..][k..k + |pat|] == s[k + 1..k + 1 + |pat|];
        Some(k + 1)
  }

  /** Shifting a string by one character shifts every occurrence by one. */
  lemma OccursAtTail(s: string, pat: string, i: nat)
    requires |s| > 0
    ensures OccursAt(s[1..], pat, i) <==> OccursAt(s, pat, i + 1)
  {
    if i + 1 + |pat| <= |s| {
      assert s[1..][i..i + |pat|] == s[i + 1..i + 1 + |pat|];
    }
  }

  /** `IndexOf` finds exactly the first occurrence, and fails exactly when there is none. */
  lemma {:induction false} IndexOfSpec(s: string, pat: string)
    ensures forall k: nat :: IndexOf(s, pat) == Some(k) <==> IsFirstOccurrence(s, pat, k)
    ensures IndexOf(s, pat).None? <==> Absent(s, pat)
    decreases |s|
  {
    if |s| < |pat| {
      assert Absent(s, pat);
    } else if s[..|pat|] == pat {
      assert OccursAt(s, pat, 0);
    } else {
      assert !OccursAt(s, pat, 0);
      IndexOfSpec(s[1..], pat);
      forall i: nat ensures OccursAt(s[1..], pat, i) <==> OccursAt(s, pat, i + 1) {
        OccursAtTail(s, pat, i);
      }
      forall k: nat ensures IndexOf(s, pat) == Some(k) <==> IsFirstOccurrence(s, pat, k) {
        if k > 0 {
          assert IsFirstOccurrence(s[1..], pat, k - 1) <==> IsFirstOccurrence(s, pat, k) by {
            forall i: nat | i < k - 1 ensures OccursAt(s[1..], pat, i) <==> OccursAt(s, pat, i + 1) {
            }
            if IsFirstOccurrence(s[1..], pat, k - 1) {
              forall i: nat | i < k ensures !OccursAt(s, pat, i) {
                if i > 0 {
                  assert !OccursAt(s[1..], pat, i - 1);
                }
              }
            }
          }
        }
      }
      if Absent(s[1..], pat) {
        forall i: nat ensures !OccursAt(s, pat, i) {
          if i > 0 {
            assert !OccursAt(s[1..], pat, i - 1);
          }
        }
      }
    }
  }

  /** A first occurrence in `a` stays the first occurrence in `a + b`. */
  lemma FirstOccurrenceExtends(a: string, b: string, pat: string, k: nat)
    requires IsFirstOccurrence(a, pat, k)
    ensures IsFirstOccurrence(a + b, pat, k)
  {
    assert (a + b)[k..k + |pat|] == a[k..k + |pat|];
    forall i: nat | i < k ensures !OccursAt(a + b, pat, i) {
      assert !OccursAt(a, pat, i);
      assert (a + b)[i..i + |pat|] == a[i..i + |pat|];
    }
  }

  /**
   * `s.replace(pat, rep)` for a string `pat`: the first occurrence of `pat`
   * is replaced by `rep`, verbatim; without an occurrence `s` is returned.
   */
  function ReplaceFirst(s: string, pat: string, rep: string): (r: string)
    ensures IndexOf(s, pat).None? ==> |r| == |s|
    ensures IndexOf(s, pat).Some? ==> |r| + |pat| == |s| + |rep|
  {
    match IndexOf(s, pat)
    case None => s
    case Some(k) => s[..k] + rep + s[k + |pat|..]
  }

  /**
   * With its first occurrence at `k`, everything before `k` and everything
   * after the occurrence is kept, and `rep` stands at `k`.
   */
  lemma ReplaceFirstAt(s: string, pat: string, rep: string, k: nat)
    requires IsFirstOccurrence(s, pat, k)
    ensures ReplaceFirst(s, pat, rep) == s[..k] + rep + s[k + |pat|..]
    ensures OccursAt(ReplaceFirst(s, pat, rep), rep, k)
  {
    IndexOfSpec(s, pat);
    var r := ReplaceFirst(s, pat, rep);
    assert r[k..k + |rep|] == rep;
  }

  /** Without an occurrence the text is returned unchanged. */
  lemma ReplaceFirstAbsent(s: string, pat: string, rep: string)
    requires Absent(s, pat)
    ensures ReplaceFirst(s, pat, rep) == s
  {
    IndexOfSpec(s, pat);
  }

  /**
   * Occurrences after the first one survive the replacement, shifted by the
   * difference in length between `rep` and `pat`.
   */
  lemma ReplaceFirstKeepsLaterOccurrences(s: string, pat: string, rep: string, k: nat, j: nat)
    requires IsFirstOccurrence(s, pat, k)
    requires k + |pat| <= j && OccursAt(s, pat, j)
    ensures OccursAt(ReplaceFirst(s, pat, rep), pat, j - |pat| + |rep|)
  {
    ReplaceFirstAt(s, pat, rep, k);
    var r := ReplaceFirst(s, pat, rep);
    var j' := j - |pat| + |rep|;
    assert r[j'..j' + |pat|] == s[j..j + |pat|];
  }
}
