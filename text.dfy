/** Substring search over C strings, as `strstr` performs it. */
module Text {
  import opened Base

  /** `pat` occurs in `s` starting at index `i`. */
  predicate MatchAt(s: string, pat: string, i: nat) {
    i + |pat| <= |s| && s[i..i + |pat|] == pat
  }

  /** `pat` occurs somewhere in `s`. */
  ghost predicate Contains(s: string, pat: string) {
    exists i: nat :: MatchAt(s, pat, i)
  }

  /** The first occurrence of `pat` in `s` at or after index `from`. */
  function FindFrom(s: string, pat: string, from: nat): (r: Option<nat>)
    decreases |s| - from
    ensures r.Some? ==> from <= r.value && MatchAt(s, pat, r.value)
    ensures forall j: nat :: from <= j && MatchAt(s, pat, j) ==> r.Some? && r.value <= j
  {
    if from + |pat| > |s| then None
    else if s[from..from + |pat|] == pat then Some(from)
    else FindFrom(s, pat, from + 1)
  }

  /** `strstr(s, pat)`: the index of the first occurrence of `pat` in `s`,
      or None where the C function returns NULL. */
  function Find(s: string, pat: string): (r: Option<nat>)
    ensures r.Some? <==> Contains(s, pat)
    ensures r.Some? ==> MatchAt(s, pat, r.value)
    ensures r.Some? ==> forall j: nat :: j < r.value ==> !MatchAt(s, pat, j)
  {
    FindFrom(s, pat, 0)
  }

  /** The first character of `pat` does not recur later in `pat`
      (true of "m=audio" and "m=application"). */
  predicate HeadDoesNotRecur(pat: string) {
    |pat| > 0 && forall k :: 0 < k < |pat| ==> pat[k] != pat[0]
  }

  /** A match in `x` is still a match in `x + y`, at the same index. */
  lemma MatchInLeft(x: string, y: string, pat: string, j: nat)
    ensures MatchAt(x, pat, j) ==> MatchAt(x + y, pat, j)
  {
    if MatchAt(x, pat, j) {
      assert (x + y)[j..j + |pat|] == x[j..j + |pat|];
    }
  }

  /** A match in `y` is a match in `x + y`, shifted by `|x|`. */
  lemma MatchInRight(x: string, y: string, pat: string, j: nat)
    ensures MatchAt(y, pat, j) ==> MatchAt(x + y, pat, |x| + j)
  {
    if MatchAt(y, pat, j) {
      assert (x + y)[|x| + j..|x| + j + |pat|] == y[j..j + |pat|];
    }
  }

  /** A match in `x + y` lies wholly in `x`, wholly in `y`, or straddles the
      seam; a pattern whose head does not recur cannot straddle a seam
      where `y` begins with that head. */
  lemma MatchInConcat(x: string, y: string, pat: string, j: nat)
    ensures MatchAt(x + y, pat, j) && j + |pat| <= |x| ==> MatchAt(x, pat, j)
    ensures MatchAt(x + y, pat, j) && |x| <= j ==> MatchAt(y, pat, j - |x|)
    ensures MatchAt(x + y, pat, j) && HeadDoesNotRecur(pat) && |y| > 0 && y[0] == pat[0] ==> !(j < |x| < j + |pat|)
  {
    if MatchAt(x + y, pat, j) {
      if j + |pat| <= |x| {
        assert x[j..j + |pat|] == (x + y)[j..j + |pat|];
      }
      if |x| <= j {
        assert y[j - |x|..j - |x| + |pat|] == (x + y)[j..j + |pat|];
      }
      if j < |x| < j + |pat| {
        assert (x + y)[|x|] == pat[|x| - j];
      }
    }
  }

  /** One differing character rules out a match. */
  lemma Mismatch(s: string, pat: string, i: nat, k: nat)
    requires k < |pat| && i + k < |s| && s[i + k] != pat[k]
    ensures !MatchAt(s, pat, i)
  {
    if i + |pat| <= |s| {
      assert s[i..i + |pat|][k] == s[i + k];
    }
  }

  /** A match with none before it is what Find reports. */
  lemma FindFirst(s: string, pat: string, k: nat)
    requires MatchAt(s, pat, k)
    requires forall j: nat :: j < k ==> !MatchAt(s, pat, j)
    ensures Find(s, pat) == Some(k)
  {
  }

  /** With no match up to `k`, any match Find reports lies beyond `k`. */
  lemma FindBeyond(s: string, pat: string, k: nat)
    requires forall j: nat :: j <= k ==> !MatchAt(s, pat, j)
    ensures Find(s, pat).Some? ==> Find(s, pat).value > k
  {
  }
}
