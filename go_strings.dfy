/**
 * The three functions of Go's `strings` package that the gateway calls:
 * `HasPrefix`, `Index` (used by `Replace`) and `Replace` with a count of 1.
 * Go strings are byte strings; here they are `seq<char>`, which is exact for
 * the ASCII tokens the gateway looks for.
 */
module GoStrings {

  /** `pat` occurs in `s` starting at position `i`. */
  predicate OccursAt(s: string, pat: string, i: int)
  {
    0 <= i && i + |pat| <= |s| && s[i..i + |pat|] == pat
  }

  /** `pat` occurs somewhere in `s`. */
  predicate Contains(s: string, pat: string)
  {
    exists i :: 0 <= i <= |s| && OccursAt(s, pat, i)
  }

  /** `i` is the leftmost position at which `pat` occurs in `s`. */
  predicate IsFirstOccurrence(s: string, pat: string, i: int)
  {
    OccursAt(s, pat, i) && forall j :: 0 <= j < i ==> !OccursAt(s, pat, j)
  }

  /**
   * strings.HasPrefix(s, prefix): a prefix is an occurrence at position 0,
   * and so the one strings.Index finds.
   */
  function HasPrefix(s: string, prefix: string): (b: bool)
    ensures b <==> OccursAt(s, prefix, 0)
    ensures b ==> Index(s, prefix) == 0
  {
    |prefix| <= |s| && s[..|prefix|] == prefix
  }

  /** A prefix test is the same as "s is prefix followed by something". */
  lemma HasPrefixIffConcat(s: string, prefix: string)
    ensures HasPrefix(s, prefix) <==> exists rest :: s == prefix + rest
  {
    if HasPrefix(s, prefix) {
      assert s == prefix + s[|prefix|..];
    }
    if rest :| s == prefix + rest {
      assert s[..|prefix|] == prefix;
    }
  }

  /** Shifting an occurrence by the first character of `s`. */
  lemma OccursInTail(s: string, pat: string, j: int)
    requires |s| > 0 && 0 <= j
    ensures OccursAt(s[1..], pat, j) <==> OccursAt(s, pat, j + 1)
  {
  }

  /**
   * strings.Index(s, pat): the position of the first occurrence of `pat`
   * in `s`, or -1 when there is none. The empty pattern occurs at 0.
   */
  function Index(s: string, pat: string): (r: int)
    ensures r == -1 <==> !Contains(s, pat)
    ensures r != -1 ==> IsFirstOccurrence(s, pat, r)
    decreases |s|
  {
    if |s| < |pat| then
      -1
    else if s[..|pat|] == pat then
      assert OccursAt(s, pat, 0);
      0
    else
      var k := Index(s[1..], pat);
      assert forall j :: 1 <= j ==> (OccursAt(s, pat, j) <==> OccursAt(s[1..], pat, j - 1)) by {
        forall j | 1 <= j
          ensures OccursAt(s, pat, j) <==> OccursAt(s[1..], pat, j - 1)
        {
          OccursInTail(s, pat, j - 1);
        }
      }
      if k == -1 then
        -1
      else
        assert OccursAt(s, pat, k + 1);
        k + 1
  }

  /**
   * strings.Replace(s, from, to, 1): the first occurrence of `from` is
   * replaced by `to`; without an occurrence `s` is returned as it is.
   */
  function ReplaceFirst(s: string, from: string, to: string): (r: string)
    ensures !Contains(s, from) ==> r == s
    ensures forall i :: IsFirstOccurrence(s, from, i) ==> r == s[..i] + to + s[i + |from|..]
  {
    var i := Index(s, from);
    if i == -1 then s else s[..i] + to + s[i + |from|..]
  }

  /** Replacing a prefix keeps everything after it. */
  lemma ReplaceFirstOfPrefix(s: string, from: string, to: string)
    requires HasPrefix(s, from)
    ensures ReplaceFirst(s, from, to) == to + s[|from|..]
  {
  }

  /** Replacing a text by itself changes nothing (Go returns `s` early in that case). */
  lemma ReplaceFirstByItself(s: string, pat: string)
    ensures ReplaceFirst(s, pat, pat) == s
  {
    var i := Index(s, pat);
    if i != -1 {
      assert s == s[..i] + s[i..i + |pat|] + s[i + |pat|..];
    }
  }
}
