/** Facts about strings that the component relies on: occurrence of one string
    inside another, suffixes, and the length JavaScript reports for a string. */
module Text {

  /** `pat` occurs in `s` starting at index `i`. */
  predicate OccursAt(s: string, pat: string, i: int) {
    0 <= i <= |s| - |pat| && s[i..i + |pat|] == pat
  }

  /** `pat` occurs somewhere in `s` (JavaScript's `s.includes(pat)`). */
  predicate Contains(s: string, pat: string) {
    exists i | 0 <= i <= |s| - |pat| :: OccursAt(s, pat, i)
  }

  /** `s` ends with `suffix` (JavaScript's `s.endsWith(suffix)`). */
  predicate EndsWith(s: string, suffix: string) {
    |suffix| <= |s| && s[|s| - |suffix|..] == suffix
  }

  /** Whether a character needs two UTF-16 code units (lies outside the basic plane). */
  predicate IsAstral(c: char) {
    c as int >= 0x1_0000
  }

  /** The value of JavaScript's `s.length`: the number of UTF-16 code units of `s`.
      This is also what the HTML `minlength` and `maxlength` attributes count. */
  function Utf16Length(s: string): (n: nat)
    ensures |s| <= n <= 2 * |s|
    ensures n == 0 <==> s == []
  {
    if s == [] then 0 else (if IsAstral(s[0]) then 2 else 1) + Utf16Length(s[1..])
  }

  /** For text without astral characters, JavaScript's length is the number of characters. */
  lemma {:induction false} BasicPlaneLength(s: string)
    requires forall i :: 0 <= i < |s| ==> !IsAstral(s[i])
    ensures Utf16Length(s) == |s|
  {
    if s != [] {
      assert forall i :: 0 <= i < |s[1..]| ==> s[1..][i] == s[i + 1];
      BasicPlaneLength(s[1..]);
    }
  }

  /** A string shorter than `pat` cannot contain it. */
  lemma TooShort(s: string, pat: string)
    requires |s| < |pat|
    ensures !Contains(s, pat)
  {
  }

  /** Every character of an occurring string is a character of the string it occurs in. */
  lemma ContainedChars(s: string, pat: string)
    ensures Contains(s, pat) ==> forall m :: 0 <= m < |pat| ==> pat[m] in s
  {
    if Contains(s, pat) {
      var i :| 0 <= i <= |s| - |pat| && OccursAt(s, pat, i);
      forall m | 0 <= m < |pat|
        ensures pat[m] in s
      {
        assert s[i + m] == s[i..i + |pat|][m];
      }
    }
  }

  /** A string lacking one of the characters of `pat` cannot contain `pat`. */
  lemma MissingChar(s: string, pat: string, c: char)
    requires c in pat && c !in s
    ensures !Contains(s, pat)
  {
    ContainedChars(s, pat);
  }

  /** The first and the last two characters of a string assembled from three pieces. */
  lemma AppendEnds(a: string, b: string, c: string)
    requires a != [] && |c| >= 2
    ensures var s := a + b + c;
      && |s| == |a| + |b| + |c| && s[0] == a[0]
      && s[|s| - 2] == c[|c| - 2] && s[|s| - 1] == c[|c| - 1]
  {
  }

  /** If the text before a boundary holds, at index `j`, a character that `pat` lacks,
      and no copy of `pat[0]` after it, no occurrence of `pat` runs across the
      boundary: `pat` occurs in `a + b` exactly when it occurs in `a` or in `b`. */
  lemma {:induction false} AcrossBoundary(a: string, b: string, pat: string, j: int)
    requires pat != [] && 0 <= j < |a| && a[j] !in pat
    requires forall k :: j < k < |a| ==> a[k] != pat[0]
    ensures Contains(a + b, pat) <==> Contains(a, pat) || Contains(b, pat)
  {
    var s := a + b;
    var n, k := |a|, |pat|;
    if Contains(s, pat) {
      var i :| 0 <= i <= |s| - k && OccursAt(s, pat, i);
      assert forall m :: i <= m < i + k ==> s[m] == pat[m - i];
      assert s[j] == a[j];
      assert i < n ==> s[i] == a[i];
      if i + k <= n {
        assert a[i..i + k] == s[i..i + k];
        assert OccursAt(a, pat, i);
      } else if i >= n {
        assert b[i - n..i - n + k] == s[i..i + k];
        assert OccursAt(b, pat, i - n);
      } else if i > j {
        // It would start after index `j`, at a copy of `pat[0]`.
        assert false;
      } else {
        // It would run across index `j`.
        assert false;
      }
    }
    if Contains(a, pat) {
      var i :| 0 <= i <= |a| - k && OccursAt(a, pat, i);
      assert s[i..i + k] == a[i..i + k];
      assert OccursAt(s, pat, i);
    }
    if Contains(b, pat) {
      var i :| 0 <= i <= |b| - k && OccursAt(b, pat, i);
      assert s[n + i..n + i + k] == b[i..i + k];
      assert OccursAt(s, pat, n + i);
    }
  }

  /** The position of each piece of a text assembled from eight pieces. */
  lemma Layout(s1: string, s2: string, s3: string, s4: string,
               s5: string, s6: string, s7: string, s8: string)
    ensures var s := s1 + s2 + s3 + s4 + s5 + s6 + s7 + s8;
      && s1 <= s
      && OccursAt(s, s2, |s1|)
      && OccursAt(s, s3, |s1| + |s2|)
      && OccursAt(s, s4, |s1| + |s2| + |s3|)
      && OccursAt(s, s5, |s1| + |s2| + |s3| + |s4|)
      && OccursAt(s, s6, |s1| + |s2| + |s3| + |s4| + |s5|)
      && OccursAt(s, s7, |s1| + |s2| + |s3| + |s4| + |s5| + |s6|)
  {
    var s := s1 + s2 + s3 + s4 + s5 + s6 + s7 + s8;
    var p2 := s1 + s2;
    var p3 := p2 + s3;
    var p4 := p3 + s4;
    var p5 := p4 + s5;
    var p6 := p5 + s6;
    var p7 := p6 + s7;
    assert p7 <= s;
    PrefixOfPrefix(p6, s7, s);
    PrefixOfPrefix(p5, s6, s);
    PrefixOfPrefix(p4, s5, s);
    PrefixOfPrefix(p3, s4, s);
    PrefixOfPrefix(p2, s3, s);
    PrefixOfPrefix(s1, s2, s);
    OccursInPrefix(s, p2, s2, |s1|);
    OccursInPrefix(s, p3, s3, |p2|);
    OccursInPrefix(s, p4, s4, |p3|);
    OccursInPrefix(s, p5, s5, |p4|);
    OccursInPrefix(s, p6, s6, |p5|);
    OccursInPrefix(s, p7, s7, |p6|);
  }

  /** A suffix of `b` that is at least as long as `suffix` decides whether
      `a + b` ends with `suffix`. */
  lemma EndsWithAppend(a: string, b: string, suffix: string)
    requires |suffix| <= |b|
    ensures EndsWith(a + b, suffix) <==> EndsWith(b, suffix)
  {
    assert (a + b)[|a + b| - |suffix|..] == b[|b| - |suffix|..];
  }

  /** Two strings that differ `k` characters before their ends cannot end alike. */
  lemma EndsDiffer(s: string, suffix: string, k: nat)
    requires 0 < k <= |suffix| && k <= |s|
    requires s[|s| - k] != suffix[|suffix| - k]
    ensures !EndsWith(s, suffix)
  {
  }

  /** An occurrence inside a prefix is an occurrence in the whole string. */
  lemma OccursInPrefix(s: string, pre: string, x: string, i: int)
    requires pre <= s && OccursAt(pre, x, i)
    ensures OccursAt(s, x, i)
  {
    assert s[i..i + |x|] == pre[i..i + |x|];
  }

  /** A string is a prefix of anything it starts, and prefixes chain. */
  lemma PrefixOfPrefix(a: string, b: string, s: string)
    requires a + b <= s
    ensures a <= s
  {
    assert s[..|a|] == (a + b)[..|a|];
  }
}
