/** The two string operations the scaffolding scripts rely on: Python's
    substring test `t in s`, and `s.replace(p, '')`, which removes every
    non-overlapping occurrence of `p`, scanning left to right. */
module Strings {

  /** Python's `t in s` on strings; `'' in s` is always true. */
  predicate Contains(s: string, t: string)
    decreases |s|
  {
    t <= s || (s != [] && Contains(s[1..], t))
  }

  /** `t` occurs in `s` starting at index `i`. */
  ghost predicate OccursAt(s: string, t: string, i: int)
  {
    0 <= i && i + |t| <= |s| && s[i..i + |t|] == t
  }

  /** An occurrence at some index is found by `Contains`. */
  lemma {:induction false} OccursContains(s: string, t: string, i: int)
    requires OccursAt(s, t, i)
    ensures Contains(s, t)
    decreases i
  {
    if i == 0 {
      assert t == s[..|t|];
    } else {
      assert s[1..][i - 1..i - 1 + |t|] == s[i..i + |t|];
      OccursContains(s[1..], t, i - 1);
    }
  }

  /** `Contains` finds an occurrence at some index. */
  lemma {:induction false} ContainsAt(s: string, t: string) returns (i: nat)
    requires Contains(s, t)
    ensures OccursAt(s, t, i)
    decreases |s|
  {
    if t <= s {
      i := 0;
      assert s[0..|t|] == t;
    } else {
      var j := ContainsAt(s[1..], t);
      i := j + 1;
      assert s[1..][j..j + |t|] == s[i..i + |t|];
    }
  }

  /** `Contains` is exactly "occurs at some index". */
  lemma ContainsIffOccurs(s: string, t: string)
    ensures Contains(s, t) <==> exists i :: OccursAt(s, t, i)
  {
    if Contains(s, t) {
      var i := ContainsAt(s, t);
    }
    if exists i :: OccursAt(s, t, i) {
      var i :| OccursAt(s, t, i);
      OccursContains(s, t, i);
    }
  }

  /** A substring of a prefix is a substring of the whole string. */
  lemma ContainsPrefix(a: string, b: string, t: string)
    requires Contains(a, t)
    ensures Contains(a + b, t)
  {
    var i := ContainsAt(a, t);
    assert (a + b)[i..i + |t|] == a[i..i + |t|];
    OccursContains(a + b, t, i);
  }

  /** A substring stays a substring when text is added on either side. */
  lemma ContainsExtended(a: string, s: string, b: string, t: string)
    requires Contains(s, t)
    ensures Contains(a + s + b, t)
  {
    var i := ContainsAt(s, t);
    assert (a + s + b)[|a| + i..|a| + i + |t|] == s[i..i + |t|];
    OccursContains(a + s + b, t, |a| + i);
  }

  /** Every string contains its own suffix. */
  lemma ContainsSuffix(s: string, t: string)
    ensures Contains(s + t, t)
  {
    assert (s + t)[|s|..|s| + |t|] == t;
    OccursContains(s + t, t, |s|);
  }

  /** A string containing `t + u` contains `t`. */
  lemma ContainsPrefixOfPattern(s: string, t: string, u: string)
    requires Contains(s, t + u)
    ensures Contains(s, t)
  {
    var i := ContainsAt(s, t + u);
    assert s[i..i + |t|] == s[i..i + |t + u|][..|t|] == t;
    OccursContains(s, t, i);
  }

  /** A pattern using a character the string lacks does not occur in it. */
  lemma {:induction false} AbsentChar(s: string, p: string, c: char)
    requires c in p && c !in s
    ensures !Contains(s, p)
    decreases |s|
  {
    var i :| 0 <= i < |p| && p[i] == c;
    if i < |s| {
      assert s[i] in s;
    }
    if s != [] {
      assert forall k :: 0 <= k < |s| - 1 ==> s[1..][k] == s[k + 1];
      AbsentChar(s[1..], p, c);
    }
  }

  /** Python's `s.replace(p, '')`: every non-overlapping occurrence of `p`
      is removed, left to right.  `s.replace('', '')` is `s`. */
  function RemoveAll(s: string, p: string): (r: string)
    ensures |r| <= |s|
    ensures p != [] && p <= s ==> |r| <= |s| - |p|
    decreases |s|
  {
    if p == [] then s
    else if p <= s then RemoveAll(s[|p|..], p)
    else if s == [] then []
    else [s[0]] + RemoveAll(s[1..], p)
  }

  /** A string without the pattern is left as it is. */
  lemma {:induction false} RemoveAllAbsent(s: string, p: string)
    requires !Contains(s, p)
    ensures RemoveAll(s, p) == s
    decreases |s|
  {
    if p != [] && s != [] {
      RemoveAllAbsent(s[1..], p);
    }
  }

  /** When the pattern occurs, removal shortens the string by at least one
      occurrence. */
  lemma {:induction false} RemoveAllShrinks(s: string, p: string)
    requires p != [] && Contains(s, p)
    ensures |RemoveAll(s, p)| <= |s| - |p|
    decreases |s|
  {
    if !(p <= s) {
      RemoveAllShrinks(s[1..], p);
    }
  }

  /** Removal distributes over a concatenation whose right part starts with
      a character the pattern does not use (such as the path separator):
      no occurrence can straddle the seam. */
  lemma {:induction false} RemoveAllSplit(a: string, b: string, p: string)
    requires b != [] && b[0] !in p
    ensures RemoveAll(a + b, p) == RemoveAll(a, p) + RemoveAll(b, p)
    decreases |a|
  {
    if p == [] {
    } else if a == [] {
      assert a + b == b;
    } else if p <= a + b {
      PrefixBeforeSeam(a, b, p);
      RemoveAllSplit(a[|p|..], b, p);
    } else {
      assert !(p <= a);
      assert (a + b)[1..] == a[1..] + b;
      RemoveAllSplit(a[1..], b, p);
    }
  }

  /** A prefix of `a + b` avoiding `b`'s first character lies within `a`. */
  lemma PrefixBeforeSeam(a: string, b: string, p: string)
    requires b != [] && b[0] !in p && p <= a + b
    ensures p <= a && (a + b)[|p|..] == a[|p|..] + b
  {
    assert forall k :: 0 <= k < |p| ==> p[k] != b[0];
    assert |a| < |a + b| && (a + b)[|a|] == b[0];
    assert |p| <= |a|;
    assert p == (a + b)[..|p|] == a[..|p|];
  }

  /** Removal passes over a leading character the pattern does not use. */
  lemma {:induction false} RemoveAllAfter(c: char, s: string, p: string)
    requires c !in p
    ensures RemoveAll([c] + s, p) == [c] + RemoveAll(s, p)
  {
    if p != [] {
      assert p[0] != c;
      assert ([c] + s)[1..] == s;
    }
  }

  /** Removal leaves a clean prefix and a separator in place. */
  lemma {:induction false} RemoveAllBehind(a: string, c: char, y: string, p: string)
    requires !Contains(a, p) && c !in p
    ensures RemoveAll(a + [c] + y, p) == a + [c] + RemoveAll(y, p)
  {
    ConcatAssoc(a, [c], y);
    RemoveAllSplit(a, [c] + y, p);
    RemoveAllAbsent(a, p);
    RemoveAllAfter(c, y, p);
    ConcatAssoc(a, [c], RemoveAll(y, p));
  }

  lemma ConcatAssoc(a: string, b: string, c: string)
    ensures a + (b + c) == a + b + c
  {
  }

  /** The removal is a single left-to-right pass, so a removal can bring
      two halves of a new occurrence together: the result may still
      contain the pattern. */
  lemma RemoveAllSinglePass()
    ensures RemoveAll("_te_tempmp", "_temp") == "_temp"
    ensures Contains(RemoveAll("_te_tempmp", "_temp"), "_temp")
  {
    RemovesInnerOccurrence();
    assert "_temp" <= "_temp";
  }

  lemma RemovesInnerOccurrence()
    ensures RemoveAll("te_tempmp", "_temp") == "temp"
  {
    assert RemoveAll("e_tempmp", "_temp") == "emp";
  }
}
