/** Substring containment as Python's `needle in haystack` decides it on str
    values: exact, case-sensitive comparison of code points, and the empty
    needle is found in every string. */
module Strings {

  /** Executable containment test: `sub` is a prefix of `s` or of one of its
      suffixes. */
  predicate Contains(s: string, sub: string)
    decreases |s|
  {
    |sub| <= |s| && (sub == s[..|sub|] || Contains(s[1..], sub))
  }

  /** Reference definition: `sub` occurs in `s` starting at index `i`. */
  ghost predicate OccursAt(s: string, sub: string, i: int)
  {
    0 <= i && i + |sub| <= |s| && s[i..i + |sub|] == sub
  }

  /** `Contains` holds exactly when `sub` occurs at some index of `s`. */
  lemma {:induction false} ContainsIff(s: string, sub: string)
    ensures Contains(s, sub) <==> exists i :: OccursAt(s, sub, i)
    decreases |s|
  {
    if |sub| <= |s| {
      if sub == s[..|sub|] {
        assert OccursAt(s, sub, 0);
      } else {
        ContainsIff(s[1..], sub);
        if Contains(s[1..], sub) {
          var i :| OccursAt(s[1..], sub, i);
          assert s[i + 1..i + 1 + |sub|] == s[1..][i..i + |sub|];
          assert OccursAt(s, sub, i + 1);
        }
        if exists i :: OccursAt(s, sub, i) {
          var i :| OccursAt(s, sub, i);
          assert i > 0;
          assert s[1..][i - 1..i - 1 + |sub|] == s[i..i + |sub|];
          assert OccursAt(s[1..], sub, i - 1);
        }
      }
    }
  }

  /** A needle holding a character that the haystack lacks is not found. */
  lemma {:induction false} AbsentChar(s: string, sub: string, c: char)
    requires c in sub && c !in s
    ensures !Contains(s, sub)
    decreases |s|
  {
    if |sub| <= |s| {
      AbsentChar(s[1..], sub, c);
    }
  }

  /** A prefix free of the needle's first character can be skipped. */
  lemma {:induction false} SkipPrefix(p: string, q: string, sub: string)
    requires |sub| > 0 && sub[0] !in p
    ensures Contains(p + q, sub) == Contains(q, sub)
    decreases |p|
  {
    if |p| > 0 {
      assert (p + q)[1..] == p[1..] + q;
      SkipPrefix(p[1..], q, sub);
    } else {
      assert p + q == q;
    }
  }

  /** A needle placed after any prefix is found. */
  lemma {:induction false} ContainsAfter(p: string, sub: string, q: string)
    ensures Contains(p + sub + q, sub)
  {
    ContainsIff(p + sub + q, sub);
    assert (p + sub + q)[|p|..|p| + |sub|] == sub;
    assert OccursAt(p + sub + q, sub, |p|);
  }
}
