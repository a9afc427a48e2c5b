/** Substring facts about strings, used to state what a composed message contains. */
module Text {

  /** True when `t` occurs as a contiguous run of characters somewhere in `s`. */
  predicate Contains(s: string, t: string)
    decreases |s|
  {
    t <= s || (|s| > 0 && Contains(s[1..], t))
  }

  /** True when `s` finishes with `t`. */
  predicate EndsWith(s: string, t: string)
  {
    |t| <= |s| && s[|s| - |t|..] == t
  }

  /** Whatever stands between a prefix and a suffix occurs in the whole. */
  lemma {:induction false} ContainsInfix(a: string, t: string, b: string)
    ensures Contains(a + t + b, t)
  {
    if a == [] {
      assert a + t + b == t + b;
    } else {
      assert (a + t + b)[1..] == a[1..] + t + b;
      ContainsInfix(a[1..], t, b);
    }
  }

  /** A string that contains `t` contains every character of `t`. */
  lemma {:induction false} ContainedCharsOccur(s: string, t: string, c: char)
    requires c in t
    ensures Contains(s, t) ==> c in s
    decreases |s|
  {
    if t <= s {
      var i :| 0 <= i < |t| && t[i] == c;
      assert s[i] == c;
    } else if |s| > 0 {
      ContainedCharsOccur(s[1..], t, c);
      assert s == [s[0]] + s[1..];
    }
  }

  lemma EndsWithAppend(a: string, t: string)
    ensures EndsWith(a + t, t)
  {
    assert (a + t)[|a|..] == t;
  }
}
