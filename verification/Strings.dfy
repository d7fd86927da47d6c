// The order of strings by their characters.

module Strings {
  predicate StrLess(s: string, t: string) {
    t != "" && (s == "" || s[0] < t[0] || (s[0] == t[0] && StrLess(s[1..], t[1..])))
  }

  /** Where two strings first differ the smaller character is in the lesser one;
      a string comes before its continuations. */
  predicate FirstDifference(s: string, t: string, k: nat) {
    && k <= |s| && k < |t| && s[..k] == t[..k]
    && (k < |s| ==> s[k] < t[k])
  }

  lemma {:induction false} StrLessIff(s: string, t: string)
    ensures StrLess(s, t) <==> exists k :: FirstDifference(s, t, k)
  {
    if s == "" {
      assert t != "" ==> FirstDifference(s, t, 0);
    } else if t != "" {
      StrLessIff(s[1..], t[1..]);
      if StrLess(s, t) {
        if s[0] < t[0] {
          assert FirstDifference(s, t, 0);
        } else {
          var k :| FirstDifference(s[1..], t[1..], k);
          NextDifference(s, t, k);
        }
      }
      if k: nat :| FirstDifference(s, t, k) {
        if k > 0 {
          assert s[..k][0] == t[..k][0];
          NextDifference(s, t, k - 1);
        }
      }
    }
  }

  lemma NextDifference(s: string, t: string, k: nat)
    requires s != "" && t != "" && s[0] == t[0]
    ensures FirstDifference(s[1..], t[1..], k) <==> FirstDifference(s, t, k + 1)
  {
    if k + 1 <= |s| && k + 1 < |t| {
      assert s[..k + 1] == [s[0]] + s[1..][..k] && t[..k + 1] == [t[0]] + t[1..][..k];
      assert s[..k + 1][1..] == s[1..][..k] && t[..k + 1][1..] == t[1..][..k];
    }
  }

  lemma {:induction false} StrLessTotal(s: string, t: string)
    ensures s == t || StrLess(s, t) || StrLess(t, s)
    ensures !(StrLess(s, t) && StrLess(t, s)) && !StrLess(s, s)
  {
    if s != "" {
      StrLessTotal(s[1..], s[1..]);
      if t != "" {
        StrLessTotal(s[1..], t[1..]);
        assert s == [s[0]] + s[1..] && t == [t[0]] + t[1..];
      }
    }
  }

  lemma {:induction false} StrLessTransitive(s: string, t: string, u: string)
    requires StrLess(s, t) && StrLess(t, u)
    ensures StrLess(s, u)
  {
    if s != "" && s[0] == t[0] == u[0] { StrLessTransitive(s[1..], t[1..], u[1..]); }
  }
}
