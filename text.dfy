/** String operations that the services perform with Python's `str`
    methods and f-strings. Strings are sequences of characters. */
module Text {

  /** `s.startswith(p)`. */
  predicate StartsWith(s: string, p: string) {
    p <= s
  }

  /** `sub in s`: some position of `s` begins an occurrence of `sub`. */
  predicate Contains(s: string, sub: string)
    decreases |s|
  {
    sub <= s || (|s| > 0 && Contains(s[1..], sub))
  }

  /** `s.replace(pat, rep)`: replaces every occurrence of `pat`, scanning left
      to right and never letting two replaced occurrences overlap. */
  function ReplaceAll(s: string, pat: string, rep: string): (r: string)
    requires |pat| > 0
    decreases |s|
  {
    if pat <= s then rep + ReplaceAll(s[|pat|..], pat, rep)
    else if s == [] then []
    else [s[0]] + ReplaceAll(s[1..], pat, rep)
  }

  /** When the replacement is one character `c` that the pattern lacks, a text
      without `c` that prefixes the output of `ReplaceAll` prefixes its input. */
  lemma {:induction false} ReplacePrefixBack(t: string, pat: string, c: char, p: string)
    requires |pat| > 0 && c !in pat && c !in p
    requires p <= ReplaceAll(t, pat, [c])
    ensures p <= t
    decreases |t|
  {
    if pat <= t {
      assert ReplaceAll(t, pat, [c])[0] == c;
    }
    if p != [] && t != [] && !(pat <= t) {
      var rest := ReplaceAll(t[1..], pat, [c]);
      assert ReplaceAll(t, pat, [c]) == [t[0]] + rest;
      assert p[1..] <= rest;
      ReplacePrefixBack(t[1..], pat, c, p[1..]);
      assert p == [p[0]] + p[1..];
    }
  }

  /** Replacing every occurrence of `pat` by a single character that does not
      occur in `pat` leaves no occurrence of `pat` behind. */
  lemma {:induction false} ReplaceAllRemoves(s: string, pat: string, c: char)
    requires |pat| > 0 && c !in pat
    ensures !Contains(ReplaceAll(s, pat, [c]), pat)
    decreases |s|
  {
    var r := ReplaceAll(s, pat, [c]);
    if pat <= s {
      var rest := ReplaceAll(s[|pat|..], pat, [c]);
      ReplaceAllRemoves(s[|pat|..], pat, c);
      assert r == [c] + rest;
      assert r[1..] == rest;
      assert r[0] == c;
    } else if s == [] {
      assert r == [];
    } else {
      var rest := ReplaceAll(s[1..], pat, [c]);
      ReplaceAllRemoves(s[1..], pat, c);
      assert r == [s[0]] + rest;
      assert r[1..] == rest;
      if pat <= r {
        ReplacePrefixBack(s, pat, c, pat);
      }
    }
  }

  /** `c.lower()` for ASCII letters; other characters are left as they are. */
  function LowerChar(c: char): char {
    if 'A' <= c <= 'Z' then (c as int - 'A' as int + 'a' as int) as char else c
  }

  /** `s.lower()`, character by character. */
  function Lower(s: string): (r: string)
    ensures |r| == |s|
  {
    seq(|s|, i requires 0 <= i < |s| => LowerChar(s[i]))
  }

  /** Lower-casing twice is lower-casing once. */
  lemma LowerIdempotent(s: string)
    ensures Lower(Lower(s)) == Lower(s)
  {
    forall i | 0 <= i < |s|
      ensures Lower(Lower(s))[i] == Lower(s)[i]
    {
      var c := s[i];
      if 'A' <= c <= 'Z' {
        assert 'a' <= LowerChar(c) <= 'z';
      }
    }
  }

  /** The decimal digit for `d`. */
  function Digit(d: nat): (c: char)
    requires d < 10
    ensures '0' <= c <= '9'
  {
    ('0' as int + d) as char
  }

  predicate AllDigits(s: string) {
    forall k :: 0 <= k < |s| ==> '0' <= s[k] <= '9'
  }

  /** `str(n)` for a natural number: its decimal digits, most significant first. */
  function NatToString(n: nat): (r: string)
    ensures |r| > 0 && AllDigits(r)
    ensures |r| == 1 <==> n < 10
  {
    if n < 10 then [Digit(n)] else NatToString(n / 10) + [Digit(n % 10)]
  }

  /** Different numbers print differently. */
  lemma {:induction false} NatToStringInjective(a: nat, b: nat)
    requires NatToString(a) == NatToString(b)
    ensures a == b
  {
    if a < 10 || b < 10 {
      assert a < 10 && b < 10;
      assert Digit(a) == NatToString(a)[0] == NatToString(b)[0] == Digit(b);
    } else {
      var sa, sb := NatToString(a), NatToString(b);
      assert sa == NatToString(a / 10) + [Digit(a % 10)];
      assert sb == NatToString(b / 10) + [Digit(b % 10)];
      assert Digit(a % 10) == sa[|sa| - 1] == sb[|sb| - 1] == Digit(b % 10);
      assert NatToString(a / 10) == sa[..|sa| - 1] == sb[..|sb| - 1] == NatToString(b / 10);
      NatToStringInjective(a / 10, b / 10);
    }
  }

  /** `str(i)` for any integer. */
  function IntToString(i: int): (r: string)
    ensures ':' !in r
  {
    if i < 0 then "-" + NatToString(-i) else NatToString(i)
  }

  lemma IntToStringInjective(a: int, b: int)
    requires IntToString(a) == IntToString(b)
    ensures a == b
  {
    if a < 0 {
      assert IntToString(a)[0] == '-';
    }
    if b < 0 {
      assert IntToString(b)[0] == '-';
    }
    if a < 0 && b < 0 {
      assert NatToString(-a) == IntToString(a)[1..] == IntToString(b)[1..] == NatToString(-b);
      NatToStringInjective(-a, -b);
    } else if a >= 0 && b >= 0 {
      NatToStringInjective(a, b);
    }
  }

  /** Splitting at the last separator: when the parts after the separators
      cannot contain the separator, the parts are determined by the whole. */
  lemma SplitAtLast(a: string, x: string, b: string, y: string, sep: char)
    requires sep !in x && sep !in y
    requires a + [sep] + x == b + [sep] + y
    ensures a == b && x == y
  {
    var s := a + [sep] + x;
    assert s[|a|] == sep && s[|b|] == sep;
    assert forall j :: |a| < j < |s| ==> s[j] == x[j - |a| - 1];
    assert forall j :: |b| < j < |s| ==> s[j] == y[j - |b| - 1];
    assert a == s[..|a|] == b;
    assert x == s[|a| + 1..] == y;
  }

  /** Two texts that begin with prefixes differing at some position differ. */
  lemma DistinctPrefixes(s1: string, p1: string, s2: string, p2: string, k: nat)
    requires p1 <= s1 && p2 <= s2
    requires k < |p1| && k < |p2| && p1[k] != p2[k]
    ensures s1 != s2
  {
    assert s1[k] == p1[k] && s2[k] == p2[k];
  }
}
