/** The string handling the auth handlers apply to e-mail addresses:
    `str.lower()` and `str.strip()`, and their composition
    `(data.get("email") or "").lower().strip()`. */
module Text {
  import opened Common

  /** Python's `str.isspace`, which is what `str.strip()` removes: the ASCII
      controls 9-13 and 28-31, the space, and the Unicode separators. */
  predicate IsSpace(c: char) {
    var n := c as int;
    (9 <= n <= 13) || (28 <= n <= 32) || n == 0x85 || n == 0xA0 || n == 0x1680 ||
    (0x2000 <= n <= 0x200A) || n == 0x2028 || n == 0x2029 || n == 0x202F ||
    n == 0x205F || n == 0x3000
  }

  ghost predicate AllSpace(s: string) {
    forall i :: 0 <= i < |s| ==> IsSpace(s[i])
  }

  /** Neither end of `m` is whitespace. */
  ghost predicate Trimmed(m: string) {
    m == [] || (!IsSpace(m[0]) && !IsSpace(m[|m| - 1]))
  }

  /** `s` is `m` with whitespace on either side. */
  ghost predicate Padded(s: string, m: string) {
    exists a :: 0 <= a <= |s| - |m| && s[a..a + |m|] == m && AllSpace(s[..a]) && AllSpace(s[a + |m|..])
  }

  /** `str.lower()` on one character (ASCII letters only). */
  function LowerChar(c: char): char {
    if 'A' <= c <= 'Z' then (c as int + 32) as char else c
  }

  /** `str.lower()`: ASCII capitals move 32 code points down to their small
      letters, every other character stays, and no ASCII capital is left. */
  function Lower(s: string): (r: string)
    ensures |r| == |s|
    ensures forall i :: 0 <= i < |s| && 'A' <= s[i] <= 'Z' ==> r[i] as int == s[i] as int + 32
    ensures forall i :: 0 <= i < |s| && !('A' <= s[i] <= 'Z') ==> r[i] == s[i]
    ensures forall i :: 0 <= i < |r| ==> !('A' <= r[i] <= 'Z')
  {
    seq(|s|, i requires 0 <= i < |s| => LowerChar(s[i]))
  }

  /** The number of whitespace characters at the start of `s`. */
  function LeadingSpaces(s: string): (n: nat)
    ensures n <= |s|
    ensures forall i :: 0 <= i < n ==> IsSpace(s[i])
    ensures n < |s| ==> !IsSpace(s[n])
  {
    if s == [] || !IsSpace(s[0]) then 0 else 1 + LeadingSpaces(s[1..])
  }

  /** The number of whitespace characters at the end of `s`. */
  function TrailingSpaces(s: string): (n: nat)
    ensures n <= |s|
    ensures forall i :: |s| - n <= i < |s| ==> IsSpace(s[i])
    ensures n < |s| ==> !IsSpace(s[|s| - 1 - n])
  {
    if s == [] || !IsSpace(s[|s| - 1]) then 0 else 1 + TrailingSpaces(s[..|s| - 1])
  }

  /** `str.strip()`: the result has no whitespace at either end and is what
      remains of `s` once whitespace is removed from both ends. */
  function Strip(s: string): (r: string)
    ensures Trimmed(r)
    ensures Padded(s, r)
  {
    var a := LeadingSpaces(s);
    var t := s[a..];
    var r := t[..|t| - TrailingSpaces(t)];
    assert s[a..a + |r|] == r;
    assert AllSpace(s[..a]);
    assert AllSpace(s[a + |r|..]) by {
      assert s[a + |r|..] == t[|r|..];
    }
    r
  }

  /** Where the core of a padded string sits, position by position. */
  lemma PaddedIndex(s: string, m: string) returns (a: nat)
    requires Padded(s, m)
    ensures a + |m| <= |s|
    ensures forall i :: 0 <= i < |m| ==> s[a + i] == m[i]
    ensures forall i :: 0 <= i < a ==> IsSpace(s[i])
    ensures forall i :: a + |m| <= i < |s| ==> IsSpace(s[i])
  {
    a :| 0 <= a <= |s| - |m| && s[a..a + |m|] == m && AllSpace(s[..a]) && AllSpace(s[a + |m|..]);
    forall i | 0 <= i < |m| ensures s[a + i] == m[i] {
      assert s[a..a + |m|][i] == s[a + i];
    }
    forall i | 0 <= i < a ensures IsSpace(s[i]) {
      assert s[..a][i] == s[i];
    }
    forall i | a + |m| <= i < |s| ensures IsSpace(s[i]) {
      assert s[a + |m|..][i - a - |m|] == s[i];
    }
  }

  /** The trimmed core of a padded string is unique. */
  lemma PaddedUnique(s: string, m1: string, m2: string)
    requires Padded(s, m1) && Trimmed(m1)
    requires Padded(s, m2) && Trimmed(m2)
    ensures m1 == m2
  {
    var a1 := PaddedIndex(s, m1);
    var a2 := PaddedIndex(s, m2);
    if |m1| > 0 {
      assert s[a1 + 0] == m1[0] && s[a1 + (|m1| - 1)] == m1[|m1| - 1];
    }
    if |m2| > 0 {
      assert s[a2 + 0] == m2[0] && s[a2 + (|m2| - 1)] == m2[|m2| - 1];
    }
    assert |m1| > 0 <==> |m2| > 0;
    if |m1| > 0 {
      assert a1 == a2;
      assert |m1| == |m2|;
      forall i | 0 <= i < |m1| ensures m1[i] == m2[i] {
        assert m1[i] == s[a1 + i] == m2[i];
      }
    }
  }

  /** Whitespace added on either side does not change the padded core. */
  lemma PaddedExtend(s: string, m: string, p: string, q: string)
    requires Padded(s, m) && AllSpace(p) && AllSpace(q)
    ensures Padded(p + s + q, m)
  {
    var a :| 0 <= a <= |s| - |m| && s[a..a + |m|] == m && AllSpace(s[..a]) && AllSpace(s[a + |m|..]);
    var x := p + s + q;
    var b := |p| + a;
    assert x[b..b + |m|] == m;
    assert x[..b] == p + s[..a];
    assert x[b + |m|..] == s[a + |m|..] + q;
  }

  /** `strip()` returns the trimmed core of any padded string. */
  lemma StripPadded(s: string, m: string)
    requires Padded(s, m) && Trimmed(m)
    ensures Strip(s) == m
  {
    PaddedUnique(s, Strip(s), m);
  }

  /** Lower-casing leaves whitespace where it is. */
  lemma LowerAround(p: string, s: string, q: string)
    requires AllSpace(p) && AllSpace(q)
    ensures Lower(p + s + q) == p + Lower(s) + q
  {
    assert forall i :: 0 <= i < |p| ==> LowerChar(p[i]) == p[i];
    assert forall i :: 0 <= i < |q| ==> LowerChar(q[i]) == q[i];
  }

  /** `(raw or "").lower().strip()`: the e-mail key used by register and login. */
  function Normalize(raw: Option<string>): (r: string)
    ensures Trimmed(r)
    ensures Lower(r) == r
    ensures Padded(Lower(raw.GetOr("")), r)
  {
    var l := Lower(raw.GetOr(""));
    assert Lower(l) == l;
    StripKeepsLower(l);
    Strip(l)
  }

  /** A string that lower-casing leaves alone is left alone by stripping too. */
  lemma StripKeepsLower(l: string)
    requires Lower(l) == l
    ensures Lower(Strip(l)) == Strip(l)
  {
    var m := Strip(l);
    var a := PaddedIndex(l, m);
    forall i | 0 <= i < |m| ensures Lower(m)[i] == m[i] {
      assert m[i] == l[a + i] == Lower(l)[a + i];
    }
  }

  /** Normalising twice is normalising once. */
  lemma NormalizeIdempotent(raw: Option<string>)
    ensures Normalize(Some(Normalize(raw))) == Normalize(raw)
  {
    var l := Lower(raw.GetOr(""));
    assert Lower(l) == l;
    var m := Strip(l);
    StripKeepsLower(l);
    assert Padded(m, m) by {
      assert m[0..|m|] == m && m[..0] == [] && m[|m|..] == [];
    }
    StripPadded(m, m);
  }

  /** Addresses that differ only in letter case and surrounding whitespace
      normalise to the same key, so they reach the same account. */
  lemma NormalizeIgnoresCaseAndPadding(s: string, t: string, p: string, q: string)
    requires Lower(s) == Lower(t) && AllSpace(p) && AllSpace(q)
    ensures Normalize(Some(p + s + q)) == Normalize(Some(t))
  {
    LowerAround(p, s, q);
    var m := Strip(Lower(t));
    PaddedExtend(Lower(s), m, p, q);
    StripPadded(p + Lower(s) + q, m);
  }
}
