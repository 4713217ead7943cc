/** String helpers standing for the Python built-ins the generator uses:
    ASCII `upper`/`lower`, slicing `s[0:n]`, `sep.join`, and `%s` of an int. */
module Text {

  predicate IsUpperAscii(c: char) { 'A' <= c <= 'Z' }
  predicate IsLowerAscii(c: char) { 'a' <= c <= 'z' }
  predicate IsDigit(c: char) { '0' <= c <= '9' }

  /** `c.upper()` restricted to ASCII; every other character is left as is. */
  function UpperChar(c: char): char
  {
    if IsLowerAscii(c) then (c as int - 32) as char else c
  }

  /** `c.lower()` restricted to ASCII. */
  function LowerChar(c: char): char
  {
    if IsUpperAscii(c) then (c as int + 32) as char else c
  }

  /** `s.lower()` restricted to ASCII. */
  function Lower(s: string): string
  {
    seq(|s|, i requires 0 <= i < |s| => LowerChar(s[i]))
  }

  lemma LowerCharFacts(c: char)
    ensures !IsUpperAscii(LowerChar(c))
    ensures LowerChar(LowerChar(c)) == LowerChar(c)
    ensures LowerChar(c) != c ==> IsUpperAscii(c) && IsLowerAscii(LowerChar(c))
  {
  }

  lemma UpperCharIdempotent(c: char)
    ensures UpperChar(UpperChar(c)) == UpperChar(c)
    ensures !IsLowerAscii(UpperChar(c))
  {
  }

  /** Python's `s[0:n]`: the first `n` characters, or all of `s` if it is shorter. */
  function Take(s: string, n: nat): (r: string)
    ensures |r| <= n && |r| <= |s|
    ensures |s| <= n ==> r == s
    ensures |s| > n ==> |r| == n
    ensures r == s[..|r|]
  {
    if |s| <= n then s else s[..n]
  }

  /** `sep.join(xs)`, built from the back the way the source's loops build it. */
  function Join(xs: seq<string>, sep: string): string
  {
    if |xs| == 0 then ""
    else if |xs| == 1 then xs[0]
    else Join(xs[..|xs| - 1], sep) + sep + xs[|xs| - 1]
  }

  /** `"".join(xs)`. */
  function Concat(xs: seq<string>): string
  {
    if |xs| == 0 then "" else Concat(xs[..|xs| - 1]) + xs[|xs| - 1]
  }

  lemma JoinSnoc(xs: seq<string>, x: string, sep: string)
    requires |xs| > 0
    ensures Join(xs + [x], sep) == Join(xs, sep) + sep + x
  {
    assert (xs + [x])[..|xs|] == xs;
  }

  lemma ConcatSnoc(xs: seq<string>, x: string)
    ensures Concat(xs + [x]) == Concat(xs) + x
  {
    assert (xs + [x])[..|xs|] == xs;
  }

  /** Number of occurrences of `c` in `s`. */
  function CountChar(s: string, c: char): nat
  {
    if |s| == 0 then 0 else CountChar(s[..|s| - 1], c) + (if s[|s| - 1] == c then 1 else 0)
  }

  lemma {:induction false} CountCharAppend(a: string, b: string, c: char)
    ensures CountChar(a + b, c) == CountChar(a, c) + CountChar(b, c)
    decreases |b|
  {
    if |b| == 0 {
      assert a + b == a;
    } else {
      assert (a + b)[..|a + b| - 1] == a + b[..|b| - 1];
      CountCharAppend(a, b[..|b| - 1], c);
    }
  }

  /** Joining pieces that hold no `c` with a separator holding exactly one `c`
      leaves one `c` between every two pieces and none elsewhere. */
  lemma {:induction false} JoinCountsSeparators(xs: seq<string>, sep: string, c: char)
    requires |xs| > 0
    requires CountChar(sep, c) == 1
    requires forall i :: 0 <= i < |xs| ==> CountChar(xs[i], c) == 0
    ensures CountChar(Join(xs, sep), c) == |xs| - 1
    decreases |xs|
  {
    if |xs| > 1 {
      var init := xs[..|xs| - 1];
      JoinCountsSeparators(init, sep, c);
      CountCharAppend(Join(init, sep), sep, c);
      CountCharAppend(Join(init, sep) + sep, xs[|xs| - 1], c);
    }
  }

  /** `t` occurs in `s` (Python's `t in s` on strings). */
  ghost predicate IsSubstring(t: string, s: string)
  {
    exists i :: OccursAt(t, s, i)
  }

  predicate OccursAt(t: string, s: string, i: int)
  {
    0 <= i <= |s| - |t| && s[i..i + |t|] == t
  }

  /** `t` occurs in a text made of `a`, then `t`, then `b`, however that
      text was bracketed. */
  lemma Sandwiched(a: string, t: string, b: string, s: string)
    requires s == a + t + b
    ensures IsSubstring(t, s)
  {
    assert OccursAt(t, s, |a|);
  }

  /** A prefix and a suffix of a text occur in it. */
  lemma EndsOccur(head: string, foot: string, s: string)
    requires |head| <= |s| && s[..|head|] == head
    requires |foot| <= |s| && s[|s| - |foot|..] == foot
    ensures IsSubstring(head, s) && IsSubstring(foot, s)
  {
    assert OccursAt(head, s, 0);
    assert s[|s| - |foot|..|s|] == s[|s| - |foot|..];
    assert OccursAt(foot, s, |s| - |foot|);
  }

  /** An occurrence inside an occurrence is an occurrence. */
  lemma SubstringTransitive(t: string, u: string, s: string)
    requires IsSubstring(t, u) && IsSubstring(u, s)
    ensures IsSubstring(t, s)
  {
    var i :| OccursAt(u, s, i);
    var j :| OccursAt(t, u, j);
    forall k | 0 <= k < |t|
      ensures s[i + j + k] == t[k]
    {
      assert s[i..i + |u|][j + k] == u[j + k];
      assert u[j..j + |t|][k] == t[k];
    }
    assert s[i + j..i + j + |t|] == t;
    assert OccursAt(t, s, i + j);
  }

  function DigitChar(d: nat): char
    requires d < 10
  {
    ('0' as int + d) as char
  }

  /** `str(n)` for a natural number: decimal, most significant digit first. */
  function NatText(n: nat): (r: string)
    ensures |r| > 0
    ensures forall i :: 0 <= i < |r| ==> IsDigit(r[i])
    ensures |r| > 1 ==> r[0] != '0'
  {
    if n < 10 then [DigitChar(n)] else NatText(n / 10) + [DigitChar(n % 10)]
  }

  /** `str(n)` for any int, with a leading minus sign for negatives. */
  function IntText(n: int): string
  {
    if n < 0 then "-" + NatText(-n) else NatText(n)
  }

  function DigitValue(c: char): nat
    requires IsDigit(c)
  {
    c as int - '0' as int
  }

  /** The value of a string of decimal digits: the inverse of NatText. */
  function DigitsValue(s: string): nat
    requires forall i :: 0 <= i < |s| ==> IsDigit(s[i])
  {
    if |s| == 0 then 0
    else DigitsValue(s[..|s| - 1]) * 10 + DigitValue(s[|s| - 1])
  }

  lemma {:induction false} NatTextRoundTrip(n: nat)
    ensures DigitsValue(NatText(n)) == n
  {
    if n >= 10 {
      var prefix := NatText(n / 10);
      var r := NatText(n);
      assert r == prefix + [DigitChar(n % 10)];
      assert r[..|r| - 1] == prefix;
      NatTextRoundTrip(n / 10);
    }
  }
}
