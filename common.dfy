/** Small shared vocabulary: optional values, results, and the few string
    operations of C and Python 2 that the bindings rely on. */
module Common {

  /** The values of a C `long` (LP64): what a Python 2 `int` holds. */
  type CLong = x: int | -0x8000_0000_0000_0000 <= x < 0x8000_0000_0000_0000

  datatype Option<+T> = None | Some(value: T)

  datatype Result<+T, +E> = Ok(value: T) | Err(error: E)

  function DigitChar(d: nat): (c: char)
    requires d < 10
    ensures '0' <= c <= '9'
  {
    "0123456789"[d]
  }

  /** Python's `str()` of a non-negative int: decimal digits, no leading zero. */
  function NatToString(n: nat): (s: string)
    ensures 1 <= |s|
    ensures forall i :: 0 <= i < |s| ==> '0' <= s[i] <= '9'
    ensures n < 10 <==> |s| == 1
    decreases n
  {
    if n < 10 then [DigitChar(n)] else NatToString(n / 10) + [DigitChar(n % 10)]
  }

  /** Python's `str()` of an int. */
  function IntToString(i: int): string
  {
    if i < 0 then "-" + NatToString(-i) else NatToString(i)
  }

  /** A printed int starts with '-' exactly when it is negative. */
  lemma IntToStringSign(i: int)
    ensures |IntToString(i)| >= 1
    ensures IntToString(i)[0] == '-' <==> i < 0
  {
  }

  /** Distinct numbers print differently, so generated names such as
      "f0", "f1", ... never collide. */
  lemma {:induction false} NatToStringInjective(n: nat, m: nat)
    requires NatToString(n) == NatToString(m)
    ensures n == m
  {
    if n < 10 && m < 10 {
      assert NatToString(n)[0] == NatToString(m)[0];
    } else if n >= 10 && m >= 10 {
      var sn, sm := NatToString(n), NatToString(m);
      assert sn[|sn| - 1] == sm[|sm| - 1];
      assert NatToString(n / 10) == sn[..|sn| - 1] == sm[..|sm| - 1] == NatToString(m / 10);
      NatToStringInjective(n / 10, m / 10);
    }
  }

  /** ASCII lower-casing, as Python 2's `str.lower` in the C locale. */
  function LowerChar(c: char): (r: char)
    ensures 'A' <= c <= 'Z' ==> r as int == c as int + 32
    ensures !('A' <= c <= 'Z') ==> r == c
  {
    if 'A' <= c <= 'Z' then (c as int + 32) as char else c
  }

  function Lower(s: string): (r: string)
    ensures |r| == |s|
    ensures forall i :: 0 <= i < |s| ==> r[i] == LowerChar(s[i])
  {
    seq(|s|, i requires 0 <= i < |s| => LowerChar(s[i]))
  }

  /** `c` is `l` or, when `l` is a small letter, its capital. */
  predicate CaseVariant(c: char, l: char)
  {
    c == l || ('a' <= l <= 'z' && c as int == l as int - 32)
  }

  /** Lower-casing twice changes nothing more. */
  lemma LowerIdempotent(s: string)
    ensures Lower(Lower(s)) == Lower(s)
  {
  }

  /** A string lower-cases to a word without capitals exactly when it is
      that word with any of its letters capitalised: `g.lower() == "cuda"`
      holds for "CUDA", "Cuda", ... and for nothing else. */
  lemma LowerMatches(g: string, w: string)
    requires Lower(w) == w
    ensures Lower(g) == w <==> |g| == |w| && forall i :: 0 <= i < |g| ==> CaseVariant(g[i], w[i])
  {
    if |g| == |w| && forall i :: 0 <= i < |g| ==> CaseVariant(g[i], w[i]) {
      forall i | 0 <= i < |g|
        ensures Lower(g)[i] == w[i]
      {
        assert Lower(w)[i] == w[i];
      }
    }
    if Lower(g) == w {
      forall i | 0 <= i < |g|
        ensures CaseVariant(g[i], w[i])
      {
        assert Lower(g)[i] == w[i];
      }
    }
  }

  /** Python's `sub in s` on strings. */
  predicate Contains(s: string, sub: string)
    decreases |s|
  {
    |sub| <= |s| && (s[..|sub|] == sub || Contains(s[1..], sub))
  }

  /** What C sees of a Python string through `char *`: the characters
      before the first NUL. */
  function CStr(s: string): (r: string)
    ensures |r| <= |s| && r == s[..|r|]
    ensures '\0' !in r
    ensures |r| < |s| ==> s[|r|] == '\0'
  {
    if |s| == 0 || s[0] == '\0' then "" else [s[0]] + CStr(s[1..])
  }

  /** A string without NUL passes through C unchanged. */
  lemma CStrWithoutNul(s: string)
    requires '\0' !in s
    ensures CStr(s) == s
  {
  }

  /** Python's `sep.join(parts)`. */
  function JoinWith(sep: string, parts: seq<string>): string
  {
    if |parts| == 0 then ""
    else if |parts| == 1 then parts[0]
    else JoinWith(sep, parts[..|parts| - 1]) + sep + parts[|parts| - 1]
  }

  /** Replace every occurrence of one character by another (`str.replace`
      with one-character arguments). */
  function ReplaceChar(s: string, from: char, to: char): (r: string)
    ensures |r| == |s|
    ensures forall i :: 0 <= i < |s| ==> r[i] == (if s[i] == from then to else s[i])
  {
    seq(|s|, i requires 0 <= i < |s| => if s[i] == from then to else s[i])
  }

  /** After the replacement `from` is gone, and when `to` did not occur
      before, replacing back gives the string again; so strings without `to`
      never collide. */
  lemma ReplaceCharReversible(s: string, from: char, to: char)
    requires from != to
    ensures from !in ReplaceChar(s, from, to)
    ensures to !in s ==> ReplaceChar(ReplaceChar(s, from, to), to, from) == s
  {
    var r := ReplaceChar(s, from, to);
    assert forall i :: 0 <= i < |r| ==> r[i] != from;
  }
}
