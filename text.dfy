/**
 * The Python string operations the pipeline relies on: `in` (substring
 * search), the regular expression `vs.` used as a matchup test, ASCII
 * upper-casing, `split(sep)[0]` and `str.zfill`.
 */
module Text {

  /** `p` is a prefix of `s`. */
  predicate StartsWith(s: string, p: string) {
    |p| <= |s| && s[..|p|] == p
  }

  /** Python's `sub in s`. */
  predicate Contains(s: string, sub: string)
    decreases |s|
  {
    StartsWith(s, sub) || (s != [] && Contains(s[1..], sub))
  }

  /** `sub` occurs in `s` starting at position `i`. */
  predicate OccursAt(s: string, sub: string, i: int) {
    0 <= i <= |s| - |sub| && s[i..i + |sub|] == sub
  }

  /** `sub in s` holds exactly when `sub` occurs at some position of `s`. */
  lemma {:induction false} ContainsIffOccurs(s: string, sub: string)
    ensures Contains(s, sub) <==> exists i :: OccursAt(s, sub, i)
    decreases |s|
  {
    if s != [] {
      ContainsIffOccurs(s[1..], sub);
      if Contains(s[1..], sub) && !StartsWith(s, sub) {
        var i :| OccursAt(s[1..], sub, i);
        assert s[1..][i..i + |sub|] == s[i + 1..i + 1 + |sub|];
        assert OccursAt(s, sub, i + 1);
      }
      if StartsWith(s, sub) {
        assert OccursAt(s, sub, 0);
      }
      if exists i :: OccursAt(s, sub, i) {
        var i :| OccursAt(s, sub, i);
        if i > 0 {
          assert s[1..][i - 1..i - 1 + |sub|] == s[i..i + |sub|];
          assert OccursAt(s[1..], sub, i - 1);
        }
      }
    } else if StartsWith(s, sub) {
      assert OccursAt(s, sub, 0);
    }
  }

  /** A single-character needle occurs exactly when that character is in the string. */
  lemma ContainsChar(s: string, c: char)
    ensures Contains(s, [c]) <==> c in s
  {
    ContainsIffOccurs(s, [c]);
    if c in s {
      var i :| 0 <= i < |s| && s[i] == c;
      assert s[i..i + 1] == [c];
      assert OccursAt(s, [c], i);
    }
    if Contains(s, [c]) {
      var i :| OccursAt(s, [c], i);
      assert s[i] == s[i..i + 1][0];
    }
  }

  /**
   * `re.search('vs.', s)`: the letters "vs" followed by any character except a
   * line feed (the regular expression's `.`).
   */
  predicate MatchesVsAny(s: string)
    decreases |s|
  {
    (|s| >= 3 && s[0] == 'v' && s[1] == 's' && s[2] != '\n') || (s != [] && MatchesVsAny(s[1..]))
  }

  /** The regular expression is looser than the literal: every "vs." matches it. */
  lemma {:induction false} LiteralVsDotMatches(s: string)
    requires Contains(s, "vs.")
    ensures MatchesVsAny(s)
    decreases |s|
  {
    if !StartsWith(s, "vs.") {
      LiteralVsDotMatches(s[1..]);
    } else {
      assert s[..3] == "vs.";
      assert s[0] == 'v' && s[1] == 's' && s[2] == '.';
    }
  }

  /** ... and strictly looser: "vsX" is a home matchup as far as the regex is concerned. */
  lemma VsRegexLooserThanLiteral()
    ensures MatchesVsAny("vsX") && !Contains("vsX", "vs.")
  {
    assert !StartsWith("vsX", "vs.");
    assert !StartsWith("vsX"[1..], "vs.");
    assert !StartsWith("vsX"[1..][1..], "vs.");
    assert !StartsWith("vsX"[1..][1..][1..], "vs.");
  }

  function UpperChar(c: char): char {
    if 'a' <= c <= 'z' then (c as int - 32) as char else c
  }

  /** `s.upper()` restricted to ASCII letters. */
  function Upper(s: string): (u: string)
    ensures |u| == |s|
    ensures forall i :: 0 <= i < |s| ==> u[i] == UpperChar(s[i])
  {
    seq(|s|, i requires 0 <= i < |s| => UpperChar(s[i]))
  }

  /** Only the letters 'p'/'P' and 'k'/'K' upper-case to 'P' and 'K'. */
  lemma UpperCharIs(c: char, d: char)
    requires d == 'P' || d == 'K'
    ensures UpperChar(c) == d <==> c == d || c == (d as int + 32) as char
  {
  }

  /** `s.split(sep)[0]`: everything before the first `sep`, or all of `s`. */
  function BeforeFirst(s: string, sep: char): (r: string)
    ensures StartsWith(s, r)
    ensures sep !in r
    ensures r == s || (|r| < |s| && s[|r|] == sep)
    decreases |s|
  {
    if s == [] then []
    else if s[0] == sep then []
    else [s[0]] + BeforeFirst(s[1..], sep)
  }

  function Zeros(n: nat): (z: string)
    ensures |z| == n && forall i :: 0 <= i < n ==> z[i] == '0'
  {
    seq(n, _ => '0')
  }

  /**
   * `s.zfill(width)`: left-pad with '0' to `width` characters, keeping a
   * leading '+' or '-' in front of the padding.
   */
  function ZFill(s: string, width: int): (r: string)
  {
    if |s| >= width then s
    else if s != [] && (s[0] == '+' || s[0] == '-') then [s[0]] + Zeros(width - |s|) + s[1..]
    else Zeros(width - |s|) + s
  }

  /** The padded string is `width` long, or `s` itself when `s` is already that long. */
  lemma ZFillLength(s: string, width: int)
    ensures |s| >= width ==> ZFill(s, width) == s
    ensures |s| < width ==> |ZFill(s, width)| == width
  {
  }

  /** Without a sign, padding only prepends zeros: `s` is a suffix of the result. */
  lemma ZFillUnsigned(s: string, width: int)
    requires s == [] || (s[0] != '+' && s[0] != '-')
    ensures ZFill(s, width) == Zeros(if |s| >= width then 0 else width - |s|) + s
  {
    if |s| >= width {
      assert Zeros(0) + s == s;
    }
  }

  /** With a sign, the sign stays first and the digits after it are kept. */
  lemma ZFillSigned(s: string, width: int)
    requires s != [] && (s[0] == '+' || s[0] == '-') && |s| < width
    ensures ZFill(s, width)[0] == s[0]
    ensures ZFill(s, width)[1..] == Zeros(width - |s|) + s[1..]
  {
  }

  /** Padding twice is padding once. */
  lemma ZFillIdempotent(s: string, width: int)
    ensures ZFill(ZFill(s, width), width) == ZFill(s, width)
  {
    ZFillLength(s, width);
    ZFillLength(ZFill(s, width), width);
  }

  /**
   * Two unsigned ids of the same length pad to the same string only if they
   * were equal, so padding does not merge distinct ids of equal length.
   */
  lemma ZFillInjective(s: string, t: string, width: int)
    requires |s| == |t|
    requires s == [] || (s[0] != '+' && s[0] != '-')
    requires t == [] || (t[0] != '+' && t[0] != '-')
    requires ZFill(s, width) == ZFill(t, width)
    ensures s == t
  {
    ZFillUnsigned(s, width);
    ZFillUnsigned(t, width);
    var n := if |s| >= width then 0 else width - |s|;
    assert s == ZFill(s, width)[n..];
    assert t == ZFill(t, width)[n..];
  }
}
