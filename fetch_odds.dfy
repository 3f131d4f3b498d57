/**
 * The pure parts of the odds scraper: reading a handicap / total cell of
 * the odds page into a (line, odds) pair, the day range a crawl walks, and
 * the order in which a scraped game is looked up in the `games` table.
 *
 * Floats are reals; `float(n)` of a number token is its exact decimal
 * value.  The database behind the lookup is a function parameter.
 */
module FetchOdds {
  import opened Wrappers
  import opened Text

  // ---------------------------------------------------------------
  // re.findall(r'[-+]?\d+\.\d+|[-+]?\d+', text)
  // ---------------------------------------------------------------

  predicate IsDigit(c: char) {
    '0' <= c <= '9'
  }

  predicate IsSign(c: char) {
    c == '+' || c == '-'
  }

  /** The end of the run of digits starting at `i`. */
  function DigitsEnd(s: string, i: nat): (j: nat)
    requires i <= |s|
    ensures i <= j <= |s|
    ensures j == |s| || !IsDigit(s[j])
    decreases |s| - i
  {
    if i < |s| && IsDigit(s[i]) then DigitsEnd(s, i + 1) else i
  }

  /**
   * Where the pattern's match starting at `i` ends, if it matches there:
   * an optional sign, digits, then `.` and digits when they follow (the
   * first alternative), else the digits alone (the second).
   */
  function MatchAt(s: string, i: nat): (m: Option<nat>)
    requires i < |s|
    ensures m.Some? ==> i < m.value <= |s|
  {
    var j := if IsSign(s[i]) then i + 1 else i;
    if j < |s| && IsDigit(s[j]) then
      var d := DigitsEnd(s, j);
      if d + 1 < |s| && s[d] == '.' && IsDigit(s[d + 1]) then Some(DigitsEnd(s, d + 1)) else Some(d)
    else None
  }

  /** `findall` from position `i`: take a match and go on after it, or move one character on. */
  function TokensFrom(s: string, i: nat): seq<string>
    requires i <= |s|
    decreases |s| - i
  {
    if i == |s| then []
    else match MatchAt(s, i)
      case Some(e) => [s[i..e]] + TokensFrom(s, e)
      case None => TokensFrom(s, i + 1)
  }

  function Tokens(s: string): seq<string> {
    TokensFrom(s, 0)
  }

  /** A number token: the whole string is one match of the pattern. */
  predicate IsNumeral(t: string) {
    t != [] && MatchAt(t, 0) == Some(|t|)
  }

  /** A character no match can contain or start with, so it separates what lies either side of it. */
  predicate Separator(c: char) {
    !IsDigit(c) && !IsSign(c) && c != '.'
  }

  lemma {:induction false} DigitsEndShift(p: string, b: string, k: nat)
    requires k <= |b|
    ensures DigitsEnd(p + b, |p| + k) == |p| + DigitsEnd(b, k)
    decreases |b| - k
  {
    if k < |b| && IsDigit(b[k]) {
      assert (p + b)[|p| + k] == b[k];
      DigitsEndShift(p, b, k + 1);
    } else if k < |b| {
      assert (p + b)[|p| + k] == b[k];
    }
  }

  /** Reading past the end of `a` into a separator is the same as reading to the end of `a`. */
  lemma {:induction false} DigitsEndCut(a: string, c: char, b: string, k: nat)
    requires k <= |a| && Separator(c)
    ensures DigitsEnd(a + [c] + b, k) == DigitsEnd(a, k)
    decreases |a| - k
  {
    var s := a + [c] + b;
    if k < |a| {
      assert s[k] == a[k];
      if IsDigit(a[k]) {
        DigitsEndCut(a, c, b, k + 1);
      }
    } else {
      assert s[k] == c;
    }
  }

  lemma MatchAtShift(p: string, b: string, k: nat)
    requires k < |b|
    ensures MatchAt(p + b, |p| + k) == (if MatchAt(b, k).Some? then Some(|p| + MatchAt(b, k).value) else None)
  {
    var s := p + b;
    assert s[|p| + k] == b[k];
    var j := if IsSign(b[k]) then k + 1 else k;
    if j < |b| {
      assert s[|p| + j] == b[j];
      DigitsEndShift(p, b, j);
      var d := DigitsEnd(b, j);
      if d < |b| { assert s[|p| + d] == b[d]; }
      if d + 1 < |b| {
        assert s[|p| + d + 1] == b[d + 1];
        DigitsEndShift(p, b, d + 1);
      }
    }
  }

  lemma MatchAtCut(a: string, c: char, b: string, k: nat)
    requires k < |a| && Separator(c)
    ensures MatchAt(a + [c] + b, k) == MatchAt(a, k)
  {
    var s := a + [c] + b;
    assert s[k] == a[k];
    var j := if IsSign(a[k]) then k + 1 else k;
    if j < |a| {
      assert s[j] == a[j];
      DigitsEndCut(a, c, b, j);
      var d := DigitsEnd(a, j);
      if d < |a| {
        assert s[d] == a[d];
        if d + 1 < |a| {
          assert s[d + 1] == a[d + 1];
          DigitsEndCut(a, c, b, d + 1);
        } else {
          assert s[d + 1] == c;
        }
      } else {
        assert s[d] == c;
      }
    } else {
      assert s[j] == c;
    }
  }

  lemma {:induction false} TokensFromShift(p: string, b: string, k: nat)
    requires k <= |b|
    ensures TokensFrom(p + b, |p| + k) == TokensFrom(b, k)
    decreases |b| - k, 1
  {
    if k < |b| {
      if MatchAt(b, k).Some? {
        TokensFromShiftMatch(p, b, k);
      } else {
        TokensFromShiftSkip(p, b, k);
      }
    }
  }

  lemma {:induction false} TokensFromShiftMatch(p: string, b: string, k: nat)
    requires k < |b| && MatchAt(b, k).Some?
    ensures TokensFrom(p + b, |p| + k) == TokensFrom(b, k)
    decreases |b| - k, 0
  {
    var s := p + b;
    var e := MatchAt(b, k).value;
    MatchAtShift(p, b, k);
    TokensTake(s, |p| + k, |p| + e);
    TokensTake(b, k, e);
    TokensFromShift(p, b, e);
    SliceShift(p, b, k, e);
  }

  lemma {:induction false} TokensFromShiftSkip(p: string, b: string, k: nat)
    requires k < |b| && MatchAt(b, k).None?
    ensures TokensFrom(p + b, |p| + k) == TokensFrom(b, k)
    decreases |b| - k, 0
  {
    var s := p + b;
    MatchAtShift(p, b, k);
    var i := |p| + k;
    assert MatchAt(s, i).None?;
    TokensSkip(s, i);
    TokensSkip(b, k);
    TokensFromShift(p, b, k + 1);
    assert i + 1 == |p| + (k + 1);
  }

  lemma TokensSkip(s: string, i: nat)
    requires i < |s| && MatchAt(s, i).None?
    ensures TokensFrom(s, i) == TokensFrom(s, i + 1)
  {
  }

  /** One step of `findall`: a match is taken whole. */
  lemma TokensTake(s: string, i: nat, e: nat)
    requires i < |s| && MatchAt(s, i) == Some(e)
    ensures TokensFrom(s, i) == [s[i..e]] + TokensFrom(s, e)
  {
  }

  lemma SliceShift(p: string, b: string, k: nat, e: nat)
    requires k <= e <= |b|
    ensures (p + b)[|p| + k..|p| + e] == b[k..e]
  {
  }

  lemma {:induction false} TokensFromCut(a: string, c: char, b: string, k: nat)
    requires k <= |a| && Separator(c)
    ensures TokensFrom(a + [c] + b, k) == TokensFrom(a, k) + Tokens(b)
    decreases |a| - k, 1
  {
    var s := a + [c] + b;
    if k < |a| {
      MatchAtCut(a, c, b, k);
      if MatchAt(a, k).Some? {
        TokensFromCutMatch(a, c, b, k);
      } else {
        TokensSkip(s, k);
        TokensSkip(a, k);
        TokensFromCut(a, c, b, k + 1);
      }
    } else {
      assert s[k] == c;
      assert MatchAt(s, k).None?;
      TokensSkip(s, k);
      assert s == (a + [c]) + b;
      TokensFromShift(a + [c], b, 0);
    }
  }

  lemma {:induction false} TokensFromCutMatch(a: string, c: char, b: string, k: nat)
    requires k < |a| && Separator(c) && MatchAt(a, k).Some?
    ensures TokensFrom(a + [c] + b, k) == TokensFrom(a, k) + Tokens(b)
    decreases |a| - k, 0
  {
    var s := a + [c] + b;
    var e := MatchAt(a, k).value;
    MatchAtCut(a, c, b, k);
    TokensTake(s, k, e);
    TokensTake(a, k, e);
    SliceCut(a + [c], b, k, e);
    SliceCut(a, [c], k, e);
    TokensFromCut(a, c, b, e);
    var t := a[k..e];
    assert [t] + (TokensFrom(a, e) + Tokens(b)) == ([t] + TokensFrom(a, e)) + Tokens(b);
  }

  lemma SliceCut(a: string, rest: string, k: nat, e: nat)
    requires k <= e <= |a|
    ensures (a + rest)[k..e] == a[k..e]
  {
  }

  /** No number spans a separator: the numbers of `a`, separator, `b` are those of `a` followed by those of `b`. */
  lemma TokensSplit(a: string, c: char, b: string)
    requires Separator(c)
    ensures Tokens(a + [c] + b) == Tokens(a) + Tokens(b)
  {
    TokensFromCut(a, c, b, 0);
  }

  /** A number token on its own is found whole. */
  lemma TokensOfNumeral(t: string)
    requires IsNumeral(t)
    ensures Tokens(t) == [t]
  {
    assert TokensFrom(t, |t|) == [];
    assert t[0..|t|] == t;
  }

  /** The numbers written out with single spaces between them. */
  function SpaceJoined(ts: seq<string>): string
    decreases |ts|
  {
    if ts == [] then []
    else if |ts| == 1 then ts[0]
    else SpaceJoined(ts[..|ts| - 1]) + [' '] + ts[|ts| - 1]
  }

  /** Round trip: writing number tokens out with spaces and extracting the numbers gives the same tokens back, in order. */
  lemma {:induction false} TokensRoundTrip(ts: seq<string>)
    requires forall k :: 0 <= k < |ts| ==> IsNumeral(ts[k])
    ensures Tokens(SpaceJoined(ts)) == ts
    decreases |ts|
  {
    if |ts| == 1 {
      TokensOfNumeral(ts[0]);
    } else if |ts| > 1 {
      var init := ts[..|ts| - 1];
      TokensRoundTrip(init);
      TokensSplit(SpaceJoined(init), ' ', ts[|ts| - 1]);
      TokensOfNumeral(ts[|ts| - 1]);
      assert ts == init + [ts[|ts| - 1]];
    }
  }

  /** Text with no digit holds no number. */
  lemma {:induction false} NoDigitNoTokens(s: string, k: nat)
    requires k <= |s| && forall i :: k <= i < |s| ==> !IsDigit(s[i])
    ensures TokensFrom(s, k) == []
    decreases |s| - k
  {
    if k < |s| {
      NoDigitNoTokens(s, k + 1);
    }
  }

  // ---------------------------------------------------------------
  // float(n)
  // ---------------------------------------------------------------

  function DigitsValue(ds: string): nat
    decreases |ds|
  {
    if ds == [] then 0
    else 10 * DigitsValue(ds[..|ds| - 1]) + (if IsDigit(ds[|ds| - 1]) then ds[|ds| - 1] as int - '0' as int else 0)
  }

  function Pow10(n: nat): (p: nat)
    ensures p >= 1
  {
    if n == 0 then 1 else 10 * Pow10(n - 1)
  }

  /** `float(t)` of a number token: sign, integer digits, and the fraction digits over a power of ten. */
  function NumberValue(t: string): real {
    if t == [] then 0.0
    else
      var j := if IsSign(t[0]) then 1 else 0;
      var d := DigitsEnd(t, j);
      var whole := DigitsValue(t[j..d]) as real;
      var frac := if d + 1 < |t| then DigitsValue(t[d + 1..]) as real / Pow10(|t| - d - 1) as real else 0.0;
      if t[0] == '-' then -(whole + frac) else whole + frac
  }

  /** The numbers of a cleaned cell, left to right. */
  function Numbers(s: string): (ns: seq<real>)
    ensures |ns| == |Tokens(s)|
  {
    seq(|Tokens(s)|, k requires 0 <= k < |Tokens(s)| => NumberValue(Tokens(s)[k]))
  }

  // ---------------------------------------------------------------
  // Cleaning the cell text
  // ---------------------------------------------------------------

  /** The first ')' at or after `i` with no line feed before it (the lazy `.*?` stops there; `.` never matches a line feed). */
  function CloseAt(s: string, i: nat): (j: Option<nat>)
    requires i <= |s|
    ensures j.Some? ==> i <= j.value < |s| && s[j.value] == ')'
    ensures j.Some? ==> forall k :: i <= k < j.value ==> s[k] != ')' && s[k] != '\n'
    decreases |s| - i
  {
    if i == |s| then None
    else if s[i] == ')' then Some(i)
    else if s[i] == '\n' then None
    else CloseAt(s, i + 1)
  }

  /** `re.sub(r'\(.*?\)', '', s)` from position `i`. */
  function StripParensFrom(s: string, i: nat): string
    requires i <= |s|
    decreases |s| - i
  {
    if i == |s| then []
    else if s[i] == '(' && CloseAt(s, i + 1).Some? then StripParensFrom(s, CloseAt(s, i + 1).value + 1)
    else [s[i]] + StripParensFrom(s, i + 1)
  }

  function StripParens(s: string): string {
    StripParensFrom(s, 0)
  }

  lemma {:induction false} StripParensFromShift(p: string, b: string, k: nat)
    requires k <= |b|
    ensures StripParensFrom(p + b, |p| + k) == StripParensFrom(b, k)
    decreases |b| - k, 1
  {
    if k < |b| {
      if b[k] == '(' && CloseAt(b, k + 1).Some? {
        StripParensFromShiftGroup(p, b, k);
      } else {
        StripParensFromShiftKeep(p, b, k);
      }
    }
  }

  lemma {:induction false} StripParensFromShiftGroup(p: string, b: string, k: nat)
    requires k < |b| && b[k] == '(' && CloseAt(b, k + 1).Some?
    ensures StripParensFrom(p + b, |p| + k) == StripParensFrom(b, k)
    decreases |b| - k, 0
  {
    var s := p + b;
    var e := CloseAt(b, k + 1).value;
    assert s[|p| + k] == '(';
    CloseAtShift(p, b, k + 1);
    assert CloseAt(s, |p| + k + 1) == Some(|p| + e);
    assert StripParensFrom(s, |p| + k) == StripParensFrom(s, |p| + e + 1);
    StripParensFromShift(p, b, e + 1);
  }

  lemma {:induction false} StripParensFromShiftKeep(p: string, b: string, k: nat)
    requires k < |b| && !(b[k] == '(' && CloseAt(b, k + 1).Some?)
    ensures StripParensFrom(p + b, |p| + k) == StripParensFrom(b, k)
    decreases |b| - k, 0
  {
    var s := p + b;
    assert s[|p| + k] == b[k];
    CloseAtShift(p, b, k + 1);
    assert !(s[|p| + k] == '(' && CloseAt(s, |p| + k + 1).Some?);
    assert StripParensFrom(s, |p| + k) == [b[k]] + StripParensFrom(s, |p| + k + 1);
    StripParensFromShift(p, b, k + 1);
  }

  lemma {:induction false} CloseAtShift(p: string, b: string, k: nat)
    requires k <= |b|
    ensures CloseAt(p + b, |p| + k) == (if CloseAt(b, k).Some? then Some(|p| + CloseAt(b, k).value) else None)
    decreases |b| - k
  {
    if k < |b| {
      assert (p + b)[|p| + k] == b[k];
      CloseAtShift(p, b, k + 1);
    }
  }

  /** Text before the first '(' is kept as it is. */
  lemma {:induction false} StripParensKeepsPrefix(a: string, b: string, k: nat)
    requires k <= |a| && '(' !in a
    ensures StripParensFrom(a + b, k) == a[k..] + StripParens(b)
    decreases |a| - k
  {
    if k < |a| {
      assert (a + b)[k] == a[k];
      StripParensKeepsPrefix(a, b, k + 1);
      assert a[k..] == [a[k]] + a[k + 1..];
    } else {
      assert a + b == a + b;
      StripParensFromShift(a, b, 0);
    }
  }

  /** A parenthesised segment on one line is removed, together with its parentheses. */
  lemma ParenSegmentRemoved(a: string, x: string, b: string)
    requires '(' !in a && ')' !in x && '\n' !in x
    ensures StripParens(a + ['('] + x + [')'] + b) == a + StripParens(b)
  {
    var rest := ['('] + x + [')'] + b;
    var s := a + rest;
    assert a + ['('] + x + [')'] + b == s;
    StripParensKeepsPrefix(a, rest, 0);
    assert StripParensFrom(rest, 0) == StripParensFrom(rest, |x| + 2) by {
      assert rest[0] == '(';
      CloseFound(rest, x, 1);
    }
    assert rest == (['('] + x + [')']) + b;
    StripParensFromShift(['('] + x + [')'], b, 0);
    assert a[0..] == a;
  }

  lemma {:induction false} CloseFound(rest: string, x: string, k: nat)
    requires |rest| >= |x| + 2 && rest[..|x| + 2] == ['('] + x + [')']
    requires ')' !in x && '\n' !in x && 1 <= k <= |x| + 1
    ensures CloseAt(rest, k) == Some(|x| + 1)
    decreases |x| + 1 - k
  {
    assert rest[|x| + 1] == ')';
    if k <= |x| {
      assert rest[k] == x[k - 1];
      CloseFound(rest, x, k + 1);
    }
  }

  /** `s.replace(pat, '')`: occurrences removed left to right, without overlap. */
  function RemoveAllFrom(s: string, pat: string, i: nat): string
    requires |pat| > 0 && i <= |s|
    decreases |s| - i
  {
    if i == |s| then []
    else if OccursAt(s, pat, i) then RemoveAllFrom(s, pat, i + |pat|)
    else [s[i]] + RemoveAllFrom(s, pat, i + 1)
  }

  const Nbsp := "&nbsp;"

  function RemoveNbsp(s: string): string {
    RemoveAllFrom(s, Nbsp, 0)
  }

  lemma OccursAtShift(p: string, b: string, pat: string, k: nat)
    requires k < |b|
    ensures OccursAt(p + b, pat, |p| + k) <==> OccursAt(b, pat, k)
  {
    var s := p + b;
    if |p| + k <= |s| - |pat| {
      assert s[|p| + k..|p| + k + |pat|] == b[k..k + |pat|];
    }
  }

  lemma {:induction false} RemoveAllFromShift(p: string, b: string, pat: string, k: nat)
    requires |pat| > 0 && k <= |b|
    ensures RemoveAllFrom(p + b, pat, |p| + k) == RemoveAllFrom(b, pat, k)
    decreases |b| - k, 1
  {
    if k < |b| {
      if OccursAt(b, pat, k) {
        RemoveAllFromShiftSkip(p, b, pat, k);
      } else {
        RemoveAllFromShiftKeep(p, b, pat, k);
      }
    }
  }

  lemma {:induction false} RemoveAllFromShiftSkip(p: string, b: string, pat: string, k: nat)
    requires |pat| > 0 && k < |b| && OccursAt(b, pat, k)
    ensures RemoveAllFrom(p + b, pat, |p| + k) == RemoveAllFrom(b, pat, k)
    decreases |b| - k, 0
  {
    OccursAtShift(p, b, pat, k);
    RemoveAllFromShift(p, b, pat, k + |pat|);
    assert |p| + k + |pat| == |p| + (k + |pat|);
  }

  lemma {:induction false} RemoveAllFromShiftKeep(p: string, b: string, pat: string, k: nat)
    requires |pat| > 0 && k < |b| && !OccursAt(b, pat, k)
    ensures RemoveAllFrom(p + b, pat, |p| + k) == RemoveAllFrom(b, pat, k)
    decreases |b| - k, 0
  {
    var s := p + b;
    OccursAtShift(p, b, pat, k);
    assert s[|p| + k] == b[k];
    RemoveAllFromShift(p, b, pat, k + 1);
    assert |p| + k + 1 == |p| + (k + 1);
  }

  /** `&nbsp;` can only start at an '&'. */
  lemma NoNbspWithoutAmpersand(s: string, k: nat)
    requires k < |s| && s[k] != '&'
    ensures !OccursAt(s, Nbsp, k)
  {
    if k + |Nbsp| <= |s| {
      assert s[k..k + |Nbsp|][0] == s[k];
    }
  }

  /** Text with no '&' is left as it is. */
  lemma {:induction false} NoAmpersandUnchanged(s: string, k: nat)
    requires k <= |s| && '&' !in s[k..]
    ensures RemoveAllFrom(s, Nbsp, k) == s[k..]
    decreases |s| - k
  {
    if k < |s| {
      assert s[k] == s[k..][0];
      NoNbspWithoutAmpersand(s, k);
      assert s[k + 1..] == s[k..][1..];
      NoAmpersandUnchanged(s, k + 1);
    }
  }

  /** An `&nbsp;` after text with no '&' is dropped, and the text before it kept. */
  lemma NbspRemoved(a: string, b: string)
    requires '&' !in a
    ensures RemoveNbsp(a + Nbsp + b) == a + RemoveNbsp(b)
  {
    var rest := Nbsp + b;
    var s := a + rest;
    assert a + Nbsp + b == s;
    NbspPrefix(a, rest, 0);
    assert OccursAt(rest, Nbsp, 0) by {
      assert rest[0..|Nbsp|] == Nbsp;
    }
    assert rest == Nbsp + b;
    RemoveAllFromShift(Nbsp, b, Nbsp, 0);
    assert a[0..] == a;
  }

  lemma {:induction false} NbspPrefix(a: string, rest: string, k: nat)
    requires k <= |a| && '&' !in a
    ensures RemoveAllFrom(a + rest, Nbsp, k) == a[k..] + RemoveAllFrom(rest, Nbsp, 0)
    decreases |a| - k
  {
    var s := a + rest;
    if k < |a| {
      assert s[k] == a[k];
      NoNbspWithoutAmpersand(s, k);
      NbspPrefix(a, rest, k + 1);
      assert a[k..] == [a[k]] + a[k + 1..];
    } else {
      RemoveAllFromShift(a, rest, Nbsp, 0);
    }
  }

  /** `str.isspace()` characters, the ones `strip()` removes. */
  predicate IsSpace(c: char) {
    ('\t' <= c <= '\r') || ('\U{1c}' <= c <= ' ') || c == '\U{85}' || c == '\U{a0}' ||
    c == '\U{1680}' || ('\U{2000}' <= c <= '\U{200a}') || c == '\U{2028}' || c == '\U{2029}' ||
    c == '\U{202f}' || c == '\U{205f}' || c == '\U{3000}'
  }

  function StripLeft(s: string): (r: string)
    decreases |s|
  {
    if s != [] && IsSpace(s[0]) then StripLeft(s[1..]) else s
  }

  function StripRight(s: string): (r: string)
    decreases |s|
  {
    if s != [] && IsSpace(s[|s| - 1]) then StripRight(s[..|s| - 1]) else s
  }

  /** `s.strip()`. */
  function Strip(s: string): string {
    StripRight(StripLeft(s))
  }

  lemma SpaceSeparates(c: char)
    requires IsSpace(c)
    ensures Separator(c)
  {
  }

  lemma {:induction false} StripLeftKeepsNumbers(s: string)
    ensures Tokens(StripLeft(s)) == Tokens(s)
    decreases |s|
  {
    if s != [] && IsSpace(s[0]) {
      StripLeftKeepsNumbers(s[1..]);
      TokensSplit([], s[0], s[1..]);
      assert [] + [s[0]] + s[1..] == s;
    }
  }

  lemma {:induction false} StripRightKeepsNumbers(s: string)
    ensures Tokens(StripRight(s)) == Tokens(s)
    decreases |s|
  {
    if s != [] && IsSpace(s[|s| - 1]) {
      StripRightKeepsNumbers(s[..|s| - 1]);
      TokensSplit(s[..|s| - 1], s[|s| - 1], []);
      assert s[..|s| - 1] + [s[|s| - 1]] + [] == s;
    }
  }

  /** `strip()` removes only characters no number contains, so the numbers are the same with or without it. */
  lemma StripKeepsNumbers(s: string)
    ensures Tokens(Strip(s)) == Tokens(s)
  {
    StripLeftKeepsNumbers(s);
    StripRightKeepsNumbers(StripLeft(s));
  }

  /** The text the numbers are read from: parentheses, then `&nbsp;`, removed, then stripped. */
  function Cleaned(text: string): string {
    Strip(RemoveNbsp(StripParens(text)))
  }

  /** Details in parentheses (on one line, after text with no parenthesis) do not change the text the numbers are read from. */
  lemma ParenDetailIgnored(a: string, x: string, b: string)
    requires '(' !in a && ')' !in x && '\n' !in x
    ensures Cleaned(a + ['('] + x + [')'] + b) == Cleaned(a + b)
  {
    ParenSegmentRemoved(a, x, b);
    StripParensKeepsPrefix(a, b, 0);
    assert a[0..] == a;
  }

  // ---------------------------------------------------------------
  // parse_cell_robust and parse_tot_smart
  // ---------------------------------------------------------------

  /** A parsed cell: the line (handicap points or total) and the odds. */
  datatype Cell = Cell(value: Option<real>, odds: Option<real>)

  /** An empty cell, a dash, or a market not yet open ("未開"). */
  predicate Unopened(text: string) {
    text == [] || text == "-" || Contains(text, "未開")
  }

  /** `'PK' in text.upper()`. */
  predicate IsPk(text: string) {
    Contains(Upper(text), "PK")
  }

  /** Where the numbers of a cell go: one number is a line when it is above 50 or zero, else the odds; of several, the last two are line and odds. */
  function Assign(nums: seq<real>): (c: Cell)
    requires nums != []
  {
    if |nums| == 1 then
      if nums[0] > 50.0 || nums[0] == 0.0 then Cell(Some(nums[0]), None) else Cell(None, Some(nums[0]))
    else Cell(Some(nums[|nums| - 2]), Some(nums[|nums| - 1]))
  }

  /** `parse_cell_robust(text)`. */
  function ParseCell(text: string): (c: Cell)
    ensures Unopened(text) ==> c == Cell(None, None)
    ensures !Unopened(text) && Numbers(Cleaned(text)) == [] ==> c == (if IsPk(text) then Cell(Some(0.0), None) else Cell(None, None))
    ensures !Unopened(text) && Numbers(Cleaned(text)) != [] && IsPk(text) ==> c.value == Some(0.0)
    ensures c.odds.Some? ==> c.odds.value in Numbers(Cleaned(text))
    ensures !Unopened(text) ==>
              var ns := Numbers(Cleaned(text));
              c.odds == (if |ns| >= 2 then Some(ns[|ns| - 1])
                         else if |ns| == 1 && !(ns[0] > 50.0 || ns[0] == 0.0) then Some(ns[0])
                         else None)
  {
    if Unopened(text) then Cell(None, None)
    else
      var nums := Numbers(Cleaned(text));
      if nums == [] then (if IsPk(text) then Cell(Some(0.0), None) else Cell(None, None))
      else
        var c := Assign(nums);
        if IsPk(text) then c.(value := Some(0.0)) else c
  }

  /**
   * The placement rule on the numbers found, as the cases read; "PK"
   * replaces whatever line was found by 0 and leaves the odds alone.
   */
  lemma ParseCellCases(text: string)
    requires !Unopened(text)
    ensures var ns := Numbers(Cleaned(text));
            var pk := IsPk(text);
            (|ns| == 0 ==> ParseCell(text) == Cell(if pk then Some(0.0) else None, None)) &&
            (|ns| == 1 && (ns[0] > 50.0 || ns[0] == 0.0) ==>
               ParseCell(text) == Cell(Some(if pk then 0.0 else ns[0]), None)) &&
            (|ns| == 1 && !(ns[0] > 50.0 || ns[0] == 0.0) ==>
               ParseCell(text) == Cell(if pk then Some(0.0) else None, Some(ns[0]))) &&
            (|ns| >= 2 ==> ParseCell(text) == Cell(Some(if pk then 0.0 else ns[|ns| - 2]), Some(ns[|ns| - 1])))
  {
  }

  /** With no number in the cleaned text, only "PK" yields a value, and it is zero. */
  lemma PkWithoutNumbers(text: string)
    requires !Unopened(text) && Tokens(Cleaned(text)) == []
    ensures ParseCell(text).odds == None
    ensures ParseCell(text).value.Some? <==> IsPk(text)
    ensures ParseCell(text).value.Some? ==> ParseCell(text).value.value == 0.0
  {
  }

  /** Two cells alike in their guard and "PK" flag, whose cleaned text agrees, parse alike; so a parenthesised detail never changes the parse. */
  lemma ParseCellIgnoresDetail(a: string, x: string, b: string)
    requires '(' !in a && ')' !in x && '\n' !in x
    requires Unopened(a + ['('] + x + [')'] + b) == Unopened(a + b)
    requires IsPk(a + ['('] + x + [')'] + b) == IsPk(a + b)
    ensures ParseCell(a + ['('] + x + [')'] + b) == ParseCell(a + b)
  {
    ParenDetailIgnored(a, x, b);
  }

  /** The `float()` conversion loop over the number tokens. */
  method FloatsOf(nums: seq<string>) returns (fs: seq<real>)
    ensures |fs| == |nums|
    ensures forall k :: 0 <= k < |nums| ==> fs[k] == NumberValue(nums[k])
  {
    fs := [];
    var k := 0;
    while k < |nums|
      invariant 0 <= k <= |nums| && |fs| == k
      invariant forall i :: 0 <= i < k ==> fs[i] == NumberValue(nums[i])
    {
      fs := fs + [NumberValue(nums[k])];
      k := k + 1;
    }
  }

  /** `parse_cell_robust` step by step: guard, PK flag, cleaning, number extraction and conversion, placement. */
  method ParseCellRobust(text: string) returns (c: Cell)
    ensures c == ParseCell(text)
  {
    if |text| == 0 || text == "-" || Contains(text, "未開") {
      return Cell(None, None);
    }
    var isPk := Contains(Upper(text), "PK");
    var cleaned := Strip(RemoveNbsp(StripParens(text)));
    var nums := Tokens(cleaned);
    if |nums| == 0 {
      if isPk {
        return Cell(Some(0.0), None);
      }
      return Cell(None, None);
    }
    var numsFloat := FloatsOf(nums);
    assert numsFloat == Numbers(cleaned);
    c := Assign(numsFloat);
    if isPk {
      c := c.(value := Some(0.0));
    }
  }

  function Abs(x: real): (r: real)
    ensures r >= 0.0 && (r == x || r == -x)
  {
    if x < 0.0 then -x else x
  }

  /** A parsed total: the points, the odds, and whether the cell is the over side. */
  datatype Total = Total(value: Option<real>, odds: Option<real>, isOver: bool)

  /** `parse_tot_smart(txt)`: the cell parsed as above, the points made non-negative, and "大" marking the over. */
  function ParseTot(txt: string): (t: Total)
    ensures txt == [] ==> t == Total(None, None, false)
    ensures t.isOver <==> '大' in txt
    ensures t.value.Some? ==> t.value.value >= 0.0
    ensures t.odds == ParseCell(txt).odds
    ensures t.value.Some? <==> ParseCell(txt).value.Some?
    ensures t.value.Some? ==> t.value.value == Abs(ParseCell(txt).value.value)
  {
    if txt == [] then Total(None, None, false)
    else
      var isOver := Contains(txt, "大");
      ContainsChar(txt, '大');
      var c := ParseCell(txt);
      Total(if c.value.Some? then Some(Abs(c.value.value)) else None, c.odds, isOver)
  }

  // ---------------------------------------------------------------
  // date_range
  // ---------------------------------------------------------------

  /** `strptime(s, "%Y-%m-%d")` as a day number, or None where it raises; left to the caller. */
  type DayParser = string -> Option<int>

  /** `s.split('T')[0]` when the text has a 'T'. */
  function DatePart(s: string): (d: string)
    ensures 'T' !in d && StartsWith(s, d)
  {
    if 'T' in s then BeforeFirst(s, 'T') else s
  }

  /** Everything from the first 'T' on is ignored. */
  lemma DatePartDropsTime(d: string, time: string)
    requires 'T' !in d
    ensures DatePart(d + ['T'] + time) == d
  {
    var s := d + ['T'] + time;
    assert s[|d|] == 'T';
    BeforeFirstPrefix(d, ['T'] + time, 'T');
    assert s == d + (['T'] + time);
  }

  lemma {:induction false} BeforeFirstPrefix(d: string, rest: string, sep: char)
    requires sep !in d && rest != [] && rest[0] == sep
    ensures BeforeFirst(d + rest, sep) == d
    decreases |d|
  {
    if d != [] {
      assert (d + rest)[1..] == d[1..] + rest;
      BeforeFirstPrefix(d[1..], rest, sep);
    } else {
      assert d + rest == rest;
    }
  }

  /** The days the generator yields, or None where a date does not parse (`strptime` raises). */
  method DateRange(start: string, end: string, parse: DayParser) returns (days: Option<seq<int>>)
    ensures days.None? <==> parse(DatePart(start)).None? || parse(DatePart(end)).None?
    ensures days.Some? ==> var s, e := parse(DatePart(start)).value, parse(DatePart(end)).value;
                           |days.value| == (if e < s then 0 else e - s + 1) &&
                           forall i :: 0 <= i < |days.value| ==> days.value[i] == s + i
  {
    var st := DatePart(start);
    var en := DatePart(end);
    var s := parse(st);
    var e := parse(en);
    if s.None? || e.None? {
      return None;
    }
    var n := e.value - s.value + 1;
    var out: seq<int> := [];
    var i := 0;
    while i < n
      invariant 0 <= i && (n >= 0 ==> i <= n) && (n < 0 ==> i == 0)
      invariant |out| == i && forall k :: 0 <= k < i ==> out[k] == s.value + k
    {
      out := out + [s.value + i];
      i := i + 1;
    }
    days := Some(out);
  }

  // ---------------------------------------------------------------
  // find_game_in_db
  // ---------------------------------------------------------------

  /** `CODE_ALIASES`. */
  const CodeAliases: map<string, seq<string>> := map[
    "BKN" := ["BRK", "NJN"], "BRK" := ["BKN"], "NJN" := ["BKN"],
    "NOP" := ["NOH", "NOK"], "NOH" := ["NOP"], "CHA" := ["CHO", "CHH"], "CHO" := ["CHA"],
    "PHX" := ["PHO"], "PHO" := ["PHX"], "WAS" := ["WSB"]
  ]

  /** `[code] + CODE_ALIASES.get(code, [])`. */
  function Codes(code: string): (cs: seq<string>)
    ensures cs != [] && cs[0] == code
  {
    [code] + (if code in CodeAliases then CodeAliases[code] else [])
  }

  /** The days before the given date searched, in order: one day before, the same day, two days before. */
  const DayOffsets: seq<int> := [1, 0, 2]

  /** One query: home code, away code, and how many days before the scraped date. */
  datatype Candidate = Candidate(offset: int, home: string, away: string)

  /** `SELECT game_id FROM games WHERE home_team=? AND away_team=? AND date LIKE 'day%'`: the first id, if any. */
  type GameDb = (string, string, int) -> Option<string>

  function Query(db: GameDb, day: int, c: Candidate): Option<string> {
    db(c.home, c.away, day - c.offset)
  }

  function AwayRow(d: int, h: string, aways: seq<string>): seq<Candidate>
    decreases |aways|
  {
    if aways == [] then [] else [Candidate(d, h, aways[0])] + AwayRow(d, h, aways[1..])
  }

  function HomeRows(d: int, homes: seq<string>, aways: seq<string>): seq<Candidate>
    decreases |homes|
  {
    if homes == [] then [] else AwayRow(d, homes[0], aways) + HomeRows(d, homes[1..], aways)
  }

  function Grid(ds: seq<int>, homes: seq<string>, aways: seq<string>): seq<Candidate>
    decreases |ds|
  {
    if ds == [] then [] else HomeRows(ds[0], homes, aways) + Grid(ds[1..], homes, aways)
  }

  /** The queries in the order the nested loops make them. */
  function Candidates(h: string, a: string): seq<Candidate> {
    Grid(DayOffsets, Codes(h), Codes(a))
  }

  /** The answer to the first query, in order, that finds a game. */
  function FirstHit(db: GameDb, day: int, cs: seq<Candidate>): Option<string>
    decreases |cs|
  {
    if cs == [] then None
    else if Query(db, day, cs[0]).Some? then Query(db, day, cs[0])
    else FirstHit(db, day, cs[1..])
  }

  /** The lookup finds something exactly when some query does, and then it is the first such query's answer: every earlier query found nothing. */
  lemma {:induction false} FirstHitIsFirst(db: GameDb, day: int, cs: seq<Candidate>)
    ensures FirstHit(db, day, cs).None? <==> forall c :: c in cs ==> Query(db, day, c).None?
    ensures FirstHit(db, day, cs).Some? ==>
              exists i :: 0 <= i < |cs| && Query(db, day, cs[i]) == FirstHit(db, day, cs) &&
                          forall j :: 0 <= j < i ==> Query(db, day, cs[j]).None?
    decreases |cs|
  {
    if cs != [] {
      FirstHitIsFirst(db, day, cs[1..]);
      assert forall c :: c in cs <==> c == cs[0] || c in cs[1..];
      if Query(db, day, cs[0]).None? && FirstHit(db, day, cs).Some? {
        var i :| 0 <= i < |cs[1..]| && Query(db, day, cs[1..][i]) == FirstHit(db, day, cs[1..]) &&
                 forall j :: 0 <= j < i ==> Query(db, day, cs[1..][j]).None?;
        assert Query(db, day, cs[i + 1]) == FirstHit(db, day, cs);
        forall j | 0 <= j < i + 1 ensures Query(db, day, cs[j]).None? {
          if j > 0 { assert cs[j] == cs[1..][j - 1]; }
        }
      }
    }
  }

  lemma {:induction false} FirstHitConcat(db: GameDb, day: int, a: seq<Candidate>, b: seq<Candidate>)
    ensures FirstHit(db, day, a + b) == if FirstHit(db, day, a).Some? then FirstHit(db, day, a) else FirstHit(db, day, b)
    decreases |a|
  {
    if a != [] {
      assert (a + b)[0] == a[0] && (a + b)[1..] == a[1..] + b;
      FirstHitConcat(db, day, a[1..], b);
    } else {
      assert a + b == b;
    }
  }

  lemma {:induction false} AwayRowHas(d: int, h: string, aways: seq<string>, c: Candidate)
    ensures |AwayRow(d, h, aways)| == |aways|
    ensures c in AwayRow(d, h, aways) <==> c.offset == d && c.home == h && c.away in aways
    decreases |aways|
  {
    if aways != [] {
      AwayRowHas(d, h, aways[1..], c);
      assert c.away in aways <==> c.away == aways[0] || c.away in aways[1..];
    }
  }

  lemma {:induction false} HomeRowsHas(d: int, homes: seq<string>, aways: seq<string>, c: Candidate)
    ensures c in HomeRows(d, homes, aways) <==> c.offset == d && c.home in homes && c.away in aways
    decreases |homes|
  {
    if homes != [] {
      AwayRowHas(d, homes[0], aways, c);
      HomeRowsHas(d, homes[1..], aways, c);
      assert c.home in homes <==> c.home == homes[0] || c.home in homes[1..];
    }
  }

  lemma {:induction false} HomeRowsLength(d: int, homes: seq<string>, aways: seq<string>)
    ensures |HomeRows(d, homes, aways)| == |homes| * |aways|
    decreases |homes|
  {
    if homes != [] {
      AwayRowHas(d, homes[0], aways, Candidate(d, "", ""));
      HomeRowsLength(d, homes[1..], aways);
      MulDistributes(|homes[1..]|, |aways|);
    }
  }

  lemma {:induction false} GridHas(ds: seq<int>, homes: seq<string>, aways: seq<string>, c: Candidate)
    ensures c in Grid(ds, homes, aways) <==> c.offset in ds && c.home in homes && c.away in aways
    decreases |ds|
  {
    if ds != [] {
      HomeRowsHas(ds[0], homes, aways, c);
      GridHas(ds[1..], homes, aways, c);
      assert c.offset in ds <==> c.offset == ds[0] || c.offset in ds[1..];
    }
  }

  lemma {:induction false} GridLength(ds: seq<int>, homes: seq<string>, aways: seq<string>)
    ensures |Grid(ds, homes, aways)| == |ds| * (|homes| * |aways|)
    decreases |ds|
  {
    if ds != [] {
      HomeRowsLength(ds[0], homes, aways);
      GridLength(ds[1..], homes, aways);
      MulDistributes(|ds[1..]|, |homes| * |aways|);
    }
  }

  lemma MulDistributes(n: nat, m: nat)
    ensures (1 + n) * m == m + n * m
  {
  }

  /** The three blocks of queries: one day before, the same day, two days before. */
  lemma CandidateBlocks(h: string, a: string)
    ensures Candidates(h, a) == HomeRows(1, Codes(h), Codes(a)) + HomeRows(0, Codes(h), Codes(a)) + HomeRows(2, Codes(h), Codes(a))
  {
    var hs, aws := Codes(h), Codes(a);
    assert DayOffsets[1..] == [0, 2] && DayOffsets[1..][1..] == [2] && DayOffsets[1..][1..][1..] == [];
  }

  /**
   * The lookup tries every pair of home and away codes (the code first,
   * then its aliases) one day before, then on the same day, then two days
   * before: 3 × |home codes| × |away codes| queries, the first being the
   * scraped codes one day before.
   */
  lemma CandidateOrder(h: string, a: string, c: Candidate)
    ensures |Candidates(h, a)| == 3 * (|Codes(h)| * |Codes(a)|)
    ensures Candidates(h, a)[0] == Candidate(1, h, a)
    ensures c in Candidates(h, a) <==> (c.offset == 1 || c.offset == 0 || c.offset == 2) && c.home in Codes(h) && c.away in Codes(a)
  {
    var hs, aws := Codes(h), Codes(a);
    GridLength(DayOffsets, hs, aws);
    GridHas(DayOffsets, hs, aws, c);
    CandidateBlocks(h, a);
    assert HomeRows(1, hs, aws) == AwayRow(1, h, aws) + HomeRows(1, hs[1..], aws);
    assert AwayRow(1, h, aws)[0] == Candidate(1, h, a);
    assert c.offset in DayOffsets <==> c.offset == 1 || c.offset == 0 || c.offset == 2;
  }

  lemma BlockOffset(d: int, homes: seq<string>, aways: seq<string>, k: int)
    requires 0 <= k < |HomeRows(d, homes, aways)|
    ensures HomeRows(d, homes, aways)[k].offset == d
  {
    HomeRowsHas(d, homes, aways, HomeRows(d, homes, aways)[k]);
  }

  /** Every query one day before comes before every query on the same day, and those before every query two days before. */
  lemma OffsetsInOrder(h: string, a: string, i: int, j: int)
    requires 0 <= i < j < |Candidates(h, a)|
    ensures Rank(Candidates(h, a)[i].offset) <= Rank(Candidates(h, a)[j].offset)
  {
    var hs, aws := Codes(h), Codes(a);
    var b1, b0, b2 := HomeRows(1, hs, aws), HomeRows(0, hs, aws), HomeRows(2, hs, aws);
    CandidateBlocks(h, a);
    var cs := Candidates(h, a);
    assert cs == b1 + b0 + b2;
    if i < |b1| {
      BlockOffset(1, hs, aws, i);
      assert cs[i] == b1[i];
    } else if i < |b1| + |b0| {
      BlockOffset(0, hs, aws, i - |b1|);
      assert cs[i] == b0[i - |b1|];
      if j < |b1| + |b0| {
        BlockOffset(0, hs, aws, j - |b1|);
        assert cs[j] == b0[j - |b1|];
      } else {
        BlockOffset(2, hs, aws, j - |b1| - |b0|);
        assert cs[j] == b2[j - |b1| - |b0|];
      }
    } else {
      BlockOffset(2, hs, aws, i - |b1| - |b0|);
      BlockOffset(2, hs, aws, j - |b1| - |b0|);
      assert cs[i] == b2[i - |b1| - |b0|];
      assert cs[j] == b2[j - |b1| - |b0|];
    }
  }

  /** The position of an offset in the search order. */
  function Rank(offset: int): nat {
    if offset == 1 then 0 else if offset == 0 then 1 else 2
  }

  datatype Lookup = BadDate | Found(gameId: string) | NotFound

  /** `strptime(date_str, "%Y%m%d")` as a day number, or None where it raises; left to the caller. */
  type CompactDayParser = string -> Option<int>

  /** `find_game_in_db(date_str, h_code, a_code)` on the database `db`. */
  function FindGame(dateStr: string, h: string, a: string, parse: CompactDayParser, db: GameDb): Lookup {
    match parse(dateStr)
    case None => BadDate
    case Some(day) =>
      var r := FirstHit(db, day, Candidates(h, a));
      if r.Some? then Found(r.value) else NotFound
  }

  /** A hit is the answer of one of the candidate queries: an alias pair, zero to two days earlier. */
  lemma HitIsCandidate(db: GameDb, day: int, h: string, a: string)
    requires FirstHit(db, day, Candidates(h, a)).Some?
    ensures exists c :: c in Candidates(h, a) && 0 <= c.offset <= 2 && c.home in Codes(h) && c.away in Codes(a) &&
                        Query(db, day, c) == FirstHit(db, day, Candidates(h, a))
  {
    var cs := Candidates(h, a);
    FirstHitIsFirst(db, day, cs);
    var i :| 0 <= i < |cs| && Query(db, day, cs[i]) == FirstHit(db, day, cs) &&
             forall j :: 0 <= j < i ==> Query(db, day, cs[j]).None?;
    CandidateOrder(h, a, cs[i]);
  }

  /**
   * The lookup fails on an unparsable date, finds nothing exactly when no
   * query does, and otherwise answers with a game between one of the home
   * codes and one of the away codes zero to two days before the date.
   */
  lemma FindGameSpec(dateStr: string, h: string, a: string, parse: CompactDayParser, db: GameDb)
    ensures FindGame(dateStr, h, a, parse, db) == BadDate <==> parse(dateStr).None?
    ensures parse(dateStr).Some? ==>
              (FindGame(dateStr, h, a, parse, db) == NotFound <==>
               forall c :: c in Candidates(h, a) ==> Query(db, parse(dateStr).value, c).None?)
    ensures FindGame(dateStr, h, a, parse, db).Found? ==>
              exists c :: c in Candidates(h, a) && 0 <= c.offset <= 2 && c.home in Codes(h) && c.away in Codes(a) &&
                          db(c.home, c.away, parse(dateStr).value - c.offset) == Some(FindGame(dateStr, h, a, parse, db).gameId)
  {
    if parse(dateStr).Some? {
      var day := parse(dateStr).value;
      FirstHitIsFirst(db, day, Candidates(h, a));
      if FirstHit(db, day, Candidates(h, a)).Some? {
        HitIsCandidate(db, day, h, a);
      }
    }
  }

  lemma FirstHitHit(db: GameDb, day: int, cs: seq<Candidate>)
    requires cs != [] && Query(db, day, cs[0]).Some?
    ensures FirstHit(db, day, cs) == Query(db, day, cs[0])
  {
  }

  lemma FirstHitMiss(db: GameDb, day: int, cs: seq<Candidate>)
    requires cs != [] && Query(db, day, cs[0]).None?
    ensures FirstHit(db, day, cs) == FirstHit(db, day, cs[1..])
  {
  }

  lemma ConcatAssoc<T>(x: seq<T>, y: seq<T>, z: seq<T>)
    ensures x + y + z == x + (y + z)
  {
  }

  lemma AwayRowFrom(d: int, h: string, aways: seq<string>, i: nat)
    requires i < |aways|
    ensures AwayRow(d, h, aways[i..]) == [Candidate(d, h, aways[i])] + AwayRow(d, h, aways[i + 1..])
  {
    assert aways[i..][1..] == aways[i + 1..];
  }

  lemma HomeRowsFrom(d: int, homes: seq<string>, aways: seq<string>, i: nat)
    requires i < |homes|
    ensures HomeRows(d, homes[i..], aways) == AwayRow(d, homes[i], aways) + HomeRows(d, homes[i + 1..], aways)
  {
    assert homes[i..][1..] == homes[i + 1..];
  }

  lemma GridFrom(ds: seq<int>, homes: seq<string>, aways: seq<string>, i: nat)
    requires i < |ds|
    ensures Grid(ds[i..], homes, aways) == HomeRows(ds[i], homes, aways) + Grid(ds[i + 1..], homes, aways)
  {
    assert ds[i..][1..] == ds[i + 1..];
  }

  /** The innermost loop: the away codes for one offset and one home code, returning on the first hit. */
  method SearchAways(db: GameDb, day: int, diff: int, hh: string, aList: seq<string>) returns (r: Option<string>)
    ensures r == FirstHit(db, day, AwayRow(diff, hh, aList))
  {
    // `rest`: the queries not made yet, in order.
    ghost var rest := AwayRow(diff, hh, aList);
    ghost var target := FirstHit(db, day, rest);
    assert aList[0..] == aList;
    var ai := 0;
    while ai < |aList|
      invariant 0 <= ai <= |aList|
      invariant rest == AwayRow(diff, hh, aList[ai..])
      invariant target == FirstHit(db, day, rest)
    {
      AwayRowFrom(diff, hh, aList, ai);
      var res := db(hh, aList[ai], day - diff);
      if res.Some? {
        FirstHitHit(db, day, rest);
        return res;
      }
      FirstHitMiss(db, day, rest);
      rest := AwayRow(diff, hh, aList[ai + 1..]);
      ai := ai + 1;
    }
    return None;
  }

  /** The loops over offsets and home codes around `SearchAways`, returning on the first hit. */
  method SearchGrid(db: GameDb, day: int, ds: seq<int>, hList: seq<string>, aList: seq<string>) returns (r: Option<string>)
    ensures r == FirstHit(db, day, Grid(ds, hList, aList))
  {
    // `rest`: the queries not made yet, in order; the answer is the first hit among them.
    ghost var rest := Grid(ds, hList, aList);
    ghost var target := FirstHit(db, day, rest);
    assert ds[0..] == ds;
    var di := 0;
    while di < |ds|
      invariant 0 <= di <= |ds|
      invariant rest == Grid(ds[di..], hList, aList)
      invariant target == FirstHit(db, day, rest)
    {
      var diff := ds[di];
      ghost var afterDiff := Grid(ds[di + 1..], hList, aList);
      GridFrom(ds, hList, aList, di);
      assert hList[0..] == hList;
      var hi := 0;
      while hi < |hList|
        invariant 0 <= hi <= |hList|
        invariant rest == HomeRows(diff, hList[hi..], aList) + afterDiff
        invariant target == FirstHit(db, day, rest)
      {
        ghost var row := AwayRow(diff, hList[hi], aList);
        ghost var later := HomeRows(diff, hList[hi + 1..], aList) + afterDiff;
        HomeRowsFrom(diff, hList, aList, hi);
        ConcatAssoc(row, HomeRows(diff, hList[hi + 1..], aList), afterDiff);
        FirstHitConcat(db, day, row, later);
        var res := SearchAways(db, day, diff, hList[hi], aList);
        if res.Some? {
          return res;
        }
        rest := later;
        hi := hi + 1;
      }
      assert HomeRows(diff, hList[hi..], aList) == [];
      di := di + 1;
    }
    assert rest == [];
    return None;
  }

  /** `find_game_in_db`: the date parsed, then the queries in order until one finds a game. */
  method FindGameInDb(dateStr: string, h: string, a: string, parse: CompactDayParser, db: GameDb) returns (r: Lookup)
    ensures r == FindGame(dateStr, h, a, parse, db)
  {
    var dt := parse(dateStr);
    if dt.None? {
      return BadDate;
    }
    var hit := SearchGrid(db, dt.value, DayOffsets, Codes(h), Codes(a));
    if hit.Some? {
      return Found(hit.value);
    }
    return NotFound;
  }
}
