/**
 * Python's ordering of `str` values: code point by code point, a proper prefix
 * first.  The backtests compare their date strings with it (`d > last`,
 * `date < current_date`, `sorted(...)`, `max()`).
 */
module Order {

  predicate StrLess(a: string, b: string)
    decreases |a|
  {
    if |a| == 0 then |b| > 0
    else if |b| == 0 then false
    else if a[0] != b[0] then a[0] < b[0]
    else StrLess(a[1..], b[1..])
  }

  lemma {:induction false} StrLessIrreflexive(a: string)
    ensures !StrLess(a, a)
    decreases |a|
  {
    if |a| > 0 {
      StrLessIrreflexive(a[1..]);
    }
  }

  lemma {:induction false} StrLessTransitive(a: string, b: string, c: string)
    requires StrLess(a, b) && StrLess(b, c)
    ensures StrLess(a, c)
    decreases |a|
  {
    if |a| > 0 && |b| > 0 && |c| > 0 && a[0] == b[0] && b[0] == c[0] {
      StrLessTransitive(a[1..], b[1..], c[1..]);
    }
  }

  lemma {:induction false} StrLessTrichotomy(a: string, b: string)
    ensures a == b || StrLess(a, b) || StrLess(b, a)
    decreases |a|
  {
    if |a| > 0 && |b| > 0 && a[0] == b[0] {
      StrLessTrichotomy(a[1..], b[1..]);
      if a[1..] == b[1..] {
        assert a == [a[0]] + a[1..] && b == [b[0]] + b[1..];
      }
    }
  }

  lemma StrLessAsymmetric(a: string, b: string)
    requires StrLess(a, b)
    ensures !StrLess(b, a)
  {
    if StrLess(b, a) {
      StrLessTransitive(a, b, a);
      StrLessIrreflexive(a);
    }
  }

  /** The empty string is below every other string (why `if last:` can skip it). */
  lemma EmptyIsLeast(a: string)
    ensures !StrLess(a, "")
    ensures a != "" ==> StrLess("", a)
  {
  }

  predicate StrictlyIncreasing(s: seq<string>) {
    forall i, j :: 0 <= i < j < |s| ==> StrLess(s[i], s[j])
  }

  /** Adds `x` to a strictly increasing list unless it is already there. */
  function InsertDistinct(x: string, s: seq<string>): (r: seq<string>)
    requires StrictlyIncreasing(s)
    ensures StrictlyIncreasing(r)
    ensures forall y :: y in r <==> y == x || y in s
    decreases |s|
  {
    if s == [] then [x]
    else if x == s[0] then s
    else if StrLess(x, s[0]) then
      assert forall j :: 0 < j < |s| ==> StrLess(x, s[j]) by {
        forall j | 0 < j < |s| ensures StrLess(x, s[j]) {
          StrLessTransitive(x, s[0], s[j]);
        }
      }
      [x] + s
    else
      var t := InsertDistinct(x, s[1..]);
      StrLessTrichotomy(x, s[0]);
      assert forall y :: y in t ==> StrLess(s[0], y);
      [s[0]] + t
  }

  /** `sorted(set(s))`: the distinct values of `s` in ascending order. */
  function SortedDistinct(s: seq<string>): (r: seq<string>)
    ensures StrictlyIncreasing(r)
    ensures forall y :: y in r <==> y in s
    decreases |s|
  {
    if s == [] then [] else InsertDistinct(s[0], SortedDistinct(s[1..]))
  }

  /** A strictly increasing list holds no value twice. */
  lemma StrictlyIncreasingDistinct(s: seq<string>, i: int, j: int)
    requires StrictlyIncreasing(s)
    requires 0 <= i < |s| && 0 <= j < |s| && i != j
    ensures s[i] != s[j]
  {
    if i < j { StrLessIrreflexive(s[i]); } else { StrLessIrreflexive(s[j]); }
  }

  /** Python `max(s)` over strings. */
  function MaxStr(s: seq<string>): (m: string)
    requires |s| > 0
    ensures m in s
    ensures forall x :: x in s ==> x == m || StrLess(x, m)
    decreases |s|
  {
    if |s| == 1 then s[0]
    else
      var rest := MaxStr(s[1..]);
      StrLessTrichotomy(s[0], rest);
      if StrLess(s[0], rest) then
        assert forall x :: x in s[1..] ==> x == rest || StrLess(x, rest);
        rest
      else
        assert forall x :: x in s[1..] ==> x == s[0] || StrLess(x, s[0]) by {
          forall x | x in s[1..] ensures x == s[0] || StrLess(x, s[0]) {
            if x != rest && rest != s[0] { StrLessTransitive(x, rest, s[0]); }
          }
        }
        s[0]
  }
}
