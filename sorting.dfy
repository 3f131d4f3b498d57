/**
 * `DataFrame.sort_values(by=[...])`: rows ordered by a key of one part per
 * sort column.  A missing cell sorts after every present one in its column
 * (pandas' default `na_position='last'`); a descending column is a `Num`
 * part holding the negated value.
 */
module Sorting {
  import opened Order

  datatype KeyPart = Str(s: string) | Num(x: real) | Missing

  type Key = seq<KeyPart>

  predicate PartLess(a: KeyPart, b: KeyPart) {
    match a
    case Missing => false
    case Num(x) => (match b case Missing => true case Num(y) => x < y case Str(_) => true)
    case Str(s) => (match b case Missing => true case Num(_) => false case Str(t) => StrLess(s, t))
  }

  lemma PartLessIrreflexive(a: KeyPart)
    ensures !PartLess(a, a)
  {
    if a.Str? { StrLessIrreflexive(a.s); }
  }

  lemma PartLessTransitive(a: KeyPart, b: KeyPart, c: KeyPart)
    requires PartLess(a, b) && PartLess(b, c)
    ensures PartLess(a, c)
  {
    if a.Str? && b.Str? && c.Str? { StrLessTransitive(a.s, b.s, c.s); }
  }

  lemma PartLessTrichotomy(a: KeyPart, b: KeyPart)
    ensures a == b || PartLess(a, b) || PartLess(b, a)
  {
    if a.Str? && b.Str? { StrLessTrichotomy(a.s, b.s); }
  }

  /** Lexicographic order of sort keys, column by column. */
  predicate KeyLess(a: Key, b: Key)
    decreases |a|
  {
    if |a| == 0 then |b| > 0
    else if |b| == 0 then false
    else if a[0] != b[0] then PartLess(a[0], b[0])
    else KeyLess(a[1..], b[1..])
  }

  lemma {:induction false} KeyLessIrreflexive(a: Key)
    ensures !KeyLess(a, a)
    decreases |a|
  {
    if |a| > 0 { KeyLessIrreflexive(a[1..]); }
  }

  lemma {:induction false} KeyLessTransitive(a: Key, b: Key, c: Key)
    requires KeyLess(a, b) && KeyLess(b, c)
    ensures KeyLess(a, c)
    decreases |a|
  {
    if |a| > 0 && |b| > 0 && |c| > 0 {
      if a[0] == b[0] && b[0] == c[0] {
        KeyLessTransitive(a[1..], b[1..], c[1..]);
      } else if a[0] != b[0] && b[0] != c[0] {
        PartLessTransitive(a[0], b[0], c[0]);
        if a[0] == c[0] { PartLessIrreflexive(a[0]); }
      }
    }
  }

  lemma {:induction false} KeyLessTrichotomy(a: Key, b: Key)
    ensures a == b || KeyLess(a, b) || KeyLess(b, a)
    decreases |a|
  {
    if |a| > 0 && |b| > 0 {
      if a[0] == b[0] {
        KeyLessTrichotomy(a[1..], b[1..]);
        if a[1..] == b[1..] {
          assert a == [a[0]] + a[1..] && b == [b[0]] + b[1..];
        }
      } else {
        PartLessTrichotomy(a[0], b[0]);
      }
    }
  }

  /** "not after" is transitive: what the insertion step relies on. */
  lemma NotLessTransitive(a: Key, b: Key, c: Key)
    requires !KeyLess(b, a) && !KeyLess(c, b)
    ensures !KeyLess(c, a)
  {
    if KeyLess(c, a) {
      KeyLessTrichotomy(a, b);
      if KeyLess(a, b) { KeyLessTransitive(c, a, b); }
    }
  }

  /** No row is placed after a row whose key is larger. */
  ghost predicate SortedBy<T>(s: seq<T>, key: T -> Key) {
    forall i, j :: 0 <= i < j < |s| ==> !KeyLess(key(s[j]), key(s[i]))
  }

  function InsertBy<T>(x: T, s: seq<T>, key: T -> Key): (r: seq<T>)
    requires SortedBy(s, key)
    ensures SortedBy(r, key)
    ensures multiset(r) == multiset(s) + multiset{x}
    decreases |s|
  {
    if s == [] then [x]
    else if KeyLess(key(s[0]), key(x)) then
      var t := InsertBy(x, s[1..], key);
      InsertedAfterHead(x, s, t, key);
      ConsSorted(s[0], t, key);
      assert s == [s[0]] + s[1..];
      [s[0]] + t
    else
      NotBeforeHead(x, s, key);
      ConsSorted(x, s, key);
      [x] + s
  }

  /** Putting in front of a sorted sequence a row no later row is less than keeps it sorted. */
  lemma ConsSorted<T>(h: T, t: seq<T>, key: T -> Key)
    requires SortedBy(t, key)
    requires forall y :: y in t ==> !KeyLess(key(y), key(h))
    ensures SortedBy([h] + t, key)
  {
    var r := [h] + t;
    forall i, j | 0 <= i < j < |r| ensures !KeyLess(key(r[j]), key(r[i])) {
      assert r[j] == t[j - 1] && r[j] in t;
      if i > 0 {
        assert r[i] == t[i - 1];
      }
    }
  }

  /** When the head of a sorted `s` comes before `x`, nothing in the insertion into the tail is less than it. */
  lemma InsertedAfterHead<T>(x: T, s: seq<T>, t: seq<T>, key: T -> Key)
    requires s != [] && SortedBy(s, key) && KeyLess(key(s[0]), key(x))
    requires multiset(t) == multiset(s[1..]) + multiset{x}
    ensures forall y :: y in t ==> !KeyLess(key(y), key(s[0]))
  {
    forall y | y in t ensures !KeyLess(key(y), key(s[0])) {
      assert y in multiset(t);
      if y == x {
        if KeyLess(key(x), key(s[0])) {
          KeyLessTransitive(key(x), key(s[0]), key(x));
          KeyLessIrreflexive(key(x));
        }
      } else {
        assert y in multiset(s[1..]);
        var j :| 0 <= j < |s[1..]| && s[1..][j] == y;
        assert s[j + 1] == y;
      }
    }
  }

  /** When `x` does not come after the head of a sorted `s`, nothing in `s` is less than `x`. */
  lemma NotBeforeHead<T>(x: T, s: seq<T>, key: T -> Key)
    requires s != [] && SortedBy(s, key) && !KeyLess(key(s[0]), key(x))
    ensures forall y :: y in s ==> !KeyLess(key(y), key(x))
  {
    forall y | y in s ensures !KeyLess(key(y), key(x)) {
      var j :| 0 <= j < |s| && s[j] == y;
      if j > 0 { NotLessTransitive(key(x), key(s[0]), key(s[j])); }
    }
  }

  /** The rows of `s` whose key is `k`, in their order in `s`. */
  function WithKey<T>(s: seq<T>, key: T -> Key, k: Key): seq<T>
    decreases |s|
  {
    if s == [] then [] else (if key(s[0]) == k then [s[0]] else []) + WithKey(s[1..], key, k)
  }

  lemma WithKeyCons<T>(h: T, t: seq<T>, key: T -> Key, k: Key)
    ensures WithKey([h] + t, key, k) == (if key(h) == k then [h] else []) + WithKey(t, key, k)
  {
    assert ([h] + t)[0] == h && ([h] + t)[1..] == t;
  }

  /** Inserting `x` puts it before every row whose key equals its own. */
  lemma {:induction false} InsertByWithKey<T>(x: T, s: seq<T>, key: T -> Key, k: Key)
    requires SortedBy(s, key)
    ensures WithKey(InsertBy(x, s, key), key, k) == (if key(x) == k then [x] else []) + WithKey(s, key, k)
    decreases |s|
  {
    if s == [] {
      WithKeyCons(x, s, key, k);
    } else {
      var h, tail := s[0], s[1..];
      assert s == [h] + tail;
      WithKeyCons(h, tail, key, k);
      if KeyLess(key(h), key(x)) {
        var t := InsertBy(x, tail, key);
        assert InsertBy(x, s, key) == [h] + t;
        InsertByWithKey(x, tail, key, k);
        WithKeyCons(h, t, key, k);
        KeyLessIrreflexive(key(x));
        assert key(h) != key(x);
      } else {
        assert InsertBy(x, s, key) == [x] + s;
        WithKeyCons(x, s, key, k);
      }
    }
  }

  /**
   * Stable insertion sort, as pandas' `sort_values` on several columns: the
   * result is sorted, a permutation, and the rows sharing any one key
   * appear in their input order.
   */
  function SortBy<T>(s: seq<T>, key: T -> Key): (r: seq<T>)
    ensures SortedBy(r, key)
    ensures multiset(r) == multiset(s)
    ensures forall k :: WithKey(r, key, k) == WithKey(s, key, k)
    decreases |s|
  {
    if s == [] then []
    else
      assert s == [s[0]] + s[1..];
      var t := SortBy(s[1..], key);
      assert forall k :: WithKey(InsertBy(s[0], t, key), key, k) == WithKey(s, key, k) by {
        forall k ensures WithKey(InsertBy(s[0], t, key), key, k) == WithKey(s, key, k) {
          InsertByWithKey(s[0], t, key, k);
        }
      }
      InsertBy(s[0], t, key)
  }
}
