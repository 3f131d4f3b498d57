/**
 * The DataFrame operations the pipeline is built from, on sequences of rows:
 * boolean-mask selection, column-wise maps, sums and the two merges
 * (`how='left'` and `how='inner'`).  Row order is the source's row order.
 */
module Frames {
  import opened Wrappers

  /** `df[mask]`: the rows satisfying `p`, in their original order. */
  function Filter<T(!new)>(s: seq<T>, p: T -> bool): (r: seq<T>)
    ensures |r| <= |s|
    ensures forall x :: x in r <==> x in s && p(x)
    decreases |s|
  {
    if s == [] then []
    else if p(s[0]) then [s[0]] + Filter(s[1..], p)
    else Filter(s[1..], p)
  }

  lemma {:induction false} FilterConcat<T(!new)>(a: seq<T>, b: seq<T>, p: T -> bool)
    ensures Filter(a + b, p) == Filter(a, p) + Filter(b, p)
    decreases |a|
  {
    if a != [] {
      assert (a + b)[1..] == a[1..] + b;
      FilterConcat(a[1..], b, p);
    } else {
      assert a + b == b;
    }
  }

  /** Selecting by `p` and then by a narrower `q` is selecting by `q`. */
  lemma {:induction false} FilterNarrower<T(!new)>(s: seq<T>, p: T -> bool, q: T -> bool)
    requires forall x :: q(x) ==> p(x)
    ensures Filter(Filter(s, p), q) == Filter(s, q)
    decreases |s|
  {
    if s != [] {
      FilterNarrower(s[1..], p, q);
    }
  }

  /** Two masks that agree on every row select the same rows. */
  lemma {:induction false} FilterSameMask<T(!new)>(s: seq<T>, p: T -> bool, q: T -> bool)
    requires forall x :: x in s ==> (p(x) <==> q(x))
    ensures Filter(s, p) == Filter(s, q)
    decreases |s|
  {
    if s != [] {
      FilterSameMask(s[1..], p, q);
    }
  }

  /** A mask and its negation split the rows: every row lands in exactly one part. */
  lemma {:induction false} FilterPartition<T(!new)>(s: seq<T>, p: T -> bool, q: T -> bool)
    requires forall x :: q(x) <==> !p(x)
    ensures multiset(Filter(s, p)) + multiset(Filter(s, q)) == multiset(s)
    decreases |s|
  {
    if s != [] {
      FilterPartition(s[1..], p, q);
      assert s == [s[0]] + s[1..];
      assert multiset(s) == multiset{s[0]} + multiset(s[1..]);
      if p(s[0]) {
        assert Filter(s, p) == [s[0]] + Filter(s[1..], p) && Filter(s, q) == Filter(s[1..], q);
        assert multiset(Filter(s, p)) == multiset{s[0]} + multiset(Filter(s[1..], p));
      } else {
        assert Filter(s, q) == [s[0]] + Filter(s[1..], q) && Filter(s, p) == Filter(s[1..], p);
        assert multiset(Filter(s, q)) == multiset{s[0]} + multiset(Filter(s[1..], q));
      }
    }
  }

  lemma FilterNoneSelected<T(!new)>(s: seq<T>, p: T -> bool)
    requires forall x :: x in s ==> !p(x)
    ensures Filter(s, p) == []
  {
    if Filter(s, p) != [] {
      assert Filter(s, p)[0] in Filter(s, p);
    }
  }

  /** Column-wise application of `f`. */
  function MapSeq<T, U>(s: seq<T>, f: T -> U): (r: seq<U>)
    ensures |r| == |s|
    ensures forall i :: 0 <= i < |s| ==> r[i] == f(s[i])
  {
    seq(|s|, i requires 0 <= i < |s| => f(s[i]))
  }

  /** The count of `x` is its count in the first row plus its count in the rest. */
  lemma HeadCount<T>(s: seq<T>, x: T)
    requires s != []
    ensures multiset(s)[x] == (if s[0] == x then 1 else 0) + multiset(s[1..])[x]
  {
    assert s == [s[0]] + s[1..];
  }

  /** Selecting keeps every occurrence of a selected row and none of another. */
  lemma {:induction false} FilterCount<T(!new)>(s: seq<T>, p: T -> bool, a: T)
    ensures multiset(Filter(s, p))[a] == if p(a) then multiset(s)[a] else 0
    decreases |s|
  {
    if s != [] {
      assert s == [s[0]] + s[1..];
      FilterCount(s[1..], p, a);
      if p(s[0]) {
        assert Filter(s, p) == [s[0]] + Filter(s[1..], p);
      }
    }
  }

  /** A map that sends no other row to `f(a)` keeps the count of `a`. */
  lemma {:induction false} MapSeqCountInjective<T, U>(s: seq<T>, f: T -> U, a: T)
    requires forall y :: y in s && f(y) == f(a) ==> y == a
    ensures multiset(MapSeq(s, f))[f(a)] == multiset(s)[a]
    decreases |s|
  {
    if s != [] {
      assert s == [s[0]] + s[1..];
      assert MapSeq(s, f) == [f(s[0])] + MapSeq(s[1..], f);
      MapSeqCountInjective(s[1..], f, a);
    }
  }

  function Flatten<T>(ss: seq<seq<T>>): seq<T>
    decreases |ss|
  {
    if ss == [] then [] else ss[0] + Flatten(ss[1..])
  }

  /**
   * `drop_duplicates()` / the distinct group keys: first occurrences, in
   * order.  `groupby(...).sum()` lists its keys sorted instead; the tables
   * built with it here are only ever merged on their keys, so their row
   * order does not reach any output.
   */
  function Distinct<T(==,!new)>(s: seq<T>): (r: seq<T>)
    ensures forall x :: x in r <==> x in s
    ensures forall i, j :: 0 <= i < j < |r| ==> r[i] != r[j]
    decreases |s|
  {
    if s == [] then []
    else
      var init := Distinct(s[..|s| - 1]);
      var last := s[|s| - 1];
      assert s == s[..|s| - 1] + [last];
      if last in init then init else init + [last]
  }

  /** Every distinct key is the key of some input row. */
  lemma DistinctKeysFromRows<T, U(!new)>(s: seq<T>, key: T -> U, keys: seq<U>)
    requires keys == Distinct(MapSeq(s, key))
    ensures forall i :: 0 <= i < |keys| ==> exists x :: x in s && key(x) == keys[i]
  {
    forall i | 0 <= i < |keys| ensures exists x :: x in s && key(x) == keys[i] {
      assert keys[i] in MapSeq(s, key);
      var k :| 0 <= k < |s| && MapSeq(s, key)[k] == keys[i];
      assert s[k] in s;
    }
  }

  /** Two matches for one left row come from two positions of the right rows. */
  lemma {:induction false} TwoMatches<L(!new), R(!new)>(l: L, right: seq<R>, on: (L, R) -> bool)
    requires |Matches(l, right, on)| > 1
    ensures exists i, j :: 0 <= i < j < |right| && on(l, right[i]) && on(l, right[j])
    decreases |right|
  {
    var rest := Matches(l, right[1..], on);
    if on(l, right[0]) {
      assert rest[0] in rest;
      var j :| 0 <= j < |right[1..]| && right[1..][j] == rest[0];
      assert on(l, right[0]) && on(l, right[j + 1]);
    } else {
      TwoMatches(l, right[1..], on);
      var i, j :| 0 <= i < j < |right[1..]| && on(l, right[1..][i]) && on(l, right[1..][j]);
      assert on(l, right[i + 1]) && on(l, right[j + 1]);
    }
  }

  /** `.sum()` of a numeric column (missing cells already skipped by the caller). */
  function Sum(s: seq<real>): real
    decreases |s|
  {
    if s == [] then 0.0 else s[0] + Sum(s[1..])
  }

  lemma {:induction false} SumConcat(a: seq<real>, b: seq<real>)
    ensures Sum(a + b) == Sum(a) + Sum(b)
    decreases |a|
  {
    if a != [] {
      assert (a + b)[1..] == a[1..] + b;
      SumConcat(a[1..], b);
    } else {
      assert a + b == b;
    }
  }

  /** A sum of values in [lo, hi] lies in [n * lo, n * hi]. */
  lemma {:induction false} SumBounds(s: seq<real>, lo: real, hi: real)
    requires forall i :: 0 <= i < |s| ==> lo <= s[i] <= hi
    ensures (|s| as real) * lo <= Sum(s) <= (|s| as real) * hi
    decreases |s|
  {
    if s != [] {
      SumBounds(s[1..], lo, hi);
    }
  }

  /** The right rows that the key predicate `on` pairs with `l`. */
  function Matches<L(!new), R(!new)>(l: L, right: seq<R>, on: (L, R) -> bool): seq<R> {
    Filter(right, r => on(l, r))
  }

  /** Narrowing a left row's matches by a mask that implies the key is narrowing the right rows. */
  lemma MatchesNarrower<L(!new), R(!new)>(l: L, right: seq<R>, on: (L, R) -> bool, q: R -> bool)
    requires forall r :: q(r) ==> on(l, r)
    ensures Filter(Matches(l, right, on), q) == Filter(right, q)
  {
    FilterNarrower(right, r => on(l, r), q);
  }

  /** Two left rows the key predicate cannot tell apart have the same matches. */
  lemma MatchesSameKey<L(!new), R(!new)>(l1: L, l2: L, right: seq<R>, on: (L, R) -> bool)
    requires forall x :: x in right ==> (on(l1, x) <==> on(l2, x))
    ensures Matches(l1, right, on) == Matches(l2, right, on)
    ensures Lookup(l1, right, on) == Lookup(l2, right, on)
  {
    FilterSameMask(right, x => on(l1, x), x => on(l2, x));
  }

  /** The first matching right row, if any. */
  function Lookup<L(!new), R(!new)>(l: L, right: seq<R>, on: (L, R) -> bool): (m: Option<R>)
    ensures m.Some? <==> Matches(l, right, on) != []
    ensures m.Some? ==> m.value in right && on(l, m.value)
  {
    var ms := Matches(l, right, on);
    if ms == [] then None else assert ms[0] in ms; Some(ms[0])
  }

  /** The output rows of one left row in a left merge. */
  function JoinRow<L(!new), R(!new), O(!new)>(l: L, right: seq<R>, on: (L, R) -> bool, combine: (L, Option<R>) -> O): seq<O> {
    var ms := Matches(l, right, on);
    if ms == [] then [combine(l, None)] else MapSeq(ms, r => combine(l, Some(r)))
  }

  /**
   * `left.merge(right, how='left')`: every left row, once per matching right
   * row (in right order), or once with no partner when nothing matches.
   */
  function LeftJoin<L(!new), R(!new), O(!new)>(left: seq<L>, right: seq<R>, on: (L, R) -> bool,
                             combine: (L, Option<R>) -> O): (out: seq<O>)
    ensures |out| >= |left|
    decreases |left|
  {
    if left == [] then []
    else JoinRow(left[0], right, on, combine) + LeftJoin(left[1..], right, on, combine)
  }

  /**
   * When no left row has two partners, the left merge keeps the left rows one
   * for one, each joined with its partner (or with none).
   */
  lemma {:induction false} LeftJoinOneToOne<L(!new), R(!new), O(!new)>(left: seq<L>, right: seq<R>, on: (L, R) -> bool,
                                                      combine: (L, Option<R>) -> O)
    requires forall i :: 0 <= i < |left| ==> |Matches(left[i], right, on)| <= 1
    ensures |LeftJoin(left, right, on, combine)| == |left|
    ensures forall i :: 0 <= i < |left| ==>
              LeftJoin(left, right, on, combine)[i] == combine(left[i], Lookup(left[i], right, on))
    decreases |left|
  {
    if left != [] {
      assert forall i :: 0 <= i < |left[1..]| ==> left[1..][i] == left[i + 1];
      LeftJoinOneToOne(left[1..], right, on, combine);
      var ms := Matches(left[0], right, on);
      assert |JoinRow(left[0], right, on, combine)| == 1;
      assert JoinRow(left[0], right, on, combine)[0] == combine(left[0], Lookup(left[0], right, on));
    }
  }

  /** `o` is left row `l` combined with `m`, which is no partner or a matching right row. */
  predicate Produces<L, R(==), O(==)>(l: L, m: Option<R>, right: seq<R>, on: (L, R) -> bool,
                                  combine: (L, Option<R>) -> O, o: O) {
    o == combine(l, m) && (m.None? || (m.value in right && on(l, m.value)))
  }

  lemma JoinRowProvenance<L(!new), R(!new), O(!new)>(l: L, right: seq<R>, on: (L, R) -> bool,
                                                    combine: (L, Option<R>) -> O, o: O)
    requires o in JoinRow(l, right, on, combine)
    ensures exists m :: Produces(l, m, right, on, combine, o)
  {
    var ms := Matches(l, right, on);
    if ms == [] {
      var none: Option<R> := None;
      assert Produces(l, none, right, on, combine, o);
    } else {
      var here := JoinRow(l, right, on, combine);
      var k :| 0 <= k < |here| && here[k] == o;
      assert ms[k] in ms;
      assert Produces(l, Some(ms[k]), right, on, combine, o);
    }
  }

  /** Every output row of a left merge is some left row combined with no partner or with a match. */
  lemma {:induction false} LeftJoinProvenance<L(!new), R(!new), O(!new)>(left: seq<L>, right: seq<R>, on: (L, R) -> bool,
                                                          combine: (L, Option<R>) -> O, o: O)
    requires o in LeftJoin(left, right, on, combine)
    ensures exists i, m :: 0 <= i < |left| && Produces(left[i], m, right, on, combine, o)
    decreases |left|
  {
    if o in JoinRow(left[0], right, on, combine) {
      JoinRowProvenance(left[0], right, on, combine, o);
      var m :| Produces(left[0], m, right, on, combine, o);
      assert 0 <= 0 < |left| && Produces(left[0], m, right, on, combine, o);
    } else {
      LeftJoinProvenance(left[1..], right, on, combine, o);
      var i, m :| 0 <= i < |left[1..]| && Produces(left[1..][i], m, right, on, combine, o);
      assert left[1..][i] == left[i + 1];
      assert 0 <= i + 1 < |left| && Produces(left[i + 1], m, right, on, combine, o);
    }
  }

  /** A left merge loses no left row: each appears combined with no partner or with a match. */
  lemma {:induction false} LeftJoinComplete<L(!new), R(!new), O(!new)>(left: seq<L>, right: seq<R>, on: (L, R) -> bool,
                                                        combine: (L, Option<R>) -> O, i: nat)
    requires i < |left|
    ensures exists m :: Produces(left[i], m, right, on, combine, combine(left[i], m)) &&
                        combine(left[i], m) in LeftJoin(left, right, on, combine)
    decreases |left|
  {
    var rest := LeftJoin(left[1..], right, on, combine);
    var here := JoinRow(left[0], right, on, combine);
    assert LeftJoin(left, right, on, combine) == here + rest;
    if i == 0 {
      var ms := Matches(left[0], right, on);
      if ms == [] {
        var none: Option<R> := None;
        assert here[0] == combine(left[0], none);
        assert Produces(left[0], none, right, on, combine, combine(left[0], none));
      } else {
        assert ms[0] in ms;
        assert here[0] == combine(left[0], Some(ms[0]));
        assert Produces(left[0], Some(ms[0]), right, on, combine, combine(left[0], Some(ms[0])));
      }
    } else {
      LeftJoinComplete(left[1..], right, on, combine, i - 1);
      assert left[1..][i - 1] == left[i];
      var m :| Produces(left[i], m, right, on, combine, combine(left[i], m)) && combine(left[i], m) in rest;
      assert combine(left[i], m) in here + rest;
    }
  }

  /** The output rows of one left row in an inner merge. */
  function InnerRow<L(!new), R(!new), O(!new)>(l: L, right: seq<R>, on: (L, R) -> bool, combine: (L, R) -> O): seq<O> {
    MapSeq(Matches(l, right, on), r => combine(l, r))
  }

  /** `left.merge(right, how='inner')`: one output row per matching pair, in left order. */
  function InnerJoin<L(!new), R(!new), O(!new)>(left: seq<L>, right: seq<R>, on: (L, R) -> bool,
                              combine: (L, R) -> O): (out: seq<O>)
    ensures forall o :: o in out ==> exists l, r :: l in left && r in right && on(l, r) && o == combine(l, r)
    decreases |left|
  {
    if left == [] then []
    else
      var here := InnerRow(left[0], right, on, combine);
      assert forall o :: o in here ==> exists r :: r in right && on(left[0], r) && o == combine(left[0], r) by {
        forall o | o in here ensures exists r :: r in right && on(left[0], r) && o == combine(left[0], r) {
          var k :| 0 <= k < |here| && here[k] == o;
          var ms := Matches(left[0], right, on);
          assert ms[k] in ms;
        }
      }
      here + InnerJoin(left[1..], right, on, combine)
  }

  /** A left row whose key meets a right row's always yields output in the inner merge. */
  lemma {:induction false} InnerJoinComplete<L(!new), R(!new), O(!new)>(left: seq<L>, right: seq<R>, on: (L, R) -> bool,
                                                      combine: (L, R) -> O, l: L, r: R)
    requires l in left && r in right && on(l, r)
    ensures combine(l, r) in InnerJoin(left, right, on, combine)
    decreases |left|
  {
    if left[0] == l {
      var ms := Matches(l, right, on);
      assert r in ms;
      var k :| 0 <= k < |ms| && ms[k] == r;
      assert InnerRow(l, right, on, combine)[k] == combine(l, r);
    } else {
      InnerJoinComplete(left[1..], right, on, combine, l, r);
    }
  }
}
