/**
 * `itertools.combinations` on a sequence: the combinations of r elements in
 * the order Python yields them, how many there are, which sequences they
 * are, and that none repeats when the elements are distinct.
 */
module Combinatorics {
  import opened FeatureBlocks

  function Prepend<T>(x: T, cs: seq<seq<T>>): (ps: seq<seq<T>>)
    ensures |ps| == |cs|
    ensures forall i :: 0 <= i < |cs| ==> ps[i] == [x] + cs[i]
  {
    seq(|cs|, i requires 0 <= i < |cs| => [x] + cs[i])
  }

  /**
   * `itertools.combinations(xs, r)`: the combinations that take the first
   * element, then those that skip it, which is lexicographic order of the
   * chosen positions.
   */
  function Combinations<T>(xs: seq<T>, r: nat): seq<seq<T>>
    decreases |xs|
  {
    if r == 0 then [[]]
    else if xs == [] then []
    else Prepend(xs[0], Combinations(xs[1..], r - 1)) + Combinations(xs[1..], r)
  }

  /** The first combination yielded is the first `r` elements. */
  lemma {:induction false} FirstCombination<T>(xs: seq<T>, r: nat)
    requires r <= |xs|
    ensures Combinations(xs, r) != [] && Combinations(xs, r)[0] == xs[..r]
    decreases |xs|
  {
    if r > 0 {
      FirstCombination(xs[1..], r - 1);
      assert xs[..r] == [xs[0]] + xs[1..][..r - 1];
    }
  }

  /** The binomial coefficient, by Pascal's rule. */
  function Binom(n: nat, k: nat): nat
    decreases n
  {
    if k == 0 then 1
    else if n == 0 then 0
    else Binom(n - 1, k - 1) + Binom(n - 1, k)
  }

  /** `c` is `xs` with some elements left out, the rest in order. */
  predicate IsSubseq<T(==)>(c: seq<T>, xs: seq<T>)
    decreases |xs|
  {
    if c == [] then true
    else if xs == [] then false
    else (c[0] == xs[0] && IsSubseq(c[1..], xs[1..])) || IsSubseq(c, xs[1..])
  }

  /** There are n choose r combinations. */
  lemma {:induction false} CombinationsCount<T>(xs: seq<T>, r: nat)
    ensures |Combinations(xs, r)| == Binom(|xs|, r)
    decreases |xs|
  {
    if r > 0 && xs != [] {
      CombinationsCount(xs[1..], r - 1);
      CombinationsCount(xs[1..], r);
    }
  }

  /** The prepended combinations are exactly those starting with `x` whose rest is in `cs`. */
  lemma PrependMembership<T>(x: T, cs: seq<seq<T>>, c: seq<T>)
    ensures c in Prepend(x, cs) <==> c != [] && c[0] == x && c[1..] in cs
  {
    var ps := Prepend(x, cs);
    if c in ps {
      var i :| 0 <= i < |ps| && ps[i] == c;
      assert c[1..] == cs[i];
    }
    if c != [] && c[0] == x && c[1..] in cs {
      var i :| 0 <= i < |cs| && cs[i] == c[1..];
      assert ps[i] == c;
    }
  }

  /** Unfolding `IsSubseq` once on a non-empty candidate and a non-empty source. */
  lemma SubseqUnfold<T>(c: seq<T>, xs: seq<T>)
    requires c != [] && xs != []
    ensures IsSubseq(c, xs) <==> (c[0] == xs[0] && IsSubseq(c[1..], xs[1..])) || IsSubseq(c, xs[1..])
  {
  }

  /** A sequence is one of the combinations exactly when it has length r and is a subsequence of `xs`. */
  lemma {:induction false} CombinationsMembership<T>(xs: seq<T>, r: nat, c: seq<T>)
    ensures c in Combinations(xs, r) <==> |c| == r && IsSubseq(c, xs)
    decreases |xs|, 1
  {
    if r == 0 {
      if |c| == 0 { assert c == []; }
    } else if xs == [] {
      if c != [] {
        assert !IsSubseq(c, xs);
      }
    } else if c == [] {
      PrependMembership(xs[0], Combinations(xs[1..], r - 1), c);
      CombinationsMembership(xs[1..], r, c);
    } else {
      MembershipCons(xs, r, c);
    }
  }

  /** The step of the membership proof for a non-empty candidate, from the two facts about the tail. */
  lemma {:induction false} MembershipCons<T>(xs: seq<T>, r: nat, c: seq<T>)
    requires r > 0 && xs != [] && c != []
    ensures c in Combinations(xs, r) <==> |c| == r && IsSubseq(c, xs)
    decreases |xs|, 0
  {
    CombinationsMembership(xs[1..], r, c);
    CombinationsMembership(xs[1..], r - 1, c[1..]);
    var with := Prepend(xs[0], Combinations(xs[1..], r - 1));
    var without := Combinations(xs[1..], r);
    assert Combinations(xs, r) == with + without;
    assert c in Combinations(xs, r) <==> c in with || c in without;
    PrependMembership(xs[0], Combinations(xs[1..], r - 1), c);
    SubseqUnfold(c, xs);
  }

  lemma {:induction false} SubseqMembers<T>(c: seq<T>, xs: seq<T>, x: T)
    requires IsSubseq(c, xs) && x in c
    ensures x in xs
    decreases |xs|
  {
    if c[0] == xs[0] && IsSubseq(c[1..], xs[1..]) {
      if x != c[0] {
        SubseqMembers(c[1..], xs[1..], x);
      }
    } else {
      SubseqMembers(c, xs[1..], x);
    }
  }

  /** When the elements are distinct, no combination is produced twice. */
  lemma {:induction false} CombinationsUnique<T>(xs: seq<T>, r: nat)
    requires Unique(xs)
    ensures Unique(Combinations(xs, r))
    decreases |xs|
  {
    if r > 0 && xs != [] {
      var rest := xs[1..];
      assert Unique(rest);
      CombinationsUnique(rest, r - 1);
      CombinationsUnique(rest, r);
      var with := Prepend(xs[0], Combinations(rest, r - 1));
      var without := Combinations(rest, r);
      assert Unique(with) by {
        forall i, j | 0 <= i < j < |with| ensures with[i] != with[j] {
          assert with[i][1..] == Combinations(rest, r - 1)[i];
          assert with[j][1..] == Combinations(rest, r - 1)[j];
        }
      }
      forall c | c in with ensures c !in without {
        var i :| 0 <= i < |with| && with[i] == c;
        assert c[0] == xs[0];
        if c in without {
          CombinationsMembership(rest, r, c);
          SubseqMembers(c, rest, xs[0]);
          assert false;
        }
      }
      UniqueConcat(with, without);
    }
  }

  /** Asking for more elements than there are gives no combination. */
  lemma {:induction false} CombinationsTooMany<T>(xs: seq<T>, r: nat)
    requires r > |xs|
    ensures Combinations(xs, r) == []
    decreases |xs|
  {
    if xs != [] {
      CombinationsTooMany(xs[1..], r - 1);
      CombinationsTooMany(xs[1..], r);
    }
  }

  /** One way to take every element. */
  lemma {:induction false} CombinationsOfAll<T>(xs: seq<T>)
    ensures |Combinations(xs, |xs|)| == 1
    decreases |xs|
  {
    if xs != [] {
      CombinationsOfAll(xs[1..]);
      CombinationsTooMany(xs[1..], |xs|);
    }
  }

  /** n ways to leave one element out. */
  lemma {:induction false} CombinationsLeavingOne<T>(xs: seq<T>)
    requires |xs| >= 1
    ensures |Combinations(xs, |xs| - 1)| == |xs|
    decreases |xs|
  {
    if |xs| > 1 {
      CombinationsLeavingOne(xs[1..]);
      CombinationsOfAll(xs[1..]);
    }
  }

  /** n(n-1)/2 ways to leave two out. */
  lemma {:induction false} CombinationsLeavingTwo<T>(xs: seq<T>)
    requires |xs| >= 2
    ensures 2 * |Combinations(xs, |xs| - 2)| == |xs| * (|xs| - 1)
    decreases |xs|
  {
    var m := |xs|;
    if m > 2 {
      var rest := xs[1..];
      CombinationsLeavingTwo(rest);
      CombinationsLeavingOne(rest);
      assert |Combinations(xs, m - 2)| == |Combinations(rest, |rest| - 2)| + |Combinations(rest, |rest| - 1)|;
      PascalTwo(m);
    }
  }

  /** n(n-1)(n-2)/6 ways to leave three out. */
  lemma {:induction false} CombinationsLeavingThree<T>(xs: seq<T>)
    requires |xs| >= 3
    ensures 6 * |Combinations(xs, |xs| - 3)| == |xs| * (|xs| - 1) * (|xs| - 2)
    decreases |xs|
  {
    var m := |xs|;
    if m > 3 {
      var rest := xs[1..];
      CombinationsLeavingThree(rest);
      CombinationsLeavingTwo(rest);
      assert |Combinations(xs, m - 3)| == |Combinations(rest, |rest| - 3)| + |Combinations(rest, |rest| - 2)|;
      PascalThree(m);
    }
  }

  lemma PascalTwo(m: int)
    ensures (m - 1) * (m - 2) + 2 * (m - 1) == m * (m - 1)
  {
  }

  lemma PascalThree(m: int)
    ensures (m - 1) * (m - 2) * (m - 3) + 3 * ((m - 1) * (m - 2)) == m * (m - 1) * (m - 2)
  {
  }
}
