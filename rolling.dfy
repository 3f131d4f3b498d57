/**
 * Per-group trailing means: `df.groupby(g)[x].apply(lambda s:
 * s.shift(1).rolling(window=w, min_periods=p).mean())`.  The value at a row
 * is computed from the values of the earlier rows of its group only.
 */
module Rolling {
  import opened Wrappers
  import opened Frames

  /** The last `w` elements (all of them when there are fewer). */
  function LastN<T>(xs: seq<T>, w: nat): (r: seq<T>)
    ensures |r| == if |xs| < w then |xs| else w
    ensures r == xs[|xs| - |r|..]
  {
    if |xs| <= w then xs else xs[|xs| - w..]
  }

  function Mean(xs: seq<real>): real
    requires |xs| > 0
  {
    Sum(xs) / (|xs| as real)
  }

  /** A mean lies between any lower and upper bound of its values. */
  lemma MeanWithinBounds(xs: seq<real>, lo: real, hi: real)
    requires |xs| > 0
    requires forall i :: 0 <= i < |xs| ==> lo <= xs[i] <= hi
    ensures lo <= Mean(xs) <= hi
  {
    SumBounds(xs, lo, hi);
    var n := |xs| as real;
    assert Sum(xs) / n >= (n * lo) / n;
    assert Sum(xs) / n <= (n * hi) / n;
  }

  /**
   * The rolling mean over the shifted series, at a row whose group has the
   * earlier values `prior`: the mean of the last `w` of them, defined once at
   * least `minPeriods` values are in the window.  pandas refuses
   * `min_periods > window`.
   */
  function TrailingMean(prior: seq<real>, w: nat, minPeriods: nat): (m: Option<real>)
    requires 1 <= minPeriods <= w
    ensures m.Some? <==> |prior| >= minPeriods
  {
    var window := LastN(prior, w);
    if |window| >= minPeriods then Some(Mean(window)) else None
  }

  /** The window at a row with `k` earlier values covers positions max(0, k - w) .. k - 1. */
  lemma TrailingMeanWindow(prior: seq<real>, w: nat, minPeriods: nat)
    requires 1 <= minPeriods <= w
    ensures var k := |prior|;
            var lo := if k < w then 0 else k - w;
            TrailingMean(prior, w, minPeriods).Some? ==>
              TrailingMean(prior, w, minPeriods).value == Mean(prior[lo..k])
  {
    var k := |prior|;
    var lo := if k < w then 0 else k - w;
    assert LastN(prior, w) == prior[lo..k];
  }

  /** A defined trailing mean is bounded by the bounds of the values it averages. */
  lemma TrailingMeanWithinBounds(prior: seq<real>, w: nat, minPeriods: nat, lo: real, hi: real)
    requires 1 <= minPeriods <= w
    requires forall i :: 0 <= i < |prior| ==> lo <= prior[i] <= hi
    requires TrailingMean(prior, w, minPeriods).Some?
    ensures lo <= TrailingMean(prior, w, minPeriods).value <= hi
  {
    var window := LastN(prior, w);
    forall i | 0 <= i < |window| ensures lo <= window[i] <= hi {
      assert window[i] == prior[|prior| - |window| + i];
    }
    MeanWithinBounds(window, lo, hi);
  }

  /** The mask selecting the rows of `x`'s group. */
  function SameGroupAs<R, G(==)>(group: R -> G, x: R): R -> bool {
    r => group(r) == group(x)
  }

  /** The rows of row `i`'s group that come before it, in frame order. */
  function GroupPrior<R(!new), G(==)>(rows: seq<R>, i: nat, group: R -> G): (p: seq<R>)
    requires i < |rows|
    ensures forall r :: r in p ==> r in rows[..i] && group(r) == group(rows[i])
  {
    Filter(rows[..i], SameGroupAs(group, rows[i]))
  }

  /**
   * Row `i` is its group's `k`-th row, where `k` counts the group's earlier
   * rows, and those earlier rows are exactly the group's first `k` rows.
   */
  lemma GroupPosition<R(!new), G>(rows: seq<R>, i: nat, group: R -> G)
    requires i < |rows|
    ensures var g := Filter(rows, SameGroupAs(group, rows[i]));
            var k := |GroupPrior(rows, i, group)|;
            k < |g| && g[k] == rows[i] && g[..k] == GroupPrior(rows, i, group)
  {
    var p := SameGroupAs(group, rows[i]);
    assert rows == rows[..i] + ([rows[i]] + rows[i + 1..]);
    FilterConcat(rows[..i], [rows[i]] + rows[i + 1..], p);
    FilterConcat([rows[i]], rows[i + 1..], p);
    assert Filter([rows[i]], p) == [rows[i]] by {
      assert [rows[i]][1..] == [];
    }
  }

  /** The previous row of the same group (`groupby(g)[c].shift(1)`). */
  function Previous<R(!new), G(==)>(rows: seq<R>, i: nat, group: R -> G): (prev: Option<R>)
    requires i < |rows|
    ensures prev.None? <==> GroupPrior(rows, i, group) == []
    ensures prev.Some? ==> prev.value in rows[..i] && group(prev.value) == group(rows[i])
  {
    var p := GroupPrior(rows, i, group);
    if p == [] then None else assert p[|p| - 1] in p; Some(p[|p| - 1])
  }

  /** The shifted rolling mean of `value` at row `i` of the frame. */
  function TrailingAt<R(!new), G(==)>(rows: seq<R>, i: nat, group: R -> G, value: R -> real,
                                      w: nat, minPeriods: nat): Option<real>
    requires i < |rows|
    requires 1 <= minPeriods <= w
  {
    TrailingMean(MapSeq(GroupPrior(rows, i, group), value), w, minPeriods)
  }

  /**
   * At a group's `k`-th row, the trailing mean is defined exactly when
   * `k >= minPeriods` and is then the mean of the group's rows
   * max(0, k - w) .. k - 1: never of row `k` itself or any later row.
   */
  lemma TrailingAtKthRow<R(!new), G>(rows: seq<R>, i: nat, group: R -> G, value: R -> real,
                                         w: nat, minPeriods: nat)
    requires i < |rows|
    requires 1 <= minPeriods <= w
    ensures var g := Filter(rows, SameGroupAs(group, rows[i]));
            var k := |GroupPrior(rows, i, group)|;
            var lo := if k < w then 0 else k - w;
            k < |g| && g[k] == rows[i] &&
            (TrailingAt(rows, i, group, value, w, minPeriods).Some? <==> k >= minPeriods) &&
            (k >= minPeriods ==>
               TrailingAt(rows, i, group, value, w, minPeriods).value == Mean(MapSeq(g[lo..k], value)))
  {
    GroupPosition(rows, i, group);
    var g := Filter(rows, SameGroupAs(group, rows[i]));
    var prior := GroupPrior(rows, i, group);
    var k := |prior|;
    var xs := MapSeq(prior, value);
    TrailingMeanWindow(xs, w, minPeriods);
    var lo := if k < w then 0 else k - w;
    MapSlice(prior, g, lo, value);
  }

  /** Mapping a slice of a prefix is slicing the mapped prefix. */
  lemma MapSlice<R>(prior: seq<R>, g: seq<R>, lo: nat, value: R -> real)
    requires lo <= |prior| <= |g| && g[..|prior|] == prior
    ensures MapSeq(prior, value)[lo..|prior|] == MapSeq(g[lo..|prior|], value)
  {
    var k := |prior|;
    forall j | 0 <= j < k - lo ensures MapSeq(prior, value)[lo..k][j] == MapSeq(g[lo..k], value)[j] {
      assert prior[lo + j] == g[lo + j];
    }
  }
}
