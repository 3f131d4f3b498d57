/**
 * The season-aware Elo of the v2 backtest (`apply_advanced_elo`): the
 * prepared rows are walked in (date, game id) order; whenever the season
 * changes every rating is pulled a quarter of the way towards 1505, and a
 * game with a known margin moves the two ratings by equal and opposite
 * amounts scaled by `ln(|margin| + 1)` (1 for a zero margin).  The natural
 * logarithm is the parameter `lnOnePlus`, known only to be positive on the
 * margins it is applied to.
 */
module AdvancedElo {
  import opened Wrappers
  import opened Sorting
  import opened Schema
  import opened Elo

  const RegressionKeep: real := 0.75
  const RegressionMean: real := 1505.0

  type Positive = x: real | x > 0.0 witness 1.0

  /** The teams of the frame. */
  function RowTeams(rows: seq<PreparedRow>): (ts: set<string>)
    ensures forall r :: r in rows ==> r.homeTeam in ts && r.awayTeam in ts
  {
    (set r | r in rows :: r.homeTeam) + (set r | r in rows :: r.awayTeam)
  }

  function StartRatings(rows: seq<PreparedRow>): (r: Ratings)
    ensures r.Keys == RowTeams(rows)
    ensures forall t :: t in r ==> r[t] == InitialRating
  {
    map t | t in RowTeams(rows) :: InitialRating
  }

  /** Line 74 for one rating. */
  function RegressOne(x: real): (y: real)
    ensures y - RegressionMean == RegressionKeep * (x - RegressionMean)
  {
    x * RegressionKeep + RegressionMean * (1.0 - RegressionKeep)
  }

  /** Every rating pulled a quarter of the way towards 1505. */
  function Regressed(r: Ratings): (r': Ratings)
    ensures r'.Keys == r.Keys
    ensures forall t :: t in r ==> r'[t] == RegressOne(r[t])
  {
    map t | t in r :: RegressOne(r[t])
  }

  /** Lines 73-74: the loop over the table's teams, updating each in place. */
  method RegressAll(elo: Ratings) returns (elo': Ratings)
    ensures elo' == Regressed(elo)
  {
    elo' := elo;
    var remaining := elo.Keys;
    while remaining != {}
      invariant remaining <= elo.Keys && elo'.Keys == elo.Keys
      invariant forall t :: t in elo ==> elo'[t] == if t in remaining then elo[t] else RegressOne(elo[t])
      decreases |remaining|
    {
      var t :| t in remaining;
      elo' := elo'[t := elo'[t] * 0.75 + 1505.0 * 0.25];
      remaining := remaining - {t};
    }
  }

  /** `mov_multiplier`: ln(|margin| + 1), or 1 for a zero margin. */
  function MovMultiplier(realDiff: real, lnOnePlus: real -> Positive): (m: Positive)
    ensures realDiff != 0.0 ==> m == lnOnePlus(if realDiff < 0.0 then -realDiff else realDiff)
    ensures realDiff == 0.0 ==> m == 1.0
  {
    var mov := if realDiff < 0.0 then -realDiff else realDiff;
    if mov > 0.0 then lnOnePlus(mov) else 1.0
  }

  /** Lines 88-90: `elo_shift` from the pre-game table. */
  function Shift(r: Ratings, h: string, a: string, realDiff: real, expected: real -> Prob, lnOnePlus: real -> Positive): real
    requires h in r && a in r
  {
    var p: real := HomeWinProb(r, h, a, expected);
    var actual: real := if realDiff > 0.0 then 1.0 else 0.0;
    K * MovMultiplier(realDiff, lnOnePlus) * (actual - p)
  }

  /** Lines 81-90: a row with a known margin moves home by the shift and away by its negation. */
  function Update(r: Ratings, row: PreparedRow, expected: real -> Prob, lnOnePlus: real -> Positive): (r': Ratings)
    requires row.homeTeam in r && row.awayTeam in r
    ensures r'.Keys == r.Keys
  {
    var margin := MarginOf(row);
    if margin.None? then r
    else
      var shift := Shift(r, row.homeTeam, row.awayTeam, margin.value, expected, lnOnePlus);
      var r1 := r[row.homeTeam := r[row.homeTeam] + shift];
      r1[row.awayTeam := r1[row.awayTeam] - shift]
  }

  /** The loop's state: the rating table and the season of the previous row (`None` before the first). */
  datatype EloState = EloState(ratings: Ratings, season: Option<string>)

  /** Lines 71-75: a change of season regresses every rating, except at the very first row. */
  function EnterSeason(st: EloState, season: string): (st': EloState)
    ensures st'.season == Some(season) && st'.ratings.Keys == st.ratings.Keys
    ensures st.season == Some(season) ==> st'.ratings == st.ratings
    ensures st.season.None? ==> st'.ratings == st.ratings
    ensures st.season.Some? && st.season != Some(season) ==> st'.ratings == Regressed(st.ratings)
  {
    if st.season != Some(season) then
      EloState(if st.season.Some? then Regressed(st.ratings) else st.ratings, Some(season))
    else st
  }

  predicate CoversRows(r: Ratings, rows: seq<PreparedRow>) {
    forall x :: x in rows ==> x.homeTeam in r && x.awayTeam in r
  }

  /** The state after walking `rows` from `st0`. */
  function StateAfter(st0: EloState, rows: seq<PreparedRow>, expected: real -> Prob, lnOnePlus: real -> Positive): (st: EloState)
    requires CoversRows(st0.ratings, rows)
    ensures st.ratings.Keys == st0.ratings.Keys
    decreases |rows|
  {
    if rows == [] then st0
    else
      var last := rows[|rows| - 1];
      assert last in rows;
      var before := EnterSeason(StateAfter(st0, rows[..|rows| - 1], expected, lnOnePlus), last.season);
      before.(ratings := Update(before.ratings, last, expected, lnOnePlus))
  }

  /** The table row `i` records: after the earlier rows and its own season check, before its own update. */
  function Seen(rows: seq<PreparedRow>, i: nat, expected: real -> Prob, lnOnePlus: real -> Positive): (r: Ratings)
    requires i < |rows|
    ensures r.Keys == RowTeams(rows)
  {
    EnterSeason(StateAfter(EloState(StartRatings(rows), None), rows[..i], expected, lnOnePlus), rows[i].season).ratings
  }

  /** Row `i` of the sorted frame with the ratings it saw. */
  function Rated(rows: seq<PreparedRow>, i: nat, expected: real -> Prob, lnOnePlus: real -> Positive): (o: PreparedRow)
    requires i < |rows|
    ensures o == rows[i].(homeElo := Seen(rows, i, expected, lnOnePlus)[rows[i].homeTeam],
                          awayElo := Seen(rows, i, expected, lnOnePlus)[rows[i].awayTeam])
  {
    var r := Seen(rows, i, expected, lnOnePlus);
    rows[i].(homeElo := r[rows[i].homeTeam], awayElo := r[rows[i].awayTeam])
  }

  /** `o` is row `r` with, at most, its two Elo columns changed. */
  predicate SameExceptElo(o: PreparedRow, r: PreparedRow) {
    o.(homeElo := r.homeElo, awayElo := r.awayElo) == r
  }

  /**
   * `apply_advanced_elo`: the frame sorted by (date, game id), each row
   * otherwise unchanged but for its two Elo columns, which hold the ratings
   * it saw in that order.
   */
  function AdvancedRows(rows: seq<PreparedRow>, expected: real -> Prob, lnOnePlus: real -> Positive): (out: seq<PreparedRow>)
    ensures |out| == |rows|
    ensures SortedBy(out, DateGameKey)
    ensures forall i :: 0 <= i < |out| ==> SameExceptElo(out[i], SortBy(rows, DateGameKey)[i])
    ensures forall i :: 0 <= i < |out| ==> out[i] == Rated(SortBy(rows, DateGameKey), i, expected, lnOnePlus)
  {
    var sorted := SortBy(rows, DateGameKey);
    assert |sorted| == |multiset(sorted)| == |rows|;
    var out := seq(|sorted|, i requires 0 <= i < |sorted| => Rated(sorted, i, expected, lnOnePlus));
    RatedKeepsOrder(sorted, out);
    out
  }

  lemma RatedKeepsOrder(sorted: seq<PreparedRow>, out: seq<PreparedRow>)
    requires SortedBy(sorted, DateGameKey) && |out| == |sorted|
    requires forall i :: 0 <= i < |out| ==> SameExceptElo(out[i], sorted[i])
    ensures SortedBy(out, DateGameKey)
  {
    forall i, j | 0 <= i < j < |out| ensures !KeyLess(DateGameKey(out[j]), DateGameKey(out[i])) {
      assert DateGameKey(out[i]) == DateGameKey(sorted[i]);
      assert DateGameKey(out[j]) == DateGameKey(sorted[j]);
    }
  }

  /** Re-rating loses no row: each input row is in the output with only its ratings changed. */
  lemma AdvancedRowsKeepRows(rows: seq<PreparedRow>, expected: real -> Prob, lnOnePlus: real -> Positive, r: PreparedRow)
    requires r in rows
    ensures exists o :: o in AdvancedRows(rows, expected, lnOnePlus) && SameExceptElo(o, r)
  {
    var sorted := SortBy(rows, DateGameKey);
    var out := AdvancedRows(rows, expected, lnOnePlus);
    assert multiset(sorted) == multiset(rows);
    assert r in multiset(sorted);
    var i :| 0 <= i < |sorted| && sorted[i] == r;
    assert |out| == |sorted|;
    assert SameExceptElo(out[i], sorted[i]);
    assert out[i] in out;
  }

  /** Re-rating adds no row: each output row is an input row with only its ratings changed. */
  lemma AdvancedRowsFromRows(rows: seq<PreparedRow>, expected: real -> Prob, lnOnePlus: real -> Positive, o: PreparedRow)
    requires o in AdvancedRows(rows, expected, lnOnePlus)
    ensures exists r :: r in rows && SameExceptElo(o, r)
  {
    var sorted := SortBy(rows, DateGameKey);
    var out := AdvancedRows(rows, expected, lnOnePlus);
    var i :| 0 <= i < |out| && out[i] == o;
    assert sorted[i] in multiset(sorted);
    assert sorted[i] in rows;
  }

  lemma StateAfterNext(rows: seq<PreparedRow>, i: nat, expected: real -> Prob, lnOnePlus: real -> Positive)
    requires i < |rows|
    ensures var st0 := EloState(StartRatings(rows), None);
            StateAfter(st0, rows[..i + 1], expected, lnOnePlus) ==
              var before := EnterSeason(StateAfter(st0, rows[..i], expected, lnOnePlus), rows[i].season);
              before.(ratings := Update(before.ratings, rows[i], expected, lnOnePlus))
  {
    assert rows[..i + 1][..i] == rows[..i];
    assert rows[..i + 1][i] == rows[i];
  }

  /** The update statements of lines 81-90 on the table in place. */
  method ApplyRow(elo: Ratings, row: PreparedRow, expected: real -> Prob, lnOnePlus: real -> Positive) returns (elo': Ratings)
    requires row.homeTeam in elo && row.awayTeam in elo
    ensures elo' == Update(elo, row, expected, lnOnePlus)
  {
    elo' := elo;
    var realDiff := MarginOf(row);
    if realDiff.Some? {
      var h, a := row.homeTeam, row.awayTeam;
      var probH: real := HomeWinProb(elo', h, a, expected);
      var actualH := if realDiff.value > 0.0 then 1.0 else 0.0;
      var mov := if realDiff.value < 0.0 then -realDiff.value else realDiff.value;
      var movMultiplier: real := if mov > 0.0 then lnOnePlus(mov) else 1.0;
      var eloShift := K * movMultiplier * (actualH - probH);
      assert movMultiplier == MovMultiplier(realDiff.value, lnOnePlus);
      assert eloShift == Shift(elo, h, a, realDiff.value, expected, lnOnePlus);
      elo' := elo'[h := elo'[h] + eloShift];
      elo' := elo'[a := elo'[a] - eloShift];
    }
  }

  /** Lines 71-75 on the loop's variables. */
  method EnterSeasonStep(elo: Ratings, currentSeason: Option<string>, season: string)
    returns (elo': Ratings, season': Option<string>)
    ensures EloState(elo', season') == EnterSeason(EloState(elo, currentSeason), season)
  {
    elo', season' := elo, currentSeason;
    if currentSeason != Some(season) {
      if currentSeason.Some? {
        elo' := RegressAll(elo);
      }
      season' := Some(season);
    }
  }

  /** One pass of the row loop: the ratings row `i` records, then its update. */
  method RateRow(sorted: seq<PreparedRow>, i: nat, elo: Ratings, currentSeason: Option<string>,
                 expected: real -> Prob, lnOnePlus: real -> Positive)
    returns (elo': Ratings, season': Option<string>, rated: PreparedRow)
    requires i < |sorted|
    requires EloState(elo, currentSeason) == StateAfter(EloState(StartRatings(sorted), None), sorted[..i], expected, lnOnePlus)
    ensures EloState(elo', season') == StateAfter(EloState(StartRatings(sorted), None), sorted[..i + 1], expected, lnOnePlus)
    ensures rated == Rated(sorted, i, expected, lnOnePlus)
  {
    var row := sorted[i];
    StateAfterNext(sorted, i, expected, lnOnePlus);
    var entered;
    entered, season' := EnterSeasonStep(elo, currentSeason, row.season);
    assert entered == Seen(sorted, i, expected, lnOnePlus);
    rated := row.(homeElo := entered[row.homeTeam], awayElo := entered[row.awayTeam]);
    elo' := ApplyRow(entered, row, expected, lnOnePlus);
  }

  /** After `i` rows the loop holds the state `StateAfter` gives and has rated each of them. */
  predicate Walked(sorted: seq<PreparedRow>, i: nat, elo: Ratings, currentSeason: Option<string>, out: seq<PreparedRow>,
                   expected: real -> Prob, lnOnePlus: real -> Positive)
  {
    && i <= |sorted| && |out| == i
    && EloState(elo, currentSeason) == StateAfter(EloState(StartRatings(sorted), None), sorted[..i], expected, lnOnePlus)
    && forall j :: 0 <= j < i ==> out[j] == Rated(sorted, j, expected, lnOnePlus)
  }

  /** The body of the row loop: rate row `i` and append it. */
  method RateNext(sorted: seq<PreparedRow>, i: nat, elo: Ratings, currentSeason: Option<string>, out: seq<PreparedRow>,
                  expected: real -> Prob, lnOnePlus: real -> Positive)
    returns (elo': Ratings, season': Option<string>, out': seq<PreparedRow>)
    requires i < |sorted| && Walked(sorted, i, elo, currentSeason, out, expected, lnOnePlus)
    ensures Walked(sorted, i + 1, elo', season', out', expected, lnOnePlus)
  {
    var rated;
    elo', season', rated := RateRow(sorted, i, elo, currentSeason, expected, lnOnePlus);
    RatedNext(sorted, i, out, rated, expected, lnOnePlus);
    out' := out + [rated];
  }

  /** Appending row `i` rated extends the rated prefix by one. */
  lemma RatedNext(sorted: seq<PreparedRow>, i: nat, out: seq<PreparedRow>, rated: PreparedRow,
                  expected: real -> Prob, lnOnePlus: real -> Positive)
    requires i < |sorted| && |out| == i
    requires forall j :: 0 <= j < i ==> out[j] == Rated(sorted, j, expected, lnOnePlus)
    requires rated == Rated(sorted, i, expected, lnOnePlus)
    ensures forall j :: 0 <= j < i + 1 ==> (out + [rated])[j] == Rated(sorted, j, expected, lnOnePlus)
  {
    forall j | 0 <= j < i + 1 ensures (out + [rated])[j] == Rated(sorted, j, expected, lnOnePlus) {
      if j < i {
        assert (out + [rated])[j] == out[j];
      }
    }
  }

  /** The row loop of `apply_advanced_elo` over the sorted frame. */
  method ApplyAdvancedElo(rows: seq<PreparedRow>, expected: real -> Prob, lnOnePlus: real -> Positive)
    returns (out: seq<PreparedRow>)
    ensures out == AdvancedRows(rows, expected, lnOnePlus)
  {
    var sorted := SortBy(rows, DateGameKey);
    var elo := StartRatings(sorted);
    var currentSeason: Option<string> := None;
    out := [];
    var i := 0;
    assert sorted[..0] == [];
    while i < |sorted|
      invariant Walked(sorted, i, elo, currentSeason, out, expected, lnOnePlus)
      decreases |sorted| - i
    {
      elo, currentSeason, out := RateNext(sorted, i, elo, currentSeason, out, expected, lnOnePlus);
      i := i + 1;
    }
    RatedRows(rows, out, expected, lnOnePlus);
  }

  lemma RatedRows(rows: seq<PreparedRow>, out: seq<PreparedRow>, expected: real -> Prob, lnOnePlus: real -> Positive)
    requires var sorted := SortBy(rows, DateGameKey);
             |out| == |sorted| && forall j :: 0 <= j < |sorted| ==> out[j] == Rated(sorted, j, expected, lnOnePlus)
    ensures out == AdvancedRows(rows, expected, lnOnePlus)
  {
  }

  // ---- properties -----------------------------------------------------

  /** The pull towards 1505 shrinks every rating's distance from it by a quarter. */
  lemma RegressionShrinksDistance(r: Ratings, t: string)
    requires t in r
    ensures var d := Regressed(r)[t] - RegressionMean;
            var d0 := r[t] - RegressionMean;
            (d0 >= 0.0 ==> 0.0 <= d <= d0) && (d0 <= 0.0 ==> d0 <= d <= 0.0)
  {
  }

  /** A win for the home side raises its rating and lowers the visitor's; a loss or a zero margin does the opposite. */
  lemma UpdateWinnerGains(r: Ratings, row: PreparedRow, expected: real -> Prob, lnOnePlus: real -> Positive)
    requires row.homeTeam in r && row.awayTeam in r && row.homeTeam != row.awayTeam
    requires MarginOf(row).Some?
    ensures var r' := Update(r, row, expected, lnOnePlus);
            if MarginOf(row).value > 0.0
            then r'[row.homeTeam] > r[row.homeTeam] && r'[row.awayTeam] < r[row.awayTeam]
            else r'[row.homeTeam] < r[row.homeTeam] && r'[row.awayTeam] > r[row.awayTeam]
  {
    var m := MovMultiplier(MarginOf(row).value, lnOnePlus);
    var p: real := HomeWinProb(r, row.homeTeam, row.awayTeam, expected);
    if MarginOf(row).value > 0.0 {
      assert K * m * (1.0 - p) > 0.0;
    } else {
      assert K * m * (0.0 - p) < 0.0;
    }
  }

  /** A row without a margin changes nothing. */
  lemma UnscoredRowChangesNothing(r: Ratings, row: PreparedRow, expected: real -> Prob, lnOnePlus: real -> Positive)
    requires row.homeTeam in r && row.awayTeam in r
    requires MarginOf(row).None?
    ensures Update(r, row, expected, lnOnePlus) == r
  {
  }

  /** An update moves rating between its two teams: the league total is unchanged. */
  lemma UpdateZeroSum(r: Ratings, row: PreparedRow, ts: seq<string>, expected: real -> Prob, lnOnePlus: real -> Positive)
    requires row.homeTeam in r && row.awayTeam in r
    requires Lists(ts, r.Keys)
    ensures Total(Update(r, row, expected, lnOnePlus), ts) == Total(r, ts)
  {
    var margin := MarginOf(row);
    if margin.Some? {
      var shift := Shift(r, row.homeTeam, row.awayTeam, margin.value, expected, lnOnePlus);
      var r1 := r[row.homeTeam := r[row.homeTeam] + shift];
      var r2 := r1[row.awayTeam := r1[row.awayTeam] + -shift];
      assert Update(r, row, expected, lnOnePlus) == r2;
      TotalAdd(r, ts, row.homeTeam, shift);
      TotalAdd(r1, ts, row.awayTeam, -shift);
      assert Total(r2, ts) == Total(r1, ts) - shift == Total(r, ts);
    }
  }

  /** Regression maps the league total T to 0.75 T + 0.25 * 1505 per team. */
  lemma {:induction false} RegressedTotal(r: Ratings, ts: seq<string>)
    requires forall t :: t in ts ==> t in r
    ensures Total(Regressed(r), ts) == RegressionKeep * Total(r, ts) + (|ts| as real) * RegressionMean * (1.0 - RegressionKeep)
    decreases |ts|
  {
    if ts != [] {
      RegressedTotal(r, ts[1..]);
    }
  }

  /**
   * The league total stays between 1500 and 1505 per team: it starts at
   * 1500, updates keep it, and each regression moves it towards 1505.
   */
  lemma {:induction false} LeagueTotalBounded(st0: EloState, rows: seq<PreparedRow>, ts: seq<string>,
                                              expected: real -> Prob, lnOnePlus: real -> Positive)
    requires CoversRows(st0.ratings, rows)
    requires Lists(ts, st0.ratings.Keys)
    requires (|ts| as real) * InitialRating <= Total(st0.ratings, ts) <= (|ts| as real) * RegressionMean
    ensures var st := StateAfter(st0, rows, expected, lnOnePlus);
            (|ts| as real) * InitialRating <= Total(st.ratings, ts) <= (|ts| as real) * RegressionMean
    decreases |rows|
  {
    if rows != [] {
      var init := rows[..|rows| - 1];
      var last := rows[|rows| - 1];
      assert last in rows;
      assert CoversRows(st0.ratings, init) by {
        forall x | x in init ensures x in rows { }
      }
      LeagueTotalBounded(st0, init, ts, expected, lnOnePlus);
      var prev := StateAfter(st0, init, expected, lnOnePlus);
      var before := EnterSeason(prev, last.season);
      assert forall t :: t in ts ==> t in prev.ratings by {
        forall t | t in ts ensures t in prev.ratings {
        }
      }
      if before.ratings != prev.ratings {
        RegressedTotal(prev.ratings, ts);
      }
      UpdateZeroSum(before.ratings, last, ts, expected, lnOnePlus);
    }
  }

  lemma StartTotal(rows: seq<PreparedRow>, ts: seq<string>)
    requires forall t :: t in ts ==> t in RowTeams(rows)
    ensures forall t :: t in ts ==> t in StartRatings(rows)
    ensures Total(StartRatings(rows), ts) == (|ts| as real) * InitialRating
  {
    var r := StartRatings(rows);
    forall t | t in ts ensures t in r && r[t] == InitialRating {
    }
    TotalConstant(r, ts, InitialRating);
  }

  /** Before every row the league total is between 1500 and 1505 per team. */
  lemma LeagueTotalBeforeEachRow(rows: seq<PreparedRow>, i: nat, ts: seq<string>,
                                 expected: real -> Prob, lnOnePlus: real -> Positive)
    requires i < |rows|
    requires Lists(ts, RowTeams(rows))
    ensures (|ts| as real) * InitialRating <= Total(Seen(rows, i, expected, lnOnePlus), ts) <= (|ts| as real) * RegressionMean
  {
    var st0 := EloState(StartRatings(rows), None);
    StartTotal(rows, ts);
    assert CoversRows(st0.ratings, rows[..i]) by {
      forall x | x in rows[..i] ensures x in rows { }
    }
    LeagueTotalBounded(st0, rows[..i], ts, expected, lnOnePlus);
    var prev := StateAfter(st0, rows[..i], expected, lnOnePlus);
    if prev.season.Some? && prev.season != Some(rows[i].season) {
      assert forall t :: t in ts ==> t in prev.ratings by {
        forall t | t in ts ensures t in prev.ratings {
        }
      }
      RegressedTotal(prev.ratings, ts);
    }
  }
}
