/**
 * The Elo pass of the feature loader: every team starts at 1500, the games
 * are walked in date order, each game records both ratings before it is
 * played, and a scored game moves the two ratings by equal and opposite
 * amounts.  The logistic expected score `1 / (1 + 10^(d / 400))` is the
 * parameter `expected`, known only to lie strictly between 0 and 1.
 */
module Elo {
  import opened Wrappers
  import opened Schema

  const InitialRating: real := 1500.0
  const K: real := 20.0

  type Prob = p: real | 0.0 < p < 1.0 witness 0.5

  type Ratings = map<string, real>

  /** The teams of a list of games: `set(home_team) | set(away_team)`. */
  function Teams(games: seq<Game>): (ts: set<string>)
    ensures forall g :: g in games ==> g.homeTeam in ts && g.awayTeam in ts
  {
    (set g | g in games :: g.homeTeam) + (set g | g in games :: g.awayTeam)
  }

  /** Every team at the starting rating. */
  function InitialRatings(games: seq<Game>): (r: Ratings)
    ensures r.Keys == Teams(games)
    ensures forall t :: t in r ==> r[t] == InitialRating
  {
    map t | t in Teams(games) :: InitialRating
  }

  predicate Covers(r: Ratings, games: seq<Game>) {
    forall g :: g in games ==> g.homeTeam in r && g.awayTeam in r
  }

  /** `prob_h`: the home side's expected score, from the away rating minus the boosted home rating. */
  function HomeWinProb(r: Ratings, h: string, a: string, expected: real -> Prob): Prob
    requires h in r && a in r
  {
    expected(r[a] - (r[h] + HomeAdvantage))
  }

  /** `actual_h`: 1 for a home win, 0 otherwise (a tie counts as a home loss). */
  function HomeResult(homeScore: real, awayScore: real): (act: real)
    ensures act == 1.0 || act == 0.0
    ensures act == 1.0 <==> homeScore > awayScore
  {
    if homeScore > awayScore then 1.0 else 0.0
  }

  /**
   * One game's update of the rating table, in the source's order: the home
   * entry first, then the away entry (read after the home write).
   */
  function Step(r: Ratings, g: Game, expected: real -> Prob): (r': Ratings)
    requires g.homeTeam in r && g.awayTeam in r
    ensures r'.Keys == r.Keys
    ensures g.homeScore.None? || g.awayScore.None? ==> r' == r
    ensures g.homeScore.Some? && g.awayScore.Some? && g.homeTeam != g.awayTeam ==>
              var shift := K * (HomeResult(g.homeScore.value, g.awayScore.value) - HomeWinProb(r, g.homeTeam, g.awayTeam, expected));
              r'[g.homeTeam] == r[g.homeTeam] + shift && r'[g.awayTeam] == r[g.awayTeam] - shift
    ensures forall t :: t in r && t != g.homeTeam && t != g.awayTeam ==> r'[t] == r[t]
  {
    if g.homeScore.Some? && g.awayScore.Some? then
      var p: real := HomeWinProb(r, g.homeTeam, g.awayTeam, expected);
      var act := HomeResult(g.homeScore.value, g.awayScore.value);
      var r1 := r[g.homeTeam := r[g.homeTeam] + K * (act - p)];
      r1[g.awayTeam := r1[g.awayTeam] + K * ((1.0 - act) - (1.0 - p))]
    else r
  }

  /** The table after walking `games` in order from `r0`. */
  function RatingsAfter(r0: Ratings, games: seq<Game>, expected: real -> Prob): (r: Ratings)
    requires Covers(r0, games)
    ensures r.Keys == r0.Keys
    decreases |games|
  {
    if games == [] then r0
    else
      var last := games[|games| - 1];
      assert last in games;
      Step(RatingsAfter(r0, games[..|games| - 1], expected), last, expected)
  }

  /** The table a game sees: the ratings after every earlier game and before its own. */
  function RatingsBefore(games: seq<Game>, i: nat, expected: real -> Prob): (r: Ratings)
    requires i <= |games|
    ensures r.Keys == Teams(games)
  {
    RatingsAfter(InitialRatings(games), games[..i], expected)
  }

  /** One more game: the table after it is its update of the table before it. */
  lemma RatingsBeforeNext(games: seq<Game>, i: nat, expected: real -> Prob)
    requires i < |games|
    ensures games[i].homeTeam in RatingsBefore(games, i, expected)
    ensures games[i].awayTeam in RatingsBefore(games, i, expected)
    ensures RatingsBefore(games, i + 1, expected) == Step(RatingsBefore(games, i, expected), games[i], expected)
  {
    assert games[..i + 1][..i] == games[..i];
    assert games[..i + 1][i] == games[i];
  }

  /** The body of the row loop after the two appends: update both entries in place. */
  method ApplyGame(elo: Ratings, g: Game, expected: real -> Prob) returns (elo': Ratings)
    requires g.homeTeam in elo && g.awayTeam in elo
    ensures elo' == Step(elo, g, expected)
  {
    elo' := elo;
    if g.homeScore.Some? && g.awayScore.Some? {
      var p: real := HomeWinProb(elo', g.homeTeam, g.awayTeam, expected);
      var act := HomeResult(g.homeScore.value, g.awayScore.value);
      elo' := elo'[g.homeTeam := elo'[g.homeTeam] + K * (act - p)];
      elo' := elo'[g.awayTeam := elo'[g.awayTeam] + K * ((1.0 - act) - (1.0 - p))];
    }
  }

  /** `h` and `a` are the ratings game `i`'s two teams had before game `i`. */
  predicate Emitted(games: seq<Game>, i: nat, expected: real -> Prob, h: real, a: real)
    requires i < |games|
  {
    h == RatingsBefore(games, i, expected)[games[i].homeTeam] &&
    a == RatingsBefore(games, i, expected)[games[i].awayTeam]
  }

  /**
   * The row loop: append each game's two ratings before updating the table.
   * The recorded values are the ratings before that game.
   */
  method EloPass(games: seq<Game>, expected: real -> Prob) returns (homeElos: seq<real>, awayElos: seq<real>)
    ensures |homeElos| == |games| && |awayElos| == |games|
    ensures forall i :: 0 <= i < |games| ==> Emitted(games, i, expected, homeElos[i], awayElos[i])
  {
    var elo := InitialRatings(games);
    homeElos, awayElos := [], [];
    var i := 0;
    assert games[..0] == [];
    while i < |games|
      invariant 0 <= i <= |games|
      invariant elo == RatingsBefore(games, i, expected)
      invariant |homeElos| == i && |awayElos| == i
      invariant forall j :: 0 <= j < i ==> Emitted(games, j, expected, homeElos[j], awayElos[j])
    {
      var g := games[i];
      RatingsBeforeNext(games, i, expected);
      EmittedNext(games, i, expected, homeElos, awayElos, elo[g.homeTeam], elo[g.awayTeam]);
      homeElos := homeElos + [elo[g.homeTeam]];
      awayElos := awayElos + [elo[g.awayTeam]];
      elo := ApplyGame(elo, g, expected);
      i := i + 1;
    }
  }

  /** Appending game `i`'s ratings before it extends the emitted columns by one row. */
  lemma EmittedNext(games: seq<Game>, i: nat, expected: real -> Prob, hs: seq<real>, aws: seq<real>, h: real, a: real)
    requires i < |games| && |hs| == i && |aws| == i
    requires forall j :: 0 <= j < i ==> Emitted(games, j, expected, hs[j], aws[j])
    requires Emitted(games, i, expected, h, a)
    ensures forall j :: 0 <= j < i + 1 ==> Emitted(games, j, expected, (hs + [h])[j], (aws + [a])[j])
  {
    forall j | 0 <= j < i + 1 ensures Emitted(games, j, expected, (hs + [h])[j], (aws + [a])[j]) {
      if j < i {
        assert (hs + [h])[j] == hs[j] && (aws + [a])[j] == aws[j];
      }
    }
  }

  /** The first game of the pass sees every team at 1500. */
  lemma FirstGameSeesInitialRatings(games: seq<Game>, expected: real -> Prob)
    requires |games| > 0
    ensures RatingsBefore(games, 0, expected)[games[0].homeTeam] == InitialRating
    ensures RatingsBefore(games, 0, expected)[games[0].awayTeam] == InitialRating
  {
    assert games[..0] == [];
  }

  /** A game missing either score leaves every rating as it was. */
  lemma UnscoredGameChangesNothing(games: seq<Game>, i: nat, expected: real -> Prob)
    requires i < |games|
    requires games[i].homeScore.None? || games[i].awayScore.None?
    ensures RatingsBefore(games, i + 1, expected) == RatingsBefore(games, i, expected)
  {
    assert games[..i + 1][..i] == games[..i];
    assert games[..i + 1][i] == games[i];
  }

  /** Between distinct teams the away change is exactly the negated home change. */
  lemma StepOpposite(r: Ratings, g: Game, expected: real -> Prob)
    requires g.homeTeam in r && g.awayTeam in r && g.homeTeam != g.awayTeam
    ensures var r' := Step(r, g, expected);
            r'[g.awayTeam] - r[g.awayTeam] == -(r'[g.homeTeam] - r[g.homeTeam])
    ensures forall t :: t in r && t != g.homeTeam && t != g.awayTeam ==> Step(r, g, expected)[t] == r[t]
  {
  }

  /** The winner gains and the loser drops; a tie counts as a home loss. */
  lemma StepWinnerGains(r: Ratings, g: Game, expected: real -> Prob)
    requires g.homeTeam in r && g.awayTeam in r && g.homeTeam != g.awayTeam
    requires g.homeScore.Some? && g.awayScore.Some?
    ensures var r' := Step(r, g, expected);
            if g.homeScore.value > g.awayScore.value
            then r'[g.homeTeam] > r[g.homeTeam] && r'[g.awayTeam] < r[g.awayTeam]
            else r'[g.homeTeam] < r[g.homeTeam] && r'[g.awayTeam] > r[g.awayTeam]
  {
  }

  // ---- zero sum -------------------------------------------------------

  predicate Distinct(ts: seq<string>) {
    forall i, j :: 0 <= i < j < |ts| ==> ts[i] != ts[j]
  }

  /** `ts` lists every key of the table exactly once. */
  predicate Lists(ts: seq<string>, keys: set<string>) {
    Distinct(ts) && (forall t :: t in ts ==> t in keys) && (forall t :: t in keys ==> t in ts)
  }

  /** The sum of the ratings of the teams listed in `ts`. */
  function Total(r: Ratings, ts: seq<string>): real
    requires forall t :: t in ts ==> t in r
    decreases |ts|
  {
    if ts == [] then 0.0 else r[ts[0]] + Total(r, ts[1..])
  }

  lemma {:induction false} TotalAdd(r: Ratings, ts: seq<string>, k: string, d: real)
    requires forall t :: t in ts ==> t in r
    requires k in r && Distinct(ts)
    ensures Total(r[k := r[k] + d], ts) == Total(r, ts) + (if k in ts then d else 0.0)
    decreases |ts|
  {
    if ts != [] {
      assert Distinct(ts[1..]) by {
        forall i, j | 0 <= i < j < |ts[1..]| ensures ts[1..][i] != ts[1..][j] {
          assert ts[1..][i] == ts[i + 1] && ts[1..][j] == ts[j + 1];
        }
      }
      TotalAdd(r, ts[1..], k, d);
      if ts[0] != k {
        assert k in ts <==> k in ts[1..];
      }
    }
  }

  /** A scored game moves rating between its two teams: the league total is unchanged. */
  lemma StepZeroSum(r: Ratings, g: Game, ts: seq<string>, expected: real -> Prob)
    requires g.homeTeam in r && g.awayTeam in r
    requires Lists(ts, r.Keys)
    ensures Total(Step(r, g, expected), ts) == Total(r, ts)
  {
    if g.homeScore.Some? && g.awayScore.Some? {
      var p: real := HomeWinProb(r, g.homeTeam, g.awayTeam, expected);
      var act := HomeResult(g.homeScore.value, g.awayScore.value);
      var r1 := r[g.homeTeam := r[g.homeTeam] + K * (act - p)];
      TotalAdd(r, ts, g.homeTeam, K * (act - p));
      TotalAdd(r1, ts, g.awayTeam, K * ((1.0 - act) - (1.0 - p)));
    }
  }

  /** The sum of all ratings never changes over the pass. */
  lemma {:induction false} RatingsAfterZeroSum(r0: Ratings, games: seq<Game>, ts: seq<string>, expected: real -> Prob)
    requires Covers(r0, games)
    requires Lists(ts, r0.Keys)
    ensures Total(RatingsAfter(r0, games, expected), ts) == Total(r0, ts)
    decreases |games|
  {
    if games != [] {
      var init := games[..|games| - 1];
      assert Covers(r0, init) by {
        forall g | g in init ensures g in games { }
      }
      RatingsAfterZeroSum(r0, init, ts, expected);
      var last := games[|games| - 1];
      assert last in games;
      StepZeroSum(RatingsAfter(r0, init, expected), last, ts, expected);
    }
  }

  lemma {:induction false} TotalConstant(r: Ratings, ts: seq<string>, v: real)
    requires forall t :: t in ts ==> t in r && r[t] == v
    ensures Total(r, ts) == (|ts| as real) * v
    decreases |ts|
  {
    if ts != [] {
      TotalConstant(r, ts[1..], v);
    }
  }

  /** At the start the ratings add up to 1500 per team. */
  lemma InitialTotal(games: seq<Game>, ts: seq<string>)
    requires forall t :: t in ts ==> t in Teams(games)
    ensures forall t :: t in ts ==> t in InitialRatings(games)
    ensures Total(InitialRatings(games), ts) == (|ts| as real) * InitialRating
  {
    var r0 := InitialRatings(games);
    forall t | t in ts ensures t in r0 && r0[t] == InitialRating {
    }
    TotalConstant(r0, ts, InitialRating);
  }

  /** Before every game the ratings still add up to 1500 per team. */
  lemma LeagueTotalBeforeEachGame(games: seq<Game>, i: nat, ts: seq<string>, expected: real -> Prob)
    requires i <= |games|
    requires Lists(ts, Teams(games))
    ensures Total(RatingsBefore(games, i, expected), ts) == (|ts| as real) * InitialRating
  {
    var r0 := InitialRatings(games);
    assert Covers(r0, games[..i]) by {
      forall g | g in games[..i] ensures g in games { }
    }
    InitialTotal(games, ts);
    RatingsAfterZeroSum(r0, games[..i], ts, expected);
  }
}
