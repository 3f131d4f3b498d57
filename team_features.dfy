/**
 * `load_prepared_data`: the games table in date order with both Elo
 * ratings, the per-team box-score rates and their trailing means joined for
 * each side, the injury differences when that table is available, and only
 * the rows that have a spread.  The derived columns (elo_diff, the rolling
 * differences, real_diff, vegas_line_h, target_residual) are `Schema.Value`.
 */
module TeamFeatures {
  import opened Wrappers
  import opened Frames
  import opened Sorting
  import opened Rolling
  import opened Text
  import opened Schema
  import opened Elo

  /** A team's traditional box score for one game. */
  datatype BaseBox = BaseBox(gameId: string, team: string,
                             fga: real, fta: real, tov: real, oreb: real, reb: real, pts: real)

  /** A team's advanced box score for one game. */
  datatype AdvBox = AdvBox(gameId: string, team: string, offRating: real, defRating: real, pace: real)

  /** One row of the inner merge of the two box scores. */
  datatype TeamBox = TeamBox(base: BaseBox, adv: AdvBox)

  /** A merged box score with the date of its game (missing when the game is unknown). */
  datatype DatedBox = DatedBox(box: TeamBox, date: Option<string>)

  /** A team's trailing means for one game, keyed by window and metric. */
  datatype TeamRolling = TeamRolling(gameId: string, team: string, rolls: map<RollKey, real>)

  const Windows: seq<nat> := [5, 10, 20, 40]
  const MinPeriods: nat := 5
  const AllMetrics: seq<Metric> := [OffRating, DefRating, Pace, FtaRate, TovPct, OrebPct]
  const IdWidth: nat := 10

  // ---- box-score rates -------------------------------------------------

  /** `.replace(0, 1)` on a denominator. */
  function OrOne(x: real): (y: real)
    ensures y != 0.0
    ensures x != 0.0 ==> y == x
    ensures x == 0.0 ==> y == 1.0
  {
    if x == 0.0 then 1.0 else x
  }

  function FtaRateOf(b: BaseBox): real {
    b.fta / OrOne(b.fga)
  }

  /** The possession estimate FGA + 0.44 FTA + TOV. */
  function Possessions(b: BaseBox): real {
    b.fga + 0.44 * b.fta + b.tov
  }

  function TovPctOf(b: BaseBox): real {
    b.tov / OrOne(Possessions(b)) * 100.0
  }

  function OrebPctOf(b: BaseBox): real {
    b.oreb / OrOne(b.reb)
  }

  predicate NonNegativeCounts(b: BaseBox) {
    b.fga >= 0.0 && b.fta >= 0.0 && b.tov >= 0.0 && b.oreb >= 0.0 && b.reb >= 0.0
  }

  /**
   * With non-negative counts the rates are within their natural ranges: the
   * free-throw rate is non-negative, turnovers are at most every possession
   * and offensive rebounds are at most all rebounds.
   */
  lemma RatesBounded(b: BaseBox)
    requires NonNegativeCounts(b) && b.oreb <= b.reb
    ensures FtaRateOf(b) >= 0.0
    ensures 0.0 <= TovPctOf(b) <= 100.0
    ensures 0.0 <= OrebPctOf(b) <= 1.0
  {
    var d := OrOne(Possessions(b));
    if Possessions(b) == 0.0 {
      assert b.tov == 0.0;
    } else {
      assert b.tov <= d;
      assert b.tov / d <= 1.0;
    }
    if b.reb != 0.0 {
      assert b.oreb / b.reb <= 1.0;
    }
  }

  /** A zero denominator leaves the numerator itself as the rate. */
  lemma ZeroDenominatorGivesNumerator(b: BaseBox)
    ensures b.fga == 0.0 ==> FtaRateOf(b) == b.fta
    ensures b.reb == 0.0 ==> OrebPctOf(b) == b.oreb
    ensures Possessions(b) == 0.0 ==> TovPctOf(b) == b.tov * 100.0
  {
  }

  function MetricOf(t: TeamBox, m: Metric): real {
    match m
    case OffRating => t.adv.offRating
    case DefRating => t.adv.defRating
    case Pace => t.adv.pace
    case FtaRate => FtaRateOf(t.base)
    case TovPct => TovPctOf(t.base)
    case OrebPct => OrebPctOf(t.base)
  }

  // ---- team-level frame ------------------------------------------------

  /** `pd.merge(base_stats, adv_stats, on=['GAME_ID', 'team'], how='inner')`. */
  function TeamStats(base: seq<BaseBox>, adv: seq<AdvBox>): seq<TeamBox> {
    InnerJoin(base, adv, (b: BaseBox, a: AdvBox) => b.gameId == a.gameId && b.team == a.team,
              (b, a) => TeamBox(b, a))
  }

  /** The left merge with the games' dates, on GAME_ID = game_id. */
  function WithDates(stats: seq<TeamBox>, games: seq<Game>): seq<DatedBox> {
    LeftJoin(stats, games, (t: TeamBox, g: Game) => t.base.gameId == g.gameId,
             (t: TeamBox, mg: Option<Game>) => DatedBox(t, if mg.Some? then mg.value.date else None))
  }

  function TeamOf(d: DatedBox): string {
    d.box.base.team
  }

  /** `sort_values(['team', 'date'])`, missing dates last within a team. */
  function TeamDateKey(d: DatedBox): Key {
    [Str(TeamOf(d)), if d.date.Some? then Str(d.date.value) else Missing]
  }

  function MetricColumn(m: Metric): DatedBox -> real {
    (d: DatedBox) => MetricOf(d.box, m)
  }

  /** The window/metric pairs R5_*, R10_*, R20_*, R40_*. */
  function RollKeys(): (ks: set<RollKey>)
    ensures forall k :: k in ks ==> k.window >= MinPeriods
  {
    set w, m | w in Windows && m in AllMetrics :: RollKey(w, m)
  }

  /** The trailing means of row `i` of the team-sorted frame, for the keys that are not NaN. */
  function RollingRow(sorted: seq<DatedBox>, i: nat): (t: TeamRolling)
    requires i < |sorted|
    ensures forall k :: k in t.rolls ==> k in RollKeys()
  {
    TeamRolling(sorted[i].box.base.gameId, TeamOf(sorted[i]),
      map k | k in RollKeys() && TrailingAt(sorted, i, TeamOf, MetricColumn(k.metric), k.window, MinPeriods).Some?
            :: TrailingAt(sorted, i, TeamOf, MetricColumn(k.metric), k.window, MinPeriods).value)
  }

  function RollingTable(sorted: seq<DatedBox>): (t: seq<TeamRolling>)
    ensures |t| == |sorted|
  {
    seq(|sorted|, i requires 0 <= i < |sorted| => RollingRow(sorted, i))
  }

  /** The entry of a rolling row for one key is that key's trailing mean, when defined. */
  lemma RollingRowEntry(sorted: seq<DatedBox>, i: nat, w: nat, m: Metric)
    requires i < |sorted|
    requires w in Windows && m in AllMetrics
    ensures w >= MinPeriods
    ensures var t := TrailingAt(sorted, i, TeamOf, MetricColumn(m), w, MinPeriods);
            (RollKey(w, m) in RollingRow(sorted, i).rolls <==> t.Some?) &&
            (t.Some? ==> RollingRow(sorted, i).rolls[RollKey(w, m)] == t.value)
  {
    assert RollKey(w, m) in RollKeys();
  }

  /**
   * R{w}_X at a team's k-th game (in the team-sorted frame) is defined
   * exactly when k >= 5, and is then the mean of X over that team's games
   * max(0, k - w) .. k - 1; the game itself and later games are not used.
   */
  lemma RollingAtKthGame(sorted: seq<DatedBox>, i: nat, w: nat, m: Metric)
    requires i < |sorted|
    requires w in Windows && m in AllMetrics
    ensures var g := Filter(sorted, SameGroupAs(TeamOf, sorted[i]));
            var k := |GroupPrior(sorted, i, TeamOf)|;
            var lo := if k < w then 0 else k - w;
            var rolls := RollingRow(sorted, i).rolls;
            k < |g| && g[k] == sorted[i] &&
            (RollKey(w, m) in rolls <==> k >= MinPeriods) &&
            (k >= MinPeriods ==> rolls[RollKey(w, m)] == Mean(MapSeq(g[lo..k], MetricColumn(m))))
  {
    var t := TrailingAt(sorted, i, TeamOf, MetricColumn(m), w, MinPeriods);
    var rolls := RollingRow(sorted, i).rolls;
    RollingRowEntry(sorted, i, w, m);
    TrailingAtKthRow(sorted, i, TeamOf, MetricColumn(m), w, MinPeriods);
    var g := Filter(sorted, SameGroupAs(TeamOf, sorted[i]));
    var k := |GroupPrior(sorted, i, TeamOf)|;
    var lo := if k < w then 0 else k - w;
    assert t.Some? <==> k >= MinPeriods;
    assert k >= MinPeriods ==> t.value == Mean(MapSeq(g[lo..k], MetricColumn(m)));
  }

  // ---- game-level frame ------------------------------------------------

  /** The sort key of the games table: its date. */
  function GameDateKey(g: Game): Key {
    if g.date.Some? then [Str(g.date.value)] else [Missing]
  }

  function IsDated(g: Game): bool {
    g.date.Some?
  }

  /**
   * `games.dropna(subset=['date']).sort_values('date')`: exactly the dated
   * games, each as often as in the table, in date order; games of one date
   * keep their table order.
   */
  function DatedGames(games: seq<Game>): (gs: seq<Game>)
    ensures forall g :: g in gs ==> g.date.Some?
    ensures SortedBy(gs, GameDateKey)
    ensures multiset(gs) == multiset(Filter(games, IsDated))
    ensures forall g :: g in gs <==> g in games && g.date.Some?
    ensures forall k :: WithKey(gs, GameDateKey, k) == WithKey(Filter(games, IsDated), GameDateKey, k)
  {
    var dated := Filter(games, IsDated);
    var gs := SortBy(dated, GameDateKey);
    assert forall g :: g in gs <==> g in dated by {
      forall g ensures g in gs <==> g in dated {
        assert g in gs <==> g in multiset(gs);
        assert g in dated <==> g in multiset(dated);
      }
    }
    gs
  }

  /** Game `i` with the two ratings it was played at. */
  function EloRow(g: Game, homeElo: real, awayElo: real): PreparedRow {
    PreparedRow(g.gameId, g.date.GetOr(""), g.season, g.homeTeam, g.awayTeam,
                g.homeScore, g.awayScore, g.spread, homeElo, awayElo, map[], map[], map[])
  }

  /**
   * `games['home_elo'], games['away_elo'] = home_elos, away_elos`: row `i`
   * is game `i` of the date-sorted table, with the ratings its two teams
   * had after every earlier game.
   */
  function EloRows(gs: seq<Game>, expected: real -> Prob): (rows: seq<PreparedRow>)
    ensures |rows| == |gs|
    ensures forall i :: 0 <= i < |gs| ==>
              rows[i].gameId == gs[i].gameId && (gs[i].date.Some? ==> rows[i].date == gs[i].date.value)
    ensures forall i :: 0 <= i < |gs| ==>
              rows[i].homeTeam == gs[i].homeTeam && rows[i].awayTeam == gs[i].awayTeam && rows[i].season == gs[i].season &&
              rows[i].homeScore == gs[i].homeScore && rows[i].awayScore == gs[i].awayScore && rows[i].spread == gs[i].spread
    ensures forall i :: 0 <= i < |gs| ==>
              rows[i].homeElo == RatingsBefore(gs, i, expected)[gs[i].homeTeam] &&
              rows[i].awayElo == RatingsBefore(gs, i, expected)[gs[i].awayTeam]
  {
    seq(|gs|, i requires 0 <= i < |gs| =>
      EloRow(gs[i], RatingsBefore(gs, i, expected)[gs[i].homeTeam], RatingsBefore(gs, i, expected)[gs[i].awayTeam]))
  }

  /** The left merge of one side's trailing means on (game_id, team). */
  function JoinSide(rows: seq<PreparedRow>, table: seq<TeamRolling>, side: Side): seq<PreparedRow> {
    LeftJoin(rows, table,
      (r: PreparedRow, t: TeamRolling) => t.gameId == r.gameId && t.team == (if side == Home then r.homeTeam else r.awayTeam),
      (r: PreparedRow, mt: Option<TeamRolling>) =>
        var rolls := if mt.Some? then mt.value.rolls else map[];
        if side == Home then r.(homeRolling := rolls) else r.(awayRolling := rolls))
  }

  /** Both ids padded to ten characters, then the left merge of the diff_ columns on game_id. */
  function JoinInjury(rows: seq<PreparedRow>, injury: InjuryTable): seq<PreparedRow> {
    var padded := MapSeq(rows, (r: PreparedRow) => r.(gameId := ZFill(r.gameId, IdWidth)));
    LeftJoin(padded, injury.rows, (r: PreparedRow, x: InjuryRow) => ZFill(x.gameId, IdWidth) == r.gameId,
             (r: PreparedRow, mx: Option<InjuryRow>) => r.(injury := if mx.Some? then mx.value.diffs else map[]))
  }

  /** The steps after the rating pass, given the rows the pass produced. */
  function Finish(eloRows: seq<PreparedRow>, gs: seq<Game>, base: seq<BaseBox>, adv: seq<AdvBox>,
                  injury: Option<InjuryTable>): Frame
  {
    var sorted := SortBy(WithDates(TeamStats(base, adv), gs), TeamDateKey);
    var table := RollingTable(sorted);
    var withHome := JoinSide(eloRows, table, Home);
    var withBoth := JoinSide(withHome, table, Away);
    var withInjury := if injury.Some? then JoinInjury(withBoth, injury.value) else withBoth;
    var columns := if injury.Some? then injury.value.columns else {};
    Frame(Filter(withInjury, (r: PreparedRow) => r.spread.Some?), columns)
  }

  /** The prepared frame `load_prepared_data` returns. */
  function PreparedData(games: seq<Game>, base: seq<BaseBox>, adv: seq<AdvBox>,
                        injury: Option<InjuryTable>, expected: real -> Prob): Frame
  {
    var gs := DatedGames(games);
    Finish(EloRows(gs, expected), gs, base, adv, injury)
  }

  /** The loader: the imperative rating pass, then the column steps. */
  method LoadPreparedData(games: seq<Game>, base: seq<BaseBox>, adv: seq<AdvBox>,
                          injury: Option<InjuryTable>, expected: real -> Prob) returns (f: Frame)
    ensures f == PreparedData(games, base, adv, injury, expected)
  {
    var gs := DatedGames(games);
    var homeElos, awayElos := EloPass(gs, expected);
    var rows := seq(|gs|, i requires 0 <= i < |gs| => EloRow(gs[i], homeElos[i], awayElos[i]));
    assert rows == EloRows(gs, expected) by {
      forall i | 0 <= i < |gs| ensures rows[i] == EloRows(gs, expected)[i] {
        assert Emitted(gs, i, expected, homeElos[i], awayElos[i]);
      }
    }
    f := Finish(rows, gs, base, adv, injury);
  }

  // ---- properties of the prepared frame ---------------------------------

  /** The merges only fill in joined columns: a row keeps the game and ratings of an Elo row. */
  predicate SameGame(r: PreparedRow, e: PreparedRow) {
    r.date == e.date && r.season == e.season && r.homeTeam == e.homeTeam && r.awayTeam == e.awayTeam &&
    r.homeScore == e.homeScore && r.awayScore == e.awayScore && r.spread == e.spread &&
    r.homeElo == e.homeElo && r.awayElo == e.awayElo
  }

  lemma JoinSideKeepsGames(rows: seq<PreparedRow>, table: seq<TeamRolling>, side: Side, r: PreparedRow)
    requires r in JoinSide(rows, table, side)
    ensures exists i :: 0 <= i < |rows| && SameGame(r, rows[i])
  {
    var on := (r: PreparedRow, t: TeamRolling) => t.gameId == r.gameId && t.team == (if side == Home then r.homeTeam else r.awayTeam);
    var combine := (r: PreparedRow, mt: Option<TeamRolling>) =>
        var rolls := if mt.Some? then mt.value.rolls else map[];
        if side == Home then r.(homeRolling := rolls) else r.(awayRolling := rolls);
    LeftJoinProvenance(rows, table, on, combine, r);
    var i, m :| 0 <= i < |rows| && Produces(rows[i], m, table, on, combine, r);
    assert SameGame(r, rows[i]);
  }

  lemma JoinInjuryKeepsGames(rows: seq<PreparedRow>, injury: InjuryTable, r: PreparedRow)
    requires r in JoinInjury(rows, injury)
    ensures exists i :: 0 <= i < |rows| && SameGame(r, rows[i])
  {
    var padded := MapSeq(rows, (r: PreparedRow) => r.(gameId := ZFill(r.gameId, IdWidth)));
    var on := (r: PreparedRow, x: InjuryRow) => ZFill(x.gameId, IdWidth) == r.gameId;
    var combine := (r: PreparedRow, mx: Option<InjuryRow>) => r.(injury := if mx.Some? then mx.value.diffs else map[]);
    LeftJoinProvenance(padded, injury.rows, on, combine, r);
    var i, m :| 0 <= i < |padded| && Produces(padded[i], m, injury.rows, on, combine, r);
    assert SameGame(r, rows[i]);
  }

  lemma SameGameTransitive(a: PreparedRow, b: PreparedRow, c: PreparedRow)
    requires SameGame(a, b) && SameGame(b, c)
    ensures SameGame(a, c)
  {
  }

  /** A side merge loses no row: row `i` reaches the output with its game. */
  lemma JoinSideComplete(rows: seq<PreparedRow>, table: seq<TeamRolling>, side: Side, i: nat)
    requires i < |rows|
    ensures exists o :: o in JoinSide(rows, table, side) && SameGame(o, rows[i])
  {
    var on := (r: PreparedRow, t: TeamRolling) => t.gameId == r.gameId && t.team == (if side == Home then r.homeTeam else r.awayTeam);
    var combine := (r: PreparedRow, mt: Option<TeamRolling>) =>
        var rolls := if mt.Some? then mt.value.rolls else map[];
        if side == Home then r.(homeRolling := rolls) else r.(awayRolling := rolls);
    LeftJoinComplete(rows, table, on, combine, i);
    var m :| Produces(rows[i], m, table, on, combine, combine(rows[i], m)) && combine(rows[i], m) in LeftJoin(rows, table, on, combine);
    assert SameGame(combine(rows[i], m), rows[i]);
  }

  /** The injury merge loses no row: row `i` reaches the output with its game. */
  lemma JoinInjuryComplete(rows: seq<PreparedRow>, injury: InjuryTable, i: nat)
    requires i < |rows|
    ensures exists o :: o in JoinInjury(rows, injury) && SameGame(o, rows[i])
  {
    var padded := MapSeq(rows, (r: PreparedRow) => r.(gameId := ZFill(r.gameId, IdWidth)));
    var on := (r: PreparedRow, x: InjuryRow) => ZFill(x.gameId, IdWidth) == r.gameId;
    var combine := (r: PreparedRow, mx: Option<InjuryRow>) => r.(injury := if mx.Some? then mx.value.diffs else map[]);
    LeftJoinComplete(padded, injury.rows, on, combine, i);
    var m :| Produces(padded[i], m, injury.rows, on, combine, combine(padded[i], m)) &&
             combine(padded[i], m) in LeftJoin(padded, injury.rows, on, combine);
    assert SameGame(combine(padded[i], m), rows[i]);
  }

  /** One prepared row: it has a spread and the game of some Elo row. */
  lemma FinishRowFromGame(eloRows: seq<PreparedRow>, gs: seq<Game>, base: seq<BaseBox>, adv: seq<AdvBox>,
                          injury: Option<InjuryTable>, r: PreparedRow)
    requires r in Finish(eloRows, gs, base, adv, injury).rows
    ensures r.spread.Some?
    ensures exists i :: 0 <= i < |eloRows| && SameGame(r, eloRows[i])
  {
    var sorted := SortBy(WithDates(TeamStats(base, adv), gs), TeamDateKey);
    var table := RollingTable(sorted);
    var withHome := JoinSide(eloRows, table, Home);
    var withBoth := JoinSide(withHome, table, Away);
    var withInjury := if injury.Some? then JoinInjury(withBoth, injury.value) else withBoth;
    assert r in withInjury;
    var j: int;
    if injury.Some? {
      JoinInjuryKeepsGames(withBoth, injury.value, r);
      j :| 0 <= j < |withBoth| && SameGame(r, withBoth[j]);
    } else {
      j :| 0 <= j < |withBoth| && withBoth[j] == r;
    }
    assert withBoth[j] in withBoth;
    JoinSideKeepsGames(withHome, table, Away, withBoth[j]);
    var k :| 0 <= k < |withHome| && SameGame(withBoth[j], withHome[k]);
    assert withHome[k] in withHome;
    JoinSideKeepsGames(eloRows, table, Home, withHome[k]);
    var i :| 0 <= i < |eloRows| && SameGame(withHome[k], eloRows[i]);
    assert SameGame(r, eloRows[i]);
  }

  /** One Elo row with a spread: it reaches the prepared frame with its game. */
  lemma FinishKeepsSpreadRow(eloRows: seq<PreparedRow>, gs: seq<Game>, base: seq<BaseBox>, adv: seq<AdvBox>,
                             injury: Option<InjuryTable>, i: nat)
    requires i < |eloRows| && eloRows[i].spread.Some?
    ensures exists r :: r in Finish(eloRows, gs, base, adv, injury).rows && SameGame(r, eloRows[i])
  {
    var sorted := SortBy(WithDates(TeamStats(base, adv), gs), TeamDateKey);
    var table := RollingTable(sorted);
    var withHome := JoinSide(eloRows, table, Home);
    var withBoth := JoinSide(withHome, table, Away);
    var withInjury := if injury.Some? then JoinInjury(withBoth, injury.value) else withBoth;
    BothSidesComplete(eloRows, table, i);
    var b :| b in withBoth && SameGame(b, eloRows[i]);
    var c: PreparedRow;
    if injury.Some? {
      var kb :| 0 <= kb < |withBoth| && withBoth[kb] == b;
      JoinInjuryComplete(withBoth, injury.value, kb);
      c :| c in withInjury && SameGame(c, b);
    } else {
      c := b;
    }
    SameGameTransitive(c, b, eloRows[i]);
    assert c in Filter(withInjury, (r: PreparedRow) => r.spread.Some?);
  }

  /** The two side merges lose no game row. */
  lemma BothSidesComplete(rows: seq<PreparedRow>, table: seq<TeamRolling>, i: nat)
    requires i < |rows|
    ensures exists b :: b in JoinSide(JoinSide(rows, table, Home), table, Away) && SameGame(b, rows[i])
  {
    var withHome := JoinSide(rows, table, Home);
    JoinSideComplete(rows, table, Home, i);
    var a :| a in withHome && SameGame(a, rows[i]);
    var ka :| 0 <= ka < |withHome| && withHome[ka] == a;
    JoinSideComplete(withHome, table, Away, ka);
    var b :| b in JoinSide(withHome, table, Away) && SameGame(b, a);
    SameGameTransitive(b, a, rows[i]);
  }

  /**
   * The merges after the rating pass keep each row's game, and the final
   * filter keeps exactly the rows with a spread: every prepared row comes
   * from an Elo row with a spread, and every Elo row with a spread yields
   * a prepared row.
   */
  lemma FinishKeepsGames(eloRows: seq<PreparedRow>, gs: seq<Game>, base: seq<BaseBox>, adv: seq<AdvBox>,
                         injury: Option<InjuryTable>)
    ensures forall r :: r in Finish(eloRows, gs, base, adv, injury).rows ==>
              r.spread.Some? && exists i :: 0 <= i < |eloRows| && SameGame(r, eloRows[i])
    ensures forall i :: 0 <= i < |eloRows| && eloRows[i].spread.Some? ==>
              exists r :: r in Finish(eloRows, gs, base, adv, injury).rows && SameGame(r, eloRows[i])
  {
    forall r | r in Finish(eloRows, gs, base, adv, injury).rows
      ensures r.spread.Some? && exists i :: 0 <= i < |eloRows| && SameGame(r, eloRows[i])
    {
      FinishRowFromGame(eloRows, gs, base, adv, injury, r);
    }
    forall i | 0 <= i < |eloRows| && eloRows[i].spread.Some?
      ensures exists r :: r in Finish(eloRows, gs, base, adv, injury).rows && SameGame(r, eloRows[i])
    {
      FinishKeepsSpreadRow(eloRows, gs, base, adv, injury, i);
    }
  }

  /** `r` carries game `i` of the date-sorted table and the two ratings it was played at. */
  predicate CarriesGame(r: PreparedRow, gs: seq<Game>, i: nat, expected: real -> Prob)
    requires i < |gs|
  {
    r.homeTeam == gs[i].homeTeam && r.awayTeam == gs[i].awayTeam && Some(r.date) == gs[i].date &&
    r.season == gs[i].season && r.spread == gs[i].spread &&
    r.homeScore == gs[i].homeScore && r.awayScore == gs[i].awayScore &&
    r.homeElo == RatingsBefore(gs, i, expected)[gs[i].homeTeam] &&
    r.awayElo == RatingsBefore(gs, i, expected)[gs[i].awayTeam]
  }

  /**
   * The prepared frame is exactly the dated games with a spread: every
   * prepared row carries a game of the date-sorted table with its pre-game
   * ratings and has a spread, and every dated game with a spread is carried
   * by some prepared row.
   */
  lemma PreparedRowsComeFromGames(games: seq<Game>, base: seq<BaseBox>, adv: seq<AdvBox>,
                                  injury: Option<InjuryTable>, expected: real -> Prob)
    ensures var gs := DatedGames(games);
            forall r :: r in PreparedData(games, base, adv, injury, expected).rows ==>
              r.spread.Some? && exists i :: 0 <= i < |gs| && CarriesGame(r, gs, i, expected)
    ensures var gs := DatedGames(games);
            forall g :: g in games && g.date.Some? && g.spread.Some? ==>
              exists i, r :: 0 <= i < |gs| && gs[i] == g && r in PreparedData(games, base, adv, injury, expected).rows &&
                             CarriesGame(r, gs, i, expected)
  {
    var gs := DatedGames(games);
    var rows := PreparedData(games, base, adv, injury, expected).rows;
    forall r | r in rows ensures r.spread.Some? && exists i :: 0 <= i < |gs| && CarriesGame(r, gs, i, expected) {
      PreparedRowFromGame(games, base, adv, injury, expected, r);
    }
    forall g | g in games && g.date.Some? && g.spread.Some?
      ensures exists i, r :: 0 <= i < |gs| && gs[i] == g && r in rows && CarriesGame(r, gs, i, expected)
    {
      DatedGameIsPrepared(games, base, adv, injury, expected, g);
    }
  }

  lemma PreparedRowFromGame(games: seq<Game>, base: seq<BaseBox>, adv: seq<AdvBox>,
                            injury: Option<InjuryTable>, expected: real -> Prob, r: PreparedRow)
    requires r in PreparedData(games, base, adv, injury, expected).rows
    ensures var gs := DatedGames(games);
            r.spread.Some? && exists i :: 0 <= i < |gs| && CarriesGame(r, gs, i, expected)
  {
    var gs := DatedGames(games);
    var eloRows := EloRows(gs, expected);
    assert r in Finish(eloRows, gs, base, adv, injury).rows;
    FinishRowFromGame(eloRows, gs, base, adv, injury, r);
    var i :| 0 <= i < |eloRows| && SameGame(r, eloRows[i]);
    EloRowCarries(gs, i, expected, r);
  }

  /** A row with the game columns of rated row `i` carries game `i`. */
  lemma EloRowCarries(gs: seq<Game>, i: nat, expected: real -> Prob, r: PreparedRow)
    requires i < |gs| && (forall g :: g in gs ==> g.date.Some?)
    requires SameGame(r, EloRows(gs, expected)[i])
    ensures CarriesGame(r, gs, i, expected)
  {
    assert gs[i] in gs;
  }

  lemma DatedGameIsPrepared(games: seq<Game>, base: seq<BaseBox>, adv: seq<AdvBox>,
                            injury: Option<InjuryTable>, expected: real -> Prob, g: Game)
    requires g in games && g.date.Some? && g.spread.Some?
    ensures var gs := DatedGames(games);
            exists i, r :: 0 <= i < |gs| && gs[i] == g && r in PreparedData(games, base, adv, injury, expected).rows &&
                           CarriesGame(r, gs, i, expected)
  {
    var gs := DatedGames(games);
    var eloRows := EloRows(gs, expected);
    var rows := Finish(eloRows, gs, base, adv, injury).rows;
    assert rows == PreparedData(games, base, adv, injury, expected).rows;
    assert g in gs;
    var i :| 0 <= i < |gs| && gs[i] == g;
    assert eloRows[i].spread == g.spread;
    FinishKeepsSpreadRow(eloRows, gs, base, adv, injury, i);
    var r :| r in rows && SameGame(r, eloRows[i]);
    EloRowCarries(gs, i, expected, r);
  }
}
