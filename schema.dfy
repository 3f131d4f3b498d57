/**
 * The columns of the prepared game frame and the row type the backtests
 * read.  A column is a datatype value rather than a string; each
 * constructor stands for one family of the source's column names:
 *
 *   EloCol(Home)               home_elo
 *   EloDiff                    elo_diff
 *   RollingCol(Away, 10, Pace) away_R10_PACE
 *   RollingDiff(40, OffDef)    diff_R40_OFF_DEF
 *   InjuryDiff(MissingR20(Pie)) diff_missing_PIE_r20
 *   InjuryDiff(ActiveRustAdj(FantasyPts)) diff_active_rust_adj_NBA_FANTASY_PTS
 */
module Schema {
  import opened Wrappers
  import opened Sorting

  datatype Side = Home | Away

  /** The six per-team box-score metrics that get rolling means. */
  datatype Metric = OffRating | DefRating | Pace | FtaRate | TovPct | OrebPct

  /** The three home-minus-away rolling differences. */
  datatype DiffKind = OffDef | DefOff | PaceDiff

  /** The five per-player metrics of the availability features. */
  datatype PlayerMetric = Pie | NetRating | UsgPct | PlusMinus | FantasyPts

  /** active_rust_adj_X, missing_X_r20 and missing_X_r50. */
  datatype InjuryFeature = ActiveRustAdj(pm: PlayerMetric) | MissingR20(pm: PlayerMetric) | MissingR50(pm: PlayerMetric)

  datatype RollKey = RollKey(window: nat, metric: Metric)

  datatype Col =
    | HomeTeamCol
    | AwayTeamCol
    | EloCol(side: Side)
    | EloDiff
    | RollingCol(side: Side, window: nat, metric: Metric)
    | RollingDiff(window: nat, kind: DiffKind)
    | InjuryDiff(feature: InjuryFeature)
    | RealDiff
    | VegasLine
    | TargetResidual

  /** `home_R{w}_{METRIC}` and `away_R{w}_{METRIC}`. */
  function HomeR(w: nat, m: Metric): Col { RollingCol(Home, w, m) }

  function AwayR(w: nat, m: Metric): Col { RollingCol(Away, w, m) }

  const HomeAdvantage: real := 100.0

  /** A row of the games table as the pipeline reads it. */
  datatype Game = Game(gameId: string, date: Option<string>, season: string,
                       homeTeam: string, awayTeam: string,
                       homeScore: Option<real>, awayScore: Option<real>,
                       spread: Option<real>)

  /**
   * A row of the prepared frame: the game, its two Elo ratings, the rolling
   * means joined for each side and the injury differences joined for the
   * game.  Every other column is derived from these fields by `Value`.
   */
  datatype PreparedRow = PreparedRow(
    gameId: string, date: string, season: string, homeTeam: string, awayTeam: string,
    homeScore: Option<real>, awayScore: Option<real>, spread: Option<real>,
    homeElo: real, awayElo: real,
    homeRolling: map<RollKey, real>, awayRolling: map<RollKey, real>,
    injury: map<InjuryFeature, real>)

  /** The injury feature file: its diff_ columns and its rows. */
  datatype InjuryRow = InjuryRow(gameId: string, diffs: map<InjuryFeature, real>)
  datatype InjuryTable = InjuryTable(columns: set<InjuryFeature>, rows: seq<InjuryRow>)

  /** The prepared frame: its rows, and which injury columns it has at all. */
  datatype Frame = Frame(rows: seq<PreparedRow>, injuryColumns: set<InjuryFeature>)

  function Lookup<K, V>(m: map<K, V>, k: K): (v: Option<V>)
    ensures v.Some? <==> k in m
    ensures v.Some? ==> v.value == m[k]
  {
    if k in m then Some(m[k]) else None
  }

  /** `a - b`, missing when either side is. */
  function Minus(a: Option<real>, b: Option<real>): (d: Option<real>)
    ensures d.Some? <==> a.Some? && b.Some?
    ensures d.Some? ==> d.value + b.value == a.value
  {
    if a.Some? && b.Some? then Some(a.value - b.value) else None
  }

  function Rolled(r: PreparedRow, side: Side, k: RollKey): Option<real> {
    Lookup(if side == Home then r.homeRolling else r.awayRolling, k)
  }

  /** real_diff: home score minus away score. */
  function MarginOf(r: PreparedRow): Option<real> {
    Minus(r.homeScore, r.awayScore)
  }

  /** vegas_line_h: the negated spread. */
  function LineOf(r: PreparedRow): Option<real> {
    if r.spread.Some? then Some(-r.spread.value) else None
  }

  /** The numeric value of column `c` in row `r`; `None` is pandas' NaN. */
  function Value(r: PreparedRow, c: Col): Option<real> {
    match c
    case HomeTeamCol => None
    case AwayTeamCol => None
    case EloCol(side) => Some(if side == Home then r.homeElo else r.awayElo)
    case EloDiff => Some(r.homeElo + HomeAdvantage - r.awayElo)
    case RollingCol(side, w, m) => Rolled(r, side, RollKey(w, m))
    case RollingDiff(w, kind) =>
      (match kind
       case OffDef => Minus(Rolled(r, Home, RollKey(w, OffRating)), Rolled(r, Away, RollKey(w, DefRating)))
       case DefOff => Minus(Rolled(r, Home, RollKey(w, DefRating)), Rolled(r, Away, RollKey(w, OffRating)))
       case PaceDiff => Minus(Rolled(r, Home, RollKey(w, Pace)), Rolled(r, Away, RollKey(w, Pace))))
    case InjuryDiff(f) => Lookup(r.injury, f)
    case RealDiff => MarginOf(r)
    case VegasLine => LineOf(r)
    case TargetResidual => Minus(MarginOf(r), LineOf(r))
  }

  /** `c` is not NaN in `r` (the team columns are always present). */
  predicate Present(r: PreparedRow, c: Col) {
    c == HomeTeamCol || c == AwayTeamCol || Value(r, c).Some?
  }

  /** What `dropna(subset=cols)` keeps. */
  predicate HasAll(r: PreparedRow, cols: seq<Col>) {
    forall c :: c in cols ==> Present(r, c)
  }

  /** The frame has column `c` (the injury columns exist only when the injury file was merged). */
  predicate HasColumn(f: Frame, c: Col) {
    !c.InjuryDiff? || c.feature in f.injuryColumns
  }

  /** The target is the actual margin minus the home line, so the two add back to the margin. */
  lemma TargetPlusLine(r: PreparedRow)
    ensures Value(r, TargetResidual).Some? <==> r.homeScore.Some? && r.awayScore.Some? && r.spread.Some?
    ensures Value(r, TargetResidual).Some? ==>
              Value(r, TargetResidual).value + Value(r, VegasLine).value == Value(r, RealDiff).value
  {
  }

  /** The row order of `sort_values(['date', 'game_id'])`. */
  function DateGameKey(r: PreparedRow): Key {
    [Str(r.date), Str(r.gameId)]
  }

  /** The home line is the negated spread, so it is present exactly when the spread is. */
  lemma VegasLineIsNegatedSpread(r: PreparedRow)
    ensures Value(r, VegasLine).Some? <==> r.spread.Some?
    ensures r.spread.Some? ==> Value(r, VegasLine).value == -r.spread.value
  {
  }

  /** Each rolling difference is the home metric minus the opposing away metric. */
  lemma RollingDiffs(r: PreparedRow, w: nat)
    ensures Value(r, RollingDiff(w, OffDef)) == Minus(Value(r, RollingCol(Home, w, OffRating)), Value(r, RollingCol(Away, w, DefRating)))
    ensures Value(r, RollingDiff(w, DefOff)) == Minus(Value(r, RollingCol(Home, w, DefRating)), Value(r, RollingCol(Away, w, OffRating)))
    ensures Value(r, RollingDiff(w, PaceDiff)) == Minus(Value(r, RollingCol(Home, w, Pace)), Value(r, RollingCol(Away, w, Pace)))
  {
  }

  /** Swapping the rolling maps of the two sides negates the pace difference. */
  lemma PaceDiffAntisymmetric(r: PreparedRow, w: nat)
    requires Value(r, RollingDiff(w, PaceDiff)).Some?
    ensures var s := r.(homeRolling := r.awayRolling, awayRolling := r.homeRolling);
            Value(s, RollingDiff(w, PaceDiff)).Some? &&
            Value(s, RollingDiff(w, PaceDiff)).value == -Value(r, RollingDiff(w, PaceDiff)).value
  {
  }
}
