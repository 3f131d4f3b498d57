/**
 * The random-forest driver (`run_rf_daily_backtest`): two models without
 * the team columns, scored by direction on the prepared frame with the
 * target required, since the forest accepts no missing value.
 */
module RfBacktest {
  import opened Schema
  import opened SignBacktest
  import DailyBacktest
  import WalkForward

  /** The two entries of `TOP_MODELS`. */
  const TrueGod := DailyBacktest.ModelConfig("RF_Rank1_True_God",
        [EloCol(Home), EloCol(Away), EloDiff,
         HomeR(40, OffRating), HomeR(40, DefRating), AwayR(40, OffRating), AwayR(40, DefRating),
         HomeR(20, FtaRate), AwayR(20, FtaRate), HomeR(20, TovPct), AwayR(20, TovPct), HomeR(20, OrebPct), AwayR(20, OrebPct),
         HomeR(5, Pace), AwayR(5, Pace),
         InjuryDiff(MissingR20(NetRating)), InjuryDiff(ActiveRustAdj(NetRating)),
         InjuryDiff(MissingR20(Pie)), InjuryDiff(ActiveRustAdj(Pie))])

  const FantasyCore := DailyBacktest.ModelConfig("RF_Fantasy_Core",
        [HomeR(20, FtaRate), AwayR(20, FtaRate), HomeR(20, TovPct), AwayR(20, TovPct), HomeR(20, OrebPct), AwayR(20, OrebPct),
         HomeR(10, Pace), AwayR(10, Pace),
         InjuryDiff(MissingR20(NetRating)), InjuryDiff(ActiveRustAdj(NetRating)),
         InjuryDiff(MissingR20(Pie)), InjuryDiff(ActiveRustAdj(Pie)),
         InjuryDiff(MissingR20(FantasyPts)), InjuryDiff(ActiveRustAdj(FantasyPts))])

  /** `TOP_MODELS`. */
  function RfModels(): seq<ModelConfig> {
    [TrueGod, FantasyCore]
  }

  /** The run: stop on an empty frame, otherwise score the two forests with the target required. */
  function RfRun(f: Frame, predict: Predictor): (o: Outcome)
    ensures f.rows == [] <==> o == NoData
    ensures o == MissingColumn <==>
              (exists r :: r in f.rows && r.season == WalkForward.TestSeason) && !AllFit(f, RfModels(), true)
    ensures o.Reported? ==> o.report == SignReport(f.rows, RfModels(), true, predict)
  {
    SignRun(f, RfModels(), true, predict)
  }

  method RunRfDailyBacktest(f: Frame, predict: Predictor) returns (o: Outcome)
    ensures o == RfRun(f, predict)
  {
    o := RunSignBacktest(f, RfModels(), true, predict);
  }

  /** Neither forest sees a team name. */
  lemma RfUsesNoTeamColumns()
    ensures forall m :: m in RfModels() ==> HomeTeamCol !in m.features && AwayTeamCol !in m.features
  {
    NoTeamColumn(TrueGod.features);
    NoTeamColumn(FantasyCore.features);
  }

  lemma NoTeamColumn(cols: seq<Col>)
    requires forall k :: 0 <= k < |cols| ==> !cols[k].HomeTeamCol? && !cols[k].AwayTeamCol?
    ensures HomeTeamCol !in cols && AwayTeamCol !in cols
  {
  }

  /** Without the injury file the first test date raises a KeyError: both forests list `diff_missing_NET_RATING_r20`. */
  lemma RfNeedsInjuryFile(f: Frame, predict: Predictor)
    requires MissingR20(NetRating) !in f.injuryColumns
    requires exists r :: r in f.rows && r.season == WalkForward.TestSeason
    ensures RfRun(f, predict) == MissingColumn
  {
    SignRunMissingColumn(f, RfModels(), true, predict, TrueGod, MissingR20(NetRating));
  }
}
