/**
 * The v2 driver (`run_v2_daily_backtest`): the three v2 models, each the
 * team columns followed by its own feature list, scored by direction on
 * the frame re-rated with the season-aware Elo, every scored game having a
 * known target.
 */
module V2Backtest {
  import opened Schema
  import opened Elo
  import opened AdvancedElo
  import opened FeatureBlocks
  import opened SignBacktest
  import DailyBacktest
  import WalkForward

  datatype ModelSpec = ModelSpec(name: string, featuresList: seq<Col>)

  /** `TOP_3_MODELS` before the team columns are added. */
  function TopThreeSpecs(): seq<ModelSpec> {
    [ ModelSpec("V2_Rank1_NoFantasy",
        [HomeR(40, OffRating), HomeR(40, DefRating), AwayR(40, OffRating), AwayR(40, DefRating),
         HomeR(10, FtaRate), AwayR(10, FtaRate), HomeR(10, TovPct), AwayR(10, TovPct), HomeR(10, OrebPct), AwayR(10, OrebPct),
         HomeR(10, Pace), AwayR(10, Pace), RollingDiff(40, OffDef), RollingDiff(40, DefOff), RollingDiff(40, PaceDiff),
         InjuryDiff(MissingR20(NetRating)), InjuryDiff(ActiveRustAdj(NetRating)),
         InjuryDiff(MissingR20(Pie)), InjuryDiff(ActiveRustAdj(Pie))]),
      ModelSpec("V2_Rank2_Fantasy_Core",
        [HomeR(20, FtaRate), AwayR(20, FtaRate), HomeR(20, TovPct), AwayR(20, TovPct), HomeR(20, OrebPct), AwayR(20, OrebPct),
         HomeR(10, Pace), AwayR(10, Pace),
         InjuryDiff(MissingR20(NetRating)), InjuryDiff(ActiveRustAdj(NetRating)),
         InjuryDiff(MissingR20(Pie)), InjuryDiff(ActiveRustAdj(Pie)),
         InjuryDiff(MissingR20(FantasyPts)), InjuryDiff(ActiveRustAdj(FantasyPts))]),
      ModelSpec("V2_Rank3_Fantasy_Pro",
        [EloCol(Home), EloCol(Away), EloDiff,
         HomeR(40, OffRating), HomeR(40, DefRating), AwayR(40, OffRating), AwayR(40, DefRating),
         HomeR(10, FtaRate), AwayR(10, FtaRate), HomeR(10, TovPct), AwayR(10, TovPct), HomeR(10, OrebPct), AwayR(10, OrebPct),
         HomeR(20, Pace), AwayR(20, Pace), HomeR(10, Pace), AwayR(10, Pace), HomeR(5, Pace), AwayR(5, Pace),
         RollingDiff(40, OffDef), RollingDiff(40, DefOff), RollingDiff(40, PaceDiff),
         InjuryDiff(MissingR20(NetRating)), InjuryDiff(ActiveRustAdj(NetRating)),
         InjuryDiff(MissingR20(Pie)), InjuryDiff(ActiveRustAdj(Pie)),
         InjuryDiff(MissingR20(FantasyPts)), InjuryDiff(ActiveRustAdj(FantasyPts))]) ]
  }

  /** A model's `Features`: the team columns, then its list. */
  function WithBase(s: ModelSpec): (m: ModelConfig)
    ensures m.name == s.name && |m.features| == 2 + |s.featuresList|
    ensures m.features[..2] == BaseFeatures && m.features[2..] == s.featuresList
  {
    DailyBacktest.ModelConfig(s.name, BaseFeatures + s.featuresList)
  }

  function TopThreeModels(): (ms: seq<ModelConfig>)
    ensures |ms| == |TopThreeSpecs()|
  {
    var specs := TopThreeSpecs();
    seq(|specs|, i requires 0 <= i < |specs| => WithBase(specs[i]))
  }

  /** The loop that adds the team columns to every model. */
  method AssembleModels(specs: seq<ModelSpec>) returns (ms: seq<ModelConfig>)
    ensures |ms| == |specs|
    ensures forall i :: 0 <= i < |specs| ==> ms[i] == WithBase(specs[i])
  {
    ms := [];
    var i := 0;
    while i < |specs|
      invariant 0 <= i <= |specs| && |ms| == i
      invariant forall k :: 0 <= k < i ==> ms[k] == WithBase(specs[k])
    {
      ms := ms + [DailyBacktest.ModelConfig(specs[i].name, BaseFeatures + specs[i].featuresList)];
      i := i + 1;
    }
  }

  /** The run: stop on an empty frame, otherwise re-rate it and score the three models with the target required. */
  function V2Run(f: Frame, expected: real -> Prob, lnOnePlus: real -> Positive, predict: Predictor): (o: Outcome)
    ensures f.rows == [] <==> o == NoData
    ensures o == MissingColumn <==>
              (exists r :: r in f.rows && r.season == WalkForward.TestSeason) && !AllFit(f, TopThreeModels(), true)
    ensures o.Reported? ==>
              o.report == SignReport(AdvancedRows(f.rows, expected, lnOnePlus), TopThreeModels(), true, predict)
  {
    ReRatedSeasons(f.rows, expected, lnOnePlus);
    if f.rows == [] then NoData
    else SignRun(Frame(AdvancedRows(f.rows, expected, lnOnePlus), f.injuryColumns), TopThreeModels(), true, predict)
  }

  /** Re-rating keeps the seasons: the re-rated table has a test-season row exactly when the loaded one does. */
  lemma ReRatedSeasons(rows: seq<PreparedRow>, expected: real -> Prob, lnOnePlus: real -> Positive)
    ensures (exists o :: o in AdvancedRows(rows, expected, lnOnePlus) && o.season == WalkForward.TestSeason) <==>
            (exists r :: r in rows && r.season == WalkForward.TestSeason)
  {
    if o :| o in AdvancedRows(rows, expected, lnOnePlus) && o.season == WalkForward.TestSeason {
      AdvancedRowsFromRows(rows, expected, lnOnePlus, o);
    }
    if r :| r in rows && r.season == WalkForward.TestSeason {
      AdvancedRowsKeepRows(rows, expected, lnOnePlus, r);
    }
  }

  method RunV2DailyBacktest(f: Frame, expected: real -> Prob, lnOnePlus: real -> Positive, predict: Predictor)
    returns (o: Outcome)
    ensures o == V2Run(f, expected, lnOnePlus, predict)
  {
    if f.rows == [] {
      return NoData;
    }
    var models := AssembleModels(TopThreeSpecs());
    assert models == TopThreeModels();
    var df := ApplyAdvancedElo(f.rows, expected, lnOnePlus);
    o := RunSignBacktest(Frame(df, f.injuryColumns), models, true, predict);
  }

  /** Every v2 model starts with the two team columns and needs the injury file. */
  lemma TopThreeShape(f: Frame)
    requires MissingR20(NetRating) !in f.injuryColumns
    ensures forall m :: m in TopThreeModels() ==> m.features[..2] == BaseFeatures
    ensures forall m :: m in TopThreeModels() ==> !WalkForward.HasColumns(f, m.features)
  {
    forall m | m in TopThreeModels() ensures !WalkForward.HasColumns(f, m.features) {
      var k :| 0 <= k < |TopThreeModels()| && TopThreeModels()[k] == m;
      assert InjuryDiff(MissingR20(NetRating)) in TopThreeSpecs()[k].featuresList;
      assert InjuryDiff(MissingR20(NetRating)) in m.features;
    }
  }

  /**
   * Without the injury file the first test date raises a KeyError: every
   * v2 model lists `diff_missing_NET_RATING_r20`.
   */
  lemma V2NeedsInjuryFile(f: Frame, expected: real -> Prob, lnOnePlus: real -> Positive, predict: Predictor)
    requires MissingR20(NetRating) !in f.injuryColumns
    requires exists r :: r in f.rows && r.season == WalkForward.TestSeason
    ensures V2Run(f, expected, lnOnePlus, predict) == MissingColumn
  {
    var r :| r in f.rows && r.season == WalkForward.TestSeason;
    var df := AdvancedRows(f.rows, expected, lnOnePlus);
    AdvancedRowsKeepRows(f.rows, expected, lnOnePlus, r);
    var o :| o in df && SameExceptElo(o, r);
    assert o.season == r.season;
    var m := TopThreeModels()[0];
    assert InjuryDiff(MissingR20(NetRating)) in TopThreeSpecs()[0].featuresList;
    SignRunMissingColumn(Frame(df, f.injuryColumns), TopThreeModels(), true, predict, m, MissingR20(NetRating));
  }
}
