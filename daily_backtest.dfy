/**
 * The incremental daily walk-forward backtest of the three top models
 * (`run_daily_backtest`): it resumes after the latest date already in the
 * prediction log, trains each model on the history of every new test date,
 * predicts that date's slate, settles each pick against the spread, appends
 * the new predictions to the log and summarises every model's bets.
 */
module DailyBacktest {
  import opened Wrappers
  import opened Order
  import opened Frames
  import opened Schema
  import opened WalkForward
  import opened Settlement

  datatype ModelConfig = ModelConfig(name: string, features: seq<Col>)

  /** `Train_Cols`: the line and the two team columns, then the model's features. */
  function TrainCols(m: ModelConfig): (cols: seq<Col>)
    ensures |cols| == 3 + |m.features|
    ensures cols[0] == VegasLine && cols[1] == HomeTeamCol && cols[2] == AwayTeamCol
    ensures cols[3..] == m.features
  {
    [VegasLine, HomeTeamCol, AwayTeamCol] + m.features
  }

  /** `get_top_models`. */
  function TopModels(): seq<ModelConfig> {
    [ ModelConfig("Inj_All_19",
        [HomeR(40, OffRating), HomeR(40, DefRating), AwayR(40, OffRating), AwayR(40, DefRating),
         HomeR(5, OffRating), HomeR(5, DefRating), AwayR(5, OffRating), AwayR(5, DefRating),
         EloCol(Home), EloCol(Away), EloDiff,
         HomeR(10, FtaRate), AwayR(10, FtaRate), HomeR(10, TovPct), AwayR(10, TovPct),
         HomeR(10, OrebPct), AwayR(10, OrebPct),
         HomeR(20, FtaRate), AwayR(20, FtaRate), HomeR(20, TovPct), AwayR(20, TovPct),
         HomeR(20, OrebPct), AwayR(20, OrebPct),
         InjuryDiff(MissingR20(NetRating)), InjuryDiff(ActiveRustAdj(NetRating)),
         InjuryDiff(MissingR20(Pie)), InjuryDiff(ActiveRustAdj(Pie)),
         HomeR(5, Pace), AwayR(5, Pace)]),
      ModelConfig("Inj_All_3",
        [EloCol(Home), EloCol(Away), EloDiff,
         HomeR(10, FtaRate), AwayR(10, FtaRate), HomeR(10, TovPct), AwayR(10, TovPct),
         HomeR(10, OrebPct), AwayR(10, OrebPct),
         InjuryDiff(MissingR20(NetRating)), InjuryDiff(ActiveRustAdj(NetRating)),
         InjuryDiff(MissingR20(Pie)), InjuryDiff(ActiveRustAdj(Pie)),
         RollingDiff(40, OffDef), RollingDiff(40, DefOff), RollingDiff(40, PaceDiff),
         HomeR(10, Pace), AwayR(10, Pace), HomeR(20, Pace), AwayR(20, Pace),
         HomeR(5, Pace), AwayR(5, Pace)]),
      ModelConfig("Inj_All_24",
        [HomeR(40, OffRating), HomeR(40, DefRating), AwayR(40, OffRating), AwayR(40, DefRating),
         EloCol(Home), EloCol(Away), EloDiff,
         HomeR(40, FtaRate), AwayR(40, FtaRate), HomeR(40, TovPct), AwayR(40, TovPct),
         HomeR(40, OrebPct), AwayR(40, OrebPct),
         InjuryDiff(MissingR20(NetRating)), InjuryDiff(ActiveRustAdj(NetRating)),
         InjuryDiff(MissingR20(Pie)), InjuryDiff(ActiveRustAdj(Pie)),
         HomeR(10, Pace), AwayR(10, Pace)]) ]
  }

  /** All three top models need the injury columns: without the injury file the run stops with a KeyError. */
  lemma TopModelsNeedInjuryColumns(f: Frame)
    requires MissingR20(NetRating) !in f.injuryColumns
    ensures forall m :: m in TopModels() ==> !HasColumns(f, TrainCols(m))
  {
    forall m | m in TopModels() ensures !HasColumns(f, TrainCols(m)) {
      assert InjuryDiff(MissingR20(NetRating)) in TrainCols(m);
    }
  }

  /** The regressor: trained on the history with the given columns, it predicts the residual of one row. */
  type Predictor = (seq<PreparedRow>, seq<Col>, PreparedRow) -> real

  /** One row of the prediction log. */
  datatype Prediction = Prediction(
    modelName: string, date: string, gameId: string, home: string, away: string,
    vegasLine: real, realDiff: Option<real>, predResidual: real,
    pick: Pick, betWon: Option<bool>)

  /** The log row of one game of the slate for one model. */
  function PredictRow(m: ModelConfig, d: string, row: PreparedRow, pred: real): (p: Prediction)
    ensures p.modelName == m.name && p.date == d && p.gameId == row.gameId
    ensures p.home == row.homeTeam && p.away == row.awayTeam
    ensures p.realDiff == MarginOf(row) && p.predResidual == pred
    ensures LineOf(row).Some? ==> p.vegasLine == LineOf(row).value
    ensures p.pick == PickFor(pred)
    ensures p.betWon == BetWon(p.pick, HomeCovered(p.realDiff, p.vegasLine))
  {
    var line := LineOf(row).GetOr(0.0);
    var pick := PickFor(pred);
    Prediction(m.name, d, row.gameId, row.homeTeam, row.awayTeam, line, MarginOf(row), pred,
               pick, BetWon(pick, HomeCovered(MarginOf(row), line)))
  }

  /** The complete training rows before `d`. */
  function TrainSet(rows: seq<PreparedRow>, m: ModelConfig, d: string): seq<PreparedRow> {
    DropMissing(History(rows, d), TrainCols(m))
  }

  /** The complete rows of the slate of `d`. */
  function TestSet(rows: seq<PreparedRow>, m: ModelConfig, d: string): seq<PreparedRow> {
    DropMissing(Today(rows, d), TrainCols(m))
  }

  /** What one model adds to the log on date `d`: one row per complete game of the slate, in slate order. */
  function ModelDay(rows: seq<PreparedRow>, m: ModelConfig, d: string, predict: Predictor): (ps: seq<Prediction>)
    ensures |ps| == |TestSet(rows, m, d)|
    ensures forall k :: 0 <= k < |ps| ==>
      ps[k] == PredictRow(m, d, TestSet(rows, m, d)[k], predict(TrainSet(rows, m, d), TrainCols(m), TestSet(rows, m, d)[k]))
    ensures forall p :: p in ps ==> p.date == d && p.modelName == m.name
  {
    var train := TrainSet(rows, m, d);
    var test := TestSet(rows, m, d);
    seq(|test|, k requires 0 <= k < |test| => PredictRow(m, d, test[k], predict(train, TrainCols(m), test[k])))
  }

  /** Every model in turn on date `d`. */
  function ModelsDay(rows: seq<PreparedRow>, models: seq<ModelConfig>, d: string, predict: Predictor): (ps: seq<Prediction>)
    ensures forall p :: p in ps ==> p.date == d
    decreases |models|
  {
    if models == [] then []
    else ModelsDay(rows, models[..|models| - 1], d, predict) + ModelDay(rows, models[|models| - 1], d, predict)
  }

  /** Every date in turn, every model within a date. */
  function AllPreds(rows: seq<PreparedRow>, models: seq<ModelConfig>, dates: seq<string>, predict: Predictor): (ps: seq<Prediction>)
    ensures forall p :: p in ps ==> p.date in dates
    decreases |dates|
  {
    if dates == [] then []
    else AllPreds(rows, models, dates[..|dates| - 1], predict) + ModelsDay(rows, models, dates[|dates| - 1], predict)
  }

  lemma {:induction false} AllPredsCovers(rows: seq<PreparedRow>, models: seq<ModelConfig>, dates: seq<string>, predict: Predictor, d: string, p: Prediction)
    requires d in dates && p in ModelsDay(rows, models, d, predict)
    ensures p in AllPreds(rows, models, dates, predict)
    decreases |dates|
  {
    var init := dates[..|dates| - 1];
    var last := dates[|dates| - 1];
    assert AllPreds(rows, models, dates, predict) == AllPreds(rows, models, init, predict) + ModelsDay(rows, models, last, predict);
    if d != last {
      InInit(dates, d);
      AllPredsCovers(rows, models, init, predict, d, p);
    }
  }

  lemma InInit<T>(xs: seq<T>, x: T)
    requires x in xs && x != xs[|xs| - 1]
    ensures x in xs[..|xs| - 1]
  {
    var k :| 0 <= k < |xs| && xs[k] == x;
    assert xs[..|xs| - 1][k] == x;
  }

  lemma {:induction false} AllPredsEmpty(rows: seq<PreparedRow>, models: seq<ModelConfig>, dates: seq<string>, predict: Predictor)
    requires forall d :: d in dates ==> ModelsDay(rows, models, d, predict) == []
    ensures AllPreds(rows, models, dates, predict) == []
    decreases |dates|
  {
    if dates != [] {
      AllPredsEmpty(rows, models, dates[..|dates| - 1], predict);
    }
  }

  predicate NotAfter(a: string, b: string) {
    a == b || StrLess(a, b)
  }

  /** `str(existing_preds['Date'].max())`, or "" for an empty log. */
  function LastProcessed(log: seq<Prediction>): (last: string)
    ensures log == [] ==> last == ""
    ensures forall p :: p in log ==> NotAfter(p.date, last)
    ensures log != [] ==> exists p :: p in log && p.date == last
  {
    if log == [] then ""
    else
      var ds := MapSeq(log, (p: Prediction) => p.date);
      var last := MaxStr(ds);
      assert forall p :: p in log ==> p.date in ds by {
        forall p | p in log ensures p.date in ds {
          var k :| 0 <= k < |log| && log[k] == p;
          assert ds[k] == p.date;
        }
      }
      assert exists p :: p in log && p.date == last by {
        var k :| 0 <= k < |ds| && ds[k] == last;
        assert log[k] in log;
      }
      last
  }

  lemma {:induction false} FilterIncreasing(s: seq<string>, p: string -> bool)
    requires StrictlyIncreasing(s)
    ensures StrictlyIncreasing(Filter(s, p))
    decreases |s|
  {
    if s != [] {
      FilterIncreasing(s[1..], p);
      var t := Filter(s[1..], p);
      if p(s[0]) {
        forall i, j | 0 <= i < j < |[s[0]] + t| ensures StrLess(([s[0]] + t)[i], ([s[0]] + t)[j]) {
          if i == 0 {
            assert t[j - 1] in s[1..];
          }
        }
      }
    }
  }

  /** The test dates still to process: after `last`, or all of them when `last` is "". */
  function NewDates(rows: seq<PreparedRow>, last: string): (ds: seq<string>)
    ensures StrictlyIncreasing(ds)
    ensures forall d :: d in ds <==> d in TestDates(rows) && (last == "" || StrLess(last, d))
  {
    if last != "" then
      FilterIncreasing(TestDates(rows), d => StrLess(last, d));
      Filter(TestDates(rows), d => StrLess(last, d))
    else TestDates(rows)
  }

  datatype ModelSummary = ModelSummary(name: string, betsCount: nat, winPct: real, roi: real)

  function ByModel(name: string): Prediction -> bool {
    (p: Prediction) => p.modelName == name
  }

  predicate IsBet(p: Prediction) {
    p.pick != Pass
  }

  predicate IsWin(p: Prediction) {
    p.betWon == Some(true)
  }

  /** The non-pass rows of the log that belong to model `name`. */
  function Bets(log: seq<Prediction>, name: string): (bs: seq<Prediction>)
    ensures forall p :: p in bs <==> p in log && p.modelName == name && p.pick != Pass
  {
    Filter(Filter(log, ByModel(name)), IsBet)
  }

  /** The won bets of model `name`: `active_bets['Bet_Won'].sum()`. */
  function Wins(log: seq<Prediction>, name: string): (w: nat)
    ensures w <= |Bets(log, name)|
  {
    |Filter(Bets(log, name), IsWin)|
  }

  /** One model's line of the summary, over the whole log. */
  function Summary(log: seq<Prediction>, m: ModelConfig): (s: ModelSummary)
    ensures s.name == m.name && s.betsCount == |Bets(log, m.name)|
    ensures 0.0 <= s.winPct <= 1.0 && -1.0 <= s.roi <= Payout
    ensures s.betsCount == 0 ==> s.winPct == 0.0 && s.roi == 0.0
    ensures s.betsCount > 0 ==> s.winPct == (Wins(log, m.name) as real) / (s.betsCount as real)
    ensures s.betsCount > 0 ==> s.roi == s.winPct * Payout - (1.0 - s.winPct)
  {
    var bets := |Bets(log, m.name)|;
    var wins := Wins(log, m.name);
    RoiBounds(wins, bets);
    ModelSummary(m.name, bets, WinPct(wins, bets), Roi(wins, bets))
  }

  /** The summary, one line per model in model order. */
  function Report(log: seq<Prediction>, models: seq<ModelConfig>): (rep: seq<ModelSummary>)
    ensures |rep| == |models|
    ensures forall i :: 0 <= i < |models| ==> rep[i] == Summary(log, models[i])
    decreases |models|
  {
    if models == [] then []
    else Report(log, models[..|models| - 1]) + [Summary(log, models[|models| - 1])]
  }

  datatype Outcome =
    | UpToDate                                             // no new test date: nothing is written
    | MissingColumn                                        // a KeyError in `dropna`: nothing is written
    | NoNewPredictions                                     // new dates but no complete game: nothing is written
    | Written(log: seq<Prediction>, report: seq<ModelSummary>)

  /** Every model finds all of its training columns in the frame. */
  predicate AllHaveColumns(f: Frame, models: seq<ModelConfig>) {
    forall m :: m in models ==> HasColumns(f, TrainCols(m))
  }

  /** The whole run as a function of the prepared frame and the existing log. */
  function Backtest(f: Frame, existing: seq<Prediction>, models: seq<ModelConfig>, predict: Predictor): Outcome {
    var dates := NewDates(f.rows, LastProcessed(existing));
    if dates == [] then UpToDate
    else if !AllHaveColumns(f, models) then MissingColumn
    else
      var preds := AllPreds(f.rows, models, dates, predict);
      if preds == [] then NoNewPredictions
      else
        var log := existing + preds;
        Written(log, Report(log, models))
  }

  /** The summary loop of the run. */
  method Summarize(log: seq<Prediction>, models: seq<ModelConfig>) returns (rep: seq<ModelSummary>)
    ensures rep == Report(log, models)
  {
    rep := [];
    var j := 0;
    while j < |models|
      invariant 0 <= j <= |models|
      invariant rep == Report(log, models[..j])
    {
      var line := SummarizeModel(log, models[j]);
      assert models[..j + 1][..j] == models[..j];
      assert Report(log, models[..j + 1]) == Report(log, models[..j]) + [Summary(log, models[j])];
      rep := rep + [line];
      j := j + 1;
    }
    assert models[..j] == models;
  }

  /** The predictions of one model on one slate: the loop over `curr_test`. */
  method PredictSlate(m: ModelConfig, d: string, train: seq<PreparedRow>, test: seq<PreparedRow>, predict: Predictor)
    returns (ps: seq<Prediction>)
    ensures |ps| == |test|
    ensures forall k :: 0 <= k < |test| ==> ps[k] == PredictRow(m, d, test[k], predict(train, TrainCols(m), test[k]))
  {
    var cols := TrainCols(m);
    ps := [];
    var k := 0;
    while k < |test|
      invariant 0 <= k <= |test| && |ps| == k
      invariant forall t :: 0 <= t < k ==> ps[t] == PredictRow(m, d, test[t], predict(train, cols, test[t]))
    {
      var row := test[k];
      var pred := predict(train, cols, row);
      var realDiff := MarginOf(row);
      var line := LineOf(row).GetOr(0.0);
      var pick: Pick;
      if pred > Threshold {
        pick := PickHome;
      } else if pred < -Threshold {
        pick := PickAway;
      } else {
        pick := Pass;
      }
      var homeCovered := realDiff.Some? && realDiff.value > line;
      var won: Option<bool>;
      if pick == PickHome {
        won := Some(homeCovered);
      } else if pick == PickAway {
        won := Some(!homeCovered);
      } else {
        won := None;
      }
      ps := ps + [Prediction(m.name, d, row.gameId, row.homeTeam, row.awayTeam, line, realDiff, pred, pick, won)];
      k := k + 1;
    }
  }

  /**
   * One date of the run: every model in turn.  `ok` is false when some
   * model lacks a column, where the source raises a KeyError.
   */
  method RunDay(f: Frame, models: seq<ModelConfig>, d: string, predict: Predictor)
    returns (ok: bool, ps: seq<Prediction>)
    ensures ok <==> AllHaveColumns(f, models)
    ensures ok ==> ps == ModelsDay(f.rows, models, d, predict)
  {
    var history := History(f.rows, d);
    var todays := Today(f.rows, d);
    ps := [];
    var j := 0;
    while j < |models|
      invariant 0 <= j <= |models|
      invariant ps == ModelsDay(f.rows, models[..j], d, predict)
      invariant forall k :: 0 <= k < j ==> HasColumns(f, TrainCols(models[k]))
    {
      var m := models[j];
      var found, slate := RunModel(f, m, d, history, todays, predict);
      if !found {
        assert m in models;
        return false, ps;
      }
      ModelsDayNext(f.rows, models, j, d, predict);
      ps := ps + slate;
      j := j + 1;
    }
    AllColumnsFound(f, models);
    assert models[..j] == models;
    return true, ps;
  }

  /** One pass of the model loop: the column check, the two `dropna` calls, and the slate scored unless empty. */
  method RunModel(f: Frame, m: ModelConfig, d: string, history: seq<PreparedRow>, todays: seq<PreparedRow>, predict: Predictor)
    returns (found: bool, slate: seq<Prediction>)
    requires history == History(f.rows, d) && todays == Today(f.rows, d)
    ensures found <==> HasColumns(f, TrainCols(m))
    ensures found ==> slate == ModelDay(f.rows, m, d, predict)
  {
    var cols := TrainCols(m);
    if !HasColumns(f, cols) {
      return false, [];
    }
    var train := DropMissing(history, cols);
    var test := DropMissing(todays, cols);
    if |test| > 0 {
      slate := PredictSlate(m, d, train, test, predict);
      SlateIsModelDay(f.rows, m, d, predict, slate);
    } else {
      slate := [];
    }
    return true, slate;
  }

  /** One pass of the summary loop: the model's bets, wins, win percentage and ROI. */
  method SummarizeModel(log: seq<Prediction>, m: ModelConfig) returns (line: ModelSummary)
    ensures line == Summary(log, m)
  {
    var mine := Filter(log, ByModel(m.name));
    var active := Filter(mine, IsBet);
    var betsCount := |active|;
    var winPct: real, roi: real;
    if betsCount > 0 {
      var wins := |Filter(active, IsWin)|;
      winPct := (wins as real) / (betsCount as real);
      roi := winPct * 0.9 - (1.0 - winPct);
      assert winPct == WinPct(wins, betsCount) && roi == Roi(wins, betsCount);
    } else {
      winPct := 0.0;
      roi := 0.0;
    }
    line := ModelSummary(m.name, betsCount, winPct, roi);
  }

  lemma AllPredsNext(rows: seq<PreparedRow>, models: seq<ModelConfig>, dates: seq<string>, i: nat, predict: Predictor)
    requires i < |dates|
    ensures AllPreds(rows, models, dates[..i + 1], predict) == AllPreds(rows, models, dates[..i], predict) + ModelsDay(rows, models, dates[i], predict)
  {
    assert dates[..i + 1][..i] == dates[..i];
  }

  lemma ModelsDayNext(rows: seq<PreparedRow>, models: seq<ModelConfig>, j: nat, d: string, predict: Predictor)
    requires j < |models|
    ensures ModelsDay(rows, models[..j + 1], d, predict) == ModelsDay(rows, models[..j], d, predict) + ModelDay(rows, models[j], d, predict)
  {
    assert models[..j + 1][..j] == models[..j];
  }

  lemma SlateIsModelDay(rows: seq<PreparedRow>, m: ModelConfig, d: string, predict: Predictor, slate: seq<Prediction>)
    requires |slate| == |TestSet(rows, m, d)|
    requires forall k :: 0 <= k < |slate| ==>
      slate[k] == PredictRow(m, d, TestSet(rows, m, d)[k], predict(TrainSet(rows, m, d), TrainCols(m), TestSet(rows, m, d)[k]))
    ensures slate == ModelDay(rows, m, d, predict)
  {
  }

  lemma AllColumnsFound(f: Frame, models: seq<ModelConfig>)
    requires forall k :: 0 <= k < |models| ==> HasColumns(f, TrainCols(models[k]))
    ensures AllHaveColumns(f, models)
  {
    forall m | m in models ensures HasColumns(f, TrainCols(m)) {
      var k :| 0 <= k < |models| && models[k] == m;
    }
  }

  /** The loop over the new dates; `ok` is false when the first date hits a missing column. */
  method RunDates(f: Frame, models: seq<ModelConfig>, dates: seq<string>, predict: Predictor)
    returns (ok: bool, all: seq<Prediction>)
    requires dates != []
    ensures ok <==> AllHaveColumns(f, models)
    ensures ok ==> all == AllPreds(f.rows, models, dates, predict)
  {
    all := [];
    var i := 0;
    while i < |dates|
      invariant 0 <= i <= |dates|
      invariant all == AllPreds(f.rows, models, dates[..i], predict)
      invariant i > 0 ==> AllHaveColumns(f, models)
    {
      var dayOk, ps := RunDay(f, models, dates[i], predict);
      if !dayOk {
        return false, all;
      }
      AllPredsNext(f.rows, models, dates, i, predict);
      all := all + ps;
      i := i + 1;
    }
    assert dates[..i] == dates;
    return true, all;
  }

  /** `run_daily_backtest`, with the frame and the existing log as inputs and the outcome as output. */
  method RunDailyBacktest(f: Frame, existing: seq<Prediction>, models: seq<ModelConfig>, predict: Predictor)
    returns (o: Outcome)
    ensures o == Backtest(f, existing, models, predict)
  {
    var lastProcessed := LastProcessed(existing);
    var dates := NewDates(f.rows, lastProcessed);
    if |dates| == 0 {
      return UpToDate;
    }
    var ok, all := RunDates(f, models, dates, predict);
    if !ok {
      return MissingColumn;
    }
    if |all| == 0 {
      return NoNewPredictions;
    }
    var log := existing + all;
    var report := Summarize(log, models);
    return Written(log, report);
  }

  /** No row of the frame has the empty string as its date. */
  predicate DatedRows(f: Frame) {
    forall r :: r in f.rows ==> r.date != ""
  }

  /**
   * A written log keeps the existing rows first, and when no row of the
   * frame has an empty date every appended prediction is dated strictly
   * after every existing one.
   */
  lemma WrittenLogAppends(f: Frame, existing: seq<Prediction>, models: seq<ModelConfig>, predict: Predictor)
    requires DatedRows(f)
    requires Backtest(f, existing, models, predict).Written?
    ensures var log := Backtest(f, existing, models, predict).log;
      |log| > |existing| && log[..|existing|] == existing &&
      forall q, p :: q in existing && p in log[|existing|..] ==> StrLess(q.date, p.date)
  {
    var last := LastProcessed(existing);
    var dates := NewDates(f.rows, last);
    var preds := AllPreds(f.rows, models, dates, predict);
    var log := existing + preds;
    assert log[..|existing|] == existing && log[|existing|..] == preds;
    forall q, p | q in existing && p in preds ensures StrLess(q.date, p.date) {
      assert p.date in TestDates(f.rows);
      assert p.date != "";
      if last == "" {
        assert q.date == "";
      } else if q.date != last {
        StrLessTransitive(q.date, last, p.date);
      }
    }
  }

  /**
   * Resuming is idempotent: right after a run has written its log, a run on
   * the same frame and that log writes nothing.
   */
  lemma RerunWritesNothing(f: Frame, existing: seq<Prediction>, models: seq<ModelConfig>, predict: Predictor)
    requires DatedRows(f)
    requires Backtest(f, existing, models, predict).Written?
    ensures var again := Backtest(f, Backtest(f, existing, models, predict).log, models, predict);
      again.UpToDate? || again.NoNewPredictions?
  {
    var last1 := LastProcessed(existing);
    var dates1 := NewDates(f.rows, last1);
    var preds := AllPreds(f.rows, models, dates1, predict);
    var log := existing + preds;
    var last2 := LastProcessed(log);
    var dates2 := NewDates(f.rows, last2);
    assert preds[0] in log;
    assert preds[0].date in TestDates(f.rows);
    assert last2 != "";
    forall d | d in dates2 ensures ModelsDay(f.rows, models, d, predict) == [] {
      assert StrLess(last2, d);
      if last1 != "" {
        var q :| q in existing && q.date == last1;
        assert q in log;
        if last1 != last2 {
          StrLessTransitive(last1, last2, d);
        }
      }
      assert d in dates1;
      var ps := ModelsDay(f.rows, models, d, predict);
      if ps != [] {
        assert ps[0] in ps;
        AllPredsCovers(f.rows, models, dates1, predict, d, ps[0]);
        assert ps[0] in log;
        if d == last2 {
          StrLessIrreflexive(d);
        } else {
          StrLessAsymmetric(last2, d);
        }
      }
    }
    AllPredsEmpty(f.rows, models, dates2, predict);
  }

  /**
   * No look-ahead: a model's predictions for `d` depend only on the rows
   * dated on or before `d`.
   */
  lemma ModelDayNoLookAhead(rows: seq<PreparedRow>, rows': seq<PreparedRow>, m: ModelConfig, d: string, predict: Predictor)
    requires Filter(rows, (r: PreparedRow) => !StrLess(d, r.date)) == Filter(rows', (r: PreparedRow) => !StrLess(d, r.date))
    ensures ModelDay(rows, m, d, predict) == ModelDay(rows', m, d, predict)
  {
    SplitUsesNoLaterRows(rows, rows', d);
  }
}
