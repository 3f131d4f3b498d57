/**
 * The direction-scoring walk-forward backtest shared by the v2, top-10 and
 * random-forest drivers.  Every test date, every model is trained on the
 * history and predicts the residual of each complete game of the slate; a
 * game counts as correct when the predicted and the actual residual are both
 * strictly positive or both strictly negative, and it is a bet when the
 * prediction is more than 0.5 away from zero.  Four counters per model
 * name are kept and reported as a total win rate, a bet win rate and an
 * ROI at 0.9 payout.  `requireTarget` says whether the slate must also have
 * a known `target_residual` (true for the v2 and random-forest drivers).
 */
module SignBacktest {
  import opened Wrappers
  import opened Order
  import opened Frames
  import opened Sorting
  import opened Schema
  import opened WalkForward
  import opened Settlement
  import DailyBacktest

  type ModelConfig = DailyBacktest.ModelConfig
  type Predictor = DailyBacktest.Predictor

  lemma ProductSign(x: real, y: real)
    ensures x * y > 0.0 <==> (x > 0.0 && y > 0.0) || (x < 0.0 && y < 0.0)
  {
    if x > 0.0 {
      if y > 0.0 { assert x * y > 0.0; } else { assert x * y <= 0.0; }
    } else if x < 0.0 {
      if y < 0.0 { assert x * y > 0.0; } else { assert x * y <= 0.0; }
    } else {
      assert x * y == 0.0;
    }
  }

  /** Predicted and actual residual point the same way; a missing actual residual (NaN) never does. */
  function SameSign(pred: real, actual: Option<real>): (b: bool)
    ensures b <==> actual.Some? && pred * actual.value > 0.0
  {
    if actual.Some? then ProductSign(pred, actual.value); (pred > 0.0 && actual.value > 0.0) || (pred < 0.0 && actual.value < 0.0)
    else false
  }

  /** `abs(pred_res) > CONFIDENCE_THRESHOLD`: exactly the predictions the daily backtest does not pass on. */
  function IsBet(pred: real): (b: bool)
    ensures b <==> PickFor(pred) != Pass
  {
    (if pred < 0.0 then -pred else pred) > Threshold
  }

  /** The four counters of one model: games, correct games, bets and bets won. */
  datatype Tally = Tally(games: nat, correct: nat, bets: nat, won: nat)

  /** What the counters can be: nothing is won that is not both a bet and correct. */
  predicate Consistent(t: Tally) {
    t.correct <= t.games && t.won <= t.bets <= t.games && t.won <= t.correct
  }

  const NoGames := Tally(0, 0, 0, 0)

  function Plus(a: Tally, b: Tally): Tally {
    Tally(a.games + b.games, a.correct + b.correct, a.bets + b.bets, a.won + b.won)
  }

  function Indicator(b: bool): nat {
    if b then 1 else 0
  }

  /** The contribution of one game with predicted residual `pred` and actual residual `actual`. */
  function RowTally(pred: real, actual: Option<real>): (t: Tally)
    ensures t.games == 1 && Consistent(t)
    ensures t.correct == 1 <==> SameSign(pred, actual)
    ensures t.bets == 1 <==> IsBet(pred)
    ensures t.won == 1 <==> IsBet(pred) && SameSign(pred, actual)
  {
    Tally(1, Indicator(SameSign(pred, actual)), Indicator(IsBet(pred)), Indicator(IsBet(pred) && SameSign(pred, actual)))
  }

  /** The counters of one slate: every test row scored with the model trained on `train`. */
  function SlateTally(train: seq<PreparedRow>, test: seq<PreparedRow>, features: seq<Col>, predict: Predictor): (t: Tally)
    ensures t.games == |test| && Consistent(t)
    decreases |test|
  {
    if test == [] then NoGames
    else
      var last := test[|test| - 1];
      Plus(SlateTally(train, test[..|test| - 1], features, predict),
           RowTally(predict(train, features, last), Value(last, TargetResidual)))
  }

  /** The columns `dropna` looks at: the features, and the target when it is required. */
  function FitCols(m: ModelConfig, requireTarget: bool): (cols: seq<Col>)
    ensures forall c :: c in cols <==> c in m.features || (requireTarget && c == TargetResidual)
  {
    m.features + if requireTarget then [TargetResidual] else []
  }

  function TrainRows(rows: seq<PreparedRow>, d: string, m: ModelConfig, requireTarget: bool): seq<PreparedRow> {
    DropMissing(History(rows, d), FitCols(m, requireTarget))
  }

  function TestRows(rows: seq<PreparedRow>, d: string, m: ModelConfig, requireTarget: bool): seq<PreparedRow> {
    DropMissing(Today(rows, d), FitCols(m, requireTarget))
  }

  /** What model `m` adds to its counters on date `d`: one game per complete row of the slate. */
  function ModelDay(rows: seq<PreparedRow>, d: string, m: ModelConfig, requireTarget: bool, predict: Predictor): (t: Tally)
    ensures Consistent(t)
  {
    SlateTally(TrainRows(rows, d, m, requireTarget), TestRows(rows, d, m, requireTarget), m.features, predict)
  }

  /** Every complete row of the slate is one counted game. */
  lemma ModelDayCountsSlate(rows: seq<PreparedRow>, d: string, m: ModelConfig, requireTarget: bool, predict: Predictor)
    ensures ModelDay(rows, d, m, requireTarget, predict).games == |TestRows(rows, d, m, requireTarget)|
  {
  }

  /** The counters named `name` collect, on date `d`, what every model of that name adds. */
  function DayFor(rows: seq<PreparedRow>, d: string, models: seq<ModelConfig>, name: string,
                  requireTarget: bool, predict: Predictor): (t: Tally)
    ensures Consistent(t)
    decreases |models|
  {
    if models == [] then NoGames
    else
      var m := models[|models| - 1];
      var before := DayFor(rows, d, models[..|models| - 1], name, requireTarget, predict);
      if m.name == name then Plus(before, ModelDay(rows, d, m, requireTarget, predict)) else before
  }

  /** The counters named `name` after the dates `dates`. */
  function NameTally(rows: seq<PreparedRow>, dates: seq<string>, models: seq<ModelConfig>, name: string,
                     requireTarget: bool, predict: Predictor): (t: Tally)
    ensures Consistent(t)
    decreases |dates|
  {
    if dates == [] then NoGames
    else
      Plus(NameTally(rows, dates[..|dates| - 1], models, name, requireTarget, predict),
           DayFor(rows, dates[|dates| - 1], models, name, requireTarget, predict))
  }

  /** One line of the report, with the three rates as numbers. */
  datatype ReportRow = ReportRow(name: string, totalGames: nat, totalWinPct: real, betsCount: nat,
                                 betWinPct: real, roi: real)

  function ReportRowOf(name: string, t: Tally): (r: ReportRow)
    requires Consistent(t)
    ensures r.name == name && r.totalGames == t.games && r.betsCount == t.bets
    ensures 0.0 <= r.totalWinPct <= 1.0 && 0.0 <= r.betWinPct <= 1.0 && -1.0 <= r.roi <= Payout
    ensures t.games > 0 ==> r.totalWinPct * (t.games as real) == t.correct as real
    ensures t.bets > 0 ==> r.betWinPct * (t.bets as real) == t.won as real
    ensures t.bets == 0 ==> r.betWinPct == 0.0 && r.roi == 0.0
    ensures t.games == 0 ==> r.totalWinPct == 0.0
  {
    RoiBounds(t.won, t.bets);
    ReportRow(name, t.games, WinPct(t.correct, t.games), t.bets, WinPct(t.won, t.bets), Roi(t.won, t.bets))
  }

  datatype Outcome =
    | NoData                       // the prepared frame is empty: nothing is written
    | MissingColumn                // a KeyError in `dropna` on the first test date: no report
    | Reported(report: seq<ReportRow>)

  /** Every model finds the columns its `dropna` names (otherwise pandas raises a KeyError). */
  predicate AllFit(f: Frame, models: seq<ModelConfig>, requireTarget: bool) {
    forall m :: m in models ==> HasColumns(f, FitCols(m, requireTarget))
  }

  /** The date loop has a date to walk exactly when some row belongs to the test season. */
  lemma HasTestDate(rows: seq<PreparedRow>)
    ensures TestDates(Walked(rows)) != [] <==> exists r :: r in rows && r.season == TestSeason
  {
    var df := Walked(rows);
    if r :| r in rows && r.season == TestSeason {
      assert r in multiset(df);
      assert r.date in TestDates(df);
    }
    if TestDates(df) != [] {
      assert TestDates(df)[0] in TestDates(df);
      var r :| r in df && r.season == TestSeason && r.date == TestDates(df)[0];
      assert r in multiset(rows);
    }
  }

  /** The frame as the drivers walk it: sorted by date, then game id. */
  function Walked(rows: seq<PreparedRow>): (df: seq<PreparedRow>)
    ensures multiset(df) == multiset(rows) && SortedBy(df, DateGameKey)
  {
    SortBy(rows, DateGameKey)
  }

  /** The report of the run: one row per model, in model order, from the counters of its name. */
  function SignReport(rows: seq<PreparedRow>, models: seq<ModelConfig>, requireTarget: bool, predict: Predictor): (rep: seq<ReportRow>)
    ensures |rep| == |models|
  {
    var df := Walked(rows);
    var dates := TestDates(df);
    seq(|models|, i requires 0 <= i < |models| =>
      ReportRowOf(models[i].name, NameTally(df, dates, models, models[i].name, requireTarget, predict)))
  }

  /**
   * The whole run of a driver as a function of the prepared frame: the
   * empty-frame stop; the KeyError of the first `dropna` that names an
   * absent column, raised as soon as the date loop reaches a test date; or
   * the report.
   */
  function SignRun(f: Frame, models: seq<ModelConfig>, requireTarget: bool, predict: Predictor): (o: Outcome)
    ensures f.rows == [] <==> o == NoData
    ensures o == MissingColumn <==>
              (exists r :: r in f.rows && r.season == TestSeason) && !AllFit(f, models, requireTarget)
    ensures o.Reported? ==> o.report == SignReport(f.rows, models, requireTarget, predict)
  {
    HasTestDate(f.rows);
    if f.rows == [] then NoData
    else if TestDates(Walked(f.rows)) != [] && !AllFit(f, models, requireTarget) then MissingColumn
    else Reported(SignReport(f.rows, models, requireTarget, predict))
  }

  /** With every injury column merged, no `dropna` fails and a non-empty frame is reported. */
  lemma SignRunReports(f: Frame, models: seq<ModelConfig>, requireTarget: bool, predict: Predictor)
    requires f.rows != [] && forall x: InjuryFeature :: x in f.injuryColumns
    ensures SignRun(f, models, requireTarget, predict).Reported?
  {
    forall m | m in models ensures HasColumns(f, FitCols(m, requireTarget)) {
      forall c | c in FitCols(m, requireTarget) ensures HasColumn(f, c) {
        if c.InjuryDiff? { assert c.feature in f.injuryColumns; }
      }
    }
  }

  /** A model that lists a column the frame lacks stops a run that has a test-season row. */
  lemma SignRunMissingColumn(f: Frame, models: seq<ModelConfig>, requireTarget: bool, predict: Predictor,
                             m: ModelConfig, x: InjuryFeature)
    requires m in models && InjuryDiff(x) in m.features && x !in f.injuryColumns
    requires exists r :: r in f.rows && r.season == TestSeason
    ensures SignRun(f, models, requireTarget, predict) == MissingColumn
  {
    assert InjuryDiff(x) in FitCols(m, requireTarget);
  }

  // ---- the driver loops -----------------------------------------------

  /** The counter updates of one row, in the order the drivers make them. */
  method ScoreRow(tally: Tally, predRes: real, actualRes: Option<real>) returns (t: Tally)
    ensures t == Plus(tally, RowTally(predRes, actualRes))
  {
    t := tally;
    var correct := actualRes.Some? && ((predRes > 0.0 && actualRes.value > 0.0) || (predRes < 0.0 && actualRes.value < 0.0));
    assert correct == SameSign(predRes, actualRes);
    if correct {
      t := t.(correct := t.correct + 1);
    }
    t := t.(games := t.games + 1);
    if (if predRes < 0.0 then -predRes else predRes) > Threshold {
      t := t.(bets := t.bets + 1);
      if correct {
        t := t.(won := t.won + 1);
      }
    }
  }

  lemma SlateTallyNext(train: seq<PreparedRow>, test: seq<PreparedRow>, idx: nat, features: seq<Col>, predict: Predictor)
    requires idx < |test|
    ensures SlateTally(train, test[..idx + 1], features, predict)
         == Plus(SlateTally(train, test[..idx], features, predict),
                 RowTally(predict(train, features, test[idx]), Value(test[idx], TargetResidual)))
  {
    assert test[..idx + 1][..idx] == test[..idx];
  }

  /** The per-row loop: each row of the slate is predicted and scored. */
  method ScoreSlate(tally: Tally, train: seq<PreparedRow>, test: seq<PreparedRow>, features: seq<Col>, predict: Predictor)
    returns (t: Tally)
    ensures t == Plus(tally, SlateTally(train, test, features, predict))
  {
    t := tally;
    var idx := 0;
    while idx < |test|
      invariant 0 <= idx <= |test|
      invariant t == Plus(tally, SlateTally(train, test[..idx], features, predict))
    {
      var row := test[idx];
      SlateTallyNext(train, test, idx, features, predict);
      t := ScoreRow(t, predict(train, features, row), Value(row, TargetResidual));
      idx := idx + 1;
    }
    assert test[..idx] == test;
  }

  /** The names the counters are kept under, each starting at zero. */
  function InitialStats(models: seq<ModelConfig>): (stats: map<string, Tally>)
    ensures forall n :: n in stats <==> exists m :: m in models && m.name == n
    ensures forall n :: n in stats ==> stats[n] == NoGames
  {
    map m | m in models :: m.name := NoGames
  }

  lemma DayForNext(rows: seq<PreparedRow>, d: string, models: seq<ModelConfig>, j: nat, name: string,
                    requireTarget: bool, predict: Predictor)
    requires j < |models|
    ensures DayFor(rows, d, models[..j + 1], name, requireTarget, predict)
         == if models[j].name == name
            then Plus(DayFor(rows, d, models[..j], name, requireTarget, predict), ModelDay(rows, d, models[j], requireTarget, predict))
            else DayFor(rows, d, models[..j], name, requireTarget, predict)
  {
    assert models[..j + 1][..j] == models[..j];
  }

  /**
   * One pass of the model loop: the two `dropna` calls, which fail when the
   * frame `f` lacks a listed column, then model `m` trained and scored on
   * the slate of `d` unless nothing is complete.
   */
  method RunModel(tally: Tally, f: Frame, df: seq<PreparedRow>, d: string, m: ModelConfig, requireTarget: bool,
                  predict: Predictor)
    returns (found: bool, t: Tally)
    ensures found <==> HasColumns(f, FitCols(m, requireTarget))
    ensures found ==> t == Plus(tally, ModelDay(df, d, m, requireTarget, predict))
  {
    var features := FitCols(m, requireTarget);
    if !HasColumns(f, features) {
      return false, tally;
    }
    var currTrain := DropMissing(History(df, d), features);
    var currTest := DropMissing(Today(df, d), features);
    if currTest == [] {
      return true, tally;
    }
    t := ScoreSlate(tally, currTrain, currTest, m.features, predict);
    found := true;
  }

  /** The models up to `j` all fit exactly when those before `j` do and model `j` does; a misfit spoils every longer list. */
  lemma AllFitNext(f: Frame, models: seq<ModelConfig>, j: nat, requireTarget: bool)
    requires j < |models|
    ensures AllFit(f, models[..j + 1], requireTarget) <==>
              AllFit(f, models[..j], requireTarget) && HasColumns(f, FitCols(models[j], requireTarget))
    ensures !HasColumns(f, FitCols(models[j], requireTarget)) ==> !AllFit(f, models, requireTarget)
  {
    assert models[..j + 1] == models[..j] + [models[j]];
    assert models[j] in models;
  }

  /** One more model of the date: its counters grow by what it adds, the other names' stay. */
  lemma DayStatsNext(stats: map<string, Tally>, before: map<string, Tally>, after: map<string, Tally>,
                     df: seq<PreparedRow>, d: string, models: seq<ModelConfig>, j: nat, requireTarget: bool, predict: Predictor)
    requires j < |models| && models[j].name in before && before.Keys == stats.Keys
    requires forall n :: n in stats ==> before[n] == Plus(stats[n], DayFor(df, d, models[..j], n, requireTarget, predict))
    requires after == before[models[j].name := Plus(before[models[j].name], ModelDay(df, d, models[j], requireTarget, predict))]
    ensures forall n :: n in stats ==> after[n] == Plus(stats[n], DayFor(df, d, models[..j + 1], n, requireTarget, predict))
  {
    var m := models[j];
    forall n | n in stats
      ensures after[n] == Plus(stats[n], DayFor(df, d, models[..j + 1], n, requireTarget, predict))
    {
      DayForNext(df, d, models, j, n, requireTarget, predict);
      if n == m.name {
        PlusAssoc(stats[n], DayFor(df, d, models[..j], n, requireTarget, predict), ModelDay(df, d, m, requireTarget, predict));
      } else {
        assert after[n] == before[n];
      }
    }
  }

  /** The model loop of one date; `ok` is false when some model's `dropna` raises. */
  method RunDate(stats: map<string, Tally>, f: Frame, df: seq<PreparedRow>, d: string, models: seq<ModelConfig>,
                 requireTarget: bool, predict: Predictor)
    returns (ok: bool, stats': map<string, Tally>)
    requires forall m :: m in models ==> m.name in stats
    ensures ok <==> AllFit(f, models, requireTarget)
    ensures ok ==> stats'.Keys == stats.Keys
    ensures ok ==> forall n :: n in stats ==> stats'[n] == Plus(stats[n], DayFor(df, d, models, n, requireTarget, predict))
  {
    stats' := stats;
    var j := 0;
    while j < |models|
      invariant 0 <= j <= |models| && stats'.Keys == stats.Keys
      invariant forall n :: n in stats ==> stats'[n] == Plus(stats[n], DayFor(df, d, models[..j], n, requireTarget, predict))
      invariant AllFit(f, models[..j], requireTarget)
    {
      var m := models[j];
      ghost var before := stats';
      var found, t := RunModel(stats'[m.name], f, df, d, m, requireTarget, predict);
      AllFitNext(f, models, j, requireTarget);
      if !found {
        return false, stats';
      }
      stats' := stats'[m.name := t];
      DayStatsNext(stats, before, stats', df, d, models, j, requireTarget, predict);
      j := j + 1;
    }
    assert models[..j] == models;
    ok := true;
  }

  /** The report loop. */
  method Summarize(stats: map<string, Tally>, models: seq<ModelConfig>) returns (rep: seq<ReportRow>)
    requires forall m :: m in models ==> m.name in stats && Consistent(stats[m.name])
    ensures |rep| == |models|
    ensures forall i :: 0 <= i < |models| ==> rep[i] == ReportRowOf(models[i].name, stats[models[i].name])
  {
    rep := [];
    var j := 0;
    while j < |models|
      invariant 0 <= j <= |models| && |rep| == j
      invariant forall i :: 0 <= i < j ==> rep[i] == ReportRowOf(models[i].name, stats[models[i].name])
    {
      var m := models[j];
      var s := stats[m.name];
      var totalWinPct: real := if s.games > 0 then (s.correct as real) / (s.games as real) else 0.0;
      var betWinPct: real := if s.bets > 0 then (s.won as real) / (s.bets as real) else 0.0;
      var roi: real := if s.bets > 0 then betWinPct * 0.9 - (1.0 - betWinPct) else 0.0;
      rep := rep + [ReportRow(m.name, s.games, totalWinPct, s.bets, betWinPct, roi)];
      j := j + 1;
    }
  }

  lemma NameTallyNext(rows: seq<PreparedRow>, dates: seq<string>, i: nat, models: seq<ModelConfig>, name: string,
                       requireTarget: bool, predict: Predictor)
    requires i < |dates|
    ensures NameTally(rows, dates[..i + 1], models, name, requireTarget, predict)
         == Plus(NameTally(rows, dates[..i], models, name, requireTarget, predict),
                 DayFor(rows, dates[i], models, name, requireTarget, predict))
  {
    assert dates[..i + 1][..i] == dates[..i];
  }

  /** One pass of the date loop: a date without games is skipped before any `dropna`. */
  method RunOneDate(stats: map<string, Tally>, f: Frame, df: seq<PreparedRow>, d: string, models: seq<ModelConfig>,
                    requireTarget: bool, predict: Predictor)
    returns (ok: bool, stats': map<string, Tally>)
    requires forall m :: m in models ==> m.name in stats
    ensures ok <==> Today(df, d) == [] || AllFit(f, models, requireTarget)
    ensures ok ==> stats'.Keys == stats.Keys
    ensures ok ==> forall n :: n in stats ==> stats'[n] == Plus(stats[n], DayFor(df, d, models, n, requireTarget, predict))
  {
    var todaysGames := Today(df, d);
    if todaysGames == [] {
      forall n | n in stats ensures DayFor(df, d, models, n, requireTarget, predict) == NoGames {
        EmptySlateAddsNothing(df, d, models, n, requireTarget, predict);
      }
      return true, stats;
    }
    ok, stats' := RunDate(stats, f, df, d, models, requireTarget, predict);
  }

  /** The date loop over dates that all have games; `ok` is false when the first of them raises. */
  method RunDates(f: Frame, df: seq<PreparedRow>, uniqueDates: seq<string>, models: seq<ModelConfig>,
                  requireTarget: bool, predict: Predictor)
    returns (ok: bool, stats: map<string, Tally>)
    requires forall k :: 0 <= k < |uniqueDates| ==> Today(df, uniqueDates[k]) != []
    ensures ok <==> uniqueDates == [] || AllFit(f, models, requireTarget)
    ensures ok ==> stats.Keys == InitialStats(models).Keys
    ensures ok ==> forall n :: n in stats ==> stats[n] == NameTally(df, uniqueDates, models, n, requireTarget, predict)
  {
    stats := InitialStats(models);
    var i := 0;
    while i < |uniqueDates|
      invariant 0 <= i <= |uniqueDates| && stats.Keys == InitialStats(models).Keys
      invariant forall n :: n in stats ==> stats[n] == NameTally(df, uniqueDates[..i], models, n, requireTarget, predict)
      invariant i > 0 ==> AllFit(f, models, requireTarget)
    {
      var dayOk, next := RunOneDate(stats, f, df, uniqueDates[i], models, requireTarget, predict);
      if !dayOk {
        return false, stats;
      }
      stats := next;
      forall n | n in stats
        ensures stats[n] == NameTally(df, uniqueDates[..i + 1], models, n, requireTarget, predict)
      {
        NameTallyNext(df, uniqueDates, i, models, n, requireTarget, predict);
      }
      i := i + 1;
    }
    assert uniqueDates[..i] == uniqueDates;
    ok := true;
  }

  /** A driver run: the empty-frame stop, the walk over the test dates, the KeyError, and the report. */
  method RunSignBacktest(f: Frame, models: seq<ModelConfig>, requireTarget: bool, predict: Predictor)
    returns (o: Outcome)
    ensures o == SignRun(f, models, requireTarget, predict)
  {
    if f.rows == [] {
      return NoData;
    }
    var df := SortBy(f.rows, DateGameKey);
    var uniqueDates := TestDates(df);
    forall k | 0 <= k < |uniqueDates| ensures Today(df, uniqueDates[k]) != [] {
      TestDateHasGames(df, uniqueDates[k]);
    }
    var ok, stats := RunDates(f, df, uniqueDates, models, requireTarget, predict);
    if !ok {
      return MissingColumn;
    }
    assert forall m :: m in models ==> m.name in stats;
    var rep := Summarize(stats, models);
    SummaryIsReport(f.rows, models, requireTarget, predict, stats, rep);
    return Reported(rep);
  }

  lemma SummaryIsReport(rows: seq<PreparedRow>, models: seq<ModelConfig>, requireTarget: bool, predict: Predictor,
                        stats: map<string, Tally>, rep: seq<ReportRow>)
    requires forall i :: 0 <= i < |models| ==> models[i].name in stats && Consistent(stats[models[i].name])
    requires forall n :: n in stats ==> stats[n] == NameTally(Walked(rows), TestDates(Walked(rows)), models, n, requireTarget, predict)
    requires |rep| == |models|
    requires forall i :: 0 <= i < |models| ==> rep[i] == ReportRowOf(models[i].name, stats[models[i].name])
    ensures rep == SignReport(rows, models, requireTarget, predict)
  {
    var expected := SignReport(rows, models, requireTarget, predict);
    forall i | 0 <= i < |models| ensures rep[i] == expected[i] {
    }
  }

  /** A date without games adds nothing to any counter. */
  lemma {:induction false} EmptySlateAddsNothing(rows: seq<PreparedRow>, d: string, models: seq<ModelConfig>, name: string,
                                                 requireTarget: bool, predict: Predictor)
    requires Today(rows, d) == []
    ensures DayFor(rows, d, models, name, requireTarget, predict) == NoGames
    decreases |models|
  {
    if models != [] {
      EmptySlateAddsNothing(rows, d, models[..|models| - 1], name, requireTarget, predict);
      var m := models[|models| - 1];
      assert TestRows(rows, d, m, requireTarget) == [];
    }
  }

  // ---- properties -----------------------------------------------------

  /** Reversing both residuals keeps the verdict. */
  lemma SameSignSymmetric(pred: real, actual: real)
    ensures SameSign(-pred, Some(-actual)) == SameSign(pred, Some(actual))
  {
    assert (-pred) * (-actual) == pred * actual;
  }

  /** A zero prediction or a zero residual is never correct. */
  lemma ZeroIsNeverCorrect(pred: real, actual: Option<real>)
    requires pred == 0.0 || (actual.Some? && actual.value == 0.0)
    ensures !SameSign(pred, actual)
  {
  }

  /**
   * Against the daily backtest's settlement: a bet counts as won exactly
   * when the daily backtest would settle it as won, except at a push
   * (margin equal to the line), which the daily backtest gives to the away
   * side and this scoring gives to nobody.
   */
  lemma AgreesWithSpreadSettlement(row: PreparedRow, pred: real)
    requires IsBet(pred) && Value(row, TargetResidual).Some?
    ensures var line := Value(row, VegasLine).value;
            var settled := BetWon(PickFor(pred), HomeCovered(MarginOf(row), line));
            settled.Some? &&
            (Value(row, TargetResidual).value != 0.0 ==> (SameSign(pred, Value(row, TargetResidual)) <==> settled.value)) &&
            (Value(row, TargetResidual).value == 0.0 ==> !SameSign(pred, Value(row, TargetResidual)) && (settled.value <==> pred < 0.0))
  {
    TargetPlusLine(row);
  }

  /** A row without a known residual counts as a game, never as correct, and never as a won bet. */
  lemma MissingTargetCountsAsMiss(pred: real)
    ensures RowTally(pred, None) == Tally(1, 0, Indicator(IsBet(pred)), 0)
  {
  }

  lemma {:induction false} SlateTallyConcat(train: seq<PreparedRow>, a: seq<PreparedRow>, b: seq<PreparedRow>,
                                            features: seq<Col>, predict: Predictor)
    ensures SlateTally(train, a + b, features, predict)
         == Plus(SlateTally(train, a, features, predict), SlateTally(train, b, features, predict))
    decreases |b|
  {
    if b == [] {
      assert a + b == a;
    } else {
      var init := b[..|b| - 1];
      var last := b[|b| - 1];
      assert (a + b)[..|a + b| - 1] == a + init;
      assert (a + b)[|a + b| - 1] == last;
      var r := RowTally(predict(train, features, last), Value(last, TargetResidual));
      assert SlateTally(train, a + b, features, predict) == Plus(SlateTally(train, a + init, features, predict), r);
      assert SlateTally(train, b, features, predict) == Plus(SlateTally(train, init, features, predict), r);
      SlateTallyConcat(train, a, init, features, predict);
      PlusAssoc(SlateTally(train, a, features, predict), SlateTally(train, init, features, predict), r);
    }
  }

  lemma PlusAssoc(x: Tally, y: Tally, z: Tally)
    ensures Plus(Plus(x, y), z) == Plus(x, Plus(y, z))
  {
  }

  /**
   * When the target is required every game the counters see has a known
   * residual, so a counted game is correct exactly when it is won or is a
   * correct non-bet: none is lost to NaN.
   */
  lemma {:induction false} RequiredTargetAlwaysKnown(rows: seq<PreparedRow>, d: string, m: ModelConfig)
    ensures forall r :: r in TestRows(rows, d, m, true) ==> Value(r, TargetResidual).Some?
  {
    forall r | r in TestRows(rows, d, m, true) ensures Value(r, TargetResidual).Some? {
      assert TargetResidual in FitCols(m, true);
    }
  }

  /** A model's counters on a date see no game dated later: the run never looks ahead. */
  lemma ModelDayNoLookAhead(rows: seq<PreparedRow>, rows': seq<PreparedRow>, d: string, m: ModelConfig,
                            requireTarget: bool, predict: Predictor)
    requires Filter(rows, (r: PreparedRow) => !StrLess(d, r.date))
          == Filter(rows', (r: PreparedRow) => !StrLess(d, r.date))
    ensures ModelDay(rows, d, m, requireTarget, predict) == ModelDay(rows', d, m, requireTarget, predict)
  {
    SplitUsesNoLaterRows(rows, rows', d);
  }
}
