/**
 * The block-combination search (`run_exhaustive_search`): every
 * combination of 8 to 11 of the eleven feature blocks is fitted on the
 * seasons before the test season and bet on the test season, and the
 * combinations are ranked by ROI, then by win percentage.
 */
module ExhaustiveSearch {
  import opened Wrappers
  import opened Sorting
  import opened Schema
  import opened Settlement
  import opened FeatureBlocks
  import opened Combinatorics
  import Frames
  import WalkForward
  import DailyBacktest

  type Predictor = DailyBacktest.Predictor

  /** Python's `round(x, 2)` on a float; its binary rounding is not modelled and is left to the caller. */
  type Rounder = real -> real

  // ---------------------------------------------------------------
  // The cleaned frame and the season split
  // ---------------------------------------------------------------

  const Extras: seq<Col> := [TargetResidual, VegasLine, RealDiff]

  /** `check_cols`: the team columns, every block's columns in dictionary order, then the target, the line and the margin. */
  function CheckCols(): seq<Col> {
    Expand(BlockOrder) + Extras
  }

  /** Every column of every block, and the three settlement columns, are checked for NaN. */
  lemma CheckColsCover(b: Block, c: Col)
    ensures c in BlockFeatures(b) ==> c in CheckCols()
    ensures c in Extras ==> c in CheckCols()
  {
    if c in BlockFeatures(b) {
      assert b in BlockOrder by { assert BlockOrder[BlockIndex(b)] == b; }
      ExpandMembership(BlockOrder, c);
    }
  }

  /** `valid_cols`: the checked columns the frame has. */
  function ValidCols(f: Frame): (vs: seq<Col>)
    ensures forall c :: c in vs <==> c in CheckCols() && HasColumn(f, c)
  {
    Frames.Filter(CheckCols(), (c: Col) => HasColumn(f, c))
  }

  /** `df_clean`: the rows with no NaN in a valid column. */
  function CleanRows(f: Frame): (rs: seq<PreparedRow>)
    ensures forall r :: r in rs <==> r in f.rows && HasAll(r, ValidCols(f))
  {
    WalkForward.DropMissing(f.rows, ValidCols(f))
  }

  predicate InTestSeason(r: PreparedRow) {
    r.season == WalkForward.TestSeason
  }

  predicate NotInTestSeason(r: PreparedRow) {
    r.season != WalkForward.TestSeason
  }

  /** `train_df`: the clean rows of the earlier seasons. */
  function TrainRows(f: Frame): (rs: seq<PreparedRow>)
    ensures forall r :: r in rs <==> r in CleanRows(f) && r.season != WalkForward.TestSeason
  {
    Frames.Filter(CleanRows(f), NotInTestSeason)
  }

  /** `test_df`: the clean rows of the test season. */
  function TestRows(f: Frame): (rs: seq<PreparedRow>)
    ensures forall r :: r in rs <==> r in CleanRows(f) && r.season == WalkForward.TestSeason
  {
    Frames.Filter(CleanRows(f), InTestSeason)
  }

  /** Every clean row is in exactly one of the two sets. */
  lemma SplitPartitions(f: Frame)
    ensures multiset(TrainRows(f)) + multiset(TestRows(f)) == multiset(CleanRows(f))
  {
    Frames.FilterPartition(CleanRows(f), InTestSeason, NotInTestSeason);
  }

  /** A clean row always has its margin, its line and its target, so no comparison below meets a NaN. */
  lemma CleanRowsSettle(f: Frame, r: PreparedRow)
    requires r in CleanRows(f)
    ensures Value(r, RealDiff).Some? && Value(r, VegasLine).Some? && Value(r, TargetResidual).Some?
  {
    assert forall c :: c in Extras ==> c in ValidCols(f) by {
      forall c | c in Extras ensures c in ValidCols(f) {
        CheckColsCover(EloStrength, c);
      }
    }
    assert Present(r, RealDiff) && Present(r, VegasLine) && Present(r, TargetResidual);
  }

  /** The combinations of sizes `lo` up to `hi - 1`, by size. */
  function CombinationsBetween<T>(xs: seq<T>, lo: nat, hi: nat): seq<seq<T>>
    decreases hi
  {
    if hi <= lo then [] else CombinationsBetween(xs, lo, hi - 1) + Combinations(xs, hi - 1)
  }

  /** The combinations of four consecutive sizes, smallest size first. */
  function FourSizes<T>(xs: seq<T>, lo: nat): seq<seq<T>> {
    Combinations(xs, lo) + Combinations(xs, lo + 1) + Combinations(xs, lo + 2) + Combinations(xs, lo + 3)
  }

  /**
   * `all_combinations` over the block names `blocks` (the caller passes
   * `list(FEATURE_BLOCKS.keys())`, that is `BlockOrder`): every combination
   * of 8 blocks, then of 9, 10 and 11.
   */
  function AllCombinations(blocks: seq<Block>): seq<seq<Block>> {
    FourSizes(blocks, 8)
  }

  /** The block names handed to the search: eleven distinct blocks, both injury blocks among them. */
  lemma BlockOrderShape()
    ensures |BlockOrder| == 11 && Unique(BlockOrder)
    ensures InjuryNetRating in BlockOrder && InjuryPie in BlockOrder
  {
  }

  lemma BetweenOne<T>(xs: seq<T>, lo: nat)
    ensures CombinationsBetween(xs, lo, lo + 1) == Combinations(xs, lo)
  {
    assert CombinationsBetween(xs, lo, lo) == [];
    assert [] + Combinations(xs, lo) == Combinations(xs, lo);
  }

  lemma BetweenStep<T>(xs: seq<T>, lo: nat, hi: nat)
    requires lo <= hi
    ensures CombinationsBetween(xs, lo, hi + 1) == CombinationsBetween(xs, lo, hi) + Combinations(xs, hi)
  {
  }

  /** The four sizes the driver extends the list with, one after the other. */
  lemma BetweenFour<T>(xs: seq<T>, lo: nat)
    ensures CombinationsBetween(xs, lo, lo + 4) == FourSizes(xs, lo)
  {
    BetweenOne(xs, lo);
    BetweenStep(xs, lo, lo + 1);
    BetweenStep(xs, lo, lo + 2);
    BetweenStep(xs, lo, lo + 3);
  }

  lemma EightOfEleven<T>(xs: seq<T>)
    requires |xs| == 11
    ensures |Combinations(xs, 8)| == 165
  {
    CombinationsLeavingThree(xs);
  }

  lemma NineOfEleven<T>(xs: seq<T>)
    requires |xs| == 11
    ensures |Combinations(xs, 9)| == 55
  {
    CombinationsLeavingTwo(xs);
  }

  /** With eleven blocks: 165 + 55 + 11 + 1 = 232 combinations. */
  lemma AllCombinationsCount(blocks: seq<Block>)
    requires |blocks| == 11
    ensures |AllCombinations(blocks)| == 232
  {
    EightOfEleven(blocks);
    NineOfEleven(blocks);
    CombinationsLeavingOne(blocks);
    CombinationsOfAll(blocks);
  }

  /** Combinations of different sizes never coincide, so no combination is listed twice. */
  lemma AllCombinationsUnique(blocks: seq<Block>)
    requires Unique(blocks)
    ensures Unique(AllCombinations(blocks))
  {
    var c8, c9, c10, c11 := Combinations(blocks, 8), Combinations(blocks, 9), Combinations(blocks, 10), Combinations(blocks, 11);
    CombinationsUnique(blocks, 8);
    CombinationsUnique(blocks, 9);
    CombinationsUnique(blocks, 10);
    CombinationsUnique(blocks, 11);
    forall c | c in c8 + c9 + c10 + c11 ensures 8 <= |c| <= 11 && (c in c8 <==> |c| == 8) && (c in c9 <==> |c| == 9) && (c in c10 <==> |c| == 10) && (c in c11 <==> |c| == 11) {
      CombinationsMembership(blocks, 8, c);
      CombinationsMembership(blocks, 9, c);
      CombinationsMembership(blocks, 10, c);
      CombinationsMembership(blocks, 11, c);
    }
    UniqueConcat(c8, c9);
    UniqueConcat(c8 + c9, c10);
    UniqueConcat(c8 + c9 + c10, c11);
  }

  /** Four consecutive sizes hold every subsequence whose length is one of them. */
  lemma FourSizesMembership<T>(xs: seq<T>, lo: nat, c: seq<T>)
    ensures c in FourSizes(xs, lo) <==> lo <= |c| <= lo + 3 && IsSubseq(c, xs)
  {
    CombinationsMembership(xs, lo, c);
    CombinationsMembership(xs, lo + 1, c);
    CombinationsMembership(xs, lo + 2, c);
    CombinationsMembership(xs, lo + 3, c);
  }

  /** The list holds every block combination of size 8 to 11 (its blocks in dictionary order), and nothing else. */
  lemma AllCombinationsMembership(blocks: seq<Block>, c: seq<Block>)
    ensures c in AllCombinations(blocks) <==> 8 <= |c| <= 11 && IsSubseq(c, blocks)
  {
    FourSizesMembership(blocks, 8, c);
  }

  /** The loop over `range(8, 12)` that extends the list size by size. */
  method BuildAllCombinations(blocks: seq<Block>) returns (all: seq<seq<Block>>)
    ensures all == AllCombinations(blocks)
  {
    var lo: nat := 8;
    all := [];
    var r := lo;
    while r < lo + 4
      invariant lo <= r <= lo + 4
      invariant all == CombinationsBetween(blocks, lo, r)
    {
      BetweenStep(blocks, lo, r);
      all := all + Combinations(blocks, r);
      r := r + 1;
    }
    BetweenFour(blocks, lo);
  }

  /** With 232 combinations, the checkpoint every 500 never fires. */
  lemma NoCheckpointSave(blocks: seq<Block>, idx: nat)
    requires |blocks| == 11 && idx < |AllCombinations(blocks)|
    ensures (idx + 1) % 500 != 0
  {
    AllCombinationsCount(blocks);
    BelowPeriod(idx + 1, 500);
  }

  lemma BelowPeriod(n: nat, period: nat)
    requires 0 < n < period
    ensures n % period != 0
  {
  }

  // ---------------------------------------------------------------
  // Scoring one combination
  // ---------------------------------------------------------------

  datatype Score = Score(bets: nat, wins: nat)

  /** `home_covered = real_diff > vegas_line`; a NaN on either side compares as false. */
  function Covered(r: PreparedRow): (c: bool)
    ensures c <==> Value(r, RealDiff).Some? && Value(r, VegasLine).Some? &&
                   Value(r, RealDiff).value > Value(r, VegasLine).value
  {
    LineOf(r).Some? && HomeCovered(MarginOf(r), LineOf(r).value)
  }

  /** One test game: a bet unless the pick is a pass, won by a home pick that covered or an away pick that did not. */
  function RowScore(pred: real, r: PreparedRow): (s: Score)
    ensures s.bets == 1 <==> pred > Threshold || pred < -Threshold
    ensures s.bets <= 1 && s.wins <= s.bets
    ensures s.wins == 1 <==> (pred > Threshold && Covered(r)) || (pred < -Threshold && !Covered(r))
  {
    var w := BetWon(PickFor(pred), Covered(r));
    if w.None? then Score(0, 0) else Score(1, if w.value then 1 else 0)
  }

  /** The counters over the test rows, each predicted by the model fitted on `train` with `features`. */
  function Tally(train: seq<PreparedRow>, test: seq<PreparedRow>, features: seq<Col>, predict: Predictor): (s: Score)
    ensures s.wins <= s.bets <= |test|
    decreases |test|
  {
    if test == [] then Score(0, 0)
    else
      var before := Tally(train, test[..|test| - 1], features, predict);
      var here := RowScore(predict(train, features, test[|test| - 1]), test[|test| - 1]);
      Score(before.bets + here.bets, before.wins + here.wins)
  }

  lemma TallyNext(train: seq<PreparedRow>, test: seq<PreparedRow>, features: seq<Col>, predict: Predictor, i: nat)
    requires i < |test|
    ensures var before := Tally(train, test[..i], features, predict);
            var here := RowScore(predict(train, features, test[i]), test[i]);
            Tally(train, test[..i + 1], features, predict) == Score(before.bets + here.bets, before.wins + here.wins)
  {
    assert test[..i + 1][..i] == test[..i];
  }

  /** A model that never clears the threshold places no bet. */
  lemma {:induction false} NoConfidentPickNoBets(train: seq<PreparedRow>, test: seq<PreparedRow>, features: seq<Col>, predict: Predictor)
    requires forall r :: r in test ==> -Threshold <= predict(train, features, r) <= Threshold
    ensures Tally(train, test, features, predict) == Score(0, 0)
    decreases |test|
  {
    if test != [] {
      var init := test[..|test| - 1];
      assert forall r :: r in init ==> r in test;
      NoConfidentPickNoBets(train, init, features, predict);
    }
  }

  /** On a clean row a home pick wins exactly when the target residual is positive, an away pick when it is not. */
  lemma WinIsTargetSide(f: Frame, r: PreparedRow, pred: real)
    requires r in CleanRows(f)
    ensures Value(r, TargetResidual).Some?
    ensures Covered(r) <==> Value(r, TargetResidual).value > 0.0
    ensures pred > Threshold ==> (RowScore(pred, r).wins == 1 <==> Value(r, TargetResidual).value > 0.0)
    ensures pred < -Threshold ==> (RowScore(pred, r).wins == 1 <==> Value(r, TargetResidual).value <= 0.0)
  {
    CleanRowsSettle(f, r);
    TargetPlusLine(r);
  }

  /** The settlement loop over `test_df.iterrows()`. */
  method ScoreCombo(train: seq<PreparedRow>, test: seq<PreparedRow>, features: seq<Col>, predict: Predictor)
    returns (s: Score)
    ensures s == Tally(train, test, features, predict)
  {
    var betsCount := 0;
    var wins := 0;
    var i := 0;
    while i < |test|
      invariant 0 <= i <= |test|
      invariant Score(betsCount, wins) == Tally(train, test[..i], features, predict)
    {
      TallyNext(train, test, features, predict, i);
      var predResidual := predict(train, features, test[i]);
      var pick := PickFor(predResidual);
      if pick != Pass {
        betsCount := betsCount + 1;
        var homeCovered := Covered(test[i]);
        if pick == PickHome && homeCovered {
          wins := wins + 1;
        } else if pick == PickAway && !homeCovered {
          wins := wins + 1;
        }
      }
      i := i + 1;
    }
    assert test[..i] == test;
    s := Score(betsCount, wins);
  }

  // ---------------------------------------------------------------
  // The results table
  // ---------------------------------------------------------------

  /** The dictionary keys of `FEATURE_BLOCKS`. */
  function BlockName(b: Block): string {
    match b
    case EloStrength => "Elo戰力"
    case R40Ratings => "R40_攻防"
    case R5Ratings => "R5_攻防"
    case R20FourFactors => "R20_四因子"
    case R10FourFactors => "R10_四因子"
    case R20Pace => "R20_節奏"
    case R10Pace => "R10_節奏"
    case R5Pace => "R5_節奏"
    case R40Differences => "R40_攻防差值"
    case InjuryNetRating => "傷病_NetRating"
    case InjuryPie => "傷病_PIE"
  }

  /** `" + ".join(combo)`. */
  function ComboName(combo: seq<Block>): string
    decreases |combo|
  {
    if combo == [] then ""
    else if |combo| == 1 then BlockName(combo[0])
    else ComboName(combo[..|combo| - 1]) + " + " + BlockName(combo[|combo| - 1])
  }

  datatype ComboResult = ComboResult(comboId: nat, blocksCount: nat, featureCount: nat, comboName: string,
                                     betsCount: nat, winPct: real, roi: real)

  /** The row recorded for the combination at position `idx`; percentages are scaled by 100 before rounding. */
  function ResultFor(idx: nat, combo: seq<Block>, s: Score, round: Rounder): (res: ComboResult)
    requires s.wins <= s.bets
    ensures res.comboId == idx + 1 && res.blocksCount == |combo|
    ensures res.featureCount == |BaseFeatures| + SizeSum(combo)
    ensures res.betsCount == s.bets && res.comboName == ComboName(combo)
    ensures res.winPct == round(100.0 * WinPct(s.wins, s.bets)) && res.roi == round(100.0 * Roi(s.wins, s.bets))
  {
    ComboResult(idx + 1, |combo|, |Expand(combo)|, ComboName(combo), s.bets,
                round(WinPct(s.wins, s.bets) * 100.0), round(Roi(s.wins, s.bets) * 100.0))
  }

  /** The scan of the combinations: the results so far, or the first combination naming a column the frame lacks. */
  datatype Scan = Done(results: seq<ComboResult>) | Failed(combo: seq<Block>)

  function ScanCombos(f: Frame, combos: seq<seq<Block>>, predict: Predictor, round: Rounder): (sc: Scan)
    ensures sc.Done? ==> |sc.results| == |combos|
    ensures sc.Done? ==> forall k :: 0 <= k < |combos| ==> sc.results[k].comboId == k + 1
    decreases |combos|
  {
    if combos == [] then Done([])
    else
      var idx := |combos| - 1;
      var before := ScanCombos(f, combos[..idx], predict, round);
      var combo := combos[idx];
      if before.Failed? then before
      else if !WalkForward.HasColumns(f, Expand(combo)) then Failed(combo)
      else
        var s := Tally(TrainRows(f), TestRows(f), Expand(combo), predict);
        Done(before.results + [ResultFor(idx, combo, s, round)])
  }

  /** The descending sort on `['ROI', 'Win_Pct']`. */
  function RankKey(res: ComboResult): Key {
    [Num(-res.roi), Num(-res.winPct)]
  }

  datatype SearchOutcome =
    | NoData
    | MissingColumn(combo: seq<Block>)
    | Ranked(table: seq<ComboResult>)
    | NameError(name: string)

  /**
   * The search with `results` and `start_time` defined: nothing without
   * data, a KeyError at the first combination using a column the frame
   * lacks, otherwise the table ranked by ROI and then win percentage.
   */
  function Search(f: Frame, blocks: seq<Block>, predict: Predictor, round: Rounder): (o: SearchOutcome)
    ensures o.NoData? <==> f.rows == []
    ensures !o.NameError?
  {
    if f.rows == [] then NoData
    else
      match ScanCombos(f, AllCombinations(blocks), predict, round)
      case Failed(c) => MissingColumn(c)
      case Done(rs) => Ranked(SortBy(rs, RankKey))
  }

  /**
   * The search as written: `results` is never bound.  The first
   * combination's `train_df[current_features]` raises a KeyError when the
   * frame lacks one of its columns; otherwise that combination is scored
   * and `results.append` raises a NameError (as does the final
   * `pd.DataFrame(results)` when there is no combination at all).
   */
  function SearchAsWritten(f: Frame, blocks: seq<Block>): (o: SearchOutcome)
    ensures o.NoData? <==> f.rows == []
    ensures !o.Ranked?
    ensures o.MissingColumn? ==>
              AllCombinations(blocks) != [] && o.combo == AllCombinations(blocks)[0] &&
              !WalkForward.HasColumns(f, Expand(o.combo))
  {
    if f.rows == [] then NoData
    else
      var combos := AllCombinations(blocks);
      if combos != [] && !WalkForward.HasColumns(f, Expand(combos[0])) then MissingColumn(combos[0])
      else NameError("results")
  }

  lemma KeyOrder(a: ComboResult, b: ComboResult)
    ensures !KeyLess(RankKey(b), RankKey(a)) <==> a.roi > b.roi || (a.roi == b.roi && a.winPct >= b.winPct)
  {
    var ka, kb := RankKey(a), RankKey(b);
    assert ka[1..] == [Num(-a.winPct)] && kb[1..] == [Num(-b.winPct)];
    assert ka[1..][1..] == [] && kb[1..][1..] == [];
    assert !KeyLess(kb[1..][1..], ka[1..][1..]);
    assert KeyLess(kb[1..], ka[1..]) <==> a.winPct < b.winPct;
    assert KeyLess(kb, ka) <==> a.roi < b.roi || (a.roi == b.roi && a.winPct < b.winPct);
  }

  /** A table sorted by `RankKey` runs from the highest ROI down, ties by win percentage. */
  lemma RankKeySortedDescending(t: seq<ComboResult>)
    requires SortedBy(t, RankKey)
    ensures forall i, j :: 0 <= i < j < |t| ==>
              t[i].roi > t[j].roi || (t[i].roi == t[j].roi && t[i].winPct >= t[j].winPct)
  {
    forall i, j | 0 <= i < j < |t|
      ensures t[i].roi > t[j].roi || (t[i].roi == t[j].roi && t[i].winPct >= t[j].winPct)
    {
      KeyOrder(t[i], t[j]);
    }
  }

  /** The ranked table is the results reordered, from the highest ROI down, ties by win percentage. */
  lemma RankedDescending(f: Frame, blocks: seq<Block>, predict: Predictor, round: Rounder)
    requires Search(f, blocks, predict, round).Ranked?
    ensures ScanCombos(f, AllCombinations(blocks), predict, round).Done?
    ensures var t := Search(f, blocks, predict, round).table;
            forall i, j :: 0 <= i < j < |t| ==>
              t[i].roi > t[j].roi || (t[i].roi == t[j].roi && t[i].winPct >= t[j].winPct)
    ensures multiset(Search(f, blocks, predict, round).table) == multiset(ScanCombos(f, AllCombinations(blocks), predict, round).results)
  {
    var rs := ScanCombos(f, AllCombinations(blocks), predict, round).results;
    RankKeySortedDescending(SortBy(rs, RankKey));
  }

  /** The injury columns the two injury blocks name. */
  const InjuryBlockColumns: set<InjuryFeature> :=
    {MissingR20(NetRating), ActiveRustAdj(NetRating), MissingR20(Pie), ActiveRustAdj(Pie)}

  /** With the injury file merged, every column of every block is in the frame. */
  lemma BlockColumnsPresent(f: Frame, b: Block, c: Col)
    requires InjuryBlockColumns <= f.injuryColumns && c in BlockFeatures(b)
    ensures HasColumn(f, c)
  {
    if c.InjuryDiff? {
      BlockOfIsBlock(b, c);
      assert c.feature in InjuryBlockColumns;
    }
  }

  lemma ExpandHasColumns(f: Frame, combo: seq<Block>)
    requires InjuryBlockColumns <= f.injuryColumns
    ensures WalkForward.HasColumns(f, Expand(combo))
  {
    forall c | c in Expand(combo) ensures HasColumn(f, c) {
      ExpandMembership(combo, c);
      if c !in BaseFeatures {
        var b :| b in combo && c in BlockFeatures(b);
        BlockColumnsPresent(f, b, c);
      }
    }
  }

  lemma {:induction false} ScanSucceeds(f: Frame, combos: seq<seq<Block>>, predict: Predictor, round: Rounder)
    requires InjuryBlockColumns <= f.injuryColumns
    ensures ScanCombos(f, combos, predict, round).Done?
    decreases |combos|
  {
    if combos != [] {
      ScanSucceeds(f, combos[..|combos| - 1], predict, round);
      ExpandHasColumns(f, combos[|combos| - 1]);
    }
  }

  lemma ScanFails(f: Frame, combos: seq<seq<Block>>, predict: Predictor, round: Rounder, k: nat)
    requires k < |combos| && !WalkForward.HasColumns(f, Expand(combos[k]))
    ensures ScanCombos(f, combos, predict, round).Failed?
  {
    var upto := combos[..k + 1];
    assert upto[|upto| - 1] == combos[k];
    ScanFailedLast(f, upto, predict, round);
    ScanFailedPrefix(f, combos, predict, round, k + 1);
  }

  /** A scan whose first `n` combinations already fail stays failed. */
  lemma {:induction false} ScanFailedPrefix(f: Frame, combos: seq<seq<Block>>, predict: Predictor, round: Rounder, n: nat)
    requires 0 < n <= |combos| && ScanCombos(f, combos[..n], predict, round).Failed?
    ensures ScanCombos(f, combos, predict, round).Failed?
    decreases |combos|
  {
    if n < |combos| {
      var init := combos[..|combos| - 1];
      assert init[..n] == combos[..n];
      ScanFailedPrefix(f, init, predict, round, n);
      ScanFailedBefore(f, combos, predict, round);
    } else {
      assert combos[..n] == combos;
    }
  }

  lemma ScanFailedBefore(f: Frame, combos: seq<seq<Block>>, predict: Predictor, round: Rounder)
    requires combos != [] && ScanCombos(f, combos[..|combos| - 1], predict, round).Failed?
    ensures ScanCombos(f, combos, predict, round).Failed?
  {
  }

  /** A last combination lacking a column fails the scan. */
  lemma ScanFailedLast(f: Frame, combos: seq<seq<Block>>, predict: Predictor, round: Rounder)
    requires combos != [] && !WalkForward.HasColumns(f, Expand(combos[|combos| - 1]))
    ensures ScanCombos(f, combos, predict, round).Failed?
  {
  }

  /** With the injury file merged, every one of the 232 combinations gets a row in the ranking. */
  lemma SearchRanksEveryCombination(f: Frame, blocks: seq<Block>, predict: Predictor, round: Rounder)
    requires |blocks| == 11 && f.rows != [] && InjuryBlockColumns <= f.injuryColumns
    ensures Search(f, blocks, predict, round).Ranked? && |Search(f, blocks, predict, round).table| == 232
  {
    ScanSucceeds(f, AllCombinations(blocks), predict, round);
    AllCombinationsCount(blocks);
    var rs := ScanCombos(f, AllCombinations(blocks), predict, round).results;
    assert |multiset(SortBy(rs, RankKey))| == |multiset(rs)|;
  }

  /** The injury block that names a given injury column. */
  function InjuryBlockOf(x: InjuryFeature): (b: Block)
    requires x in InjuryBlockColumns
    ensures InjuryDiff(x) in BlockFeatures(b)
  {
    if x.pm == NetRating then InjuryNetRating else InjuryPie
  }

  /** The combination of all the blocks names every injury column of the two injury blocks. */
  lemma FullComboNeedsInjuryColumn(f: Frame, blocks: seq<Block>, x: InjuryFeature)
    requires InjuryNetRating in blocks && InjuryPie in blocks
    requires x in InjuryBlockColumns && x !in f.injuryColumns
    ensures !WalkForward.HasColumns(f, Expand(blocks))
  {
    var b := InjuryBlockOf(x);
    ExpandMembership(blocks, InjuryDiff(x));
    assert !HasColumn(f, InjuryDiff(x));
  }

  lemma FullComboListed(blocks: seq<Block>)
    requires |blocks| == 11
    ensures blocks in AllCombinations(blocks)
  {
    AllCombinationsMembership(blocks, blocks);
    SubseqOfItself(blocks);
  }

  /** Without an injury column of a block, the combination of all eleven blocks raises a KeyError. */
  lemma SearchNeedsInjuryColumns(f: Frame, blocks: seq<Block>, predict: Predictor, round: Rounder, x: InjuryFeature)
    requires |blocks| == 11 && InjuryNetRating in blocks && InjuryPie in blocks
    requires f.rows != [] && x in InjuryBlockColumns && x !in f.injuryColumns
    ensures Search(f, blocks, predict, round).MissingColumn?
  {
    FullComboListed(blocks);
    FullComboNeedsInjuryColumn(f, blocks, x);
    var k :| 0 <= k < |AllCombinations(blocks)| && AllCombinations(blocks)[k] == blocks;
    ScanFails(f, AllCombinations(blocks), predict, round, k);
  }

  lemma {:induction false} SubseqOfItself<T>(xs: seq<T>)
    ensures IsSubseq(xs, xs)
    decreases |xs|
  {
    if xs != [] {
      SubseqOfItself(xs[1..]);
    }
  }

  /** A scan whose first combination lacks a column fails on that combination. */
  lemma {:induction false} ScanFailsFirst(f: Frame, combos: seq<seq<Block>>, predict: Predictor, round: Rounder)
    requires combos != [] && !WalkForward.HasColumns(f, Expand(combos[0]))
    ensures ScanCombos(f, combos, predict, round) == Failed(combos[0])
    decreases |combos|
  {
    var idx := |combos| - 1;
    if idx > 0 {
      assert combos[..idx][0] == combos[0];
      ScanFailsFirst(f, combos[..idx], predict, round);
    } else {
      assert combos[..idx] == [];
    }
  }

  /** Where the search as written stops on a KeyError, the intended search stops on the same one. */
  lemma AsWrittenKeyErrorAsIntended(f: Frame, blocks: seq<Block>, predict: Predictor, round: Rounder)
    ensures SearchAsWritten(f, blocks).MissingColumn? ==> SearchAsWritten(f, blocks) == Search(f, blocks, predict, round)
  {
    if SearchAsWritten(f, blocks).MissingColumn? {
      ScanFailsFirst(f, AllCombinations(blocks), predict, round);
    }
  }

  /** The first combination tried is the first eight blocks. */
  lemma FirstComboTried(blocks: seq<Block>)
    requires |blocks| >= 8
    ensures AllCombinations(blocks) != [] && AllCombinations(blocks)[0] == blocks[..8]
  {
    FirstCombination(blocks, 8);
    var c8 := Combinations(blocks, 8);
    assert AllCombinations(blocks) == c8 + (Combinations(blocks, 9) + Combinations(blocks, 10) + Combinations(blocks, 11));
  }

  /** Without the two injury blocks a combination names no injury column, so every frame has its columns. */
  lemma NoInjuryBlockHasColumns(f: Frame, combo: seq<Block>)
    requires InjuryNetRating !in combo && InjuryPie !in combo
    ensures WalkForward.HasColumns(f, Expand(combo))
  {
    forall c | c in Expand(combo) ensures HasColumn(f, c) {
      ExpandMembership(combo, c);
      if c !in BaseFeatures {
        var b :| b in combo && c in BlockFeatures(b);
        BlockOfIsBlock(b, c);
      }
    }
  }

  /** The first eight blocks are not injury blocks, so every frame has their columns. */
  lemma FirstComboHasColumns(f: Frame)
    ensures WalkForward.HasColumns(f, Expand(BlockOrder[..8]))
  {
    NoInjuryBlockHasColumns(f, BlockOrder[..8]);
  }

  /** As written, a non-empty frame with the first combination's columns reaches the append and its NameError. */
  lemma AsWrittenReachesAppend(f: Frame, blocks: seq<Block>)
    requires f.rows != [] && |blocks| >= 8 && WalkForward.HasColumns(f, Expand(blocks[..8]))
    ensures SearchAsWritten(f, blocks) == NameError("results")
  {
    FirstComboTried(blocks);
  }

  /**
   * As written, every non-empty frame ends in a NameError: the first
   * combination needs no injury column, so its scoring always reaches the
   * append.  With the injury file merged, the intended search ranks it.
   */
  lemma AsWrittenNeverRanks(f: Frame, predict: Predictor, round: Rounder)
    requires f.rows != []
    ensures SearchAsWritten(f, BlockOrder) == NameError("results")
    ensures InjuryBlockColumns <= f.injuryColumns ==> Search(f, BlockOrder, predict, round).Ranked?
  {
    BlockOrderShape();
    FirstComboHasColumns(f);
    AsWrittenReachesAppend(f, BlockOrder);
    if InjuryBlockColumns <= f.injuryColumns {
      SearchRanksEveryCombination(f, BlockOrder, predict, round);
    }
  }

  // ---------------------------------------------------------------
  // The driver
  // ---------------------------------------------------------------

  lemma ScanNext(f: Frame, combos: seq<seq<Block>>, predict: Predictor, round: Rounder, idx: nat)
    requires idx < |combos|
    ensures var before := ScanCombos(f, combos[..idx], predict, round);
            ScanCombos(f, combos[..idx + 1], predict, round) ==
              if before.Failed? then before
              else if !WalkForward.HasColumns(f, Expand(combos[idx])) then Failed(combos[idx])
              else Done(before.results + [ResultFor(idx, combos[idx], Tally(TrainRows(f), TestRows(f), Expand(combos[idx]), predict), round)])
  {
    assert combos[..idx + 1][..idx] == combos[..idx];
  }

  method HasColumnsCheck(f: Frame, cols: seq<Col>) returns (ok: bool)
    ensures ok == WalkForward.HasColumns(f, cols)
  {
    ok := true;
    var i := 0;
    while i < |cols|
      invariant 0 <= i <= |cols|
      invariant ok == forall k :: 0 <= k < i ==> HasColumn(f, cols[k])
    {
      ok := ok && HasColumn(f, cols[i]);
      i := i + 1;
    }
  }

  /** The loop over the combinations: expand, check the columns, score, record. */
  method ScanLoop(f: Frame, combos: seq<seq<Block>>, predict: Predictor, round: Rounder) returns (sc: Scan)
    ensures sc == ScanCombos(f, combos, predict, round)
  {
    var train := TrainRows(f);
    var test := TestRows(f);
    var results: seq<ComboResult> := [];
    var idx := 0;
    while idx < |combos|
      invariant 0 <= idx <= |combos|
      invariant ScanCombos(f, combos[..idx], predict, round) == Done(results)
    {
      ScanNext(f, combos, predict, round, idx);
      var features := ExpandBlocks(combos[idx]);
      var ok := HasColumnsCheck(f, features);
      if !ok {
        ScanFailedStays(f, combos, predict, round, idx + 1);
        return Failed(combos[idx]);
      }
      var s := ScoreCombo(train, test, features, predict);
      results := results + [ResultFor(idx, combos[idx], s, round)];
      idx := idx + 1;
    }
    assert combos[..idx] == combos;
    sc := Done(results);
  }

  /** `run_exhaustive_search` with `results` and `start_time` bound before use. */
  method RunExhaustiveSearch(f: Frame, blocks: seq<Block>, predict: Predictor, round: Rounder) returns (o: SearchOutcome)
    ensures o == Search(f, blocks, predict, round)
  {
    if f.rows == [] {
      return NoData;
    }
    var combos := BuildAllCombinations(blocks);
    var sc := ScanLoop(f, combos, predict, round);
    match sc
    case Failed(c) => o := MissingColumn(c);
    case Done(results) => o := Ranked(SortBy(results, RankKey));
  }

  /** Once the scan has failed, later combinations do not change the outcome. */
  lemma {:induction false} ScanFailedStays(f: Frame, combos: seq<seq<Block>>, predict: Predictor, round: Rounder, n: nat)
    requires n <= |combos| && ScanCombos(f, combos[..n], predict, round).Failed?
    ensures ScanCombos(f, combos, predict, round) == ScanCombos(f, combos[..n], predict, round)
    decreases |combos| - n
  {
    if n < |combos| {
      ScanNext(f, combos, predict, round, n);
      ScanFailedStays(f, combos, predict, round, n + 1);
    } else {
      assert combos[..n] == combos;
    }
  }
}
