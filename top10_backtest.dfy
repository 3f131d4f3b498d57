/**
 * The top-10 driver (`run_top10_daily_backtest`): ten block combinations
 * expanded into feature lists, scored by direction on the prepared frame.
 * Only the features must be present; a slate row with no known target is
 * still counted as a game.
 */
module Top10Backtest {
  import opened Wrappers
  import opened Schema
  import opened FeatureBlocks
  import opened SignBacktest
  import DailyBacktest
  import WalkForward

  datatype Combo = Combo(name: string, blocks: seq<Block>)

  /** The entries of `TOP_10_COMBOS`, each in `FEATURE_BLOCKS` order. */
  const Rank7B1 := Combo("7B_Rank1", [R5Ratings, R10FourFactors, R10Pace, R5Pace, InjuryNetRating, InjuryPie])
  const Rank7B2 := Combo("7B_Rank2", [R20FourFactors, R10FourFactors, R10Pace, R5Pace, InjuryNetRating, InjuryPie])
  const Rank7B3 := Combo("7B_Rank3", [EloStrength, R10FourFactors, R10Pace, R5Pace, InjuryPie])
  const Rank7B4 := Combo("7B_Rank4", [R20FourFactors, R5Pace, InjuryNetRating, InjuryPie])
  const Rank7B5 := Combo("7B_Rank5", [EloStrength, R40Ratings, R20FourFactors, R5Pace, InjuryNetRating, InjuryPie])
  const Rank11B1 := Combo("11B_Rank1", [R5Ratings, R20FourFactors, R10FourFactors, R20Pace, R10Pace, R5Pace, InjuryNetRating, InjuryPie])
  const Rank11B2 := Combo("11B_Rank2", [R40Ratings, R5Ratings, R20FourFactors, R10FourFactors, R10Pace, R40Differences, InjuryNetRating, InjuryPie])
  const Rank11B3 := Combo("11B_Rank3", [EloStrength, R40Ratings, R5Ratings, R20FourFactors, R10FourFactors, R5Pace, R40Differences, InjuryNetRating])
  const Rank11B4 := Combo("11B_Rank4", [R40Ratings, R5Ratings, R20FourFactors, R10FourFactors, R10Pace, R5Pace, R40Differences, InjuryNetRating, InjuryPie])
  const Rank11B5 := Combo("11B_Rank5", [EloStrength, R40Ratings, R5Ratings, R20FourFactors, R20Pace, R5Pace, R40Differences, InjuryNetRating, InjuryPie])

  /** `TOP_10_COMBOS`. */
  function TopTenCombos(): seq<Combo> {
    [Rank7B1, Rank7B2, Rank7B3, Rank7B4, Rank7B5, Rank11B1, Rank11B2, Rank11B3, Rank11B4, Rank11B5]
  }

  function ComboModel(c: Combo): (m: ModelConfig)
    ensures m.name == c.name && m.features == Expand(c.blocks)
  {
    DailyBacktest.ModelConfig(c.name, Expand(c.blocks))
  }

  function TopTenModels(): (ms: seq<ModelConfig>)
    ensures |ms| == |TopTenCombos()|
    ensures forall i :: 0 <= i < |ms| ==> ms[i] == ComboModel(TopTenCombos()[i])
  {
    var cs := TopTenCombos();
    seq(|cs|, i requires 0 <= i < |cs| => ComboModel(cs[i]))
  }

  /** The loop that turns every combination's blocks into its `Features`. */
  method BuildModels(combos: seq<Combo>) returns (ms: seq<ModelConfig>)
    ensures |ms| == |combos|
    ensures forall i :: 0 <= i < |combos| ==> ms[i] == ComboModel(combos[i])
  {
    ms := [];
    var i := 0;
    while i < |combos|
      invariant 0 <= i <= |combos| && |ms| == i
      invariant forall k :: 0 <= k < i ==> ms[k] == ComboModel(combos[k])
    {
      var feats := ExpandBlocks(combos[i].blocks);
      ms := ms + [DailyBacktest.ModelConfig(combos[i].name, feats)];
      i := i + 1;
    }
  }

  /** The run: stop on an empty frame, otherwise score the ten combinations without requiring the target. */
  function Top10Run(f: Frame, predict: Predictor): (o: Outcome)
    ensures f.rows == [] <==> o == NoData
    ensures o == MissingColumn <==>
              (exists r :: r in f.rows && r.season == WalkForward.TestSeason) && !AllFit(f, TopTenModels(), false)
    ensures o.Reported? ==> o.report == SignReport(f.rows, TopTenModels(), false, predict)
  {
    SignRun(f, TopTenModels(), false, predict)
  }

  method RunTop10DailyBacktest(f: Frame, predict: Predictor) returns (o: Outcome)
    ensures o == Top10Run(f, predict)
  {
    var models := BuildModels(TopTenCombos());
    assert models == TopTenModels();
    o := RunSignBacktest(f, models, false, predict);
  }

  /** From position `i` on, the blocks come in `FEATURE_BLOCKS` order. */
  predicate AscendingFrom(bs: seq<Block>, i: nat)
    decreases |bs| - i
  {
    i + 1 >= |bs| || (BlockIndex(bs[i]) < BlockIndex(bs[i + 1]) && AscendingFrom(bs, i + 1))
  }

  /** A combination lists its blocks in `FEATURE_BLOCKS` order, as `itertools.combinations` produced them. */
  predicate Ascending(bs: seq<Block>) {
    AscendingFrom(bs, 0)
  }

  lemma {:induction false} AscendingSuffix(bs: seq<Block>, i: nat, k: nat)
    requires AscendingFrom(bs, i) && i <= k
    ensures AscendingFrom(bs, k)
    decreases k - i
  {
    if i < k && i + 1 < |bs| {
      AscendingSuffix(bs, i + 1, k);
    }
  }

  lemma {:induction false} AscendingBelow(bs: seq<Block>, i: nat, j: nat)
    requires AscendingFrom(bs, i) && i < j < |bs|
    ensures BlockIndex(bs[i]) < BlockIndex(bs[j])
    decreases j - i
  {
    if j > i + 1 {
      AscendingBelow(bs, i + 1, j);
    }
  }

  lemma AscendingUnique(bs: seq<Block>)
    requires Ascending(bs)
    ensures Unique(bs)
  {
    forall i, j | 0 <= i < j < |bs| ensures bs[i] != bs[j] {
      AscendingSuffix(bs, 0, i);
      AscendingBelow(bs, i, j);
    }
  }

  lemma SevenBlockRanksAscending()
    ensures Ascending(Rank7B1.blocks) && Ascending(Rank7B2.blocks) && Ascending(Rank7B3.blocks)
    ensures Ascending(Rank7B4.blocks) && Ascending(Rank7B5.blocks)
  {
  }

  lemma ElevenBlockRanksAscendingFirst()
    ensures Ascending(Rank11B1.blocks) && Ascending(Rank11B2.blocks)
  {
  }

  lemma ElevenBlockRanksAscendingLast()
    ensures Ascending(Rank11B3.blocks) && Ascending(Rank11B4.blocks) && Ascending(Rank11B5.blocks)
  {
  }

  /** A combination that lists its blocks in order names no feature twice. */
  lemma ComboFeaturesUnique(c: Combo)
    requires Ascending(c.blocks)
    ensures Unique(ComboModel(c).features)
  {
    AscendingUnique(c.blocks);
    ExpandUnique(c.blocks);
  }

  /** No combination of `TOP_10_COMBOS` lists a block twice, so no feature list names a column twice. */
  lemma TopTenFeaturesUnique()
    ensures Unique(ComboModel(Rank7B1).features)
    ensures Unique(ComboModel(Rank7B2).features)
    ensures Unique(ComboModel(Rank7B3).features)
    ensures Unique(ComboModel(Rank7B4).features)
    ensures Unique(ComboModel(Rank7B5).features)
    ensures Unique(ComboModel(Rank11B1).features)
    ensures Unique(ComboModel(Rank11B2).features)
    ensures Unique(ComboModel(Rank11B3).features)
    ensures Unique(ComboModel(Rank11B4).features)
    ensures Unique(ComboModel(Rank11B5).features)
  {
    SevenBlockRanksAscending();
    ElevenBlockRanksAscendingFirst();
    ElevenBlockRanksAscendingLast();
    ComboFeaturesUnique(Rank7B1);
    ComboFeaturesUnique(Rank7B2);
    ComboFeaturesUnique(Rank7B3);
    ComboFeaturesUnique(Rank7B4);
    ComboFeaturesUnique(Rank7B5);
    ComboFeaturesUnique(Rank11B1);
    ComboFeaturesUnique(Rank11B2);
    ComboFeaturesUnique(Rank11B3);
    ComboFeaturesUnique(Rank11B4);
    ComboFeaturesUnique(Rank11B5);
  }

  /** Without the injury file the first test date raises a KeyError: the first combination lists the net-rating block. */
  lemma Top10NeedsInjuryFile(f: Frame, predict: Predictor)
    requires MissingR20(NetRating) !in f.injuryColumns
    requires exists r :: r in f.rows && r.season == WalkForward.TestSeason
    ensures Top10Run(f, predict) == MissingColumn
  {
    var m := ComboModel(Rank7B1);
    FirstComboListed();
    FirstComboNeedsNetRating();
    SignRunMissingColumn(f, TopTenModels(), false, predict, m, MissingR20(NetRating));
  }

  lemma FirstComboListed()
    ensures ComboModel(Rank7B1) in TopTenModels()
  {
    assert TopTenModels()[0] == ComboModel(Rank7B1);
  }

  lemma FirstComboNeedsNetRating()
    ensures InjuryDiff(MissingR20(NetRating)) in ComboModel(Rank7B1).features
  {
    ExpandMembership(Rank7B1.blocks, InjuryDiff(MissingR20(NetRating)));
    assert InjuryDiff(MissingR20(NetRating)) in BlockFeatures(InjuryNetRating);
  }
}
