/**
 * The eleven feature blocks of the block-search experiments and their
 * expansion into a feature list: the two team columns, then each chosen
 * block's columns in the order the blocks are listed.
 */
module FeatureBlocks {
  import opened Wrappers
  import opened Schema

  datatype Block =
    | EloStrength       // "Elo戰力"
    | R40Ratings        // "R40_攻防"
    | R5Ratings         // "R5_攻防"
    | R20FourFactors    // "R20_四因子"
    | R10FourFactors    // "R10_四因子"
    | R20Pace           // "R20_節奏"
    | R10Pace           // "R10_節奏"
    | R5Pace            // "R5_節奏"
    | R40Differences    // "R40_攻防差值"
    | InjuryNetRating   // "傷病_NetRating"
    | InjuryPie         // "傷病_PIE"

  /** The blocks in the order of the dictionary literal (`list(FEATURE_BLOCKS.keys())`). */
  const BlockOrder: seq<Block> := [EloStrength, R40Ratings, R5Ratings, R20FourFactors, R10FourFactors,
                                   R20Pace, R10Pace, R5Pace, R40Differences, InjuryNetRating, InjuryPie]

  /** The position of a block in `FEATURE_BLOCKS`. */
  function BlockIndex(b: Block): (n: nat)
    ensures n < |BlockOrder| && BlockOrder[n] == b
  {
    match b
    case EloStrength => 0
    case R40Ratings => 1
    case R5Ratings => 2
    case R20FourFactors => 3
    case R10FourFactors => 4
    case R20Pace => 5
    case R10Pace => 6
    case R5Pace => 7
    case R40Differences => 8
    case InjuryNetRating => 9
    case InjuryPie => 10
  }

  /** `BASE_FEATURES`. */
  const BaseFeatures: seq<Col> := [HomeTeamCol, AwayTeamCol]

  function Ratings(w: nat): seq<Col> {
    [HomeR(w, OffRating), HomeR(w, DefRating), AwayR(w, OffRating), AwayR(w, DefRating)]
  }

  function FourFactors(w: nat): seq<Col> {
    [HomeR(w, FtaRate), AwayR(w, FtaRate), HomeR(w, TovPct), AwayR(w, TovPct), HomeR(w, OrebPct), AwayR(w, OrebPct)]
  }

  function PacePair(w: nat): seq<Col> {
    [HomeR(w, Pace), AwayR(w, Pace)]
  }

  function Injury(pm: PlayerMetric): seq<Col> {
    [InjuryDiff(MissingR20(pm)), InjuryDiff(ActiveRustAdj(pm))]
  }

  /** `FEATURE_BLOCKS[b]`. */
  function BlockFeatures(b: Block): seq<Col> {
    match b
    case EloStrength => [EloCol(Home), EloCol(Away), EloDiff]
    case R40Ratings => Ratings(40)
    case R5Ratings => Ratings(5)
    case R20FourFactors => FourFactors(20)
    case R10FourFactors => FourFactors(10)
    case R20Pace => PacePair(20)
    case R10Pace => PacePair(10)
    case R5Pace => PacePair(5)
    case R40Differences => [RollingDiff(40, OffDef), RollingDiff(40, DefOff), RollingDiff(40, PaceDiff)]
    case InjuryNetRating => Injury(NetRating)
    case InjuryPie => Injury(Pie)
  }

  /** The block a column belongs to, if any: no column is in two blocks. */
  function BlockOf(c: Col): (b: Option<Block>)
    ensures b.Some? ==> c in BlockFeatures(b.value)
  {
    match c
    case EloCol(side) =>
      assert c == if side == Home then EloCol(Home) else EloCol(Away);
      Some(EloStrength)
    case EloDiff => Some(EloStrength)
    case RollingCol(side, w, m) =>
      assert c == if side == Home then HomeR(w, m) else AwayR(w, m);
      if m.OffRating? || m.DefRating? then
        (if w == 40 then Some(R40Ratings) else if w == 5 then Some(R5Ratings) else None)
      else if m.Pace? then
        (if w == 20 then Some(R20Pace) else if w == 10 then Some(R10Pace) else if w == 5 then Some(R5Pace) else None)
      else
        (if w == 20 then Some(R20FourFactors) else if w == 10 then Some(R10FourFactors) else None)
    case RollingDiff(w, k) =>
      assert c == if k == OffDef then RollingDiff(w, OffDef) else if k == DefOff then RollingDiff(w, DefOff) else RollingDiff(w, PaceDiff);
      if w == 40 then Some(R40Differences) else None
    case InjuryDiff(f) =>
      assert c == InjuryDiff(f);
      if f.MissingR50? then None
      else if f.pm == NetRating then Some(InjuryNetRating)
      else if f.pm == Pie then Some(InjuryPie)
      else None
    case _ => None
  }

  /** Every column of a block is attributed to that block, and the team columns to none. */
  lemma BlockOfIsBlock(b: Block, c: Col)
    requires c in BlockFeatures(b)
    ensures BlockOf(c) == Some(b)
  {
  }

  /** The sizes of the eleven blocks: 3, 4, 4, 6, 6, 2, 2, 2, 3, 2, 2. */
  function BlockSize(b: Block): (n: nat)
    ensures n == |BlockFeatures(b)|
  {
    match b
    case EloStrength => 3
    case R40Ratings => 4
    case R5Ratings => 4
    case R20FourFactors => 6
    case R10FourFactors => 6
    case R20Pace => 2
    case R10Pace => 2
    case R5Pace => 2
    case R40Differences => 3
    case InjuryNetRating => 2
    case InjuryPie => 2
  }

  function SizeSum(blocks: seq<Block>): nat
    decreases |blocks|
  {
    if blocks == [] then 0 else SizeSum(blocks[..|blocks| - 1]) + BlockSize(blocks[|blocks| - 1])
  }

  /** The feature list of a block combination: the team columns, then each block's columns in turn. */
  function Expand(blocks: seq<Block>): (feats: seq<Col>)
    ensures |feats| == |BaseFeatures| + SizeSum(blocks)
    ensures feats[..2] == BaseFeatures
    decreases |blocks|
  {
    if blocks == [] then BaseFeatures
    else Expand(blocks[..|blocks| - 1]) + BlockFeatures(blocks[|blocks| - 1])
  }

  /** The `feats.extend(FEATURE_BLOCKS[b])` loop. */
  method ExpandBlocks(blocks: seq<Block>) returns (feats: seq<Col>)
    ensures feats == Expand(blocks)
  {
    feats := BaseFeatures;
    var k := 0;
    while k < |blocks|
      invariant 0 <= k <= |blocks|
      invariant feats == Expand(blocks[..k])
    {
      assert blocks[..k + 1][..k] == blocks[..k];
      feats := feats + BlockFeatures(blocks[k]);
      k := k + 1;
    }
    assert blocks[..k] == blocks;
  }

  predicate Unique<T(==)>(s: seq<T>) {
    forall i, j :: 0 <= i < j < |s| ==> s[i] != s[j]
  }

  /** A column of an expansion is a team column or a column of one of the listed blocks. */
  lemma {:induction false} ExpandMembership(blocks: seq<Block>, c: Col)
    ensures c in Expand(blocks) <==> c in BaseFeatures || exists b :: b in blocks && c in BlockFeatures(b)
    decreases |blocks|
  {
    if blocks != [] {
      var init := blocks[..|blocks| - 1];
      var last := blocks[|blocks| - 1];
      ExpandMembership(init, c);
      assert blocks == init + [last];
      if c in BlockFeatures(last) {
        assert last in blocks;
      }
      if exists b :: b in blocks && c in BlockFeatures(b) {
        var b :| b in blocks && c in BlockFeatures(b);
        if b != last {
          assert b in init;
        }
      }
    }
  }

  lemma UniqueConcat<T>(a: seq<T>, b: seq<T>)
    requires Unique(a) && Unique(b)
    requires forall x :: x in a ==> x !in b
    ensures Unique(a + b)
  {
    forall i, j | 0 <= i < j < |a + b| ensures (a + b)[i] != (a + b)[j] {
      if i < |a| && j >= |a| {
        assert (a + b)[i] in a && (a + b)[j] == b[j - |a|];
      }
    }
  }

  lemma BlockFeaturesUnique(b: Block)
    ensures Unique(BlockFeatures(b))
  {
  }

  /** A combination that lists no block twice expands to a list that names no feature twice. */
  lemma {:induction false} ExpandUnique(blocks: seq<Block>)
    requires Unique(blocks)
    ensures Unique(Expand(blocks))
    decreases |blocks|
  {
    if blocks != [] {
      var init := blocks[..|blocks| - 1];
      var last := blocks[|blocks| - 1];
      assert Unique(init);
      ExpandUnique(init);
      BlockFeaturesUnique(last);
      forall c | c in Expand(init) ensures c !in BlockFeatures(last) {
        ExpandMembership(init, c);
        if c in BlockFeatures(last) {
          BlockOfIsBlock(last, c);
          if c !in BaseFeatures {
            var b :| b in init && c in BlockFeatures(b);
            BlockOfIsBlock(b, c);
          }
        }
      }
      UniqueConcat(Expand(init), BlockFeatures(last));
    }
  }
}
