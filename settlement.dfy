/**
 * Betting rules shared by the backtests: the ±0.5 confidence threshold on
 * the predicted residual, the spread cover rule, and the win percentage and
 * ROI at odds paying 0.9 per unit staked.
 */
module Settlement {
  import opened Wrappers

  const Threshold: real := 0.5
  const Payout: real := 0.9

  datatype Pick = PickHome | PickAway | Pass

  /** `Home` above the threshold, `Away` below its negation, `Pass` in between (both bounds included). */
  function PickFor(pred: real): (p: Pick)
    ensures p == PickHome <==> pred > Threshold
    ensures p == PickAway <==> pred < -Threshold
    ensures p == Pass <==> -Threshold <= pred <= Threshold
  {
    if pred > Threshold then PickHome
    else if pred < -Threshold then PickAway
    else Pass
  }

  /**
   * `real_diff > vegas_line`.  A missing margin (an unplayed game) compares
   * as false, like NaN.
   */
  function HomeCovered(realDiff: Option<real>, line: real): (c: bool)
    ensures c <==> realDiff.Some? && realDiff.value > line
  {
    realDiff.Some? && realDiff.value > line
  }

  /** `Bet_Won`: 1/0 for a home or away pick, nothing for a pass. */
  function BetWon(pick: Pick, covered: bool): (w: Option<bool>)
    ensures w.None? <==> pick == Pass
    ensures pick == PickHome ==> w == Some(covered)
    ensures pick == PickAway ==> w == Some(!covered)
  {
    match pick
    case PickHome => Some(covered)
    case PickAway => Some(!covered)
    case Pass => None
  }

  /** A push (margin equal to the line) and an unplayed game both settle for the away side. */
  lemma PushAndUnplayedGoAway(line: real)
    ensures BetWon(PickAway, HomeCovered(Some(line), line)) == Some(true)
    ensures BetWon(PickHome, HomeCovered(Some(line), line)) == Some(false)
    ensures BetWon(PickAway, HomeCovered(None, line)) == Some(true)
    ensures BetWon(PickHome, HomeCovered(None, line)) == Some(false)
  {
  }

  /** wins / bets, or 0 without bets. */
  function WinPct(wins: nat, bets: nat): (wp: real)
    requires wins <= bets
    ensures 0.0 <= wp <= 1.0
    ensures bets == 0 ==> wp == 0.0
    ensures bets > 0 ==> wp * (bets as real) == wins as real
  {
    if bets > 0 then (wins as real) / (bets as real) else 0.0
  }

  /** `win_pct * 0.9 - (1 - win_pct)`, or 0 without bets. */
  function Roi(wins: nat, bets: nat): (roi: real)
    requires wins <= bets
  {
    if bets > 0 then WinPct(wins, bets) * Payout - (1.0 - WinPct(wins, bets)) else 0.0
  }

  /**
   * The ROI is 0 without bets and otherwise between -1 (every bet lost) and
   * 0.9 (every bet won); it is 1.9 times the win percentage, minus 1.
   */
  lemma RoiBounds(wins: nat, bets: nat)
    requires wins <= bets
    ensures -1.0 <= Roi(wins, bets) <= Payout
    ensures bets == 0 ==> Roi(wins, bets) == 0.0
    ensures bets > 0 ==> Roi(wins, bets) == (1.0 + Payout) * WinPct(wins, bets) - 1.0
    ensures bets > 0 && wins == bets ==> Roi(wins, bets) == Payout
    ensures bets > 0 && wins == 0 ==> Roi(wins, bets) == -1.0
  {
  }

  /** With the same number of bets, more wins never lower the ROI. */
  lemma RoiMonotone(w1: nat, w2: nat, bets: nat)
    requires w1 <= w2 <= bets
    ensures Roi(w1, bets) <= Roi(w2, bets)
  {
    if bets > 0 {
      DivMonotone(w1 as real, w2 as real, bets as real);
    }
  }

  lemma DivMonotone(x: real, y: real, b: real)
    requires x <= y && b > 0.0
    ensures x / b <= y / b
  {
    assert y / b - x / b == (y - x) / b;
    assert (y - x) / b >= 0.0;
  }
}
