/**
 * The walk-forward protocol shared by every backtest: the sorted distinct
 * dates of the test season, and for each date `d` the history (rows dated
 * strictly before `d`, compared as strings) and today's slate (rows dated
 * `d`), each cut down to the rows with every column a model needs.
 */
module WalkForward {
  import opened Wrappers
  import opened Order
  import opened Frames
  import opened Schema

  const TestSeason: string := "2025-26"

  function History(rows: seq<PreparedRow>, d: string): (h: seq<PreparedRow>)
    ensures forall r :: r in h <==> r in rows && StrLess(r.date, d)
  {
    Filter(rows, (r: PreparedRow) => StrLess(r.date, d))
  }

  function Today(rows: seq<PreparedRow>, d: string): (t: seq<PreparedRow>)
    ensures forall r :: r in t <==> r in rows && r.date == d
  {
    Filter(rows, (r: PreparedRow) => r.date == d)
  }

  /** `dropna(subset=cols)`. */
  function DropMissing(rows: seq<PreparedRow>, cols: seq<Col>): (kept: seq<PreparedRow>)
    ensures forall r :: r in kept <==> r in rows && HasAll(r, cols)
  {
    Filter(rows, (r: PreparedRow) => HasAll(r, cols))
  }

  /** `sorted(df[df['season'] == TEST_SEASON]['date'].unique())`. */
  function TestDates(rows: seq<PreparedRow>): (ds: seq<string>)
    ensures StrictlyIncreasing(ds)
    ensures forall d :: d in ds <==> exists r :: r in rows && r.season == TestSeason && r.date == d
  {
    var test := Filter(rows, (r: PreparedRow) => r.season == TestSeason);
    var dates := MapSeq(test, (r: PreparedRow) => r.date);
    var ds := SortedDistinct(dates);
    assert forall d :: d in dates <==> exists r :: r in test && r.date == d by {
      forall d | d in dates ensures exists r :: r in test && r.date == d {
        var k :| 0 <= k < |dates| && dates[k] == d;
        assert test[k] in test;
      }
      forall d | exists r :: r in test && r.date == d ensures d in dates {
        var r :| r in test && r.date == d;
        var k :| 0 <= k < |test| && test[k] == r;
        assert dates[k] == d;
      }
    }
    ds
  }

  /** A test date always has a non-empty slate. */
  lemma TestDateHasGames(rows: seq<PreparedRow>, d: string)
    requires d in TestDates(rows)
    ensures Today(rows, d) != []
  {
    var r :| r in rows && r.season == TestSeason && r.date == d;
    assert r in Today(rows, d);
  }

  /** Every history row is strictly earlier than every row of the slate; the two never share a row. */
  lemma HistoryBeforeToday(rows: seq<PreparedRow>, d: string)
    ensures forall h, t :: h in History(rows, d) && t in Today(rows, d) ==> StrLess(h.date, t.date)
    ensures forall r :: !(r in History(rows, d) && r in Today(rows, d))
  {
    forall r | r in History(rows, d) && r in Today(rows, d) ensures false {
      StrLessIrreflexive(d);
    }
  }

  /**
   * No look-ahead: the history and the slate of `d` are determined by the
   * rows dated on or before `d`; a frame that differs only in later rows
   * splits identically.
   */
  lemma SplitUsesNoLaterRows(rows: seq<PreparedRow>, rows': seq<PreparedRow>, d: string)
    requires Filter(rows, (r: PreparedRow) => !StrLess(d, r.date)) == Filter(rows', (r: PreparedRow) => !StrLess(d, r.date))
    ensures History(rows, d) == History(rows', d)
    ensures Today(rows, d) == Today(rows', d)
  {
    var upTo := (r: PreparedRow) => !StrLess(d, r.date);
    forall r: PreparedRow ensures StrLess(r.date, d) ==> upTo(r) {
      if StrLess(r.date, d) { StrLessAsymmetric(r.date, d); }
    }
    forall r: PreparedRow ensures r.date == d ==> upTo(r) {
      if r.date == d { StrLessIrreflexive(d); }
    }
    FilterNarrower(rows, upTo, (r: PreparedRow) => StrLess(r.date, d));
    FilterNarrower(rows', upTo, (r: PreparedRow) => StrLess(r.date, d));
    FilterNarrower(rows, upTo, (r: PreparedRow) => r.date == d);
    FilterNarrower(rows', upTo, (r: PreparedRow) => r.date == d);
  }

  /** The frame has every column of `cols` (otherwise pandas raises a KeyError). */
  predicate HasColumns(f: Frame, cols: seq<Col>) {
    forall c :: c in cols ==> HasColumn(f, c)
  }
}
