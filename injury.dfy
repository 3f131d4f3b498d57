/**
 * The player-availability features (`generate_features`): a rust factor
 * from each player's rest days, trailing r20/r50 means of five player
 * metrics, the rust-adjusted production of every team's active players,
 * the production of its inactive players matched as of the game date, and
 * finally home-minus-away differences of all of these per game.
 *
 * Dates are day numbers (`pd.to_datetime` is not modelled); a missing date
 * is `None`.
 */
module Injury {
  import opened Wrappers
  import opened Frames
  import opened Sorting
  import opened Rolling
  import opened Schema

  /** A column value with NaN read as 0 (`fillna(0)`, and what `sum()` skips). */
  function OrZero<K>(m: map<K, real>, k: K): (v: real)
    ensures k in m ==> v == m[k]
    ensures k !in m ==> v == 0.0
  {
    if k in m then m[k] else 0.0
  }

  // ---------------------------------------------------------------------
  // The rust factor
  // ---------------------------------------------------------------------

  /** `RUST_THRESHOLDS`: (days, factor), checked in this order. */
  const RustThresholds: seq<(int, real)> := [(30, 0.7), (7, 0.8), (0, 1.0)]

  /** The factor of a gap of `gap` days since the previous game: 0.7 beyond 30 days, 0.8 beyond 7, else 1. */
  function RustFactor(gap: Option<int>): (f: real)
    ensures f == 0.7 <==> gap.Some? && gap.value > 30
    ensures f == 0.8 <==> gap.Some? && 7 < gap.value <= 30
    ensures f == 1.0 <==> gap.None? || gap.value <= 7
    ensures 0.0 < f <= 1.0
  {
    if gap.None? then 1.0
    else if gap.value > 30 then 0.7
    else if gap.value > 7 then 0.8
    else 1.0
  }

  /** `get_rust_factor`: the first threshold the gap exceeds gives the factor. */
  method GetRustFactor(gap: Option<int>) returns (f: real)
    ensures f == RustFactor(gap)
  {
    if gap.None? {
      return 1.0;
    }
    assert RustThresholds[0] == (30, 0.7) && RustThresholds[1] == (7, 0.8) && RustThresholds[2] == (0, 1.0);
    var i := 0;
    while i < |RustThresholds|
      invariant 0 <= i <= |RustThresholds|
      invariant forall j :: 0 <= j < i ==> gap.value <= RustThresholds[j].0
    {
      if gap.value > RustThresholds[i].0 {
        return RustThresholds[i].1;
      }
      i := i + 1;
    }
    assert gap.value <= RustThresholds[1].0;
    return 1.0;
  }

  /** A longer rest never gives a larger factor, and every factor is in (0, 1]. */
  lemma RustFactorMonotone(g1: int, g2: int)
    requires g1 <= g2
    ensures 0.0 < RustFactor(Some(g2)) <= RustFactor(Some(g1)) <= 1.0
  {
  }

  // ---------------------------------------------------------------------
  // Player game rows
  // ---------------------------------------------------------------------

  const PlayerMetrics: seq<PlayerMetric> := [Pie, NetRating, UsgPct, PlusMinus, FantasyPts]

  const LongWindow: nat := 20
  const StableWindow: nat := 50

  /** A row of the advanced player box scores. */
  datatype AdvPlayerRow = AdvPlayerRow(gameId: string, teamId: int, playerId: int, day: Option<int>,
                                       minutes: real, pie: real, netRating: real, usgPct: real)

  /** A row of the traditional player box scores. */
  datatype BasePlayerRow = BasePlayerRow(gameId: string, playerId: int, teamId: int, teamAbbr: string,
                                         minutes: real, plusMinus: real, fantasyPts: real)

  /** A row of the merged player stats. */
  datatype StatRow = StatRow(gameId: string, teamId: int, playerId: int, day: Option<int>,
                             pie: real, netRating: real, usgPct: real, plusMinus: real, fantasyPts: real)

  function MetricValue(s: StatRow, m: PlayerMetric): real {
    match m
    case Pie => s.pie
    case NetRating => s.netRating
    case UsgPct => s.usgPct
    case PlusMinus => s.plusMinus
    case FantasyPts => s.fantasyPts
  }

  function MetricColumn(m: PlayerMetric): StatRow -> real {
    (s: StatRow) => MetricValue(s, m)
  }

  function PlayerOf(s: StatRow): int {
    s.playerId
  }

  predicate Played(minutes: real) {
    minutes > 0.0
  }

  predicate SameGamePlayer(a: AdvPlayerRow, b: BasePlayerRow) {
    a.gameId == b.gameId && a.playerId == b.playerId
  }

  function ToStat(a: AdvPlayerRow, b: BasePlayerRow): StatRow {
    StatRow(a.gameId, a.teamId, a.playerId, a.day, a.pie, a.netRating, a.usgPct, b.plusMinus, b.fantasyPts)
  }

  /**
   * Lines 41-53: the rows with minutes played of both tables, merged on
   * (game, player).  Every merged row comes from one such pair, and every
   * such pair yields a row.
   */
  function PlayerStats(adv: seq<AdvPlayerRow>, base: seq<BasePlayerRow>): (stats: seq<StatRow>)
    ensures forall s :: s in stats ==> exists a, b :: a in adv && b in base && Played(a.minutes) && Played(b.minutes) &&
                                                      SameGamePlayer(a, b) && s == ToStat(a, b)
  {
    var activeAdv := Filter(adv, (a: AdvPlayerRow) => Played(a.minutes));
    var activeBase := Filter(base, (b: BasePlayerRow) => Played(b.minutes));
    InnerJoin(activeAdv, activeBase, SameGamePlayer, ToStat)
  }

  lemma PlayerStatsComplete(adv: seq<AdvPlayerRow>, base: seq<BasePlayerRow>, a: AdvPlayerRow, b: BasePlayerRow)
    requires a in adv && b in base && Played(a.minutes) && Played(b.minutes) && SameGamePlayer(a, b)
    ensures ToStat(a, b) in PlayerStats(adv, base)
  {
    var activeAdv := Filter(adv, (a: AdvPlayerRow) => Played(a.minutes));
    var activeBase := Filter(base, (b: BasePlayerRow) => Played(b.minutes));
    InnerJoinComplete(activeAdv, activeBase, SameGamePlayer, ToStat, a, b);
  }

  function DayKey(d: Option<int>): KeyPart {
    if d.Some? then Num(d.value as real) else Missing
  }

  function PlayerDayKey(s: StatRow): Key {
    [Num(s.playerId as real), DayKey(s.day)]
  }

  /** Line 57: sorted by player, then date (a missing date last). */
  function SortedStats(adv: seq<AdvPlayerRow>, base: seq<BasePlayerRow>): (sorted: seq<StatRow>)
    ensures SortedBy(sorted, PlayerDayKey)
    ensures multiset(sorted) == multiset(PlayerStats(adv, base))
  {
    SortBy(PlayerStats(adv, base), PlayerDayKey)
  }

  /** Lines 64-65: days since the same player's previous row; missing at a first row or a missing date. */
  function DaysSinceLast(rows: seq<StatRow>, i: nat): (gap: Option<int>)
    requires i < |rows|
    ensures gap.Some? <==> Previous(rows, i, PlayerOf).Some? && rows[i].day.Some? && Previous(rows, i, PlayerOf).value.day.Some?
    ensures gap.Some? ==> gap.value == rows[i].day.value - Previous(rows, i, PlayerOf).value.day.value
  {
    var prev := Previous(rows, i, PlayerOf);
    if prev.Some? && rows[i].day.Some? && prev.value.day.Some? then Some(rows[i].day.value - prev.value.day.value)
    else None
  }

  /** The trailing mean over a player's earlier rows (min_periods 1), one entry per metric that has one. */
  function TrailingMap(rows: seq<StatRow>, i: nat, w: nat): (r: map<PlayerMetric, real>)
    requires i < |rows| && w >= 1
    ensures forall m :: m in r <==> m in PlayerMetrics && TrailingAt(rows, i, PlayerOf, MetricColumn(m), w, 1).Some?
    ensures forall m :: m in r ==> r[m] == TrailingAt(rows, i, PlayerOf, MetricColumn(m), w, 1).value
  {
    map m | m in PlayerMetrics && TrailingAt(rows, i, PlayerOf, MetricColumn(m), w, 1).Some? ::
      TrailingAt(rows, i, PlayerOf, MetricColumn(m), w, 1).value
  }

  /** A player's row with its rust factor, trailing means and rust-adjusted values. */
  datatype PlayerGame = PlayerGame(stat: StatRow, daysSinceLast: Option<int>, rustFactor: real,
                                   r20: map<PlayerMetric, real>, r50: map<PlayerMetric, real>,
                                   rustAdj: map<PlayerMetric, real>)

  /** Lines 64-90 on the sorted stats; the rust-adjusted columns come later. */
  function PlayerGames(rows: seq<StatRow>): (pgs: seq<PlayerGame>)
    ensures |pgs| == |rows|
    ensures forall i :: 0 <= i < |rows| ==> 0.0 < pgs[i].rustFactor <= 1.0
    ensures forall i :: 0 <= i < |rows| ==>
      pgs[i] == PlayerGame(rows[i], DaysSinceLast(rows, i), RustFactor(DaysSinceLast(rows, i)),
                           TrailingMap(rows, i, LongWindow), TrailingMap(rows, i, StableWindow), map[])
  {
    seq(|rows|, i requires 0 <= i < |rows| =>
      PlayerGame(rows[i], DaysSinceLast(rows, i), RustFactor(DaysSinceLast(rows, i)),
                 TrailingMap(rows, i, LongWindow), TrailingMap(rows, i, StableWindow), map[]))
  }

  /**
   * At a player's `k`-th row the r20 value of a metric exists exactly when
   * `k >= 1`, and is the mean of the player's rows max(0, k - 20) .. k - 1:
   * never this game or a later one.
   */
  lemma R20Window(rows: seq<StatRow>, i: nat, m: PlayerMetric)
    requires i < |rows|
    ensures var g := Filter(rows, SameGroupAs(PlayerOf, rows[i]));
            var k := |GroupPrior(rows, i, PlayerOf)|;
            var lo := if k < LongWindow then 0 else k - LongWindow;
            var r20 := PlayerGames(rows)[i].r20;
            k < |g| && g[k] == rows[i] &&
            (m in r20 <==> k >= 1) &&
            (k >= 1 ==> r20[m] == Mean(MapSeq(g[lo..k], MetricColumn(m))))
  {
    TrailingAtKthRow(rows, i, PlayerOf, MetricColumn(m), LongWindow, 1);
  }

  /** A player's first row has factor 1 and no trailing means. */
  lemma FirstAppearance(rows: seq<StatRow>, i: nat)
    requires i < |rows| && GroupPrior(rows, i, PlayerOf) == []
    ensures PlayerGames(rows)[i].rustFactor == 1.0
    ensures PlayerGames(rows)[i].r20 == map[] && PlayerGames(rows)[i].r50 == map[]
  {
    var pg := PlayerGames(rows)[i];
    forall m | m in PlayerMetrics ensures m !in pg.r20 && m !in pg.r50 {
      TrailingAtKthRow(rows, i, PlayerOf, MetricColumn(m), LongWindow, 1);
      TrailingAtKthRow(rows, i, PlayerOf, MetricColumn(m), StableWindow, 1);
    }
  }

  /** Line 100: the r20 value (0 when missing) times the rust factor. */
  function RustAdjOf(pg: PlayerGame, m: PlayerMetric): real {
    OrZero(pg.r20, m) * pg.rustFactor
  }

  /** The rust-adjusted columns for the metrics `ms`. */
  function AdjOver(pg: PlayerGame, ms: seq<PlayerMetric>): (adj: map<PlayerMetric, real>)
    ensures forall m :: m in adj <==> m in ms
    ensures forall m :: m in adj ==> adj[m] == RustAdjOf(pg, m)
  {
    map m | m in ms :: RustAdjOf(pg, m)
  }

  lemma AdjOverStep(pg: PlayerGame, ms: seq<PlayerMetric>, m: PlayerMetric)
    ensures (pg.rustAdj + AdjOver(pg, ms))[m := RustAdjOf(pg, m)] == pg.rustAdj + AdjOver(pg, ms + [m])
  {
    var lhs := (pg.rustAdj + AdjOver(pg, ms))[m := RustAdjOf(pg, m)];
    var rhs := pg.rustAdj + AdjOver(pg, ms + [m]);
    assert forall k :: k in ms + [m] <==> k in ms || k == m;
    assert lhs.Keys == rhs.Keys;
  }

  /** The row with its rust-adjusted columns set. */
  function WithRustAdj(pg: PlayerGame): PlayerGame {
    pg.(rustAdj := pg.rustAdj + AdjOver(pg, PlayerMetrics))
  }

  /** Lines 97-100: one new column per metric. */
  method AddRustAdj(pgs: seq<PlayerGame>) returns (out: seq<PlayerGame>)
    ensures |out| == |pgs|
    ensures forall i :: 0 <= i < |pgs| ==> out[i] == WithRustAdj(pgs[i])
  {
    out := pgs;
    var j := 0;
    while j < |PlayerMetrics|
      invariant 0 <= j <= |PlayerMetrics| && |out| == |pgs|
      invariant forall i :: 0 <= i < |pgs| ==> out[i] == pgs[i].(rustAdj := pgs[i].rustAdj + AdjOver(pgs[i], PlayerMetrics[..j]))
    {
      var m := PlayerMetrics[j];
      var next := seq(|out|, i requires 0 <= i < |out| => out[i].(rustAdj := out[i].rustAdj[m := RustAdjOf(out[i], m)]));
      AddRustAdjStep(pgs, PlayerMetrics, j, out, next);
      out := next;
      j := j + 1;
    }
    assert PlayerMetrics[..j] == PlayerMetrics;
  }

  /** One pass of the column loop sets metric `ms[j]` on every row. */
  lemma AddRustAdjStep(pgs: seq<PlayerGame>, ms: seq<PlayerMetric>, j: nat, out: seq<PlayerGame>, next: seq<PlayerGame>)
    requires j < |ms| && |out| == |pgs| == |next|
    requires forall i :: 0 <= i < |pgs| ==> out[i] == pgs[i].(rustAdj := pgs[i].rustAdj + AdjOver(pgs[i], ms[..j]))
    requires forall i :: 0 <= i < |pgs| ==> next[i] == out[i].(rustAdj := out[i].rustAdj[ms[j] := RustAdjOf(out[i], ms[j])])
    ensures forall i :: 0 <= i < |pgs| ==> next[i] == pgs[i].(rustAdj := pgs[i].rustAdj + AdjOver(pgs[i], ms[..j + 1]))
  {
    assert ms[..j + 1] == ms[..j] + [ms[j]];
    forall i | 0 <= i < |pgs|
      ensures next[i] == pgs[i].(rustAdj := pgs[i].rustAdj + AdjOver(pgs[i], ms[..j + 1]))
    {
      assert RustAdjOf(out[i], ms[j]) == RustAdjOf(pgs[i], ms[j]);
      AdjOverStep(pgs[i], ms[..j], ms[j]);
    }
  }

  /**
   * A rust-adjusted value is 0 without an r20 value and, since every rust
   * factor lies in (0, 1], never exceeds the r20 value in size.
   */
  lemma RustAdjBounded(pg: PlayerGame, m: PlayerMetric)
    requires 0.0 < pg.rustFactor <= 1.0
    ensures m !in pg.r20 ==> RustAdjOf(pg, m) == 0.0
    ensures m in pg.r20 && pg.r20[m] >= 0.0 ==> 0.0 <= RustAdjOf(pg, m) <= pg.r20[m]
    ensures m in pg.r20 && pg.r20[m] < 0.0 ==> pg.r20[m] <= RustAdjOf(pg, m) <= 0.0
  {
    if m in pg.r20 {
      var v := pg.r20[m];
      if v >= 0.0 {
        assert v * pg.rustFactor <= v * 1.0;
      } else {
        assert v * 1.0 <= v * pg.rustFactor;
      }
    }
  }

  // ---------------------------------------------------------------------
  // Active roster production
  // ---------------------------------------------------------------------

  datatype TeamGame = TeamGame(gameId: string, teamId: int)

  function TeamGameOf(pg: PlayerGame): TeamGame {
    TeamGame(pg.stat.gameId, pg.stat.teamId)
  }

  function InTeamGame(k: TeamGame): PlayerGame -> bool {
    (pg: PlayerGame) => TeamGameOf(pg) == k
  }

  function AdjColumn(m: PlayerMetric): PlayerGame -> real {
    (pg: PlayerGame) => OrZero(pg.rustAdj, m)
  }

  function Sums<R>(rows: seq<R>, column: PlayerMetric -> (R -> real)): (s: map<PlayerMetric, real>)
    ensures forall m :: m in s <==> m in PlayerMetrics
    ensures forall m :: m in s ==> s[m] == Sum(MapSeq(rows, column(m)))
  {
    map m | m in PlayerMetrics :: Sum(MapSeq(rows, column(m)))
  }

  datatype GroupRow = GroupRow(key: TeamGame, sums: map<PlayerMetric, real>)

  /** Lines 104-109: one row per (game, team) with the sums of its players' rust-adjusted values. */
  function ActiveTable(pgs: seq<PlayerGame>): (t: seq<GroupRow>)
    ensures |t| <= |pgs|
    ensures forall i, j :: 0 <= i < j < |t| ==> t[i].key != t[j].key
    ensures forall pg :: pg in pgs ==> exists i :: 0 <= i < |t| && t[i].key == TeamGameOf(pg)
    ensures forall i :: 0 <= i < |t| ==> exists pg :: pg in pgs && TeamGameOf(pg) == t[i].key
    ensures forall i :: 0 <= i < |t| ==> t[i].sums == Sums(Filter(pgs, InTeamGame(t[i].key)), AdjColumn)
  {
    var keys := Distinct(MapSeq(pgs, TeamGameOf));
    var t := MapSeq(keys, (k: TeamGame) => GroupRowOf(pgs, k));
    ActiveTableFacts(pgs, keys, t);
    t
  }

  /** The row of one (game, team): the sums of its players' rust-adjusted values. */
  function GroupRowOf(pgs: seq<PlayerGame>, k: TeamGame): (row: GroupRow)
    ensures row.key == k
    ensures row.sums == Sums(Filter(pgs, InTeamGame(k)), AdjColumn)
  {
    GroupRow(k, Sums(Filter(pgs, InTeamGame(k)), AdjColumn))
  }

  lemma {:induction false} ActiveTableFacts(pgs: seq<PlayerGame>, keys: seq<TeamGame>, t: seq<GroupRow>)
    requires keys == Distinct(MapSeq(pgs, TeamGameOf))
    requires |t| == |keys|
    requires forall i :: 0 <= i < |t| ==> t[i] == GroupRowOf(pgs, keys[i])
    ensures |t| <= |pgs|
    ensures forall i, j :: 0 <= i < j < |t| ==> t[i].key != t[j].key
    ensures forall pg :: pg in pgs ==> exists i :: 0 <= i < |t| && t[i].key == TeamGameOf(pg)
    ensures forall i :: 0 <= i < |t| ==> exists pg :: pg in pgs && TeamGameOf(pg) == t[i].key
    ensures forall i :: 0 <= i < |t| ==> t[i].sums == Sums(Filter(pgs, InTeamGame(t[i].key)), AdjColumn)
  {
    assert forall i :: 0 <= i < |t| ==> t[i].key == keys[i];
    DistinctShorter(MapSeq(pgs, TeamGameOf));
    DistinctKeysFromRows(pgs, TeamGameOf, keys);
    forall pg | pg in pgs ensures exists i :: 0 <= i < |t| && t[i].key == TeamGameOf(pg) {
      var k :| 0 <= k < |pgs| && pgs[k] == pg;
      assert MapSeq(pgs, TeamGameOf)[k] == TeamGameOf(pg);
      assert TeamGameOf(pg) in keys;
      var i :| 0 <= i < |keys| && keys[i] == TeamGameOf(pg);
      assert t[i].key == TeamGameOf(pg);
    }
  }

  lemma {:induction false} DistinctShorter<T(!new)>(s: seq<T>)
    ensures |Distinct(s)| <= |s|
    decreases |s|
  {
    if s != [] {
      DistinctShorter(s[..|s| - 1]);
    }
  }

  // ---------------------------------------------------------------------
  // Inactive players, matched as of the game date
  // ---------------------------------------------------------------------

  datatype InactiveRow = InactiveRow(gameId: string, teamId: int, playerId: int)

  /** A row of the games table as this script reads it. */
  datatype GameRow = GameRow(gameId: string, homeTeam: string, awayTeam: string, day: Option<int>)

  datatype DatedInactive = DatedInactive(row: InactiveRow, day: int)

  function DayOf(pg: PlayerGame): int
    requires pg.stat.day.Some?
  {
    pg.stat.day.value
  }

  function LookupKey(pg: PlayerGame): Key {
    [DayKey(pg.stat.day)]
  }

  /** Lines 117-119: the rows with a date, sorted by date. */
  function LookupTable(pgs: seq<PlayerGame>): (t: seq<PlayerGame>)
    ensures SortedBy(t, LookupKey)
    ensures forall pg :: pg in t <==> pg in pgs && pg.stat.day.Some?
  {
    var dated := Filter(pgs, (pg: PlayerGame) => pg.stat.day.Some?);
    var t := SortBy(dated, LookupKey);
    assert forall pg :: pg in t <==> pg in dated by {
      forall pg ensures pg in t <==> pg in dated {
        assert pg in t <==> pg in multiset(t);
      }
    }
    t
  }

  function InactiveKey(x: DatedInactive): Key {
    [Num(x.day as real)]
  }

  /** The merge key of line 137: the record's game id is the game row's. */
  predicate SameGameId(x: InactiveRow, g: GameRow) {
    x.gameId == g.gameId
  }

  /** A merged record: the inactive row with its game row's `GAME_DATE`, missing without a partner. */
  function WithGameDate(x: InactiveRow, mg: Option<GameRow>): (InactiveRow, Option<int>) {
    (x, if mg.Some? then mg.value.day else None)
  }

  function ToDated(p: (InactiveRow, Option<int>)): DatedInactive {
    DatedInactive(p.0, if p.1.Some? then p.1.value else 0)
  }

  /** The game rows of game `id` dated `d`. */
  function GamesOn(games: seq<GameRow>, id: string, d: int): seq<GameRow> {
    Filter(games, (g: GameRow) => g.gameId == id && g.day == Some(d))
  }

  /** Lines 137-141 before sorting: the left merge on the game id, then `dropna(subset=['GAME_DATE'])`. */
  function DatedUnsorted(inactive: seq<InactiveRow>, games: seq<GameRow>): seq<DatedInactive> {
    var withDate := LeftJoin(inactive, games, SameGameId, WithGameDate);
    MapSeq(Filter(withDate, (p: (InactiveRow, Option<int>)) => p.1.Some?), ToDated)
  }

  /**
   * Lines 137-145: each inactive record once per game row of its game, a
   * record whose game row has no date (or which has no game row) dropped,
   * sorted by date.
   */
  function DatedInactives(inactive: seq<InactiveRow>, games: seq<GameRow>): (ds: seq<DatedInactive>)
    ensures SortedBy(ds, InactiveKey)
    ensures forall x, d :: multiset(ds)[DatedInactive(x, d)] == multiset(inactive)[x] * |GamesOn(games, x.gameId, d)|
    ensures forall x, g :: x in inactive && g in games && g.gameId == x.gameId && g.day.Some? ==>
              DatedInactive(x, g.day.value) in ds
    ensures forall x :: x in ds ==> x.row in inactive && exists g :: g in games && g.gameId == x.row.gameId && g.day == Some(x.day)
  {
    var sorted := SortBy(DatedUnsorted(inactive, games), InactiveKey);
    DatedInactivesFacts(inactive, games, sorted);
    sorted
  }

  /** The counts, completeness and provenance of the sorted records. */
  lemma DatedInactivesFacts(inactive: seq<InactiveRow>, games: seq<GameRow>, sorted: seq<DatedInactive>)
    requires multiset(sorted) == multiset(DatedUnsorted(inactive, games))
    ensures forall x, d :: multiset(sorted)[DatedInactive(x, d)] == multiset(inactive)[x] * |GamesOn(games, x.gameId, d)|
    ensures forall x, g :: x in inactive && g in games && g.gameId == x.gameId && g.day.Some? ==>
              DatedInactive(x, g.day.value) in sorted
    ensures forall x :: x in sorted ==> x.row in inactive && exists g :: g in games && g.gameId == x.row.gameId && g.day == Some(x.day)
  {
    var ds := DatedUnsorted(inactive, games);
    forall x, d ensures multiset(sorted)[DatedInactive(x, d)] == multiset(inactive)[x] * |GamesOn(games, x.gameId, d)| {
      DatedCount(inactive, games, x, d);
    }
    forall x, g | x in inactive && g in games && g.gameId == x.gameId && g.day.Some?
      ensures DatedInactive(x, g.day.value) in sorted
    {
      DatedKept(inactive, games, x, g);
      assert DatedInactive(x, g.day.value) in multiset(ds);
    }
    forall y | y in sorted
      ensures y.row in inactive && exists g :: g in games && g.gameId == y.row.gameId && g.day == Some(y.day)
    {
      assert y in multiset(sorted);
      DatedFrom(inactive, games, y);
    }
  }

  /** The merged records `(x, Some(d))` of one inactive row `l`. */
  lemma JoinRowCount(l: InactiveRow, games: seq<GameRow>, x: InactiveRow, d: int)
    ensures multiset(JoinRow(l, games, SameGameId, WithGameDate))[(x, Some(d))] ==
            if l == x then |GamesOn(games, x.gameId, d)| else 0
  {
    var ms := Matches(l, games, SameGameId);
    var jr := JoinRow(l, games, SameGameId, WithGameDate);
    var id := l.gameId;
    var q := (g: GameRow) => g.gameId == id && g.day == Some(d);
    assert GamesOn(ms, id, d) == Filter(ms, q);
    MatchesNarrower(l, games, SameGameId, q);
    if ms != [] {
      assert jr == MapSeq(ms, r => WithGameDate(l, Some(r)));
      forall i | 0 <= i < |ms| ensures jr[i] == (l, ms[i].day) {
        assert jr[i] == WithGameDate(l, Some(ms[i]));
      }
      PairedCount(l, ms, jr, x, d);
    } else {
      assert jr == [(l, None)];
    }
  }

  /** Row `l` merged with partners `ms` of its game: `(x, Some(d))` once per partner dated `d`. */
  lemma {:induction false} PairedCount(l: InactiveRow, ms: seq<GameRow>, out: seq<(InactiveRow, Option<int>)>,
                                       x: InactiveRow, d: int)
    requires forall g :: g in ms ==> g.gameId == l.gameId
    requires |out| == |ms| && forall i :: 0 <= i < |ms| ==> out[i] == (l, ms[i].day)
    ensures multiset(out)[(x, Some(d))] == if l == x then |GamesOn(ms, l.gameId, d)| else 0
    decreases |ms|
  {
    if ms != [] {
      assert out == [out[0]] + out[1..];
      assert ms[0] in ms;
      PairedCount(l, ms[1..], out[1..], x, d);
    }
  }

  /** Line 137: the merge pairs every occurrence of `x` with each row of its game dated `d`. */
  lemma {:induction false} LeftJoinCount(left: seq<InactiveRow>, games: seq<GameRow>, x: InactiveRow, d: int)
    ensures multiset(LeftJoin(left, games, SameGameId, WithGameDate))[(x, Some(d))] ==
            multiset(left)[x] * |GamesOn(games, x.gameId, d)|
    decreases |left|
  {
    if left != [] {
      var n := |GamesOn(games, x.gameId, d)|;
      var here := multiset(JoinRow(left[0], games, SameGameId, WithGameDate))[(x, Some(d))];
      var rest := multiset(LeftJoin(left[1..], games, SameGameId, WithGameDate))[(x, Some(d))];
      LeftJoinHeadCount(left, games, (x, Some(d)));
      LeftJoinCount(left[1..], games, x, d);
      JoinRowCount(left[0], games, x, d);
      HeadCount(left, x);
      CountStep(left[0] == x, multiset(left[1..])[x], n);
      assert here == (if left[0] == x then n else 0);
      assert rest == multiset(left[1..])[x] * n;
    }
  }

  /** The merge's count of a record splits into the first row's part and the rest's. */
  lemma LeftJoinHeadCount(left: seq<InactiveRow>, games: seq<GameRow>, p: (InactiveRow, Option<int>))
    requires left != []
    ensures multiset(LeftJoin(left, games, SameGameId, WithGameDate))[p] ==
            multiset(JoinRow(left[0], games, SameGameId, WithGameDate))[p] +
            multiset(LeftJoin(left[1..], games, SameGameId, WithGameDate))[p]
  {
    var here := JoinRow(left[0], games, SameGameId, WithGameDate);
    var rest := LeftJoin(left[1..], games, SameGameId, WithGameDate);
    assert LeftJoin(left, games, SameGameId, WithGameDate) == here + rest;
  }

  /** One more occurrence adds one more set of partners. */
  lemma CountStep(b: bool, m: nat, n: nat)
    ensures ((if b then 1 else 0) + m) * n == (if b then n else 0) + m * n
  {
  }

  /** Dropping the undated records keeps a dated pair's every occurrence. */
  lemma DatedPairCount(withDate: seq<(InactiveRow, Option<int>)>, x: InactiveRow, d: int)
    ensures multiset(MapSeq(Filter(withDate, (p: (InactiveRow, Option<int>)) => p.1.Some?), ToDated))[DatedInactive(x, d)] ==
            multiset(withDate)[(x, Some(d))]
  {
    var has := (p: (InactiveRow, Option<int>)) => p.1.Some?;
    var dated := Filter(withDate, has);
    var p := (x, Some(d));
    forall y | y in dated && ToDated(y) == ToDated(p) ensures y == p {
      assert y.1.Some?;
    }
    MapSeqCountInjective(dated, ToDated, p);
    FilterCount(withDate, has, p);
  }

  /** The unsorted records hold `DatedInactive(x, d)` once per occurrence of `x` and game row dated `d`. */
  lemma DatedCount(inactive: seq<InactiveRow>, games: seq<GameRow>, x: InactiveRow, d: int)
    ensures multiset(DatedUnsorted(inactive, games))[DatedInactive(x, d)] == multiset(inactive)[x] * |GamesOn(games, x.gameId, d)|
  {
    DatedPairCount(LeftJoin(inactive, games, SameGameId, WithGameDate), x, d);
    LeftJoinCount(inactive, games, x, d);
  }

  /** Every record of an inactive player meets every dated game row of its game. */
  lemma DatedKept(inactive: seq<InactiveRow>, games: seq<GameRow>, x: InactiveRow, g: GameRow)
    requires x in inactive && g in games && g.gameId == x.gameId && g.day.Some?
    ensures DatedInactive(x, g.day.value) in DatedUnsorted(inactive, games)
  {
    DatedCount(inactive, games, x, g.day.value);
    assert g in GamesOn(games, x.gameId, g.day.value);
    var m, n := multiset(inactive)[x], |GamesOn(games, x.gameId, g.day.value)|;
    assert m >= 1 && n >= 1;
    assert m * n >= 1;
  }

  /** Every record comes from an inactive row and a game row of its game with its date. */
  lemma DatedFrom(inactive: seq<InactiveRow>, games: seq<GameRow>, y: DatedInactive)
    requires y in DatedUnsorted(inactive, games)
    ensures y.row in inactive && exists g :: g in games && g.gameId == y.row.gameId && g.day == Some(y.day)
  {
    DatedCount(inactive, games, y.row, y.day);
    var on := GamesOn(games, y.row.gameId, y.day);
    assert multiset(inactive)[y.row] * |on| > 0;
    assert on != [];
    assert on[0] in on;
  }

  /** The lookup rows `merge_asof` may pair with `x`: the same player, dated on or before the game. */
  predicate Candidate(x: DatedInactive, pg: PlayerGame) {
    pg.stat.playerId == x.row.playerId && pg.stat.day.Some? && pg.stat.day.value <= x.day
  }

  /** Lines 148-154: the last candidate in lookup order (`direction='backward'`). */
  function AsOf(x: DatedInactive, lookup: seq<PlayerGame>): (m: Option<PlayerGame>)
    ensures m.None? <==> forall pg :: pg in lookup ==> !Candidate(x, pg)
    ensures m.Some? ==> m.value in lookup && Candidate(x, m.value)
  {
    var cands := Filter(lookup, (pg: PlayerGame) => Candidate(x, pg));
    if cands == [] then
      FilterEmptyNoneSelected(lookup, (pg: PlayerGame) => Candidate(x, pg));
      None
    else
      assert cands[|cands| - 1] in cands;
      Some(cands[|cands| - 1])
  }

  lemma FilterEmptyNoneSelected<T(!new)>(s: seq<T>, p: T -> bool)
    requires Filter(s, p) == []
    ensures forall x :: x in s ==> !p(x)
  {
  }

  lemma {:induction false} FilterKeepsSorted<T(!new)>(s: seq<T>, p: T -> bool, key: T -> Key)
    requires SortedBy(s, key)
    ensures SortedBy(Filter(s, p), key)
    decreases |s|
  {
    if s != [] {
      FilterKeepsSorted(s[1..], p, key);
      if p(s[0]) {
        var t := Filter(s[1..], p);
        forall i, j | 0 <= i < j < |[s[0]] + t| ensures !KeyLess(key(([s[0]] + t)[j]), key(([s[0]] + t)[i])) {
          if i == 0 {
            var y := t[j - 1];
            assert y in s[1..];
            var k :| 0 <= k < |s[1..]| && s[1..][k] == y;
            assert s[k + 1] == y;
          }
        }
      }
    }
  }

  /**
   * In a lookup table sorted by date, the as-of match is a latest
   * candidate: no candidate is dated after it.
   */
  lemma AsOfIsLatest(x: DatedInactive, lookup: seq<PlayerGame>, pg: PlayerGame)
    requires SortedBy(lookup, LookupKey)
    requires pg in lookup && Candidate(x, pg)
    ensures AsOf(x, lookup).Some?
    ensures pg.stat.day.value <= AsOf(x, lookup).value.stat.day.value <= x.day
  {
    var isCand := (q: PlayerGame) => Candidate(x, q);
    var cands := Filter(lookup, isCand);
    assert pg in cands;
    FilterKeepsSorted(lookup, isCand, LookupKey);
    var last := cands[|cands| - 1];
    var k :| 0 <= k < |cands| && cands[k] == pg;
    if k < |cands| - 1 {
      assert !KeyLess(LookupKey(last), LookupKey(pg));
    }
  }

  /** The r20 and r50 values an inactive record contributes: its match's, 0 where missing or unmatched. */
  function MissingValue(lookup: seq<PlayerGame>, long: bool): PlayerMetric -> (DatedInactive -> real) {
    (m: PlayerMetric) => (x: DatedInactive) =>
      var pm := AsOf(x, lookup);
      if pm.None? then 0.0 else OrZero(if long then pm.value.r20 else pm.value.r50, m)
  }

  function InactiveTeamGame(x: DatedInactive): TeamGame {
    TeamGame(x.row.gameId, x.row.teamId)
  }

  function InInactiveGroup(k: TeamGame): DatedInactive -> bool {
    (x: DatedInactive) => InactiveTeamGame(x) == k
  }

  datatype MissingRow = MissingRow(key: TeamGame, r20: map<PlayerMetric, real>, r50: map<PlayerMetric, real>)

  /** The summed r20 and r50 values of the inactive players of (game, team) `k`. */
  function MissingRowOf(xs: seq<DatedInactive>, lookup: seq<PlayerGame>, k: TeamGame): (row: MissingRow)
    ensures row.key == k
    ensures row.r20 == Sums(Filter(xs, InInactiveGroup(k)), MissingValue(lookup, true))
    ensures row.r50 == Sums(Filter(xs, InInactiveGroup(k)), MissingValue(lookup, false))
  {
    var group := Filter(xs, InInactiveGroup(k));
    MissingRow(k, Sums(group, MissingValue(lookup, true)), Sums(group, MissingValue(lookup, false)))
  }

  /** Lines 156-162: one row per (game, team) with the summed r20 and r50 values of its inactive players. */
  function MissingTable(xs: seq<DatedInactive>, lookup: seq<PlayerGame>): (t: seq<MissingRow>)
    ensures forall i, j :: 0 <= i < j < |t| ==> t[i].key != t[j].key
    ensures forall x :: x in xs ==> exists i :: 0 <= i < |t| && t[i].key == InactiveTeamGame(x)
    ensures forall i :: 0 <= i < |t| ==> exists x :: x in xs && InactiveTeamGame(x) == t[i].key
    ensures forall i :: 0 <= i < |t| ==> t[i] == MissingRowOf(xs, lookup, t[i].key)
  {
    var keys := Distinct(MapSeq(xs, InactiveTeamGame));
    var t := MapSeq(keys, (k: TeamGame) => MissingRowOf(xs, lookup, k));
    MissingTableFacts(xs, lookup, keys, t);
    t
  }

  lemma {:induction false} MissingTableFacts(xs: seq<DatedInactive>, lookup: seq<PlayerGame>, keys: seq<TeamGame>, t: seq<MissingRow>)
    requires keys == Distinct(MapSeq(xs, InactiveTeamGame))
    requires |t| == |keys|
    requires forall i :: 0 <= i < |t| ==> t[i] == MissingRowOf(xs, lookup, keys[i])
    ensures forall i, j :: 0 <= i < j < |t| ==> t[i].key != t[j].key
    ensures forall x :: x in xs ==> exists i :: 0 <= i < |t| && t[i].key == InactiveTeamGame(x)
    ensures forall i :: 0 <= i < |t| ==> exists x :: x in xs && InactiveTeamGame(x) == t[i].key
    ensures forall i :: 0 <= i < |t| ==> t[i] == MissingRowOf(xs, lookup, t[i].key)
  {
    assert forall i :: 0 <= i < |t| ==> t[i].key == keys[i];
    DistinctKeysFromRows(xs, InactiveTeamGame, keys);
    forall x | x in xs ensures exists i :: 0 <= i < |t| && t[i].key == InactiveTeamGame(x) {
      var k :| 0 <= k < |xs| && xs[k] == x;
      assert MapSeq(xs, InactiveTeamGame)[k] == InactiveTeamGame(x);
      assert InactiveTeamGame(x) in keys;
      var i :| 0 <= i < |keys| && keys[i] == InactiveTeamGame(x);
      assert t[i].key == InactiveTeamGame(x);
    }
  }

  /** A player with no earlier dated row contributes nothing to the missing production. */
  lemma UnmatchedContributesNothing(lookup: seq<PlayerGame>, x: DatedInactive, m: PlayerMetric)
    requires forall pg :: pg in lookup ==> !Candidate(x, pg)
    ensures MissingValue(lookup, true)(m)(x) == 0.0 && MissingValue(lookup, false)(m)(x) == 0.0
  {
  }

  // ---------------------------------------------------------------------
  // Per-game features and differences
  // ---------------------------------------------------------------------

  datatype TeamName = TeamName(teamId: int, abbr: string)

  /** Line 172: the distinct (team id, abbreviation) pairs of the player box scores. */
  function TeamsMap(base: seq<BasePlayerRow>): (t: seq<TeamName>)
    ensures forall n :: n in t <==> exists b :: b in base && n == TeamName(b.teamId, b.teamAbbr)
  {
    var pairs := MapSeq(base, (b: BasePlayerRow) => TeamName(b.teamId, b.teamAbbr));
    assert forall n :: n in pairs <==> exists b :: b in base && n == TeamName(b.teamId, b.teamAbbr) by {
      forall n | n in pairs ensures exists b :: b in base && n == TeamName(b.teamId, b.teamAbbr) {
        var k :| 0 <= k < |pairs| && pairs[k] == n;
        assert base[k] in base;
      }
      forall n | exists b :: b in base && n == TeamName(b.teamId, b.teamAbbr) ensures n in pairs {
        var b :| b in base && n == TeamName(b.teamId, b.teamAbbr);
        var k :| 0 <= k < |base| && base[k] == b;
        assert pairs[k] == n;
      }
    }
    Distinct(pairs)
  }

  /** A (game, team) row of features under the team's abbreviation, if the team has one. */
  datatype SideRow = SideRow(gameId: string, abbr: Option<string>, values: map<InjuryFeature, real>)

  const ActiveFeatures: seq<InjuryFeature> :=
    [ActiveRustAdj(Pie), ActiveRustAdj(NetRating), ActiveRustAdj(UsgPct), ActiveRustAdj(PlusMinus), ActiveRustAdj(FantasyPts)]

  const MissingFeatures: seq<InjuryFeature> :=
    [MissingR20(Pie), MissingR20(NetRating), MissingR20(UsgPct), MissingR20(PlusMinus), MissingR20(FantasyPts),
     MissingR50(Pie), MissingR50(NetRating), MissingR50(UsgPct), MissingR50(PlusMinus), MissingR50(FantasyPts)]

  /** Line 213: `active_cols + missing_cols`. */
  function BaseFeatures(): seq<InjuryFeature> {
    ActiveFeatures + MissingFeatures
  }

  function AbbrOf(mt: Option<TeamName>): Option<string> {
    if mt.Some? then Some(mt.value.abbr) else None
  }

  /** Line 175: active rows keyed by abbreviation. */
  function ActiveSides(active: seq<GroupRow>, teams: seq<TeamName>): seq<SideRow> {
    LeftJoin(active, teams, (a: GroupRow, t: TeamName) => a.key.teamId == t.teamId,
             (a: GroupRow, mt: Option<TeamName>) =>
               SideRow(a.key.gameId, AbbrOf(mt), map f | f in ActiveFeatures :: OrZero(a.sums, f.pm)))
  }

  /** Line 178: missing rows keyed by abbreviation. */
  function MissingSides(missing: seq<MissingRow>, teams: seq<TeamName>): seq<SideRow> {
    LeftJoin(missing, teams, (x: MissingRow, t: TeamName) => x.key.teamId == t.teamId,
             (x: MissingRow, mt: Option<TeamName>) =>
               SideRow(x.key.gameId, AbbrOf(mt),
                       map f | f in MissingFeatures ::
                         if f.MissingR20? then OrZero(x.r20, f.pm) else OrZero(x.r50, f.pm)))
  }

  /** A game with the features merged in for each side so far. */
  datatype FeatureGame = FeatureGame(game: GameRow, home: map<InjuryFeature, real>, away: map<InjuryFeature, real>)

  function TeamOn(g: GameRow, side: Side): string {
    if side == Home then g.homeTeam else g.awayTeam
  }

  function AddSide(r: FeatureGame, side: Side, ms: Option<SideRow>): (o: FeatureGame)
    ensures o.game == r.game
    ensures ms.None? ==> o == r
    ensures ms.Some? && side == Home ==> o.home == r.home + ms.value.values && o.away == r.away
    ensures ms.Some? && side == Away ==> o.away == r.away + ms.value.values && o.home == r.home
  {
    if ms.None? then r
    else if side == Home then r.(home := r.home + ms.value.values)
    else r.(away := r.away + ms.value.values)
  }

  /** The merge key of one side: the game and the side's team, against the row's game and abbreviation. */
  function SideOn(side: Side): (FeatureGame, SideRow) -> bool {
    (r: FeatureGame, s: SideRow) => s.gameId == r.game.gameId && s.abbr == Some(TeamOn(r.game, side))
  }

  function AddSideOf(side: Side): (FeatureGame, Option<SideRow>) -> FeatureGame {
    (r: FeatureGame, ms: Option<SideRow>) => AddSide(r, side, ms)
  }

  /** No two feature rows share a (game, abbreviation) key. */
  predicate UniqueSides(feats: seq<SideRow>) {
    forall i, j :: 0 <= i < j < |feats| ==> feats[i].gameId != feats[j].gameId || feats[i].abbr != feats[j].abbr
  }

  /** The feature row of game `g`'s team on `side`, if there is one (the first, should there be several). */
  function SideMatch(g: GameRow, feats: seq<SideRow>, side: Side): (ms: Option<SideRow>)
    ensures ms.None? <==> forall s :: s in feats ==> !(s.gameId == g.gameId && s.abbr == Some(TeamOn(g, side)))
    ensures ms.Some? ==> ms.value in feats && ms.value.gameId == g.gameId && ms.value.abbr == Some(TeamOn(g, side))
  {
    Frames.Lookup(FeatureGame(g, map[], map[]), feats, SideOn(side))
  }

  /** The values game `g`'s team on `side` brings from `feats`: none when it has no row. */
  function SideValues(g: GameRow, feats: seq<SideRow>, side: Side): map<InjuryFeature, real> {
    var ms := SideMatch(g, feats, side);
    if ms.Some? then ms.value.values else map[]
  }

  /** The merge partner of a row depends on its game only; with unique keys there is at most one. */
  lemma LookupIsSideMatch(r: FeatureGame, feats: seq<SideRow>, side: Side)
    ensures Frames.Lookup(r, feats, SideOn(side)) == SideMatch(r.game, feats, side)
    ensures UniqueSides(feats) ==> |Matches(r, feats, SideOn(side))| <= 1
  {
    var r0 := FeatureGame(r.game, map[], map[]);
    MatchesSameKey(r, r0, feats, SideOn(side));
    var ms := Matches(r, feats, SideOn(side));
    if UniqueSides(feats) && |ms| > 1 {
      TwoMatches(r, feats, SideOn(side));
    }
  }

  /** With unique keys each game row meets at most one feature row: the left merge is one for one. */
  lemma MergeSideOneToOne(rows: seq<FeatureGame>, feats: seq<SideRow>, side: Side)
    ensures UniqueSides(feats) ==>
              |LeftJoin(rows, feats, SideOn(side), AddSideOf(side))| == |rows| &&
              forall i :: 0 <= i < |rows| ==>
                LeftJoin(rows, feats, SideOn(side), AddSideOf(side))[i] ==
                AddSide(rows[i], side, SideMatch(rows[i].game, feats, side))
  {
    if UniqueSides(feats) {
      forall i | 0 <= i < |rows|
        ensures |Matches(rows[i], feats, SideOn(side))| <= 1
        ensures Frames.Lookup(rows[i], feats, SideOn(side)) == SideMatch(rows[i].game, feats, side)
      {
        LookupIsSideMatch(rows[i], feats, side);
      }
      LeftJoinOneToOne(rows, feats, SideOn(side), AddSideOf(side));
    }
  }

  /**
   * `merge_side_features`: a left merge on (game, the side's team =
   * abbreviation).  When no two feature rows share a key, every game row is
   * kept once, with the side's values added from the feature row of its
   * own game and team, and unchanged when that team has no row.
   */
  function MergeSide(rows: seq<FeatureGame>, feats: seq<SideRow>, side: Side): (out: seq<FeatureGame>)
    ensures |out| >= |rows|
    ensures forall o :: o in out ==> exists i :: 0 <= i < |rows| && o.game == rows[i].game
    ensures UniqueSides(feats) ==>
              |out| == |rows| &&
              forall i :: 0 <= i < |rows| ==> out[i] == AddSide(rows[i], side, SideMatch(rows[i].game, feats, side))
  {
    var out := LeftJoin(rows, feats, SideOn(side), AddSideOf(side));
    forall o | o in out ensures exists i :: 0 <= i < |rows| && o.game == rows[i].game {
      LeftJoinProvenance(rows, feats, SideOn(side), AddSideOf(side), o);
    }
    MergeSideOneToOne(rows, feats, side);
    out
  }

  /** Line 215 for every feature: home minus away. */
  function DiffMap(r: FeatureGame): (d: map<InjuryFeature, real>)
    ensures forall f :: f in d <==> f in BaseFeatures()
    ensures forall f :: f in d ==> d[f] + OrZero(r.away, f) == OrZero(r.home, f)
  {
    map f | f in BaseFeatures() :: OrZero(r.home, f) - OrZero(r.away, f)
  }

  function DiffOver(r: FeatureGame, fs: seq<InjuryFeature>): map<InjuryFeature, real> {
    map f | f in fs :: OrZero(r.home, f) - OrZero(r.away, f)
  }

  /** Lines 213-215: one difference column per feature. */
  method DiffColumns(rows: seq<FeatureGame>) returns (diffs: seq<map<InjuryFeature, real>>)
    ensures |diffs| == |rows|
    ensures forall i :: 0 <= i < |rows| ==> diffs[i] == DiffMap(rows[i])
  {
    var feats := BaseFeatures();
    diffs := seq(|rows|, i => map[]);
    var j := 0;
    while j < |feats|
      invariant 0 <= j <= |feats| && |diffs| == |rows|
      invariant forall i :: 0 <= i < |rows| ==> diffs[i] == DiffOver(rows[i], feats[..j])
    {
      var f := feats[j];
      var next := seq(|rows|, i requires 0 <= i < |rows| =>
        diffs[i][f := OrZero(rows[i].home, f) - OrZero(rows[i].away, f)]);
      DiffColumnsStep(rows, feats, j, diffs, next);
      diffs := next;
      j := j + 1;
    }
    forall i | 0 <= i < |rows| ensures diffs[i] == DiffMap(rows[i]) {
      DiffOverAll(rows[i]);
    }
  }

  /** One pass of the column loop adds column `fs[j]` to every row. */
  lemma DiffColumnsStep(rows: seq<FeatureGame>, fs: seq<InjuryFeature>, j: nat,
                        diffs: seq<map<InjuryFeature, real>>, next: seq<map<InjuryFeature, real>>)
    requires j < |fs| && |diffs| == |rows| == |next|
    requires forall i :: 0 <= i < |rows| ==> diffs[i] == DiffOver(rows[i], fs[..j])
    requires forall i :: 0 <= i < |rows| ==>
               next[i] == diffs[i][fs[j] := OrZero(rows[i].home, fs[j]) - OrZero(rows[i].away, fs[j])]
    ensures forall i :: 0 <= i < |rows| ==> next[i] == DiffOver(rows[i], fs[..j + 1])
  {
    forall i | 0 <= i < |rows| ensures next[i] == DiffOver(rows[i], fs[..j + 1]) {
      DiffOverNext(rows[i], fs, j);
    }
  }

  lemma DiffOverNext(r: FeatureGame, fs: seq<InjuryFeature>, j: nat)
    requires j < |fs|
    ensures DiffOver(r, fs[..j + 1]) == DiffOver(r, fs[..j])[fs[j] := OrZero(r.home, fs[j]) - OrZero(r.away, fs[j])]
  {
    assert fs[..j + 1] == fs[..j] + [fs[j]];
  }

  lemma DiffOverAll(r: FeatureGame)
    ensures DiffOver(r, BaseFeatures()[..|BaseFeatures()|]) == DiffMap(r)
  {
    assert BaseFeatures()[..|BaseFeatures()|] == BaseFeatures();
  }

  /** Swapping the two sides of a game negates every difference. */
  lemma DiffSwapNegates(r: FeatureGame)
    ensures forall f :: f in BaseFeatures() ==>
      DiffMap(FeatureGame(r.game, r.away, r.home))[f] == -DiffMap(r)[f]
  {
  }

  /** A game neither side of which has any feature row has every difference 0. */
  lemma UnmatchedGameHasZeroDiffs(g: GameRow)
    ensures forall f :: f in BaseFeatures() ==> DiffMap(FeatureGame(g, map[], map[]))[f] == 0.0
  {
  }

  /**
   * The four side merges of lines 202-206, in order.  When neither feature
   * table repeats a (game, abbreviation) key, there is one row per game,
   * holding for each side the active values of that side's team merged
   * with its missing values.
   */
  function MergedGames(games: seq<GameRow>, activeSides: seq<SideRow>, missingSides: seq<SideRow>): (out: seq<FeatureGame>)
    ensures |out| >= |games|
    ensures forall o :: o in out ==> o.game in games
    ensures UniqueSides(activeSides) && UniqueSides(missingSides) ==>
              |out| == |games| &&
              forall i :: 0 <= i < |games| ==>
                out[i].game == games[i] &&
                out[i].home == SideValues(games[i], activeSides, Home) + SideValues(games[i], missingSides, Home) &&
                out[i].away == SideValues(games[i], activeSides, Away) + SideValues(games[i], missingSides, Away)
  {
    var start := MapSeq(games, (g: GameRow) => FeatureGame(g, map[], map[]));
    var homeActive := MergeSide(start, activeSides, Home);
    var awayActive := MergeSide(homeActive, activeSides, Away);
    var homeMissing := MergeSide(awayActive, missingSides, Home);
    var out := MergeSide(homeMissing, missingSides, Away);
    GameChain(start, homeActive, games);
    GameChain(homeActive, awayActive, games);
    GameChain(awayActive, homeMissing, games);
    GameChain(homeMissing, out, games);
    forall i | UniqueSides(activeSides) && UniqueSides(missingSides) && 0 <= i < |games|
      ensures |out| == |games|
      ensures out[i].game == games[i] &&
              out[i].home == SideValues(games[i], activeSides, Home) + SideValues(games[i], missingSides, Home) &&
              out[i].away == SideValues(games[i], activeSides, Away) + SideValues(games[i], missingSides, Away)
    {
      MergedRow(games[i], activeSides, missingSides, start[i], homeActive[i], awayActive[i], homeMissing[i], out[i]);
    }
    out
  }

  /** Merge provenance composes: a row of a later merge has the game of some original game row. */
  lemma GameChain(xs: seq<FeatureGame>, ys: seq<FeatureGame>, games: seq<GameRow>)
    requires forall o :: o in xs ==> o.game in games
    requires forall o :: o in ys ==> exists i :: 0 <= i < |xs| && o.game == xs[i].game
    ensures forall o :: o in ys ==> o.game in games
  {
    forall o | o in ys ensures o.game in games {
      var i :| 0 <= i < |xs| && o.game == xs[i].game;
      assert xs[i] in xs;
    }
  }

  /** One game through the four merges. */
  lemma MergedRow(g: GameRow, activeSides: seq<SideRow>, missingSides: seq<SideRow>,
                  r0: FeatureGame, r1: FeatureGame, r2: FeatureGame, r3: FeatureGame, r4: FeatureGame)
    requires r0 == FeatureGame(g, map[], map[])
    requires r1 == AddSide(r0, Home, SideMatch(r0.game, activeSides, Home))
    requires r2 == AddSide(r1, Away, SideMatch(r1.game, activeSides, Away))
    requires r3 == AddSide(r2, Home, SideMatch(r2.game, missingSides, Home))
    requires r4 == AddSide(r3, Away, SideMatch(r3.game, missingSides, Away))
    ensures r4.game == g
    ensures r4.home == SideValues(g, activeSides, Home) + SideValues(g, missingSides, Home)
    ensures r4.away == SideValues(g, activeSides, Away) + SideValues(g, missingSides, Away)
  {
    var e: map<InjuryFeature, real> := map[];
    assert e + SideValues(g, activeSides, Home) == SideValues(g, activeSides, Home);
    assert e + SideValues(g, activeSides, Away) == SideValues(g, activeSides, Away);
    assert r1.home == SideValues(g, activeSides, Home);
    assert r2.away == SideValues(g, activeSides, Away);
    assert r3.home == SideValues(g, activeSides, Home) + SideValues(g, missingSides, Home);
  }

  /** The ranked feature rows before the rust-adjusted columns. */
  function PlayerTable(adv: seq<AdvPlayerRow>, base: seq<BasePlayerRow>): seq<PlayerGame> {
    PlayerGames(SortedStats(adv, base))
  }

  /** Lines 98-206: the games with the active and the missing production of both sides, from the adjusted player rows. */
  function MergedFor(pgs: seq<PlayerGame>, base: seq<BasePlayerRow>, inactive: seq<InactiveRow>,
                     games: seq<GameRow>): seq<FeatureGame>
  {
    var teams := TeamsMap(base);
    var active := ActiveSides(ActiveTable(pgs), teams);
    var missing := MissingSides(MissingTable(DatedInactives(inactive, games), LookupTable(pgs)), teams);
    MergedGames(games, active, missing)
  }

  /** The written file: one row of differences per merged game row, with every base feature as a column. */
  function InjuryFeatures(adv: seq<AdvPlayerRow>, base: seq<BasePlayerRow>, inactive: seq<InactiveRow>,
                          games: seq<GameRow>): (t: InjuryTable)
  {
    var pgs := MapSeq(PlayerTable(adv, base), WithRustAdj);
    var merged := MergedFor(pgs, base, inactive, games);
    InjuryTable((set f | f in BaseFeatures()), MapSeq(merged, InjuryRowOf))
  }

  /** The written row of one merged game row: its game id and its differences. */
  function InjuryRowOf(r: FeatureGame): InjuryRow {
    InjuryRow(r.game.gameId, DiffMap(r))
  }

  /** Rows built from the computed difference columns are the rows `InjuryRowOf` gives. */
  lemma DiffRowsAre(merged: seq<FeatureGame>, diffs: seq<map<InjuryFeature, real>>)
    requires |diffs| == |merged|
    requires forall i :: 0 <= i < |merged| ==> diffs[i] == DiffMap(merged[i])
    ensures seq(|merged|, i requires 0 <= i < |merged| => InjuryRow(merged[i].game.gameId, diffs[i]))
            == MapSeq(merged, InjuryRowOf)
  {
  }

  /** `generate_features`, with the four tables as inputs and the written table as output. */
  method GenerateFeatures(adv: seq<AdvPlayerRow>, base: seq<BasePlayerRow>, inactive: seq<InactiveRow>,
                          games: seq<GameRow>) returns (t: InjuryTable)
    ensures t == InjuryFeatures(adv, base, inactive, games)
  {
    var pgs := AddRustAdj(PlayerTable(adv, base));
    assert pgs == MapSeq(PlayerTable(adv, base), WithRustAdj);
    var merged := MergedFor(pgs, base, inactive, games);
    var diffs := DiffColumns(merged);
    DiffRowsAre(merged, diffs);
    t := InjuryTable((set f | f in BaseFeatures()), seq(|merged|, i requires 0 <= i < |merged| => InjuryRow(merged[i].game.gameId, diffs[i])));
  }

  /** Every written row has every base feature's difference, and each row comes from a game of the games table. */
  lemma InjuryRowsComplete(adv: seq<AdvPlayerRow>, base: seq<BasePlayerRow>, inactive: seq<InactiveRow>,
                           games: seq<GameRow>)
    ensures var t := InjuryFeatures(adv, base, inactive, games);
            |t.rows| >= |games| &&
            forall i :: 0 <= i < |t.rows| ==> t.rows[i].diffs.Keys == t.columns
  {
  }
}
