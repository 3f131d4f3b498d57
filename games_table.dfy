/**
 * The schedule sync (`init_games_table`): the per-team box-score rows are
 * paired into one home/away record per game, the game ids are padded to
 * ten characters, and the games the `games` table does not have yet are
 * inserted with every betting column left unset.
 *
 * The database is modelled as values: the box-score rows come in as a
 * sequence and the `games` table as a map from `game_id` (its primary key)
 * to the stored row.
 */
module GamesTable {
  import opened Wrappers
  import opened Text
  import Frames

  /** One row of `SELECT GAME_ID, GAME_DATE, SEASON_YEAR, SEASON_TYPE, TEAM_ABBREVIATION, PTS, MATCHUP FROM boxscore_base`. */
  datatype BoxRow = BoxRow(gameId: string, gameDate: string, seasonYear: string, seasonType: string,
                           team: string, pts: Option<int>, matchup: Option<string>)

  /** A row of the inner merge of the home rows with the away rows. */
  datatype Pairing = Pairing(gameId: string, gameDate: string, seasonYear: string, seasonType: string,
                             homeTeam: string, homeScore: Option<int>, awayTeam: string, awayScore: Option<int>)

  /** The eight `tw_*` betting columns of a `games` row. */
  datatype TwOdds = TwOdds(spreadScore: Option<real>, totalScore: Option<real>,
                           moneylineHome: Option<real>, moneylineAway: Option<real>,
                           spreadHomeOdds: Option<real>, spreadAwayOdds: Option<real>,
                           totalOverOdds: Option<real>, totalUnderOdds: Option<real>)

  /** A row of the `games` table without its key. */
  datatype GameRow = GameRow(date: string, season: string, gameType: string, homeTeam: string, awayTeam: string,
                             homeScore: int, awayScore: int, odds: TwOdds)

  /** One tuple of `data_to_insert`. */
  datatype Insert = Insert(gameId: string, row: GameRow)

  type Table = map<string, GameRow>

  /** The betting columns of a row the sync inserts: all NULL. */
  const NoOdds := TwOdds(None, None, None, None, None, None, None, None)

  /** `GAME_ID` is padded to this width. */
  const IdWidth := 10

  // ---------------------------------------------------------------
  // drop_duplicates(subset=['GAME_ID', 'TEAM_ABBREVIATION'])
  // ---------------------------------------------------------------

  function Key(r: BoxRow): (string, string) {
    (r.gameId, r.team)
  }

  /** The rows of `s` whose key is not in `seen` and has not occurred earlier in `s`. */
  function DedupFrom(s: seq<BoxRow>, seen: set<(string, string)>): seq<BoxRow>
    decreases |s|
  {
    if s == [] then []
    else if Key(s[0]) in seen then DedupFrom(s[1..], seen)
    else [s[0]] + DedupFrom(s[1..], seen + {Key(s[0])})
  }

  /** `df.drop_duplicates(subset=['GAME_ID', 'TEAM_ABBREVIATION'])`, keeping the first row of each key. */
  function Dedup(s: seq<BoxRow>): seq<BoxRow> {
    DedupFrom(s, {})
  }

  /** No earlier row of `s` has the key of row `i`. */
  predicate FirstOfKey(s: seq<BoxRow>, i: int)
    requires 0 <= i < |s|
  {
    forall j :: 0 <= j < i ==> Key(s[j]) != Key(s[i])
  }

  /** Every kept row comes from `s` and its key is not in `seen`. */
  lemma {:induction false} DedupFromRows(s: seq<BoxRow>, seen: set<(string, string)>)
    ensures forall r :: r in DedupFrom(s, seen) ==> r in s && Key(r) !in seen
    decreases |s|
  {
    if s != [] {
      var k := Key(s[0]);
      if k in seen {
        DedupFromRows(s[1..], seen);
      } else {
        DedupFromRows(s[1..], seen + {k});
      }
    }
  }

  /** No two rows of `d` share a key. */
  predicate UniqueKeys(d: seq<BoxRow>) {
    forall i, j :: 0 <= i < j < |d| ==> Key(d[i]) != Key(d[j])
  }

  /** No key is kept twice. */
  lemma {:induction false} DedupFromUnique(s: seq<BoxRow>, seen: set<(string, string)>)
    ensures UniqueKeys(DedupFrom(s, seen))
    decreases |s|
  {
    if s != [] {
      var k := Key(s[0]);
      if k in seen {
        assert DedupFrom(s, seen) == DedupFrom(s[1..], seen);
        DedupFromUnique(s[1..], seen);
      } else {
        var rest := DedupFrom(s[1..], seen + {k});
        DedupFromUnique(s[1..], seen + {k});
        DedupFromRows(s[1..], seen + {k});
        assert DedupFrom(s, seen) == [s[0]] + rest;
        ConsUnique(s[0], rest);
      }
    }
  }

  /** A row whose key no row of a key-unique `rest` has keeps it key-unique when put in front. */
  lemma ConsUnique(x: BoxRow, rest: seq<BoxRow>)
    requires UniqueKeys(rest)
    requires forall r :: r in rest ==> Key(r) != Key(x)
    ensures UniqueKeys([x] + rest)
  {
    var d := [x] + rest;
    forall i, j | 0 <= i < j < |d| ensures Key(d[i]) != Key(d[j]) {
      assert d[j] == rest[j - 1];
      if i > 0 {
        assert d[i] == rest[i - 1];
      }
    }
  }

  /** Every key of `s` outside `seen` is kept. */
  lemma {:induction false} DedupFromComplete(s: seq<BoxRow>, seen: set<(string, string)>, r: BoxRow)
    requires r in s && Key(r) !in seen
    ensures exists d :: d in DedupFrom(s, seen) && Key(d) == Key(r)
    decreases |s|
  {
    var k := Key(s[0]);
    if k in seen {
      DedupFromComplete(s[1..], seen, r);
    } else if Key(r) == k {
      assert s[0] in DedupFrom(s, seen);
    } else {
      assert r in s[1..];
      DedupFromComplete(s[1..], seen + {k}, r);
      var d :| d in DedupFrom(s[1..], seen + {k}) && Key(d) == Key(r);
      assert d in DedupFrom(s, seen);
    }
  }

  /** A kept row is the first row of `s` with its key: later duplicates are the ones dropped. */
  lemma {:induction false} DedupFromFirst(s: seq<BoxRow>, seen: set<(string, string)>, r: BoxRow)
    requires r in DedupFrom(s, seen)
    ensures exists i :: 0 <= i < |s| && s[i] == r && FirstOfKey(s, i)
    decreases |s|
  {
    var k := Key(s[0]);
    if k in seen {
      DedupFromFirst(s[1..], seen, r);
      var i :| 0 <= i < |s[1..]| && s[1..][i] == r && FirstOfKey(s[1..], i);
      DedupFromRows(s[1..], seen);
      assert s[i + 1] == r;
      assert FirstOfKey(s, i + 1);
    } else if r == s[0] {
      assert FirstOfKey(s, 0);
    } else {
      DedupFromFirst(s[1..], seen + {k}, r);
      DedupFromRows(s[1..], seen + {k});
      var i :| 0 <= i < |s[1..]| && s[1..][i] == r && FirstOfKey(s[1..], i);
      assert s[i + 1] == r;
      assert FirstOfKey(s, i + 1);
    }
  }

  /** The deduplicated rows: unique keys, each the first row of its key, and no key lost. */
  lemma DedupSpec(s: seq<BoxRow>)
    ensures UniqueKeys(Dedup(s))
    ensures forall r :: r in s ==> exists d :: d in Dedup(s) && Key(d) == Key(r)
    ensures forall r :: r in Dedup(s) ==> exists i :: 0 <= i < |s| && s[i] == r && FirstOfKey(s, i)
  {
    DedupFromUnique(s, {});
    forall r | r in s ensures exists d :: d in Dedup(s) && Key(d) == Key(r) {
      DedupFromComplete(s, {}, r);
    }
    forall r | r in Dedup(s) ensures exists i :: 0 <= i < |s| && s[i] == r && FirstOfKey(s, i) {
      DedupFromFirst(s, {}, r);
    }
  }

  // ---------------------------------------------------------------
  // Home / away split and the inner merge on GAME_ID
  // ---------------------------------------------------------------

  /** `MATCHUP.str.contains('vs.', na=False)`: a regular-expression search, and a NULL matchup is not home. */
  predicate IsHome(r: BoxRow) {
    r.matchup.Some? && MatchesVsAny(r.matchup.value)
  }

  /** `MATCHUP.str.contains('@', na=False)`. */
  predicate IsAway(r: BoxRow) {
    r.matchup.Some? && Contains(r.matchup.value, "@")
  }

  predicate SameGame(h: BoxRow, a: BoxRow) {
    h.gameId == a.gameId
  }

  /** The merged row: game columns and home team/score from the home row, away team/score from the away row. */
  function Pair(h: BoxRow, a: BoxRow): Pairing {
    Pairing(h.gameId, h.gameDate, h.seasonYear, h.seasonType, h.team, h.pts, a.team, a.pts)
  }

  /** `pd.merge(home_df, away_df, on='GAME_ID', how='inner')` over the deduplicated rows. */
  function Merged(box: seq<BoxRow>): seq<Pairing> {
    var rows := Dedup(box);
    Frames.InnerJoin(Frames.Filter(rows, IsHome), Frames.Filter(rows, IsAway), SameGame, Pair)
  }

  /** A merged record always comes from a home row and an away row of the same game. */
  lemma MergedHasBothSides(box: seq<BoxRow>, p: Pairing)
    requires p in Merged(box)
    ensures exists h, a :: h in box && a in box && IsHome(h) && IsAway(a) && h.gameId == a.gameId == p.gameId &&
                           p.homeTeam == h.team && p.awayTeam == a.team && p.homeScore == h.pts && p.awayScore == a.pts
  {
    var rows := Dedup(box);
    DedupSpec(box);
    var h, a :| h in Frames.Filter(rows, IsHome) && a in Frames.Filter(rows, IsAway) && SameGame(h, a) && p == Pair(h, a);
  }

  /** Conversely, a home row and an away row of the same game that survive deduplication are paired. */
  lemma MergedPairsEverySide(box: seq<BoxRow>, h: BoxRow, a: BoxRow)
    requires h in Dedup(box) && a in Dedup(box) && IsHome(h) && IsAway(a) && h.gameId == a.gameId
    ensures Pair(h, a) in Merged(box)
  {
    var rows := Dedup(box);
    Frames.InnerJoinComplete(Frames.Filter(rows, IsHome), Frames.Filter(rows, IsAway), SameGame, Pair, h, a);
  }

  /** A game with no away row (or no home row) gets no record. */
  lemma OneSidedGameDropped(box: seq<BoxRow>, id: string)
    requires forall r :: r in box && r.gameId == id ==> !IsAway(r)
    ensures forall p :: p in Merged(box) ==> p.gameId != id
  {
    forall p | p in Merged(box) ensures p.gameId != id {
      MergedHasBothSides(box, p);
    }
  }

  // ---------------------------------------------------------------
  // Padding and the new-game filter
  // ---------------------------------------------------------------

  /** `merged['GAME_ID'].astype(str).str.zfill(10)`. */
  function Padded(p: Pairing): (q: Pairing)
    ensures q == p.(gameId := q.gameId)
    ensures |p.gameId| >= IdWidth ==> q.gameId == p.gameId
    ensures |p.gameId| < IdWidth ==> |q.gameId| == IdWidth
  {
    ZFillLength(p.gameId, IdWidth);
    p.(gameId := ZFill(p.gameId, IdWidth))
  }

  /** Whether the padded id is not among the ids the table already has (`~isin(existing_ids)`). */
  function NewGames(box: seq<BoxRow>, table: Table): (ns: seq<Pairing>)
    ensures forall q :: q in ns ==> q.gameId !in table
  {
    Frames.Filter(Frames.MapSeq(Merged(box), Padded), (q: Pairing) => q.gameId !in table)
  }

  /** A digit-only id shorter than ten characters gets zeros in front and keeps its digits. */
  lemma PaddedKeepsDigits(p: Pairing)
    requires |p.gameId| < IdWidth && (p.gameId == [] || '0' <= p.gameId[0] <= '9')
    ensures Padded(p).gameId == Zeros(IdWidth - |p.gameId|) + p.gameId
  {
    ZFillUnsigned(p.gameId, IdWidth);
  }

  // ---------------------------------------------------------------
  // data_to_insert and INSERT OR IGNORE
  // ---------------------------------------------------------------

  /** The outcome of building the insert list: the rows, or the first game whose score `int()` cannot convert. */
  datatype Rows = Rows(inserts: seq<Insert>) | ScoreNotNumber(gameId: string)

  /** The tuple for one new game: the padded id, the game columns, and the scores as integers. */
  function ToInsert(q: Pairing): (r: Option<Insert>)
    ensures r.Some? <==> q.homeScore.Some? && q.awayScore.Some?
    ensures r.Some? ==> r.value.gameId == q.gameId && r.value.row.odds == NoOdds
    ensures r.Some? ==> r.value.row.homeTeam == q.homeTeam && r.value.row.awayTeam == q.awayTeam
    ensures r.Some? ==> r.value.row.homeScore == q.homeScore.value && r.value.row.awayScore == q.awayScore.value
  {
    if q.homeScore.None? || q.awayScore.None? then None
    else Some(Insert(q.gameId, GameRow(q.gameDate, q.seasonYear, q.seasonType, q.homeTeam, q.awayTeam,
                                       q.homeScore.value, q.awayScore.value, NoOdds)))
  }

  /** `data_to_insert` for the games `ns`, in order, or the first game with a missing score. */
  function InsertRows(ns: seq<Pairing>): (r: Rows)
    ensures r.Rows? ==> |r.inserts| == |ns|
    ensures r.Rows? ==> forall k :: 0 <= k < |ns| ==> ToInsert(ns[k]) == Some(r.inserts[k])
    ensures r.ScoreNotNumber? <==> exists k :: 0 <= k < |ns| && ToInsert(ns[k]).None?
    decreases |ns|
  {
    if ns == [] then Rows([])
    else
      var rest := InsertRows(ns[..|ns| - 1]);
      var last := ToInsert(ns[|ns| - 1]);
      if rest.ScoreNotNumber? then rest
      else if last.None? then ScoreNotNumber(ns[|ns| - 1].gameId)
      else Rows(rest.inserts + [last.value])
  }

  /** The append loop over `new_games.iterrows()`. */
  method BuildInsertRows(ns: seq<Pairing>) returns (r: Rows)
    ensures r == InsertRows(ns)
  {
    var data: seq<Insert> := [];
    var i := 0;
    while i < |ns|
      invariant 0 <= i <= |ns|
      invariant InsertRows(ns[..i]) == Rows(data)
    {
      assert ns[..i + 1][..i] == ns[..i];
      var t := ToInsert(ns[i]);
      if t.None? {
        ErrorStays(ns, i + 1);
        return ScoreNotNumber(ns[i].gameId);
      }
      data := data + [t.value];
      i := i + 1;
    }
    assert ns[..i] == ns;
    r := Rows(data);
  }

  /** Once a prefix has failed, the whole list fails the same way. */
  lemma {:induction false} ErrorStays(ns: seq<Pairing>, n: nat)
    requires n <= |ns| && InsertRows(ns[..n]).ScoreNotNumber?
    ensures InsertRows(ns) == InsertRows(ns[..n])
    decreases |ns| - n
  {
    if n < |ns| {
      assert ns[..n + 1][..n] == ns[..n];
      ErrorStays(ns, n + 1);
    } else {
      assert ns[..n] == ns;
    }
  }

  /** The ids of a list of tuples. */
  function Ids(rows: seq<Insert>): set<string> {
    set i | 0 <= i < |rows| :: rows[i].gameId
  }

  /** `executemany('INSERT OR IGNORE …')`: each tuple is stored unless its key is already present. */
  function InsertOrIgnore(table: Table, rows: seq<Insert>): (t: Table)
    ensures forall k :: k in table ==> k in t && t[k] == table[k]
    ensures t.Keys == table.Keys + Ids(rows)
    decreases |rows|
  {
    if rows == [] then table
    else
      var next := if rows[0].gameId in table then table else table[rows[0].gameId := rows[0].row];
      assert Ids(rows) == {rows[0].gameId} + Ids(rows[1..]) by {
        forall k | k in Ids(rows) ensures k in {rows[0].gameId} + Ids(rows[1..]) {
          var i :| 0 <= i < |rows| && rows[i].gameId == k;
          if i > 0 { assert rows[1..][i - 1].gameId == k; }
        }
        forall k | k in Ids(rows[1..]) ensures k in Ids(rows) {
          var i :| 0 <= i < |rows[1..]| && rows[1..][i].gameId == k;
          assert rows[i + 1].gameId == k;
        }
      }
      InsertOrIgnore(next, rows[1..])
  }

  /** A key the table lacked holds the row of the first tuple with that key; later tuples with it are ignored. */
  lemma {:induction false} InsertFirstWins(table: Table, rows: seq<Insert>, i: nat)
    requires i < |rows| && rows[i].gameId !in table
    requires forall j :: 0 <= j < i ==> rows[j].gameId != rows[i].gameId
    ensures InsertOrIgnore(table, rows)[rows[i].gameId] == rows[i].row
    decreases i
  {
    var next := if rows[0].gameId in table then table else table[rows[0].gameId := rows[0].row];
    if i == 0 {
      assert rows[0].gameId in next && next[rows[0].gameId] == rows[0].row;
    } else {
      assert rows[1..][i - 1] == rows[i];
      InsertFirstWins(next, rows[1..], i - 1);
    }
  }

  // ---------------------------------------------------------------
  // The sync
  // ---------------------------------------------------------------

  datatype SyncOutcome =
    | EmptySource                           // boxscore_base has no rows: nothing is done
    | UpToDate                              // no new game: the table is left as it is
    | ScoreError(gameId: string)            // int() of a missing score raises before anything is written
    | Synced(table: Table, inserted: nat)   // the new games were written

  /** `init_games_table` on the box-score rows `box` and the current `games` table. */
  function Sync(box: seq<BoxRow>, table: Table): (s: SyncOutcome)
    ensures s.EmptySource? <==> box == []
    ensures s.Synced? ==> forall k :: k in table ==> k in s.table && s.table[k] == table[k]
    ensures s.Synced? ==> s.inserted > 0 && s.inserted == |NewGames(box, table)|
  {
    if box == [] then EmptySource
    else
      var ns := NewGames(box, table);
      if ns == [] then UpToDate
      else match InsertRows(ns)
        case ScoreNotNumber(id) => ScoreError(id)
        case Rows(data) => Synced(InsertOrIgnore(table, data), |ns|)
  }

  /** The step-by-step sync: dedup, split, merge, pad, filter, build the tuples, insert. */
  method InitGamesTable(box: seq<BoxRow>, table: Table) returns (s: SyncOutcome)
    ensures s == Sync(box, table)
  {
    if |box| == 0 {
      return EmptySource;
    }
    var newGames := NewGames(box, table);
    if |newGames| == 0 {
      return UpToDate;
    }
    var data := BuildInsertRows(newGames);
    match data
    case ScoreNotNumber(id) => s := ScoreError(id);
    case Rows(inserts) => s := Synced(InsertOrIgnore(table, inserts), |newGames|);
  }

  /** After a sync every new game is in the table, with no odds and its integer scores. */
  lemma SyncedRows(box: seq<BoxRow>, table: Table, q: Pairing)
    requires Sync(box, table).Synced? && q in NewGames(box, table)
    requires forall p :: p in NewGames(box, table) && p.gameId == q.gameId ==> p == q
    ensures q.homeScore.Some? && q.awayScore.Some?
    ensures var t := Sync(box, table).table;
            q.gameId in t && t[q.gameId].odds == NoOdds &&
            t[q.gameId].homeScore == q.homeScore.value && t[q.gameId].awayScore == q.awayScore.value
  {
    var ns := NewGames(box, table);
    var data := InsertRows(ns).inserts;
    var i :| 0 <= i < |ns| && ns[i] == q;
    var k :| 0 <= k <= i && ns[k].gameId == q.gameId && forall j :: 0 <= j < k ==> ns[j].gameId != q.gameId by {
      FirstIndexWithId(ns, q.gameId, i);
    }
    assert ns[k] == q;
    assert ToInsert(ns[k]) == Some(data[k]);
    forall j | 0 <= j < k ensures data[j].gameId != data[k].gameId {
      assert ToInsert(ns[j]) == Some(data[j]);
    }
    InsertFirstWins(table, data, k);
  }

  lemma FirstIndexWithId(ns: seq<Pairing>, id: string, i: nat)
    requires i < |ns| && ns[i].gameId == id
    ensures exists k :: 0 <= k <= i && ns[k].gameId == id && forall j :: 0 <= j < k ==> ns[j].gameId != id
    decreases i
  {
    if exists j :: 0 <= j < i && ns[j].gameId == id {
      var j :| 0 <= j < i && ns[j].gameId == id;
      FirstIndexWithId(ns, id, j);
    } else {
      assert forall j :: 0 <= j < i ==> ns[j].gameId != id;
    }
  }

  /** The padded ids of the new games. */
  function NewIds(box: seq<BoxRow>, table: Table): set<string> {
    set q | q in NewGames(box, table) :: q.gameId
  }

  /** The tuples built for a list of games carry exactly those games' ids. */
  lemma InsertIdsAreGameIds(ns: seq<Pairing>, data: seq<Insert>)
    requires InsertRows(ns) == Rows(data)
    ensures Ids(data) == set q | q in ns :: q.gameId
  {
    forall k | k in Ids(data) ensures exists q :: q in ns && q.gameId == k {
      var i :| 0 <= i < |data| && data[i].gameId == k;
      assert ToInsert(ns[i]) == Some(data[i]);
      assert ns[i] in ns;
    }
    forall q | q in ns ensures q.gameId in Ids(data) {
      var i :| 0 <= i < |ns| && ns[i] == q;
      assert ToInsert(ns[i]) == Some(data[i]);
    }
  }

  /** The table after a sync holds exactly the old games and the new ones. */
  lemma SyncedKeys(box: seq<BoxRow>, table: Table)
    requires Sync(box, table).Synced?
    ensures Sync(box, table).table.Keys == table.Keys + NewIds(box, table)
  {
    var ns := NewGames(box, table);
    var data := InsertRows(ns).inserts;
    assert Sync(box, table).table == InsertOrIgnore(table, data);
    InsertIdsAreGameIds(ns, data);
  }

  /** Padding is idempotent, so a game already synced is not new on the next run. */
  lemma PaddedInTable(box: seq<BoxRow>, table: Table, p: Pairing)
    requires Sync(box, table).Synced? && p in Merged(box)
    ensures Padded(p).gameId in Sync(box, table).table
  {
    var q := Padded(p);
    SyncedKeys(box, table);
    if q.gameId !in table {
      assert q in Frames.MapSeq(Merged(box), Padded);
      assert q in NewGames(box, table);
      assert q.gameId in NewIds(box, table);
    }
  }

  /** Running the sync again on the same box scores finds nothing new and leaves the table alone. */
  lemma SyncIdempotent(box: seq<BoxRow>, table: Table)
    requires Sync(box, table).Synced?
    ensures Sync(box, Sync(box, table).table) == UpToDate
  {
    var t := Sync(box, table).table;
    forall q | q in Frames.MapSeq(Merged(box), Padded) ensures q.gameId in t {
      var k :| 0 <= k < |Merged(box)| && Frames.MapSeq(Merged(box), Padded)[k] == q;
      PaddedInTable(box, table, Merged(box)[k]);
    }
    Frames.FilterNoneSelected(Frames.MapSeq(Merged(box), Padded), (q: Pairing) => q.gameId !in t);
  }
}
