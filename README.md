# NBA spread-betting backtests, modelled in Dafny

This project models the deterministic core of an NBA point-spread betting
pipeline: the feature tables it builds from box scores, the walk-forward
("time machine") backtests that train a regressor on every earlier game and
bet on each day's slate, and two small transforms that feed them (the
parser of scraped odds cells and the builder of the games table).

One Dafny module per concern, flat in this directory:

| file | models |
|---|---|
| `wrappers.dfy`, `order.dfy`, `sorting.dfy`, `frames.dfy`, `text.dfy` | the Python and pandas building blocks: `Option`, string order and `sorted(set(...))`, stable `sort_values`, boolean masks, `merge(how='left'/'inner')`, `.sum()`, `str.zfill`, `in`, `upper`, `split` |
| `rolling.dfy` | `groupby(g)[c].shift(1).rolling(window=w, min_periods=p).mean()` |
| `schema.dfy`, `elo.dfy`, `team_features.dfy` | `load_prepared_data` in `src/nba_daily_backtest.py`: the Elo pass, the box-score rates, the trailing means, the side merges and the target |
| `walk_forward.dfy`, `settlement.dfy`, `daily_backtest.dfy` | `run_daily_backtest`: resumption, the date loop, the per-model split, the pick rule, settlement and the summary |
| `injury.dfy` | `src/generate_injury.py`: rust factor, per-player rolling production, active and missing production, home-minus-away differences |
| `advanced_elo.dfy`, `sign_backtest.dfy`, `v2_backtest.dfy` | `src/v2_daily_backtest_test.py`: the season-regressed, margin-weighted Elo and the sign-match counters |
| `feature_blocks.dfy`, `top10_backtest.dfy` | `src/top10_daily_backtest.py`: block-to-feature expansion and its counters |
| `rf_backtest.dfy` | `src/rf_daily_backtest_test.py`: the target-aware walk-forward loop |
| `combinations.dfy`, `exhaustive_search.dfy` | `src/exhaustive_search.py`: `itertools.combinations`, cleaning, season split, the 232 block subsets, per-combination scoring and the ranking |
| `fetch_odds.dfy` | the pure parts of `src/fetch_odds.py`: odds-cell and total-cell parsing, `date_range`, the candidate order of `find_game_in_db` |
| `games_table.dfy` | `src/init_games_table.py`: dedup, home/away split, inner join, id padding, new-id filter, insert-or-ignore |

Conventions of the model:

- Tables are sequences of records in the frame's row order; a missing cell
  (`NaN`) is `None`.
- Floating-point numbers are `real`s. `10 ** x` in the logistic expected
  score and `np.log` are parameters with their ranges stated as types: the
  expected score is in (0, 1) and `ln(1 + m)` is positive.
- The regressors (CatBoost, random forest) are one parameter
  `predict(train, columns, row)`; the model states what each backtest does
  with whatever it returns.
- Dates in the backtests are strings compared like Python `str`
  (code-point order); in `generate_injury.py` they are day numbers.
- CSV, SQLite and network I/O are inputs and outputs of the modelled
  functions.

Where the code and its comments disagree the model follows the code. One
case concerns `parse_cell_robust`. A comment there says a percentage after
贏/輸 is stripped, but the regular expressions only remove parenthesised
text and `&nbsp;`. The percentage therefore stays among the numbers, so a
cell such as `1.75贏50%` yields value 1.75 and odds 50
(`FetchOdds.ParseCell` states this general rule).


## Model

| member | source | states |
|---|---|---|
| Frames.Filter | src/nba_daily_backtest.py:164-165 | `df[mask]` keeps exactly the rows satisfying the mask, no more rows than the input |
| Frames.FilterPartition | src/exhaustive_search.py:53-54 | a mask and its negation split the rows: the two selections together are a permutation of the input |
| Frames.FilterNarrower | src/rf_daily_backtest_test.py:77-78 | selecting by a mask and then by a stronger one is selecting by the stronger one |
| Frames.Distinct | src/generate_injury.py:104-109 | distinct keys: every input value appears, nothing else does, and none appears twice |
| Frames.MapSeq | src/nba_daily_backtest.py:115-117 | a column computed row by row: same length, entry i is the function of row i |
| Frames.SumBounds | src/generate_injury.py:104-109 | a sum of n values in [lo, hi] lies in [n·lo, n·hi] |
| Frames.Lookup | src/nba_daily_backtest.py:95-96 | the first matching right row, present exactly when some right row matches |
| Frames.LeftJoin | src/nba_daily_backtest.py:95-96 | `merge(how='left')`: never fewer rows than the left table |
| Frames.LeftJoinOneToOne | src/nba_daily_backtest.py:95-96 | with at most one partner per left row the left merge keeps the left rows one for one, each joined with its partner or with none |
| Frames.LeftJoinProvenance | src/nba_daily_backtest.py:95-96 | every output row of a left merge is a left row combined with no partner or with a matching right row |
| Frames.LeftJoinComplete | src/nba_daily_backtest.py:95-96 | a left merge loses no left row: each is in the output combined with no partner or with a matching right row |
| Frames.InnerJoin | src/nba_daily_backtest.py:79 | `merge(how='inner')`: every output row is a left row combined with a right row that matches it |
| Frames.InnerJoinComplete | src/init_games_table.py:73 | a left row with a matching right row always yields an output row |
| Order.SortedDistinct | src/nba_daily_backtest.py:147 | `sorted(...unique())`: strictly increasing, with exactly the values of the input |
| Order.MaxStr | src/nba_daily_backtest.py:140 | `max` of a non-empty list of strings: one of them and not below any |
| Order.EmptyIsLeast | src/nba_daily_backtest.py:150-151 | the empty string is below every other string |
| Sorting.SortBy | src/nba_daily_backtest.py:56 | `sort_values`: sorted by the key, a permutation of the input, and stable: for every key value the rows with that value keep their input order |
| Sorting.InsertBy | src/nba_daily_backtest.py:56 | inserting a row into a sorted table keeps it sorted and adds exactly that row |
| Text.ContainsIffOccurs | src/init_games_table.py:65-66 | `sub in s` holds exactly when `sub` occurs at some position |
| Text.Upper | src/fetch_odds.py:111 | `upper()` keeps the length and changes each letter position by position |
| Text.BeforeFirst | src/fetch_odds.py:64-65 | `split(sep)[0]`: a prefix of the input, without the separator, and all of it when there is none |
| Text.ZFillLength | src/init_games_table.py:74 | `zfill(10)` gives 10 characters, or the id itself when it is already that long |
| Text.ZFillUnsigned | src/init_games_table.py:74 | without a sign, padding only prepends zeros |
| Text.ZFillSigned | src/init_games_table.py:74 | with a sign, the sign stays first and the digits after it are kept |
| Text.ZFillIdempotent | src/init_games_table.py:74 | padding twice is padding once |
| Text.ZFillInjective | src/init_games_table.py:74 | two unsigned ids of equal length pad to the same string only if they are equal |
| Rolling.LastN | src/nba_daily_backtest.py:90 | the rolling window: the last w values, all of them when there are fewer |
| Rolling.MeanWithinBounds | src/nba_daily_backtest.py:90 | a mean lies between any lower and upper bound of its values |
| Rolling.TrailingMean | src/nba_daily_backtest.py:90 | the shifted rolling mean is defined exactly when at least `min_periods` earlier values exist |
| Rolling.TrailingMeanWindow | src/nba_daily_backtest.py:90 | with k earlier values the window is positions max(0, k-w) .. k-1 |
| Rolling.TrailingMeanWithinBounds | src/nba_daily_backtest.py:90 | a defined trailing mean stays within the bounds of the values it averages |
| Rolling.GroupPrior | src/nba_daily_backtest.py:90 | the earlier rows of a row's group: all from before it and all in its group |
| Rolling.GroupPosition | src/nba_daily_backtest.py:90 | a row is its group's k-th row, where k counts the group's earlier rows |
| Rolling.Previous | src/generate_injury.py:64-65 | `shift(1)` within a group: absent exactly at the group's first row, otherwise an earlier row of the same group |
| Rolling.TrailingAtKthRow | src/nba_daily_backtest.py:86-92 | at a group's k-th row the trailing mean is defined iff k >= min_periods and is then the mean over the group's rows max(0, k-w) .. k-1, never row k or later |
| Schema.Minus | src/nba_daily_backtest.py:99-101 | a difference of two columns is missing when either side is, and adds back to the left side |
| Schema.TargetPlusLine | src/nba_daily_backtest.py:115-117 | the target is present exactly when both scores and the spread are, and target + vegas_line_h = real_diff |
| Schema.VegasLineIsNegatedSpread | src/nba_daily_backtest.py:116 | vegas_line_h is present exactly when the spread is, and is its negation |
| Schema.RollingDiffs | src/nba_daily_backtest.py:98-101 | diff_R{w}_OFF_DEF, _DEF_OFF and _PACE are home OFF − away DEF, home DEF − away OFF and home PACE − away PACE |
| Schema.PaceDiffAntisymmetric | src/nba_daily_backtest.py:101 | swapping the two sides negates the pace difference |
| Elo.Teams | src/nba_daily_backtest.py:58 | the team set holds both teams of every game |
| Elo.InitialRatings | src/nba_daily_backtest.py:58 | every team of the games, and no other key, starts at 1500 |
| Elo.HomeResult | src/nba_daily_backtest.py:66 | `actual_h` is 1 exactly when the home score is higher, 0 otherwise (a tie is a home loss) |
| Elo.Step | src/nba_daily_backtest.py:64-68 | a game missing a score changes nothing; otherwise the home team gains K·(actual − home win probability), the away team loses exactly that amount, every other team keeps its rating, and the team set is kept |
| Elo.ApplyGame | src/nba_daily_backtest.py:64-68 | the in-place update of the two entries produces `Step` |
| Elo.EloPass | src/nba_daily_backtest.py:58-69 | the row loop emits, for every game, the two ratings of the table after all earlier games and before this one |
| Elo.FirstGameSeesInitialRatings | src/nba_daily_backtest.py:58-63 | the first game sees both teams at 1500 |
| Elo.UnscoredGameChangesNothing | src/nba_daily_backtest.py:64 | a game missing either score leaves every rating unchanged |
| Elo.StepOpposite | src/nba_daily_backtest.py:67-68 | the away change is exactly the negated home change, and no other team changes |
| Elo.StepWinnerGains | src/nba_daily_backtest.py:65-68 | the winner gains and the loser drops; a tie counts as a home loss |
| Elo.StepZeroSum | src/nba_daily_backtest.py:67-68 | one update leaves the league total unchanged |
| Elo.RatingsAfterZeroSum | src/nba_daily_backtest.py:60-68 | the whole pass leaves the league total unchanged |
| Elo.InitialTotal | src/nba_daily_backtest.py:58 | at the start the ratings add up to 1500 per team |
| Elo.LeagueTotalBeforeEachGame | src/nba_daily_backtest.py:58-68 | before every game the ratings still add up to 1500 per team |
| TeamFeatures.OrOne | src/nba_daily_backtest.py:80-83 | `.replace(0, 1)`: never zero, 1 for 0, unchanged otherwise |
| TeamFeatures.RatesBounded | src/nba_daily_backtest.py:80-83 | with non-negative counts, FTA_RATE >= 0, TOV_PCT in [0, 100] and OREB_PCT in [0, 1] |
| TeamFeatures.ZeroDenominatorGivesNumerator | src/nba_daily_backtest.py:80-83 | a zero denominator leaves the numerator itself as the rate |
| TeamFeatures.RollKeys | src/nba_daily_backtest.py:88-91 | the rolling columns R5_ .. R40_, each window at least `min_periods` |
| TeamFeatures.RollingRowEntry | src/nba_daily_backtest.py:89-92 | a row's R{w}_X is present exactly when the trailing mean is defined, and equals it |
| TeamFeatures.RollingAtKthGame | src/nba_daily_backtest.py:86-92 | R{w}_X at a team's k-th game is present iff k >= 5 and is then the mean of X over that team's games max(0, k-w) .. k-1 |
| TeamFeatures.RollingTable | src/nba_daily_backtest.py:89-92 | one rolling row per stats row |
| TeamFeatures.DatedGames | src/nba_daily_backtest.py:56 | `dropna(subset=['date']).sort_values('date')`: exactly the dated games, each as often as in the input, sorted by date, and games of one date in their input order |
| TeamFeatures.EloRows | src/nba_daily_backtest.py:58-70 | row i is game i of the sorted table (id, date, teams, season, scores, spread) with `home_elo` and `away_elo` the two teams' ratings after every earlier game |
| TeamFeatures.LoadPreparedData | src/nba_daily_backtest.py:50-119 | the loader (imperative rating pass, then the column steps) returns the prepared frame |
| TeamFeatures.FinishKeepsGames | src/nba_daily_backtest.py:95-119 | the merges and the final `dropna`: every output row has a spread and the game and ratings of some rated row, and every rated row with a spread reaches the output |
| TeamFeatures.PreparedRowsComeFromGames | src/nba_daily_backtest.py:56-119 | every prepared row has a spread and carries the teams, date, scores and pre-game ratings of some dated game, and every dated game with a spread yields such a row |
| TeamFeatures.JoinSideKeepsGames | src/nba_daily_backtest.py:95-96 | a side merge only adds columns: every output row has the game of an input row |
| TeamFeatures.JoinInjuryKeepsGames | src/nba_daily_backtest.py:109-111 | the injury merge only adds columns |
| TeamFeatures.JoinSideComplete | src/nba_daily_backtest.py:95-96 | a side merge loses no game row |
| TeamFeatures.JoinInjuryComplete | src/nba_daily_backtest.py:109-111 | the injury merge loses no game row |
| TeamFeatures.FinishKeepsSpreadRow | src/nba_daily_backtest.py:95-119 | a rated row with a spread survives the merges and the final `dropna` |
| WalkForward.History | src/nba_daily_backtest.py:164 | history holds exactly the rows dated strictly before d |
| WalkForward.Today | src/nba_daily_backtest.py:165 | the slate holds exactly the rows dated d |
| WalkForward.DropMissing | src/nba_daily_backtest.py:174-175 | `dropna(subset=cols)` keeps exactly the rows with every column present |
| WalkForward.TestDates | src/nba_daily_backtest.py:146-147 | strictly increasing, and exactly the dates of test-season rows |
| WalkForward.TestDateHasGames | src/nba_daily_backtest.py:165-168 | a test date always has a non-empty slate |
| WalkForward.HistoryBeforeToday | src/nba_daily_backtest.py:164-165 | every history row is strictly earlier than every slate row, and no row is in both |
| WalkForward.SplitUsesNoLaterRows | src/nba_daily_backtest.py:164-165 | no look-ahead: two frames that agree on the rows dated on or before d split identically |
| Settlement.PickFor | src/nba_daily_backtest.py:201-206 | Home iff pred > 0.5, Away iff pred < −0.5, Pass iff −0.5 <= pred <= 0.5 |
| Settlement.HomeCovered | src/nba_daily_backtest.py:208 | covered exactly when the margin is present and above the line (NaN compares false) |
| Settlement.BetWon | src/nba_daily_backtest.py:210-215 | no outcome exactly for Pass; Home wins iff covered, Away iff not |
| Settlement.PushAndUnplayedGoAway | src/nba_daily_backtest.py:208-213 | a push and an unplayed game both settle for Away |
| Settlement.WinPct | src/nba_daily_backtest.py:256-261 | in [0, 1], 0 without bets, otherwise wins / bets |
| Settlement.RoiBounds | src/nba_daily_backtest.py:256-262 | 0 without bets, otherwise 1.9·win_pct − 1, in [−1, 0.9], reaching 0.9 when every bet wins and −1 when none does |
| Settlement.RoiMonotone | src/nba_daily_backtest.py:259 | with the same number of bets, more wins never lower the ROI |
| DailyBacktest.TrainCols | src/nba_daily_backtest.py:41-42 | `Train_Cols` is vegas_line_h, home_team, away_team, then the model's features |
| DailyBacktest.TopModelsNeedInjuryColumns | src/nba_daily_backtest.py:9-45 | every top model needs the injury columns, so without the injury file none finds its columns |
| DailyBacktest.PredictRow | src/nba_daily_backtest.py:196-228 | the log row: model, date, game, teams, line, margin, prediction, the pick rule and the settlement rule |
| DailyBacktest.ModelDay | src/nba_daily_backtest.py:171-228 | one model's rows for d: one per complete game of the slate, in order, each predicted from the complete history before d |
| DailyBacktest.ModelsDay | src/nba_daily_backtest.py:171-228 | every row the models add for d is dated d |
| DailyBacktest.AllPreds | src/nba_daily_backtest.py:163-228 | every row of the run is dated with one of the processed dates |
| DailyBacktest.AllPredsCovers | src/nba_daily_backtest.py:163-228 | every model row of every processed date is in the run's output |
| DailyBacktest.AllPredsEmpty | src/nba_daily_backtest.py:233 | no model producing a row on any date means no predictions at all |
| DailyBacktest.LastProcessed | src/nba_daily_backtest.py:133-140 | "" for an empty log, otherwise a date of the log that no other date follows |
| DailyBacktest.NewDates | src/nba_daily_backtest.py:146-151 | strictly increasing, and exactly the test dates after the last processed one (all of them when it is "") |
| DailyBacktest.Bets | src/nba_daily_backtest.py:251-253 | exactly the model's non-Pass rows of the log |
| DailyBacktest.Wins | src/nba_daily_backtest.py:257 | the won bets, never more than the bets |
| DailyBacktest.Summary | src/nba_daily_backtest.py:250-269 | bets is the count of non-Pass rows; win % in [0, 1] and ROI in [−1, 0.9]; both 0 without bets; otherwise win % is wins / bets and ROI is win % · 0.9 − (1 − win %) |
| DailyBacktest.Report | src/nba_daily_backtest.py:249-269 | one summary line per model, in model order |
| DailyBacktest.Summarize | src/nba_daily_backtest.py:249-269 | the summary loop produces `Report` |
| DailyBacktest.SummarizeModel | src/nba_daily_backtest.py:251-269 | one pass of the summary loop produces the model's `Summary` |
| DailyBacktest.PredictSlate | src/nba_daily_backtest.py:196-228 | the row loop: one prediction per test row, in order, each `PredictRow` of the model's prediction |
| DailyBacktest.RunModel | src/nba_daily_backtest.py:172-228 | one pass of the model loop succeeds iff the frame has the model's columns, and then yields `ModelDay` |
| DailyBacktest.RunDay | src/nba_daily_backtest.py:164-228 | one date succeeds iff every model finds its columns, and then yields `ModelsDay` |
| DailyBacktest.RunDates | src/nba_daily_backtest.py:163-228 | the date loop succeeds iff every model finds its columns, and then yields `AllPreds` |
| DailyBacktest.RunDailyBacktest | src/nba_daily_backtest.py:124-273 | the imperative run produces the outcome the `Backtest` function defines |
| DailyBacktest.WrittenLogAppends | src/nba_daily_backtest.py:233-247 | a written log starts with the existing rows, grows, and every appended row is dated after every existing row |
| DailyBacktest.RerunWritesNothing | src/nba_daily_backtest.py:133-155 | resuming is idempotent: a second run on the written log finds nothing new |
| DailyBacktest.ModelDayNoLookAhead | src/nba_daily_backtest.py:164-194 | no look-ahead: a model's rows for d depend only on the rows dated on or before d |
| Injury.OrZero | src/generate_injury.py:100 | `fillna(0)`: the value when present, 0 otherwise |
| Injury.RustFactor | src/generate_injury.py:18-29 | 0.7 iff the gap is over 30 days, 0.8 iff it is in (7, 30], 1.0 iff it is missing or at most 7; always in (0, 1] |
| Injury.GetRustFactor | src/generate_injury.py:24-29 | the threshold loop returns `RustFactor` |
| Injury.RustFactorMonotone | src/generate_injury.py:18-29 | a longer gap never gives a larger factor |
| Injury.PlayerStats | src/generate_injury.py:41-53 | every merged row comes from an advanced and a base row of the same game and player, both with MIN > 0 |
| Injury.PlayerStatsComplete | src/generate_injury.py:41-53 | every such pair of rows is merged |
| Injury.SortedStats | src/generate_injury.py:57 | sorted by player then date, and a permutation of the merged rows |
| Injury.DaysSinceLast | src/generate_injury.py:64-65 | present exactly when the player has an earlier row and both dates exist; then the day difference to the previous row |
| Injury.TrailingMap | src/generate_injury.py:79-90 | one entry per metric whose trailing mean (min_periods 1) is defined, equal to it |
| Injury.PlayerGames | src/generate_injury.py:64-90 | per row: the gap, its rust factor in (0, 1], and the r20 and r50 trailing means |
| Injury.R20Window | src/generate_injury.py:79-81 | X_r20 at a player's k-th row is present iff k >= 1 and is then the mean over that player's rows max(0, k-20) .. k-1 |
| Injury.FirstAppearance | src/generate_injury.py:64-90 | a player's first row has factor 1 and no trailing means |
| Injury.AdjOver | src/generate_injury.py:97-100 | the rust-adjusted column of each metric listed, and no other |
| Injury.AddRustAdj | src/generate_injury.py:97-100 | the column loop sets every row's rust-adjusted values |
| Injury.RustAdjBounded | src/generate_injury.py:100 | 0 without an r20 value; otherwise between 0 and the r20 value |
| Injury.Sums | src/generate_injury.py:104-109 | one sum per metric over the given rows; the missing-production sums of lines 156-159 use the same definition |
| Injury.ActiveTable | src/generate_injury.py:104-109 | one row per (game, team) of the player rows and no other key, no key twice, each the sum of its players' rust-adjusted values |
| Injury.LookupTable | src/generate_injury.py:117-119 | exactly the dated rows, sorted by date |
| Injury.DatedInactives | src/generate_injury.py:125-145 | sorted by game date; each inactive record appears once per game row of its game with a date, with that date (`DatedInactive(x, d)` occurs count(x) × the number of game rows of its game dated d), so every inactive player of a dated game is kept and nothing else is |
| Injury.LeftJoinCount | src/generate_injury.py:137 | the left merge on `game_id` pairs each occurrence of a record with every game row of its game, one output per pair |
| Injury.AsOf | src/generate_injury.py:148-154 | `merge_asof(direction='backward')`: no match exactly when the player has no row dated on or before the game; a match is such a row |
| Injury.AsOfIsLatest | src/generate_injury.py:148-154 | the match is the player's latest row on or before the game date, never a later row |
| Injury.MissingRowOf | src/generate_injury.py:156-162 | the r20 and r50 sums of the (game, team)'s inactive players |
| Injury.MissingTable | src/generate_injury.py:156-162 | one row per (game, team) of the inactive records and no other key, no key twice, each its `MissingRowOf` |
| Injury.UnmatchedContributesNothing | src/generate_injury.py:148-162 | a player without an earlier dated row adds 0 to the missing production |
| Injury.TeamsMap | src/generate_injury.py:172 | exactly the (team id, abbreviation) pairs of the base box scores |
| Injury.AddSide | src/generate_injury.py:181-199 | a side merge keeps the game, adds the partner's values to that side only, and changes nothing without a partner |
| Injury.MergeSide | src/generate_injury.py:181-199 | `merge_side_features`: never fewer rows, no new game; with no (game, abbreviation) key repeated, row i is game row i with the values of its own side team's feature row added, or unchanged when that team has none |
| Injury.SideMatch | src/generate_injury.py:181-199 | the feature row of a game's team on one side: absent exactly when no row has that game and abbreviation, otherwise such a row |
| Injury.LookupIsSideMatch | src/generate_injury.py:181-199 | a game row's merge partner depends on its game only, and with no key repeated there is at most one |
| Injury.MergedGames | src/generate_injury.py:202-206 | no game that is not in the games table; with no key repeated in either feature table, one row per game, each side holding its team's active values merged with its missing values |
| Injury.DiffMap | src/generate_injury.py:209-215 | one difference per base feature, each home minus away with missing values read as 0 |
| Injury.DiffColumns | src/generate_injury.py:213-215 | the column loop sets every row's differences to `DiffMap` |
| Injury.DiffSwapNegates | src/generate_injury.py:215 | swapping the two sides negates every difference |
| Injury.UnmatchedGameHasZeroDiffs | src/generate_injury.py:209-215 | a game with no feature row on either side has every difference 0 |
| Injury.GenerateFeatures | src/generate_injury.py:31-218 | the imperative steps produce the table `InjuryFeatures` defines |
| Injury.InjuryRowsComplete | src/generate_injury.py:169-215 | at least one written row per game, and every row has every feature's difference |
| AdvancedElo.RowTeams | src/v2_daily_backtest_test.py:66 | every home and away team of the table is rated |
| AdvancedElo.StartRatings | src/v2_daily_backtest_test.py:66 | exactly the teams of the table, each at 1500 |
| AdvancedElo.RegressOne | src/v2_daily_backtest_test.py:74 | `0.75·x + 0.25·1505`: the distance to 1505 is scaled by 0.75 |
| AdvancedElo.Regressed | src/v2_daily_backtest_test.py:73-74 | the season regression keeps the teams and regresses each rating |
| AdvancedElo.RegressAll | src/v2_daily_backtest_test.py:73-74 | the loop over the rating dictionary yields `Regressed` of the old ratings |
| AdvancedElo.MovMultiplier | src/v2_daily_backtest_test.py:85-86 | `log(|margin| + 1)` for a non-zero margin and 1 for a zero margin |
| AdvancedElo.Update | src/v2_daily_backtest_test.py:81-90 | one row's update keeps the set of rated teams |
| AdvancedElo.EnterSeason | src/v2_daily_backtest_test.py:71-75 | the first row and a row of the current season leave the ratings alone; a new season regresses all of them; the season is remembered |
| AdvancedElo.StateAfter | src/v2_daily_backtest_test.py:70-90 | the state after a prefix of rows rates the same teams as the start state |
| AdvancedElo.Rated | src/v2_daily_backtest_test.py:77-79 | a row's emitted ratings are those of its teams after the season check and before its own update |
| AdvancedElo.AdvancedRows | src/v2_daily_backtest_test.py:59-95 | one output row per input row, in date and game order: row i is row i of the sorted table with only its two ratings replaced, by those of `Rated` |
| AdvancedElo.AdvancedRowsKeepRows | src/v2_daily_backtest_test.py:59-95 | every input row is in the output with only its ratings changed |
| AdvancedElo.AdvancedRowsFromRows | src/v2_daily_backtest_test.py:59-95 | every output row is an input row with only its ratings changed |
| AdvancedElo.ApplyRow | src/v2_daily_backtest_test.py:81-90 | the in-loop update equals `Update` |
| AdvancedElo.EnterSeasonStep | src/v2_daily_backtest_test.py:71-75 | the in-loop season check equals `EnterSeason` |
| AdvancedElo.RateRow | src/v2_daily_backtest_test.py:70-90 | one loop iteration advances the state from prefix i to prefix i+1 and emits `Rated` of row i |
| AdvancedElo.RateNext | src/v2_daily_backtest_test.py:70-90 | one loop iteration keeps the loop invariant: state and emitted rows match the first i+1 rows |
| AdvancedElo.ApplyAdvancedElo | src/v2_daily_backtest_test.py:59-95 | the whole pass over the date-sorted table equals `AdvancedRows` |
| AdvancedElo.RegressionShrinksDistance | src/v2_daily_backtest_test.py:74 | the regression moves every rating towards 1505 and never past it |
| AdvancedElo.UpdateWinnerGains | src/v2_daily_backtest_test.py:81-90 | with a recorded margin the winner gains and the loser loses, whatever the multiplier |
| AdvancedElo.UnscoredRowChangesNothing | src/v2_daily_backtest_test.py:81 | a row without `real_diff` leaves every rating unchanged |
| AdvancedElo.UpdateZeroSum | src/v2_daily_backtest_test.py:88-90 | an update moves the two ratings by opposite amounts, so the league total is unchanged |
| AdvancedElo.RegressedTotal | src/v2_daily_backtest_test.py:73-74 | the regression scales the league total by 0.75 and adds 0.25·1505 per team |
| AdvancedElo.LeagueTotalBounded | src/v2_daily_backtest_test.py:70-90 | the league total stays between 1500 and 1505 per team over any run of rows |
| AdvancedElo.StartTotal | src/v2_daily_backtest_test.py:66 | the starting league total is 1500 per team |
| AdvancedElo.LeagueTotalBeforeEachRow | src/v2_daily_backtest_test.py:77-79 | the ratings any row sees sum to between 1500 and 1505 per team |
| SignBacktest.SameSign | src/v2_daily_backtest_test.py:156 | correct exactly when the actual residual is known and the product with the prediction is strictly positive |
| SignBacktest.IsBet | src/v2_daily_backtest_test.py:161 | a bet exactly when the daily backtest would not pass on the prediction |
| SignBacktest.RowTally | src/v2_daily_backtest_test.py:155-164 | one game; correct iff same sign; a bet iff over the threshold; won iff both |
| SignBacktest.SlateTally | src/v2_daily_backtest_test.py:151-164 | one counted game per slate row, with consistent counters |
| SignBacktest.FitCols | src/v2_daily_backtest_test.py:129-130 | the columns that must be present: the model's features, plus `target_residual` when the driver requires it |
| SignBacktest.ModelDay | src/v2_daily_backtest_test.py:126-164 | what one model adds on one date satisfies won ≤ bets ≤ games, won ≤ correct ≤ games |
| SignBacktest.ModelDayCountsSlate | src/v2_daily_backtest_test.py:130-158 | one counted game per complete row of the date's slate |
| SignBacktest.DayFor | src/v2_daily_backtest_test.py:126-164 | the day's contribution to a model name is consistent |
| SignBacktest.NameTally | src/v2_daily_backtest_test.py:119-164 | the contribution of all dates to a model name is consistent |
| SignBacktest.ReportRowOf | src/v2_daily_backtest_test.py:171-178 | win rates are the ratios (0 with no games or bets), ROI = 0.9·p − (1 − p) lies in [−1, 0.9] and is 0 without bets |
| SignBacktest.Walked | src/v2_daily_backtest_test.py:109 | the table sorted by date and game id, a permutation of its rows |
| SignBacktest.SignReport | src/v2_daily_backtest_test.py:169-187 | one report row per model |
| SignBacktest.SignRun | src/v2_daily_backtest_test.py:104-187 | no data exactly when the table is empty; a `KeyError` exactly when some row is in the test season and some model lists a column the frame lacks; otherwise the report of `SignReport` |
| SignBacktest.HasTestDate | src/v2_daily_backtest_test.py:111-112 | the test-date list is non-empty exactly when some row is in the test season |
| SignBacktest.SignRunReports | src/v2_daily_backtest_test.py:104-187 | a non-empty frame with every injury column merged is always reported |
| SignBacktest.SignRunMissingColumn | src/v2_daily_backtest_test.py:129-130 | a model listing an injury column the frame lacks stops a run that has a test-season row |
| SignBacktest.ScoreRow | src/v2_daily_backtest_test.py:155-164 | the counter updates of one game add `RowTally` |
| SignBacktest.ScoreSlate | src/v2_daily_backtest_test.py:151-164 | the loop over the slate adds `SlateTally` |
| SignBacktest.InitialStats | src/v2_daily_backtest_test.py:116 | one zeroed counter set per model name and no other names |
| SignBacktest.RunModel | src/v2_daily_backtest_test.py:127-164 | fails exactly when the model's `dropna` names a column the frame lacks; otherwise training, predicting and scoring one model on one date adds `ModelDay` |
| SignBacktest.RunDate | src/v2_daily_backtest_test.py:126-164 | fails exactly when some model lacks a column; otherwise every model name's counters grow by that date's `DayFor` and no name is added |
| SignBacktest.RunOneDate | src/v2_daily_backtest_test.py:119-164 | one iteration of the date loop: an empty slate is skipped before any `dropna`; otherwise it fails exactly when some model lacks a column, and else grows every name by `DayFor` |
| SignBacktest.Summarize | src/v2_daily_backtest_test.py:169-187 | one report row per model, in model order, computed by `ReportRowOf` from its counters |
| SignBacktest.RunDates | src/v2_daily_backtest_test.py:116-164 | the date loop fails exactly when there is a date and some model lacks a column; otherwise every name's counters are `NameTally` over all test dates |
| SignBacktest.RunSignBacktest | src/v2_daily_backtest_test.py:100-189 | the imperative driver, `KeyError` included, produces `SignRun` |
| SignBacktest.EmptySlateAddsNothing | src/v2_daily_backtest_test.py:123-124 | a date without games adds nothing to any model |
| SignBacktest.SameSignSymmetric | src/v2_daily_backtest_test.py:156 | negating both prediction and outcome does not change correctness |
| SignBacktest.ZeroIsNeverCorrect | src/v2_daily_backtest_test.py:156 | a zero prediction or a zero residual is never counted correct |
| SignBacktest.AgreesWithSpreadSettlement | src/v2_daily_backtest_test.py:161-164 | for a bet with a non-zero residual, sign-correctness is the daily backtest's settlement of the same pick; at a push this scoring counts a miss while the settlement favours the away pick |
| SignBacktest.MissingTargetCountsAsMiss | src/top10_daily_backtest.py:116-127 | a slate row without a target residual counts as a game, never as correct or won |
| SignBacktest.SlateTallyConcat | src/v2_daily_backtest_test.py:151-164 | scoring two slates one after the other adds their tallies |
| SignBacktest.RequiredTargetAlwaysKnown | src/v2_daily_backtest_test.py:129-130 | with the target required, as in the v2 driver and in `src/rf_daily_backtest_test.py:77-78`, every scored row has a known residual |
| SignBacktest.ModelDayNoLookAhead | src/v2_daily_backtest_test.py:120-121 | a day's result depends only on rows up to that date |
| V2Backtest.WithBase | src/v2_daily_backtest_test.py:53-54 | the model's features are the two base features followed by its own list |
| V2Backtest.TopThreeModels | src/v2_daily_backtest_test.py:19-54 | one model per listed specification |
| V2Backtest.AssembleModels | src/v2_daily_backtest_test.py:53-54 | the loop gives every specification its base features |
| V2Backtest.V2Run | src/v2_daily_backtest_test.py:100-189 | no data exactly when the loaded table is empty; a `KeyError` exactly when it has a test-season row and a model lacks a column; otherwise the sign report of the re-rated table with the target required |
| V2Backtest.ReRatedSeasons | src/v2_daily_backtest_test.py:108-111 | the re-rated table has a test-season row exactly when the loaded one does |
| V2Backtest.V2NeedsInjuryFile | src/v2_daily_backtest_test.py:129-130 | without the injury file a table with a test-season row ends in a `KeyError` |
| V2Backtest.RunV2DailyBacktest | src/v2_daily_backtest_test.py:100-195 | the driver, `KeyError` included, produces `V2Run`: the advanced-Elo table scored with the three models and the target required |
| V2Backtest.TopThreeShape | src/v2_daily_backtest_test.py:19-54 | every model starts with the base features and needs an injury column, so a table without it has none of them |
| FeatureBlocks.BlockOf | src/exhaustive_search.py:22-34 | the block a column belongs to, when it belongs to one |
| FeatureBlocks.BlockOfIsBlock | src/exhaustive_search.py:22-34 | no column is listed under two blocks: a block's column maps back to that block |
| FeatureBlocks.BlockSize | src/exhaustive_search.py:22-34 | the number of columns a block contributes |
| FeatureBlocks.Expand | src/exhaustive_search.py:67-69 | the two base features first, then as many columns as the chosen blocks hold together |
| FeatureBlocks.ExpandBlocks | src/top10_daily_backtest.py:51-55 | the copy-and-extend loop produces `Expand` of the combination |
| FeatureBlocks.ExpandMembership | src/exhaustive_search.py:67-69 | a column is in the expansion exactly when it is a base feature or belongs to a chosen block |
| FeatureBlocks.BlockFeaturesUnique | src/exhaustive_search.py:22-34 | no block lists a column twice |
| FeatureBlocks.ExpandUnique | src/exhaustive_search.py:67-69 | distinct blocks expand to a feature list without repeated columns |
| FeatureBlocks.BlockIndex | src/exhaustive_search.py:59 | the position of a block in `list(FEATURE_BLOCKS.keys())` |
| Top10Backtest.ComboModel | src/top10_daily_backtest.py:51-55 | a combination's model carries its name and the expansion of its blocks |
| Top10Backtest.TopTenModels | src/top10_daily_backtest.py:35-55 | one model per listed combination, in order |
| Top10Backtest.BuildModels | src/top10_daily_backtest.py:51-55 | the loop over the combinations gives each its expanded features |
| Top10Backtest.Top10Run | src/top10_daily_backtest.py:60-153 | no data exactly when the loaded table is empty; a `KeyError` exactly when it has a test-season row and one of the ten models lacks a column; otherwise the sign report of the ten models on the loaded table, target not required |
| Top10Backtest.Top10NeedsInjuryFile | src/top10_daily_backtest.py:94-95 | without the injury file a table with a test-season row ends in a `KeyError` |
| Top10Backtest.RunTop10DailyBacktest | src/top10_daily_backtest.py:60-153 | the driver, `KeyError` included, produces `Top10Run` on the ten models without requiring the target |
| Top10Backtest.AscendingUnique | src/top10_daily_backtest.py:35-48 | blocks listed in dictionary order are distinct |
| Top10Backtest.SevenBlockRanksAscending | src/top10_daily_backtest.py:37-41 | the five combinations of the first group list their blocks in dictionary order |
| Top10Backtest.ElevenBlockRanksAscendingFirst | src/top10_daily_backtest.py:43-44 | the first two combinations of the second group list their blocks in dictionary order |
| Top10Backtest.ElevenBlockRanksAscendingLast | src/top10_daily_backtest.py:45-47 | the last three combinations of the second group list their blocks in dictionary order |
| Top10Backtest.ComboFeaturesUnique | src/top10_daily_backtest.py:51-55 | a combination in dictionary order trains on no column twice |
| Top10Backtest.TopTenFeaturesUnique | src/top10_daily_backtest.py:35-55 | none of the ten models trains on a column twice |
| RfBacktest.RfRun | src/rf_daily_backtest_test.py:48-137 | no data exactly when the loaded table is empty; a `KeyError` exactly when it has a test-season row and a forest lacks a column; otherwise the sign report of the two forests on the loaded table, target required |
| RfBacktest.RfNeedsInjuryFile | src/rf_daily_backtest_test.py:77-78 | without the injury file a table with a test-season row ends in a `KeyError` |
| RfBacktest.RunRfDailyBacktest | src/rf_daily_backtest_test.py:48-137 | the driver, `KeyError` included, produces `RfRun` on the two forests with the target required |
| RfBacktest.RfUsesNoTeamColumns | src/rf_daily_backtest_test.py:19-43 | neither forest trains on a team name |
| ExhaustiveSearch.CheckColsCover | src/exhaustive_search.py:45-46 | the check columns are every block column plus target, line and margin |
| ExhaustiveSearch.ValidCols | src/exhaustive_search.py:48 | exactly the check columns the table has |
| ExhaustiveSearch.CleanRows | src/exhaustive_search.py:50 | exactly the rows with a value in every valid column |
| ExhaustiveSearch.TrainRows | src/exhaustive_search.py:53 | exactly the clean rows outside the test season |
| ExhaustiveSearch.TestRows | src/exhaustive_search.py:54 | exactly the clean rows of the test season |
| ExhaustiveSearch.SplitPartitions | src/exhaustive_search.py:53-54 | the two sets together are the clean rows, each row once |
| ExhaustiveSearch.CleanRowsSettle | src/exhaustive_search.py:46-50 | a clean row has a margin, a line and a target residual |
| Combinatorics.Prepend | src/exhaustive_search.py:62 | prefixing a block to each combination of the rest |
| Combinatorics.CombinationsCount | src/exhaustive_search.py:62 | `itertools.combinations(xs, r)` yields C(n, r) tuples |
| Combinatorics.PrependMembership | src/exhaustive_search.py:62 | a prefixed combination is one whose head is the block and whose tail is in the list |
| Combinatorics.CombinationsMembership | src/exhaustive_search.py:62 | the combinations of size r are exactly the order-preserving subsequences of length r |
| Combinatorics.CombinationsUnique | src/exhaustive_search.py:62 | distinct blocks give no combination twice |
| Combinatorics.CombinationsTooMany | src/exhaustive_search.py:62 | more blocks than available gives no combination |
| Combinatorics.CombinationsOfAll | src/exhaustive_search.py:62 | choosing all blocks gives one combination |
| Combinatorics.CombinationsLeavingOne | src/exhaustive_search.py:62 | choosing all but one gives n combinations |
| Combinatorics.CombinationsLeavingTwo | src/exhaustive_search.py:62 | choosing all but two gives n(n−1)/2 combinations |
| Combinatorics.CombinationsLeavingThree | src/exhaustive_search.py:62 | choosing all but three gives n(n−1)(n−2)/6 combinations |
| Combinatorics.FirstCombination | src/exhaustive_search.py:62 | the first tuple `itertools.combinations(xs, r)` yields is the first r elements |
| ExhaustiveSearch.BlockOrderShape | src/exhaustive_search.py:22-34 | eleven distinct blocks, both injury blocks among them |
| ExhaustiveSearch.BetweenStep | src/exhaustive_search.py:61-62 | extending the size range by one appends the combinations of the new size |
| ExhaustiveSearch.EightOfEleven | src/exhaustive_search.py:61-62 | 165 combinations of 8 blocks out of 11 |
| ExhaustiveSearch.NineOfEleven | src/exhaustive_search.py:61-62 | 55 combinations of 9 blocks out of 11 |
| ExhaustiveSearch.AllCombinationsCount | src/exhaustive_search.py:59-62 | 232 combinations of 8 to 11 blocks |
| ExhaustiveSearch.AllCombinationsUnique | src/exhaustive_search.py:59-62 | no combination is tried twice |
| ExhaustiveSearch.AllCombinationsMembership | src/exhaustive_search.py:59-62 | a combination is tried exactly when it is an in-order choice of 8 to 11 blocks |
| ExhaustiveSearch.BuildAllCombinations | src/exhaustive_search.py:60-62 | the extend loop over r = 8..11 produces `AllCombinations` |
| ExhaustiveSearch.NoCheckpointSave | src/exhaustive_search.py:133-135 | with 232 combinations the every-500 checkpoint never fires |
| ExhaustiveSearch.Covered | src/exhaustive_search.py:105 | the home side covered exactly when the margin is known and strictly above the line |
| ExhaustiveSearch.RowScore | src/exhaustive_search.py:97-110 | a bet exactly above +0.5 or below −0.5; won exactly on a covered home pick or an uncovered away pick |
| ExhaustiveSearch.Tally | src/exhaustive_search.py:89-110 | wins ≤ bets ≤ test rows |
| ExhaustiveSearch.NoConfidentPickNoBets | src/exhaustive_search.py:97-102 | predictions within ±0.5 on every row give no bet and no win |
| ExhaustiveSearch.WinIsTargetSide | src/exhaustive_search.py:105-110 | on a clean row covering is a positive target residual, so a home bet wins iff the residual is positive and an away bet iff it is not |
| ExhaustiveSearch.ScoreCombo | src/exhaustive_search.py:89-110 | the scoring loop computes `Tally` |
| ExhaustiveSearch.ResultFor | src/exhaustive_search.py:113-130 | the result record: 1-based id, block and feature counts, joined name, bets, rounded percent win rate and ROI (0 without bets) |
| ExhaustiveSearch.ScanCombos | src/exhaustive_search.py:65-130 | a completed scan has one result per combination, with ids 1, 2, … in order |
| ExhaustiveSearch.Search | src/exhaustive_search.py:36-140 | no data exactly for an empty table; the corrected search never fails on the results list |
| ExhaustiveSearch.SearchAsWritten | src/exhaustive_search.py:36-138 | no data exactly for an empty table; never a ranked table; a KeyError only on the first combination, when the frame lacks one of its columns |
| ExhaustiveSearch.KeyOrder | src/exhaustive_search.py:139 | the sort key orders by ROI descending, then win rate descending |
| ExhaustiveSearch.RankKeySortedDescending | src/exhaustive_search.py:139 | a table sorted by the key has ROI non-increasing, ties broken by win rate non-increasing |
| ExhaustiveSearch.RankedDescending | src/exhaustive_search.py:138-139 | the final table is the scan's results reordered, by ROI then win rate, descending |
| ExhaustiveSearch.ExpandHasColumns | src/exhaustive_search.py:83-86 | with the injury columns present every expansion can be selected |
| ExhaustiveSearch.ScanSucceeds | src/exhaustive_search.py:65-130 | with the injury columns present the scan completes |
| ExhaustiveSearch.ScanFails | src/exhaustive_search.py:83 | a combination whose column is missing makes the scan fail |
| ExhaustiveSearch.SearchRanksEveryCombination | src/exhaustive_search.py:59-140 | with 11 blocks and the injury columns the corrected search ranks all 232 combinations |
| ExhaustiveSearch.InjuryBlockOf | src/exhaustive_search.py:32-33 | the injury block that lists a given injury column |
| ExhaustiveSearch.FullComboNeedsInjuryColumn | src/exhaustive_search.py:83 | the all-blocks combination needs every injury column |
| ExhaustiveSearch.FullComboListed | src/exhaustive_search.py:61-62 | the all-blocks combination is tried |
| ExhaustiveSearch.SearchNeedsInjuryColumns | src/exhaustive_search.py:83 | a table missing an injury column makes the search fail on a missing column |
| ExhaustiveSearch.AsWrittenNeverRanks | src/exhaustive_search.py:122 | as written every non-empty table ends in the append's NameError, whatever injury columns it has; with the injury columns the corrected search ranks it |
| ExhaustiveSearch.AsWrittenReachesAppend | src/exhaustive_search.py:83-122 | a non-empty table with the first combination's columns reaches the append and raises |
| ExhaustiveSearch.AsWrittenKeyErrorAsIntended | src/exhaustive_search.py:65-83 | where the search as written stops on a KeyError, the corrected search stops on the same combination |
| ExhaustiveSearch.ScanFailsFirst | src/exhaustive_search.py:65-83 | a first combination missing a column fails the scan on that combination |
| ExhaustiveSearch.FirstComboTried | src/exhaustive_search.py:58-65 | the first combination tried is the first eight blocks |
| ExhaustiveSearch.FirstComboHasColumns | src/exhaustive_search.py:22-34 | the first eight blocks name no injury column, so every table has their columns |
| ExhaustiveSearch.NoInjuryBlockHasColumns | src/exhaustive_search.py:22-34 | a combination without the two injury blocks needs no injury column |
| ExhaustiveSearch.ScanNext | src/exhaustive_search.py:65-130 | one iteration extends the scan by one combination or fails on it |
| ExhaustiveSearch.HasColumnsCheck | src/exhaustive_search.py:83 | the column check is `HasColumns` |
| ExhaustiveSearch.ScanLoop | src/exhaustive_search.py:65-130 | the combination loop computes `ScanCombos` |
| ExhaustiveSearch.RunExhaustiveSearch | src/exhaustive_search.py:36-140 | the imperative search computes `Search` |
| ExhaustiveSearch.ScanFailedStays | src/exhaustive_search.py:83 | once failed, later combinations do not change the outcome |
| FetchOdds.DigitsEnd | src/fetch_odds.py:117 | the end of the run of digits starting at a position |
| FetchOdds.MatchAt | src/fetch_odds.py:117 | a match of `[-+]?\d+\.\d+\|[-+]?\d+` at a position is non-empty and inside the text |
| FetchOdds.TokensSplit | src/fetch_odds.py:117 | a separator that is not part of a number splits the matches: the matches of the two sides, in order |
| FetchOdds.TokensOfNumeral | src/fetch_odds.py:117 | a numeral on its own is matched whole, as one number |
| FetchOdds.TokensRoundTrip | src/fetch_odds.py:117 | numerals joined by spaces are found again, the same ones in the same order |
| FetchOdds.NoDigitNoTokens | src/fetch_odds.py:117 | text without digits holds no number |
| FetchOdds.Numbers | src/fetch_odds.py:126-130 | one value per matched numeral |
| FetchOdds.CloseAt | src/fetch_odds.py:114 | the first `)` on the same line: none of the skipped characters is `)` or a line break |
| FetchOdds.ParenSegmentRemoved | src/fetch_odds.py:114 | the lazy `\(.*?\)` removes a parenthesised detail and keeps what precedes it |
| FetchOdds.NbspRemoved | src/fetch_odds.py:114 | `replace('&nbsp;', '')` removes an occurrence and keeps what precedes it |
| FetchOdds.StripKeepsNumbers | src/fetch_odds.py:114-117 | `strip()` never changes the numbers found |
| FetchOdds.ParenDetailIgnored | src/fetch_odds.py:114 | a parenthesised detail does not survive the cleaning |
| FetchOdds.ParseCell | src/fetch_odds.py:103-148 | an empty, `-` or unopened cell gives nothing; without numbers only PK gives line 0; PK always forces line 0; the odds are the last of two or more numbers, the single number when it is at most 50 and not 0, and otherwise absent |
| FetchOdds.ParseCellCases | src/fetch_odds.py:112-148 | every case of an opened cell: no number gives nothing (line 0 with PK); one number above 50 or 0 is a line, any other is odds; with two or more the last is odds and the one before it the line; PK replaces the line by 0 and leaves the odds |
| FetchOdds.PkWithoutNumbers | src/fetch_odds.py:122-124 | with no numbers there are no odds, and a line (0) exactly when the text says PK |
| FetchOdds.ParseCellIgnoresDetail | src/fetch_odds.py:114 | a settled-result detail in parentheses does not change the parse |
| FetchOdds.FloatsOf | src/fetch_odds.py:127-130 | the conversion loop gives one value per numeral, each its numeric value |
| FetchOdds.ParseCellRobust | src/fetch_odds.py:103-148 | the imperative parser computes `ParseCell` |
| FetchOdds.Abs | src/fetch_odds.py:155 | non-negative and equal to the value or its negation |
| FetchOdds.ParseTot | src/fetch_odds.py:150-156 | empty text gives nothing and no over; over exactly when the text has 大; odds as parsed; the line present exactly when parsed, and then its absolute value |
| FetchOdds.DatePart | src/fetch_odds.py:64-65 | the part before the first `T`: a prefix without `T` |
| FetchOdds.DatePartDropsTime | src/fetch_odds.py:64-65 | a date followed by `T` and a time gives the date |
| FetchOdds.DateRange | src/fetch_odds.py:62-70 | nothing when either date does not parse; otherwise the days from start to end inclusive, one apart, and none when the end is earlier |
| FetchOdds.Codes | src/fetch_odds.py:82-83 | the given code first, then its aliases |
| FetchOdds.FirstHitIsFirst | src/fetch_odds.py:92-98 | the search finds nothing exactly when no query does, otherwise the answer of the first query that finds a game |
| FetchOdds.FirstHitConcat | src/fetch_odds.py:92-98 | searching two query lists in turn is searching the first, then the second only when the first finds nothing |
| FetchOdds.GridHas | src/fetch_odds.py:86-93 | the nested loops query exactly every offset, home code and away code combination |
| FetchOdds.GridLength | src/fetch_odds.py:86-93 | the nested loops make offsets × home codes × away codes queries |
| FetchOdds.CandidateOrder | src/fetch_odds.py:82-93 | 3 × home codes × away codes queries, the first being the given codes one day earlier, covering offsets 1, 0 and 2 with every alias |
| FetchOdds.OffsetsInOrder | src/fetch_odds.py:86 | every query with offset 1 comes before every one with offset 0, which come before those with offset 2 |
| FetchOdds.FindGameSpec | src/fetch_odds.py:72-101 | a bad date is the only failure; not found exactly when no query finds a game; a found id is a game of an alias pair zero to two days before the date |
| FetchOdds.SearchAways | src/fetch_odds.py:93-98 | the inner loop returns the first hit among the away codes |
| FetchOdds.SearchGrid | src/fetch_odds.py:86-98 | the nested loops return the first hit in query order |
| FetchOdds.FindGameInDb | src/fetch_odds.py:72-101 | the imperative lookup computes `FindGame` |
| GamesTable.DedupSpec | src/init_games_table.py:62 | `drop_duplicates`: no key twice, every key kept, and each kept row is the first row with its key |
| GamesTable.MergedHasBothSides | src/init_games_table.py:65-73 | every merged game comes from a `vs.` row and an `@` row of the same id, with their teams and scores |
| GamesTable.MergedPairsEverySide | src/init_games_table.py:68-73 | every home row meets every away row of its game |
| GamesTable.OneSidedGameDropped | src/init_games_table.py:68-73 | a game with no away row is not merged |
| GamesTable.Padded | src/init_games_table.py:74 | only the id changes; ten characters when it was shorter, unchanged otherwise |
| GamesTable.PaddedKeepsDigits | src/init_games_table.py:74 | a short numeric id gets zeros in front and keeps its digits |
| GamesTable.NewGames | src/init_games_table.py:78-82 | no new game has an id the table already has |
| GamesTable.ToInsert | src/init_games_table.py:93-96 | a tuple exactly when both scores are numbers, with the game's id, teams and scores and no odds |
| GamesTable.InsertRows | src/init_games_table.py:91-96 | one tuple per new game when every score is a number, an error exactly when some score is missing |
| GamesTable.BuildInsertRows | src/init_games_table.py:91-96 | the tuple loop computes `InsertRows` |
| GamesTable.ErrorStays | src/init_games_table.py:95 | once a score fails the rest of the loop does not matter |
| GamesTable.InsertOrIgnore | src/init_games_table.py:98-102 | existing rows are never overwritten; afterwards the keys are the old ones plus the inserted ids |
| GamesTable.InsertFirstWins | src/init_games_table.py:98-102 | of several tuples with one new id the first is stored |
| GamesTable.Sync | src/init_games_table.py:56-105 | empty source exactly when no box-score rows; a sync keeps every existing row and inserts as many games as are new |
| GamesTable.InitGamesTable | src/init_games_table.py:56-105 | the imperative steps compute `Sync` |
| GamesTable.SyncedRows | src/init_games_table.py:91-102 | after a sync each new game is stored with its scores and no odds |
| GamesTable.InsertIdsAreGameIds | src/init_games_table.py:91-96 | the inserted ids are exactly the new games' ids |
| GamesTable.SyncedKeys | src/init_games_table.py:98-102 | after a sync the table's keys are the old ones plus the new ids |
| GamesTable.PaddedInTable | src/init_games_table.py:74-102 | after a sync every merged game is in the table under its padded id |
| GamesTable.SyncIdempotent | src/init_games_table.py:84-87 | running the sync again on its own result finds the table up to date |

## Left out

- Network crawling (`crawl_odds_incremental` in `src/fetch_odds.py`, `src/fetch_data.py`, `src/fetch_inactive_players.py`, `src/test_fetch.py`) and the proxy setup: I/O with no deterministic logic to model. These files are not part of this model.
- SQLite and CSV access (`update_db`, `get_db_date_range`, `get_db_connection`, `pd.read_sql`, `read_csv`, `to_csv`, the `CREATE TABLE` statement, the missing-database check at `src/init_games_table.py:13-15`): the tables come in as sequences or maps and the results go out as values. The `games` lookup of `find_game_in_db` is the parameter `db(home, away, day)`, which stands for the `date LIKE 'YYYY-MM-DD%'` query and its first row.
- `src/prepare_data.py`, `src/train_deploy.py`, `src/exhaustive_search_v2.py` and `src/run_pipeline.py`: download, model-saving and orchestration wrappers, not part of this model.
- CatBoost and the random forest: they are one opaque `predict(train, columns, row)` parameter. Nothing is claimed about the values it returns.
- The random 90/10 `train_test_split` of the daily backtest: the predictor receives the complete history, and any split it makes is its own business.
- ExhaustiveSearch.AsWrittenNeverRanks, ExhaustiveSearch.SearchAsWritten and ExhaustiveSearch.Search: `predict` is total, so fitting on an empty training set is not modelled. In `src/exhaustive_search.py:83` CatBoost raises when every clean row is in the test season, before the append at line 122; the model answers the NameError (as written) or a ranking (corrected) for such a table.
- DailyBacktest.ModelDay and SignBacktest.ModelDay: `predict` is total, so the failures of fitting on too little history are not modelled. `train_test_split(test_size=0.1)` at `src/nba_daily_backtest.py:180` raises a `ValueError` on a complete history of fewer than two rows, and the `fit` calls of `src/v2_daily_backtest_test.py:148`, `src/top10_daily_backtest.py:110` and `src/rf_daily_backtest_test.py:97` raise on an empty one; the model predicts on every test date.
- Floating point: numbers are `real`s. Nothing bit-exact is claimed. `10 ** x` in the logistic score and `np.log` are parameters whose ranges are stated as types.
- `round(x, 2)` in the exhaustive search is the parameter `round`. The percent-string formatting of the reports is not modelled: their fields are the underlying ratios.
- The report sorts by formatted ROI string in `src/nba_daily_backtest.py:272`, `src/v2_daily_backtest_test.py:189`, `src/top10_daily_backtest.py:152` and `src/rf_daily_backtest_test.py:136`. These sorts compare text, not numbers. The model's reports list the models in configuration order and claim no ranking.
- `sort_values` with a single key uses an unstable sort in pandas, while the model's sort is stable. Rows with equal keys may therefore come out in another order than pandas gives them.
- The null-date `dropna` of the sign-scoring drivers (`src/rf_daily_backtest_test.py:56`) is not modelled: a prepared row always carries a date string.
- `strptime` and `pd.to_datetime`: date parsing is a parameter (`DayParser`, `CompactDayParser`) that maps a string to a day number or to nothing where Python raises. `strftime` is folded into the day arithmetic of `db`.
- `date_range` is a generator; `FetchOdds.DateRange` returns the whole list of days at once.
- `upper()` and `\d` are modelled on ASCII only: Unicode case mapping and non-ASCII digits are not modelled.
- The `except: pass` branch of the `float()` loop in `parse_cell_robust` cannot be reached, because every regular-expression match is a valid numeral. `FetchOdds.FloatsOf` therefore has no failing branch.
- Timing (`time.time`, `start_time`, the elapsed minutes), `tqdm`, `time.sleep` and every `print`.
- FetchOdds.SearchGrid: the two inner loops of `find_game_in_db` are the helper method `SearchAways` and the early `return` of each loop is a `return` from its method; the order of the queries is unchanged.
- ExhaustiveSearch.Search: the corrected search assumes `start_time` is defined as well (it is only read for the elapsed-time message, which is not modelled).
- AdvancedElo.Update: its contract states only that the set of rated teams is kept; what the update does to the two ratings is stated by `UpdateWinnerGains`, `UpdateZeroSum` and `UnscoredRowChangesNothing`, not as an exact value, because the expected score and the logarithm are parameters.
- SignBacktest.ModelDay: a total function that is reached only when every model finds its columns; the `KeyError` of a missing column is modelled one level up, by `SignRun`, `RunModel` and the drivers. Its contract states the counter bounds, not the counters' values, which `ModelDayCountsSlate` and `RowTally` give.
- SignBacktest.SignReport: like `ModelDay`, reached only when no `dropna` raises; its contract states one row per model, and the row contents are stated by `Summarize` and `ReportRowOf`.
- Rolling.TrailingMean, TeamFeatures.RollingTable, Injury.TrailingMap and Injury.Sums: box-score metrics are assumed never missing. pandas skips a NaN metric in a rolling window's count and in a group sum; the model has no missing metric to skip.
- DailyBacktest.PredictRow: the logged `Pred_Residual` is the prediction itself, not `round(pred_residual, 2)` as at `src/nba_daily_backtest.py:225`. The source, like the model, takes the pick from the unrounded prediction, so only the logged number differs.
- Injury.MergeSide and Injury.MergedGames: the row-for-row contents are stated only when no (game, abbreviation) key repeats in a feature table. With a repeated key pandas emits one row per partner; the model does the same, but its contract then states only the row count bound and the games kept.
- ExhaustiveSearch.NoCheckpointSave: the every-500 checkpoint write is not modelled beyond the fact that it never fires for 232 combinations.

## Findings

| source | as written | input that shows it | evidently intended | confidence | as-written member | corrected member |
|---|---|---|---|---|---|---|
| src/exhaustive_search.py:122 | `results.append(...)` runs but `results` is never bound in `run_exhaustive_search`, so the first completed combination raises `NameError` and no table is ever written | any prepared table with a clean row outside the test season: the first combination (the first eight blocks) needs no injury column, so its scoring completes and reaches the append | `results = []` before the loop, so that all 232 combinations are scored and ranked by ROI then win rate | high (from reading the code; not executed) | ExhaustiveSearch.AsWrittenNeverRanks | ExhaustiveSearch.SearchRanksEveryCombination |

