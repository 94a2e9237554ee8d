# MLB_Predictor in Dafny

A model of the deterministic core of MLB_Predictor, a baseball game predictor. It covers:

- **The feature pass.** One chronological scan over the season's game log. It keeps a running record per club and emits one feature row per game, computed from the records as they stood before that game. Only a game that is not `Scheduled` updates the records.
- **The backfill.** Every numeric NaN in the saved feature table is filled with 0.5.
- **The pitcher-statistic memo table.** A write-through cache in front of the stats service.
- **The season simulator.** Baseline wins from completed games; crediting of each upcoming game to one club per trial; per-trial ranking; the final standings.
- **The single-game and one-day predictors.** Alias resolution, the scheduled-matchup filter, winner and win-probability selection, and conversion to fair American odds.
- **The player-name repair memo.** Damaged pitcher names are repaired from a team roster.

The modules follow the program:

| module | file | models |
|---|---|---|
| `Opt` | opt.dfy | an `Option` type (NaN cells, JSON null) |
| `Text` | text.dfy | ASCII `lower`, `strip`, `replace`, `in` on strings |
| `TeamTables` | team_tables.dfy | the two alias tables, their inverse and their injectivity |
| `Alias` | alias.dfy | `resolve_alias` and the shape of its key |
| `Odds` | odds.dfy | `prob_to_american`, with `int()` as truncation toward zero; the winner pick |
| `StatCache` | stat_cache.dfy | `get_pitcher_stat_cached`, as a pure function and as a class over the table |
| `Features` | features.dfy | the feature pass: a method with a loop, the functions that specify it, and lemmas |
| `Table` | table.dfy | the 0.5 backfill and the row filters the predictors apply |
| `Season` | season.dfy | `predict_season.py`: methods with loops over clubs, games and trials, plus their specification |
| `Predict` | predict.dfy | `predict_game.py` and `predict_day.py` after loading |
| `PlayerNames` | player_names.dfy | `fix_player_name`, as a class holding the memo table |

### Boundaries of the model

The external parts are parameters:

- The stats service is a function from player name to `Raised | Fetched(lines)`.
- The team roster service is a function from team to `LookupRaised | Roster(names)`.
- The trained classifier is a function from a feature vector to the home win probability.
- The random draws of each trial are a sequence of booleans, one per upcoming game.

Values:

- Ratios and means are exact `real`s.
- A NaN cell is `None`. NaN absorbs in `+=`, and every comparison with NaN is false.

### Behaviour of the code as written

The model follows the code as written, including these consequences of it:

- **Postponed games.** A game whose status is anything but `Scheduled` counts as played, including a postponed game without scores. It is credited as an away win, and it turns both clubs' run totals into NaN.
- **Ties.** A tie is an away win.
- **Unknown pitcher statistics.** A pitcher statistic the cache cannot supply is stored as None. It reaches the table as 0.5, not as the 4.25 / 1.35 used for a missing starter.
- **The one-day predictor** prints a line for every row of that date, whether the game is played or not.
- **The two alias tables differ.** The game predictor's own copy names the Athletics after Las Vegas; `utils/resolve_alias.py` names them after Oakland.

## Model

| member | source | states |
|---|---|---|
| Features.PushKeepsLastTen | features/feature_engineering.py:81-83 | appending a result to the kept window and evicting beyond ten gives exactly the last ten results of the extended history, so the window never exceeds ten |
| Features.PushEvictsOldest | features/feature_engineering.py:89-91 | appending an eleventh result to a full window drops the oldest result and keeps the rest in order |
| Features.Enroll | features/feature_engineering.py:35-43 | both clubs of a game get a fresh record (zero games, wins and runs, empty window) on first appearance; every record already present is kept |
| Features.RecordIsHistory | features/feature_engineering.py:23-91 | after any prefix of the log, a club has a record exactly when it appears in a game of that prefix, and that record is the summary of its own completed games: count, wins, run totals and last ten results |
| Features.RecordsStaySane | features/feature_engineering.py:76-91 | after every update each record has 0 <= wins <= games and a window of at most ten and at most `games` results, each 0 or 1 |
| Features.ScheduledLeavesRecords | features/feature_engineering.py:76 | a scheduled game only enrols its two clubs; every existing record is unchanged |
| Features.CompletedGameCredit | features/feature_engineering.py:77-88 | a completed game between two clubs adds one game to each; it adds one win to the home club and none to the away club when the home club scored more, and otherwise one win to the away club and none to the home club; it adds the scores to both sides' run totals and leaves every other club alone |
| Features.TieIsAwayWin | features/feature_engineering.py:17 | with both scores present and equal, the home side is not credited a win and the away side is |
| Features.UnplayedGameCountsAsAwayWin | features/feature_engineering.py:76-91 | a non-scheduled game without scores is credited as an away win and makes the home runs scored and the away runs allowed NaN |
| Features.OrderListsTeams | features/feature_engineering.py:20 | the clubs in order of first appearance have no repeats and are exactly the keys of the record table |
| Features.RunsBalance | features/feature_engineering.py:79-88 | summed over all clubs, runs scored equal runs allowed after every prefix of the log, NaN included |
| Features.FormDefaults | features/feature_engineering.py:55-62 | a club without games gets win percentage 0.5 and 4.5 runs scored and allowed per game; an empty window gives 0.5; a fresh record gives the neutral form |
| Features.FormBounds | features/feature_engineering.py:55-58 | for a sane record the win percentage and the last-ten percentage lie in [0, 1] |
| Features.MissingStarterDefaults | features/feature_engineering.py:63-66 | a missing starter gets ERA 4.25 and WHIP 1.35 on its side, and with both starters missing the cache is not consulted |
| Features.PitchingKeepsCache | features/feature_engineering.py:63-66 | pricing a game never removes or changes a stored (player, stat) entry |
| Features.Target | features/feature_engineering.py:70 | the target is -1 exactly for a scheduled game, 1 exactly for a completed home win, 0 exactly for a completed home loss |
| Features.TargetMeansCredit | features/feature_engineering.py:70-91 | for a game between two clubs, the target is -1 exactly when the game leaves the home club's game count alone, 1 exactly when it adds a win to the home club, 0 exactly when it adds a win to the away club |
| Features.TargetAgreesWithRecords | features/feature_engineering.py:45-91 | the label of row i agrees with what game i does to the records: -1 exactly when it leaves the home club's game count alone, 1 exactly when it adds a home win, 0 exactly when it adds an away win |
| Features.RowOf | features/feature_engineering.py:49-71 | a row carries its game's date, clubs, starters and scores, and its target; its home and away form are those of the two clubs' records, and its pitcher features are the ones priced for the game |
| Features.Step | features/feature_engineering.py:73 | one game appends exactly one row, carrying that game, and keeps every earlier row |
| Features.PassShape | features/feature_engineering.py:23-73 | the pass emits exactly one row per game, in log order, each carrying its own game |
| Features.PassPrefix | features/feature_engineering.py:23-91 | the rows for a prefix of the log are the prefix of the rows: later games never change an emitted row |
| Features.RowReadsPriorState | features/feature_engineering.py:45-71 | row i is computed from the records after the first i games (with this game's clubs enrolled) and from the cache as those games left it |
| Features.OwnResultIgnored | features/feature_engineering.py:49-91 | changing a game's status and scores changes neither its form features nor its pitcher features |
| Features.FirstAppearanceNeutral | features/feature_engineering.py:35-62 | the row of a club's first game shows the neutral form |
| Features.PriceGame | features/feature_engineering.py:63-66 | the four cached lookups, made in dict order, give the pitcher features and the cache that the specification function gives |
| Features.UpdateRecords | features/feature_engineering.py:76-91 | the in-place update of both records equals the specified state change of one game |
| Features.ProcessGame | features/feature_engineering.py:24-91 | one loop iteration appends the specified row, updates the cache as specified, and applies the game to the records |
| Features.BuildFeatures | features/feature_engineering.py:23-91 | the loop's rows and cache are those of the specification pass, and its record table is the one the log determines |
| StatCache.Select | features/get_stats.py:24-28 | no value is selected exactly when no line is a pitching-season line of the season asked for |
| StatCache.SelectIsFirstMatch | features/get_stats.py:24-28 | the selection is the conversion of the first pitching-season line; later lines are never looked at |
| StatCache.Store | features/get_stats.py:30-35 | after storing, the key holds the value; every other (player, stat) entry keeps its value; no other entry appears; no player is removed |
| StatCache.Lookup | features/get_stats.py:15-43 | a call either leaves the table unchanged or stores exactly the returned value under the key |
| StatCache.HitReturnsStored | features/get_stats.py:17-18 | a hit returns the stored value, None included, and changes nothing |
| StatCache.FailureLeavesTable | features/get_stats.py:42-43 | a raising lookup or conversion returns None and leaves the table exactly as it was |
| StatCache.MissStoresSelection | features/get_stats.py:24-35 | a miss whose lookup succeeds stores its answer: the selected value, or None when the season has no line |
| StatCache.StoredValueIsFirstMatch | features/get_stats.py:24-41 | the value returned and stored is the stat of the first pitching-season line |
| StatCache.UnconvertibleFirstMatchStoresNothing | features/get_stats.py:24-43 | when the first pitching-season line lacks the stat or holds a non-numeric value, the call returns None and the table is unchanged, even if a later line has the stat |
| StatCache.RepeatIsHit | features/get_stats.py:31-41 | a second call for a key the first call stored is a hit that returns the same value and changes nothing, whatever the service then answers |
| StatCache.StoredUnlessRaised | features/get_stats.py:31-35 | every call that does not raise leaves the key in the table |
| StatCache.LookupFrame | features/get_stats.py:31-35 | every other (player, stat) entry is kept with its value, and no other entry is created |
| StatCache.PitcherCache.constructor | features/get_stats.py:8-13 | the table starts as the loaded contents |
| StatCache.PitcherCache.Get | features/get_stats.py:15-43 | the in-place call returns the value and leaves the table that the pure specification gives |
| Table.UnknownStatBackfill | features/feature_engineering.py:94-99 | every NaN numeric cell, home and away alike, becomes 0.5 in the table: the four pitcher statistics (0.5 rather than the 4.25 / 1.35 defaults), the run and runs-allowed rates and the two scores |
| Table.BackfillKeepsValues | features/feature_engineering.py:94-99 | backfilling keeps the date, the clubs, the starters, the win and last-ten rates and the target, and every run rate, runs-allowed rate, pitcher statistic and score that is a number |
| Table.MissingStarterInTable | features/feature_engineering.py:63-99 | a game without a home starter shows ERA 4.25 and WHIP 1.35 in the saved table |
| Table.Upcoming | scripts/predict_season.py:15 | a row is kept exactly when it is a row of the table with target -1, and the selection is no longer than the table |
| Table.UpcomingConcat | scripts/predict_season.py:15 | the selection keeps table order: selecting from two stretches one after the other is selecting from both together |
| Table.UpcomingCount | scripts/predict_season.py:15 | a row with target -1 is selected as often as the table holds it; any other row never |
| Table.Completed | scripts/predict_season.py:16 | a row is kept exactly when it is a row of the table with target other than -1, and the selection is no longer than the table |
| Table.CompletedConcat | scripts/predict_season.py:16 | the selection keeps table order: selecting from two stretches one after the other is selecting from both together |
| Table.CompletedCount | scripts/predict_season.py:16 | a row with target other than -1 is selected as often as the table holds it; a row with target -1 never |
| Table.SplitCounts | scripts/predict_season.py:15-16 | every row is upcoming or completed and never both: the two selections' sizes add up to the table's size |
| Table.NoUpcomingMeansNoScheduledRow | scripts/predict_season.py:15-19 | the upcoming selection is empty exactly when no row has target -1 |
| Table.ScheduledMatchup | scripts/predict_game.py:75-76 | a row is selected exactly when it is a row of the table with target -1 and exactly the requested home and away clubs, and the selection is no longer than the table |
| Table.MatchupConcat | scripts/predict_game.py:75-76 | the selection keeps table order, so its first row is the matchup's first scheduled row in the table |
| Table.MatchupCount | scripts/predict_game.py:75-76 | a scheduled row of the matchup is selected as often as the table holds it, a double-header twice; any other row never |
| Table.MatchupKeepsOrientation | scripts/predict_game.py:76 | the same two clubs with home and away swapped are never selected |
| Season.Unique | scripts/predict_season.py:31 | the club list has no repeats and holds exactly the names of the input |
| Season.TeamListIsClubs | scripts/predict_season.py:31 | the club list has no repeats and holds exactly the clubs named as home or away in some row |
| Season.BaselineTotal | scripts/predict_season.py:40-43 | summed over a club list that names every club, the baselines equal the number of completed games |
| Season.TrialWinsBounds | scripts/predict_season.py:40-55 | in every trial a club's wins are at least its baseline and at most its baseline plus its upcoming games |
| Season.TrialTotal | scripts/predict_season.py:46-55 | every trial gives each completed and each upcoming game exactly one win: the clubs' wins add up to the number of completed plus upcoming games |
| Season.SimulateTrial | scripts/predict_season.py:37-55 | the loops over clubs and upcoming games give every listed club its baseline plus the upcoming games its draws credit to it, and give no other club a count |
| Season.SortDesc | scripts/predict_season.py:57-61 | the sort is a permutation of its input, ordered by non-increasing score |
| Season.InsertSorted | scripts/predict_season.py:61 | inserting an entry into a descending list keeps it descending |
| Season.InsertPermutes | scripts/predict_season.py:61 | inserting adds exactly that entry to the multiset of the list |
| Season.RankOf | scripts/predict_season.py:64-66 | a club's rank lies in 1..n and is the position (plus one) of its first row |
| Season.RankIsPosition | scripts/predict_season.py:64-66 | in a list without repeated clubs, the club at index k gets rank k + 1 |
| Season.RanksArePermutation | scripts/predict_season.py:58-66 | each rank lies in 1..n, different clubs get different ranks, and a club with strictly more wins gets a strictly smaller rank |
| Season.SortedIsDistinct | scripts/predict_season.py:61 | sorting a list without repeated clubs gives a list without repeated clubs |
| Season.PermutationKeepsTeams | scripts/predict_season.py:61 | sorting keeps exactly the clubs of the list |
| Season.TrialStanding | scripts/predict_season.py:57-61 | a trial's standing is descending by wins and lists every club exactly once, each with its own wins in that trial |
| Season.MoreWinsRanksHigher | scripts/predict_season.py:57-66 | in a trial, a club with strictly more wins than another gets a strictly smaller rank |
| Season.WinsSeriesAt | scripts/predict_season.py:68-69 | entry k of a club's win series is its wins in trial k |
| Season.RankSeriesAt | scripts/predict_season.py:64-66 | entry k of a club's rank series is its rank in trial k, between 1 and the number of clubs |
| Season.AppendRanks | scripts/predict_season.py:64-66 | the loop over the standing appends each listed club's rank to its series and changes no other series and no key |
| Season.AppendWins | scripts/predict_season.py:68-69 | the loop over the clubs appends each listed club's trial wins to its series and changes no other series and no key |
| Season.RunTrial | scripts/predict_season.py:36-69 | one trial appends to every club's series its wins in that trial and its rank in the trial's standing |
| Season.Simulate | scripts/predict_season.py:32-69 | after all trials, every club's win and rank series hold its wins and ranks trial by trial |
| Season.MeanBounds | scripts/predict_season.py:74-75 | a mean lies between the smallest and the greatest value a list can hold |
| Season.FinalStandings | scripts/predict_season.py:72-78 | the standings list every club exactly once, with rank column 1..n, in non-increasing order of predicted wins; each row's predicted wins and average rank are the means of that club's series |
| Season.UpcomingClubsListed | scripts/predict_season.py:31 | every club of an upcoming game is on the club list |
| Season.StandingBounds | scripts/predict_season.py:40-75 | each club's predicted wins lie between its baseline and its baseline plus its upcoming games, and its average rank between 1 and the number of clubs |
| Season.PredictSeason | scripts/predict_season.py:15-19 | with no upcoming game nothing is simulated; otherwise the result is the standings of the trials |
| TeamTables.KeyOfInvertsTable | utils/resolve_alias.py:1-32 | every key of the table is recovered from its canonical name |
| TeamTables.TeamNameMapInjective | utils/resolve_alias.py:1-32 | no two keys of the table name the same club |
| TeamTables.TablesDiffer | scripts/predict_game.py:25 | the game predictor's copy maps "athletics" to the Las Vegas Athletics, the other table to the Oakland Athletics; the copies differ in that entry only |
| TeamTables.LasVegasIsNew | scripts/predict_game.py:5-36 | no key of the first table names the Las Vegas Athletics |
| TeamTables.GameTeamNameMapInjective | scripts/predict_game.py:5-36 | no two keys of the game predictor's table name the same club |
| Alias.Resolve | utils/resolve_alias.py:35-39 | resolution succeeds exactly when the normalised key is in the table and then returns the table's entry for that key, a canonical name; otherwise it raises KeyError on that key |
| Alias.KeyShape | utils/resolve_alias.py:37 | the key has no space, no upper-case letter, and no whitespace at either end |
| Alias.KeyIdempotent | utils/resolve_alias.py:37 | normalising a key that is already normalised changes nothing |
| Alias.KeyIgnoresCase | scripts/predict_game.py:41 | two spellings that differ only in letter case give the same key |
| Alias.KeyIgnoresSpaces | scripts/predict_game.py:41 | a space inside a name does not change the key |
| Alias.KeyIgnoresPadding | scripts/predict_game.py:41 | whitespace before and after a name does not change the key |
| Alias.NormalizeReordered | utils/resolve_alias.py:37 | lower-casing, then removing spaces, then stripping gives the same key as stripping first |
| Alias.ResolveSeparatesKeys | utils/resolve_alias.py:39 | two names that resolve to the same club have the same key |
| Odds.Truncate | scripts/predict_game.py:52-54 | `int()` rounds toward zero: the result lies within one of its argument, on the side of zero |
| Odds.OddsAtCertainty | scripts/predict_game.py:46-49 | probability 0 gives 99999 and probability 1 gives -99999 |
| Odds.FavoriteOdds | scripts/predict_game.py:51-52 | a probability in [0.5, 1) is quoted at -100 or lower |
| Odds.EvenOdds | scripts/predict_day.py:20-21 | probability 0.5 is quoted at exactly -100 |
| Odds.UnderdogOdds | scripts/predict_day.py:22-23 | a probability in (0, 0.5) is quoted at +100 or higher |
| Odds.OddsOfBothSides | scripts/predict_day.py:15-23 | for a probability strictly between 0 and 1, the two sides of a game are quoted at opposite odds, except at even money, where both sides get -100 |
| Odds.PickIsProper | scripts/predict_game.py:88-90 | for two clubs and a probability in [0, 1], the winner is the home club exactly when the probability is at least 0.5, the loser is the other club, and the win probability is the larger side, at least 0.5 |
| Odds.PickForSameTeam | scripts/predict_game.py:90 | with the same club on both sides, the equality test reports an underdog probability as the winner's |
| Predict.FeatureVector | scripts/predict_game.py:83 | the classifier sees the twelve form and pitcher columns in the order of the column list: win percentage, last-ten rate, runs per game, runs allowed per game, ERA and WHIP, home before away in each pair |
| Predict.PredictGame | scripts/predict_game.py:66-91 | KeyError exactly when a key is unknown (home checked first); "no scheduled games" exactly when the matchup selection is empty; otherwise the first scheduled row of that matchup in the table, with the pick of its probability and the fair odds of the winner |
| Predict.GamePredictionIsFavorite | scripts/predict_game.py:87-91 | for a classifier giving probabilities and two different clubs, the reported winner is the home club exactly when its probability is at least 0.5, the loser is the other club, and the fair odds are -100 or lower |
| Predict.WinnerOdds | scripts/predict_game.py:91 | a win probability in [0.5, 1] is quoted at -100 or lower |
| Predict.PredictionIgnoresSpelling | scripts/predict_game.py:66-67 | names with the same key give the same prediction |
| Predict.OnDate | scripts/predict_day.py:38 | a row is kept exactly when it is a row of the table with that date, and the selection is no longer than the table |
| Predict.OnDateConcat | scripts/predict_day.py:38 | the selection keeps table order: selecting from two stretches one after the other is selecting from both together |
| Predict.OnDateCount | scripts/predict_day.py:38 | a row of that date is selected as often as the table holds it; a row of another date never |
| Predict.OnDateEmpty | scripts/predict_day.py:38-41 | a day has no rows exactly when no row carries its date |
| Predict.PredictDay | scripts/predict_day.py:38-64 | no lines exactly when no row has the date; otherwise one line per row of that day, in order, naming that row's clubs |
| Predict.DayLinesAreProper | scripts/predict_day.py:60-64 | for a row whose clubs differ, the line names one of its clubs as the winner, the home club exactly when its probability is at least 0.5; the winner's probability is at least 0.5 and is quoted at -100 or lower |
| Predict.DayAgreesWithGame | scripts/predict_day.py:60-64 | when the game predictor prices a row of some day, the day predictor prints the same winner, probability and odds for it |
| PlayerNames.Deaccent | utils/fixplayername.py:37 | the de-accented name has the same length, with é, í, ó, á each folded to its plain letter |
| PlayerNames.FirstMatch | utils/fixplayername.py:36-39 | no match exactly when no roster name matches; otherwise the index of the first matching name |
| PlayerNames.FixCall | utils/fixplayername.py:14-48 | after every call the table maps the player to the returned name; every other entry is kept and no other is created |
| PlayerNames.CachedNameWins | utils/fixplayername.py:20-21 | a cached name returns its cached answer without consulting the roster, and the table is unchanged |
| PlayerNames.CleanNameKept | utils/fixplayername.py:24-26 | a name without the replacement character is returned unchanged and cached as itself |
| PlayerNames.RepairIsFirstMatch | utils/fixplayername.py:36-39 | a damaged name becomes the first roster name whose lower-cased, de-accented form contains the cleaned name |
| PlayerNames.RepairComesFromRoster | utils/fixplayername.py:36-39 | a changed name is a roster name that contains the cleaned damaged name |
| PlayerNames.UnmatchedNameKept | utils/fixplayername.py:41-48 | when the roster lookup raises or no roster name matches, the name is returned unchanged |
| PlayerNames.BareReplacementTakesFirst | utils/fixplayername.py:37 | a name made only of replacement characters becomes the first roster name |
| PlayerNames.SecondCallReusesAnswer | utils/fixplayername.py:20-21 | the table is keyed by name alone: a later call for the same player, for any team and roster, returns the first answer and changes nothing |
| PlayerNames.NameFixer.constructor | utils/fixplayername.py:12 | the memo table starts empty |
| PlayerNames.NameFixer.Fix | utils/fixplayername.py:14-48 | the in-place call, with its roster loop and early return, returns the name and leaves the table that the pure specification gives |

## Left out

- File I/O: reading and writing the CSV files, the JSON cache file and the pickled model. The pitcher cache's loaded contents are a constructor argument.
- Console output: `print`, `tqdm` progress bars, `argparse`, ANSI colours and box drawing.
- `models/train_model.py` is not part of this model. Its classifier, the scaler and `predict_proba` are a function parameter.
- The `statsapi` calls (`lookup_player`, `player_stat_data`, `lookup_team`, `roster`) are parameters; both depend on the name asked about only.
- `get_pitcher_stat`, the uncached duplicate of the lookup, and `get_game_stats` / `get_team_id` are thin service wrappers, so they are not modelled.
- `np.random.binomial`: every trial's outcomes are an input sequence of booleans. The statistical convergence of the simulation is not modelled.
- The prediction column and the `.round(3)` of the probabilities: the trials take their outcomes as inputs, so these values are not used.
- Python floats: probabilities, ratios and means are exact reals, and `round(..., 2)` of the standings is not modelled.
- Date parsing and the chronological sort of the game log: the model takes the log in the order after sorting. Dates are integers, and the date strings printed are not modelled.
- The tie order of pandas `sort_values`: the model sorts by an insertion sort, and its contracts say nothing about the order of equal scores.
- Full Unicode: `strip_accents` (NFD normalisation) is not used by the core. `lower` and `strip` are the ASCII versions.
- The exception printed by `fix_player_name` is not modelled; what the exception path stores and returns is modelled.
- A feature column that pandas would not read as numeric (for example a pitcher column that is NaN everywhere) is not modelled: every numeric cell is filled.
- Season.PredictSeason: requires exactly 1000 trials of draws, one per upcoming game. The script makes those draws itself.
- Season.FinalStandings: the order of clubs with equal predicted wins is left unspecified, as the quicksort the script uses does not fix it.
- Season.TrialTotal: the total over clubs is proved per trial. The same total for the final mean wins is not proved.
- Odds.PickIsProper: requires two different clubs. Odds.PickForSameTeam records what happens when both sides are the same club.
- Predict.DayLinesAreProper: requires the row's two clubs to differ, for the same reason as Odds.PickIsProper.
- A failing write of the cache file is not modelled. get_stats.py stores the value in memory before writing the file; if that write raised, the call would return None with the value already stored, while StatCache.Lookup stores exactly the value it returns.
- Predict.PredictGame: when home and away both fail, the KeyError carries the home key, as the home alias is resolved first. Key errors are values, not exceptions.
