# NBA score bot: verified model of its aggregation and posting logic

The bot is a scheduled job. It polls a live-basketball statistics API and posts
game updates to a social-media account. This project models the two pieces of
logic in `functions/index.js` that are more than glue code.

- **Team-stat aggregation (`getStats`)**, in module `GameStats` (`game_stats.dfy`).
  The function takes the outcome of the statistics request for one game: a
  failed request is re-raised, and otherwise it reads the first game record of
  the endpoint's `response` list. It then folds over the record's `team` list and
  keeps six running maxima: points, assists and total rebounds, for the home slot
  (`...Team1`) and the visitor slot (`...Team2`). A team fills the home slot when
  its `id` equals the record's `home_team`. Every maximum starts at 0 and is
  replaced only by a strictly larger value. `GetStats` is a method with that loop.
  It is proved equal to `StatsOf`. `StatsOf` is in turn proved equal to a
  reference definition, `Aggregate`: in each slot, max(0, max of the statistic
  over the teams that fill the slot).
- **The posting pass (`tweetNBAScores`) and its quarter tracker
  (`previousQuarters`)**, in module `ScoreBot` (`score_bot.dfy`). Class `Bot`
  holds the tracker (a `map<int, int>` from game id to last announced quarter)
  and the log of posts made so far. `Bot.TweetNBAScores` takes the live games as
  a sequence. For each game, in order, it does five things:
  1. It creates the game's tracker entry.
  2. It posts a live update.
  3. If a quarter-end post is due, it posts one and stores the quarter.
  4. It posts one statistics reply per quarter index 1..`periods.current`, each
     after its own `GetStats` call.
  5. If `status.short` is `"final"`, it posts the final score with a winner and
     a generated summary.

  The methods are proved against the specification functions `StepGame` (one
  game) and `RunGames` (a whole pass). Lemmas about those functions state what
  the source promises.

Posts are abstract values (`Post`) that carry the fields the tweet text is built
from. Outside calls are inputs, bundled in `Effects`:
- `fetchStats(id, q)` is the outcome of the statistics request for game `id` at
  quarter index `q`: `Failed` when the request raised, or `Received` with the
  endpoint's `response` list.
- `summarize(home, visitor)` is the generated summary.

Two behaviours of the code are worth stating on their own:
- A tied final score names the **visitor** team as winner, because the code
  compares with a strict `>` (functions/index.js:205-206).
- The quarter tracker is **not monotone**. A lower `periods.current` that
  differs from the tracked value, lies in 2..4 and belongs to a non-final game
  is posted and stored (functions/index.js:170-181). `TrackerMovesBackward`
  proves it.

A failed statistics lookup raises in the source, and the `try`/`catch` around
the pass re-raises it (functions/index.js:126-129, 218-221). In the model this
aborts the pass: the posts already made and the tracker updates already made
stay, and the remaining quarters and games are skipped (`ReplyLoopStopsAtFirstFailure`,
`RunGamesAbortSkipsRest`).

## Model

| member | source | states |
|---|---|---|
| GameStats.GetStats | functions/index.js:62-130 | The loop with six running maxima (start at 0, replaced only by a strictly larger value) returns exactly `StatsOf` of the request's outcome: RequestFailed when the request raised, NoGameData for no record, MissingTeamStatistics for a team without statistics, and otherwise `Aggregate` of the first record, max(0, max over matching teams) per slot |
| GameStats.StatsOfMeaning | functions/index.js:62-129 | A failed request raises RequestFailed; no game record raises NoGameData; a team without a statistics entry raises MissingTeamStatistics; otherwise the result is `Aggregate` of the first record, max(0, max over matching teams) per slot |
| GameStats.FoldTeamsIsMaximum | functions/index.js:78-116 | The fold over the teams succeeds iff every team has a statistics entry, can only fail with MissingTeamStatistics, and each slot then equals max(0, max of that statistic over the teams filling the slot) |
| GameStats.FoldTeamsFailsOnce | functions/index.js:87-88 | Once a team without statistics has been reached, the whole fold raises, whatever the later teams are |
| GameStats.Max0IsMaximum | functions/index.js:78-115 | A maximum that starts at 0 and is replaced only by larger values is at least 0, at least every value, and is 0 or one of the values |
| GameStats.AggregateIsLeaderMaximum | functions/index.js:78-116 | Every slot is at least 0, at least the statistic of every team filling it (home: id equals `home_team`; visitor: any other id), 0 or attained by such a team, and 0 when there are no teams |
| GameStats.AggregateOrderIndependent | functions/index.js:87-116 | Reordering the `team` list (same multiset) does not change any of the six results |
| GameStats.AggregateTwoTeams | functions/index.js:87-125 | With one home and one visitor team with non-negative figures, each team's points, assists and rebounds land in its own slot |
| ScoreBot.InitEntry | functions/index.js:155 | Writing back the tracked entry, or 0 when it is missing or 0, adds the entry 0 only when it is absent and leaves an existing entry as it is |
| ScoreBot.WinningSide | functions/index.js:205-206 | The home team wins iff its points are strictly greater; a tie names the visitor team |
| ScoreBot.StepGameTracker | functions/index.js:155-182 | After one game the tracker has exactly one more key at most (the game's id), every other entry is unchanged, and the game's entry becomes `current` exactly when the quarter-end guard holds, else stays as it was or becomes 0 if absent |
| ScoreBot.StepGameTrackerRange | functions/index.js:155-181 | Processing a game keeps every tracker value in {0, 2, 3, 4} |
| ScoreBot.StepGameQuarterEndPost | functions/index.js:157-182 | The first post of a game is its live post; a quarter-end post appears iff `1 < current <= 4`, `current` differs from the tracked quarter and the game is not final, and then only once, at position 1, for the current quarter |
| ScoreBot.StepGameRepliesAndFinal | functions/index.js:184-216 | When every lookup succeeds, the posts after the opening are exactly `current` replies for quarters 1..current in order, each carrying its own lookup's result, then one final post iff the game is final, with `WinnerName` and the summary for the two team names; a failed lookup means no final post |
| ScoreBot.RepeatedPollNoSecondQuarterEnd | functions/index.js:170-182 | Processing the same game state twice in a row produces no quarter-end post the second time |
| ScoreBot.TrackerMovesBackward | functions/index.js:173-181 | With quarter 3 tracked, a non-final game reporting period 2 is announced again and the tracker goes back to 2 |
| ScoreBot.ReplyLoopSucceeds | functions/index.js:185-199 | The reply loop completes iff every lookup for quarters 1..current succeeds; it then posts max(current, 0) replies, the i-th for quarter i+1 |
| ScoreBot.ReplyLoopStopsAtFirstFailure | functions/index.js:185-199 | A failed reply loop stopped at the first quarter whose lookup failed, with that lookup's error, after exactly one reply for each earlier quarter, the i-th for quarter i+1 with its own lookup's result |
| ScoreBot.RunGamesAbortSkipsRest | functions/index.js:144-221 | Once a game's lookup fails, no later game of the pass is processed: no posts and no tracker changes |
| ScoreBot.RunGamesAppend | functions/index.js:31-217 | Because the tracker outlives a pass, a pass over `games + more` that gets through `games` equals a pass over `games` followed by a pass over `more` |
| ScoreBot.RunGamesTracker | functions/index.js:144-182 | A pass keeps tracker values in {0, 2, 3, 4}, creates entries only for ids of games in the list, and leaves the entries of all other games unchanged |
| ScoreBot.ProcessedCount | functions/index.js:144-221 | The number of games a pass processes is at most the list's length, and 0 only for an empty list |
| ScoreBot.RunGamesProcessesPrefix | functions/index.js:144-221 | A pass is the same as a pass over the first `ProcessedCount` games; every game before the last of them succeeds, and the pass stops short of the list's end only because that last game failed |
| ScoreBot.RunGamesNewEntriesProcessed | functions/index.js:144-221 | Every tracker entry a pass creates is the id of one of the games it actually processed, never of a game after an abort |
| ScoreBot.Bot.constructor | functions/index.js:31 | The tracker starts empty and nothing has been posted |
| ScoreBot.Bot.ProcessGame | functions/index.js:145-216 | One iteration of the pass's game loop sets the tracker and appends to the log exactly as `StepGame` says, and returns its error |
| ScoreBot.Bot.PostReplies | functions/index.js:185-199 | The quarter loop calls `GetStats` once per quarter index and appends one reply each, stopping at the first failure, as `ReplyLoop` says |
| ScoreBot.Bot.TweetNBAScores | functions/index.js:132-222 | The pass updates the tracker and the log as `RunGames` says. An empty game list posts nothing and leaves the tracker unchanged. The outcome is an abort exactly when a lookup failed |

## Left out

- The games list is a parameter of `TweetNBAScores`. The source reads it as `gamesResponse.response || []` (functions/index.js:135), but `getLiveNBAGames` returns `response.data.api.games` (functions/index.js:43). The HTTP fetch and this unwrapping are I/O and are not modelled. The model's empty sequence covers the case where the list comes out empty.
- HTTP requests to the statistics API (functions/index.js:33-48, 64-71) are I/O. Their outcomes are the inputs `Effects.fetchStats`: `Failed` for a request that raised, which `getStats` re-raises as `RequestFailed` and which aborts the pass like any failed lookup, or `Received` with the `response` list. The kind of network error is not modelled. The model takes `fetchStats(id, q)` as the answer for quarter index `q`, so repeated lookups may differ, as live data can.
- Only the first entry of each team's `statistics` list is read. A team without one raises a type error in the source (reading a field of `undefined`); the model raises `MissingTeamStatistics`. Non-numeric or missing numeric fields, which JavaScript would compare as `undefined`, are not modelled: statistics are integers. Neither is a first record whose `team` field is missing or not an array, on which `forEach` raises a type error (functions/index.js:87): a record's teams are always a sequence.
- The tweet texts, with template literals, emoji, hashtags and the `date.start` and team-code fields (functions/index.js:157-164, 176-179, 188-197, 207-214), are not modelled. Posts are abstract values that carry the game, the quarter, the statistics, the winner and the summary.
- Posting (`tweetStats`, functions/index.js:50-60) and summary generation (`generateGameSummary`, functions/index.js:224-242) are assumed to succeed. A failure of either one would abort the pass like a failed lookup does; the model does not include that. The summary is the opaque string `Effects.summarize(home, visitor)`.
- The credential store, the OAuth2 endpoints `auth`, `callback` and `tweet`, and the token refresh (functions/index.js:5-11, 244-298) are foreign SDK calls and are not modelled. This includes the callback's state-mismatch 400 guard.
- The scheduler trigger, its time zone and its logging of errors (functions/index.js:300-313) are not modelled.
- Console logging throughout is not modelled.
