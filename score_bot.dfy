/**
 * The scheduled posting pass of the bot (`tweetNBAScores`) and its
 * process-wide quarter tracker (`previousQuarters`).
 *
 * For each live game, in order, the pass makes sure the tracker has an entry,
 * posts a live-status update, posts a quarter-end update when the current
 * period is a new quarter boundary, replies with the leader statistics once
 * per quarter index 1..current, and, when the game is final, posts the final
 * score with a winner and a generated summary. A failed statistics lookup
 * stops the whole pass.
 *
 * Posts are abstract values carrying the fields their text is built from; the
 * statistics endpoint and the summary generator are the inputs in `Effects`.
 */
module ScoreBot {
  import opened Wrappers
  import opened GameStats

  datatype TeamInfo = TeamInfo(name: string, code: string)

  /** One live game as the games endpoint reports it. */
  datatype Game = Game(
    id: int, dateStart: string, home: TeamInfo, visitors: TeamInfo,
    homePoints: int, visitorPoints: int,
    current: int, total: int,
    statusShort: string, statusLong: string)

  datatype Post =
    | LivePost(game: Game)
    | QuarterEndPost(game: Game, quarter: int)
    | StatsReply(game: Game, quarter: int, stats: StatSummary)
    | FinalPost(game: Game, winner: string, summary: string)

  /**
   * The outside world the pass consults: `fetchStats(id, q)` is the outcome of
   * the statistics request made for game `id` at quarter index `q` (a failure
   * or the endpoint's `response` list); `summarize(home, visitor)` is the
   * generated game summary.
   */
  datatype Effects = Effects(
    fetchStats: (int, int) -> Fetch,
    summarize: (string, string) -> string)

  datatype RunOutcome = NoLiveGames | Completed | Aborted(error: StatsError)

  /** Every tracker value is one the pass can store: 0 on creation, or a quarter 2..4. */
  predicate TrackerRange(t: map<int, int>) {
    forall id :: id in t ==> t[id] in {0, 2, 3, 4}
  }

  /** `previousQuarters[id] || 0`: the tracked quarter, 0 for a missing or zero entry. */
  function Tracked(t: map<int, int>, id: int): int {
    if id in t && t[id] != 0 then t[id] else 0
  }

  /** The tracker after `previousQuarters[id] = previousQuarters[id] || 0`. */
  function InitEntry(t: map<int, int>, id: int): (r: map<int, int>)
    ensures r == if id in t then t else t[id := 0]
  {
    t[id := Tracked(t, id)]
  }

  predicate IsFinal(g: Game) {
    g.statusShort == "final"
  }

  /** The guard on the quarter-end post, given the tracked quarter. */
  predicate QuarterEnds(g: Game, tracked: int) {
    1 < g.current <= 4 && g.current != tracked && !IsFinal(g)
  }

  /** The home team wins only on strictly more points; a tie goes to the visitors. */
  function WinningSide(g: Game): (s: Side)
    ensures s == Home <==> g.homePoints > g.visitorPoints
    ensures g.homePoints == g.visitorPoints ==> s == Visitor
  {
    if g.homePoints > g.visitorPoints then Home else Visitor
  }

  function WinnerName(g: Game): string {
    if WinningSide(g) == Home then g.home.name else g.visitors.name
  }

  /** The posts of the reply loop and the error that stopped it, if any. */
  datatype Replies = Replies(posts: seq<Post>, error: Option<StatsError>)

  /** What `getStats` returns or raises in the lookup for game `g` at quarter index `q`. */
  function Fetched(g: Game, fx: Effects, q: int): Result<StatSummary, StatsError> {
    StatsOf(fx.fetchStats(g.id, q))
  }

  /** `p` is the reply for quarter `q` of `g`, carrying what that quarter's lookup returned. */
  predicate RepliesFor(p: Post, g: Game, fx: Effects, q: int) {
    p.StatsReply? && p.game == g && p.quarter == q && Fetched(g, fx, q) == Success(p.stats)
  }

  /** The reply loop run for quarter indices 1..n, stopping at the first failed lookup. */
  function ReplyLoop(g: Game, fx: Effects, n: int): Replies
    decreases n
  {
    if n <= 0 then Replies([], None)
    else
      var prev := ReplyLoop(g, fx, n - 1);
      if prev.error.Some? then prev
      else
        match Fetched(g, fx, n)
        case Failure(e) => Replies(prev.posts, Some(e))
        case Success(s) => Replies(prev.posts + [StatsReply(g, n, s)], None)
  }

  /** Tracker, posts and error after processing some games. */
  datatype Step = Step(tracker: map<int, int>, posts: seq<Post>, error: Option<StatsError>)

  /** The tracker after one game: its entry created if absent, then moved to `current` if a quarter ended. */
  function TrackerAfter(t: map<int, int>, g: Game): map<int, int> {
    var t1 := InitEntry(t, g.id);
    if QuarterEnds(g, t1[g.id]) then t1[g.id := g.current] else t1
  }

  /** The live post, followed by the quarter-end post when one is due. */
  function OpeningPosts(t: map<int, int>, g: Game): seq<Post> {
    [LivePost(g)] + (if QuarterEnds(g, Tracked(t, g.id)) then [QuarterEndPost(g, g.current)] else [])
  }

  /** The final-score post with winner and summary, for a final game. */
  function ClosingPosts(g: Game, fx: Effects): seq<Post> {
    if IsFinal(g) then [FinalPost(g, WinnerName(g), fx.summarize(g.home.name, g.visitors.name))] else []
  }

  /** Processing one game from tracker `t`; a failed lookup skips the closing posts. */
  function StepGame(t: map<int, int>, g: Game, fx: Effects): Step {
    var replies := ReplyLoop(g, fx, g.current);
    Step(TrackerAfter(t, g),
         OpeningPosts(t, g) + replies.posts + (if replies.error.None? then ClosingPosts(g, fx) else []),
         replies.error)
  }

  /** Processing games in order from tracker `t`, stopping after the first game that fails. */
  function RunGames(t: map<int, int>, games: seq<Game>, fx: Effects): Step
    decreases |games|
  {
    if games == [] then Step(t, [], None)
    else
      var first := StepGame(t, games[0], fx);
      if first.error.Some? then first
      else
        var rest := RunGames(first.tracker, games[1..], fx);
        Step(rest.tracker, first.posts + rest.posts, rest.error)
  }

  /** The bot's process-wide state: the quarter tracker and the posts made so far. */
  class Bot {
    var previousQuarters: map<int, int>
    var log: seq<Post>

    ghost predicate Valid()
      reads this
    {
      TrackerRange(previousQuarters)
    }

    constructor ()
      ensures Valid()
      ensures previousQuarters == map[] && log == []
    {
      previousQuarters := map[];
      log := [];
    }

    /** The body of the pass's loop for one game. */
    method ProcessGame(g: Game, fx: Effects) returns (error: Option<StatsError>)
      requires Valid()
      modifies this
      ensures Valid()
      ensures var s := StepGame(old(previousQuarters), g, fx);
        previousQuarters == s.tracker && log == old(log) + s.posts && error == s.error
    {
      StepGameTrackerRange(previousQuarters, g, fx);
      ghost var t0, log0 := previousQuarters, log;
      previousQuarters := previousQuarters[g.id := Tracked(previousQuarters, g.id)];
      log := log + [LivePost(g)];
      if QuarterEnds(g, previousQuarters[g.id]) {
        log := log + [QuarterEndPost(g, g.current)];
        previousQuarters := previousQuarters[g.id := g.current];
      }
      assert previousQuarters == TrackerAfter(t0, g);
      assert log == log0 + OpeningPosts(t0, g);
      ghost var opening := OpeningPosts(t0, g);
      ghost var replies := ReplyLoop(g, fx, g.current);
      error := PostReplies(g, fx);
      AppendAssoc(log0, opening, replies.posts);
      if error.Some? {
        return;
      }
      if IsFinal(g) {
        var summary := fx.summarize(g.home.name, g.visitors.name);
        var winner := if g.homePoints > g.visitorPoints then g.home.name else g.visitors.name;
        log := log + [FinalPost(g, winner, summary)];
      }
      assert log == log0 + (opening + replies.posts) + ClosingPosts(g, fx);
      AppendAssoc(log0, opening + replies.posts, ClosingPosts(g, fx));
    }

    /** The loop `for (q = 1; q <= periods.current; q++)` posting one statistics reply per quarter index. */
    method PostReplies(g: Game, fx: Effects) returns (error: Option<StatsError>)
      modifies this`log
      ensures log == old(log) + ReplyLoop(g, fx, g.current).posts
      ensures error == ReplyLoop(g, fx, g.current).error
    {
      ghost var added: seq<Post> := [];
      var q := 1;
      while q <= g.current
        invariant 1 <= q <= (if g.current >= 1 then g.current + 1 else 1)
        invariant log == old(log) + added
        invariant ReplyLoop(g, fx, q - 1) == Replies(added, None)
      {
        var quarterStats := GetStats(fx.fetchStats(g.id, q));
        if quarterStats.Failure? {
          ReplyLoopStaysFailed(g, fx, q, g.current);
          return Some(quarterStats.error);
        }
        log := log + [StatsReply(g, q, quarterStats.value)];
        added := added + [StatsReply(g, q, quarterStats.value)];
        q := q + 1;
      }
      assert ReplyLoop(g, fx, g.current) == ReplyLoop(g, fx, q - 1);
      return None;
    }

    /**
     * `tweetNBAScores`: processes the live games in order; no games means no
     * posts, and a failed statistics lookup aborts the remaining games.
     */
    method TweetNBAScores(games: seq<Game>, fx: Effects) returns (outcome: RunOutcome)
      requires Valid()
      modifies this
      ensures Valid()
      ensures var r := RunGames(old(previousQuarters), games, fx);
        previousQuarters == r.tracker && log == old(log) + r.posts &&
        outcome == (if games == [] then NoLiveGames else if r.error.Some? then Aborted(r.error.value) else Completed)
      ensures games == [] ==> previousQuarters == old(previousQuarters) && log == old(log)
    {
      if |games| == 0 {
        return NoLiveGames;
      }
      var i := 0;
      while i < |games|
        invariant 0 <= i <= |games|
        invariant Valid()
        invariant var rest := RunGames(previousQuarters, games[i..], fx);
          var all := RunGames(old(previousQuarters), games, fx);
          rest.tracker == all.tracker && rest.error == all.error && log + rest.posts == old(log) + all.posts
      {
        assert games[i..][0] == games[i] && games[i..][1..] == games[i + 1..];
        ghost var log0, step := log, StepGame(previousQuarters, games[i], fx);
        var error := ProcessGame(games[i], fx);
        if error.Some? {
          return Aborted(error.value);
        }
        AppendAssoc(log0, step.posts, RunGames(previousQuarters, games[i + 1..], fx).posts);
        i := i + 1;
      }
      assert games[i..] == [];
      return Completed;
    }
  }

  /** Once a lookup has failed, running further quarter indices changes nothing. */
  lemma {:induction false} ReplyLoopStaysFailed(g: Game, fx: Effects, m: int, n: int)
    requires m <= n
    requires ReplyLoop(g, fx, m).error.Some?
    ensures ReplyLoop(g, fx, n) == ReplyLoop(g, fx, m)
    decreases n - m
  {
    if m < n {
      ReplyLoopStaysFailed(g, fx, m, n - 1);
    }
  }

  /**
   * The reply loop finishes exactly when every lookup for quarters 1..n
   * succeeds, and then it has posted one reply per quarter, in order, each
   * carrying that lookup's aggregate.
   */
  lemma {:induction false} ReplyLoopSucceeds(g: Game, fx: Effects, n: int)
    ensures ReplyLoop(g, fx, n).error.None? <==> forall q :: 1 <= q <= n ==> Fetched(g, fx, q).Success?
    ensures ReplyLoop(g, fx, n).error.None? ==> |ReplyLoop(g, fx, n).posts| == (if n > 0 then n else 0)
    ensures ReplyLoop(g, fx, n).error.None? ==>
      forall i :: 0 <= i < |ReplyLoop(g, fx, n).posts| ==> RepliesFor(ReplyLoop(g, fx, n).posts[i], g, fx, i + 1)
    decreases n
  {
    if n > 0 {
      ReplyLoopSucceeds(g, fx, n - 1);
      if ReplyLoop(g, fx, n - 1).error.Some? {
        ReplyLoopStaysFailed(g, fx, n - 1, n);
      }
    }
  }

  /**
   * When the reply loop fails, it failed at the first quarter q whose lookup
   * failed, with that lookup's error, after posting the replies for 1..q-1.
   */
  lemma {:induction false} ReplyLoopStopsAtFirstFailure(g: Game, fx: Effects, n: int)
    requires ReplyLoop(g, fx, n).error.Some?
    ensures exists q ::
      1 <= q <= n && Fetched(g, fx, q).Failure? &&
      ReplyLoop(g, fx, n).error == Some(Fetched(g, fx, q).error) &&
      |ReplyLoop(g, fx, n).posts| == q - 1 &&
      (forall p :: 1 <= p < q ==> Fetched(g, fx, p).Success?) &&
      forall i :: 0 <= i < q - 1 ==> RepliesFor(ReplyLoop(g, fx, n).posts[i], g, fx, i + 1)
    decreases n
  {
    var prev := ReplyLoop(g, fx, n - 1);
    if prev.error.Some? {
      ReplyLoopStopsAtFirstFailure(g, fx, n - 1);
    } else {
      ReplyLoopSucceeds(g, fx, n - 1);
      assert Fetched(g, fx, n).Failure?;
    }
  }

  /**
   * Processing a game creates its tracker entry as 0 only when it is absent,
   * moves it to `current` exactly when a quarter-end post is due (even to a
   * lower quarter than the one tracked), and leaves every other entry alone.
   */
  lemma StepGameTracker(t: map<int, int>, g: Game, fx: Effects)
    ensures StepGame(t, g, fx).tracker.Keys == t.Keys + {g.id}
    ensures forall id :: id in t && id != g.id ==> StepGame(t, g, fx).tracker[id] == t[id]
    ensures StepGame(t, g, fx).tracker[g.id] ==
      if QuarterEnds(g, Tracked(t, g.id)) then g.current
      else if g.id in t then t[g.id] else 0
  {
  }

  /** Processing a game keeps every tracker value in {0, 2, 3, 4}. */
  lemma StepGameTrackerRange(t: map<int, int>, g: Game, fx: Effects)
    requires TrackerRange(t)
    ensures TrackerRange(StepGame(t, g, fx).tracker)
  {
  }

  /** The posts for one game are the opening posts, the replies and, if no lookup failed, the closing posts. */
  lemma StepGameShape(t: map<int, int>, g: Game, fx: Effects)
    ensures var r := ReplyLoop(g, fx, g.current);
      var closing := if r.error.None? then ClosingPosts(g, fx) else [];
      var posts := StepGame(t, g, fx).posts;
      |posts| == |OpeningPosts(t, g)| + |r.posts| + |closing| &&
      (forall i :: 0 <= i < |OpeningPosts(t, g)| ==> posts[i] == OpeningPosts(t, g)[i]) &&
      (forall i :: |OpeningPosts(t, g)| <= i < |OpeningPosts(t, g)| + |r.posts| ==>
        posts[i] == r.posts[i - |OpeningPosts(t, g)|]) &&
      (forall i :: |OpeningPosts(t, g)| + |r.posts| <= i < |posts| ==>
        posts[i] == closing[i - |OpeningPosts(t, g)| - |r.posts|])
  {
  }

  /**
   * The posts for one game start with the live post, and contain a
   * quarter-end post exactly when the quarter-end guard holds, then only once,
   * at position 1 and for the current quarter.
   */
  lemma StepGameQuarterEndPost(t: map<int, int>, g: Game, fx: Effects)
    ensures var s := StepGame(t, g, fx);
      |s.posts| > 0 && s.posts[0] == LivePost(g)
    ensures var s := StepGame(t, g, fx);
      (exists i :: 0 <= i < |s.posts| && s.posts[i].QuarterEndPost?) <==> QuarterEnds(g, Tracked(t, g.id))
    ensures var s := StepGame(t, g, fx);
      forall i :: 0 <= i < |s.posts| && s.posts[i].QuarterEndPost? ==> i == 1 && s.posts[i] == QuarterEndPost(g, g.current)
  {
    var s := StepGame(t, g, fx);
    var opening := OpeningPosts(t, g);
    var r := ReplyLoop(g, fx, g.current);
    var closing := if r.error.None? then ClosingPosts(g, fx) else [];
    StepGameShape(t, g, fx);
    ReplyLoopOnlyReplies(g, fx, g.current);
    if QuarterEnds(g, Tracked(t, g.id)) {
      assert s.posts[1] == opening[1];
    }
  }

  /**
   * If every lookup succeeded, the opening posts are followed by one reply per
   * quarter 1..current, in order, and, exactly when the game is final, by a
   * last post naming the winner and carrying the summary for the two team
   * names; a failed lookup leaves the pass's error and no final post.
   */
  lemma StepGameRepliesAndFinal(t: map<int, int>, g: Game, fx: Effects)
    ensures StepGame(t, g, fx).error == ReplyLoop(g, fx, g.current).error
    ensures var s := StepGame(t, g, fx);
      var k := if QuarterEnds(g, Tracked(t, g.id)) then 2 else 1;
      var n := if g.current > 0 then g.current else 0;
      s.error.None? ==>
        (|s.posts| == k + n + (if IsFinal(g) then 1 else 0) &&
         forall i :: k <= i < k + n ==> RepliesFor(s.posts[i], g, fx, i - k + 1))
    ensures var s := StepGame(t, g, fx);
      s.error.None? && IsFinal(g) ==>
        s.posts[|s.posts| - 1] == FinalPost(g, WinnerName(g), fx.summarize(g.home.name, g.visitors.name))
    ensures var s := StepGame(t, g, fx);
      (exists i :: 0 <= i < |s.posts| && s.posts[i].FinalPost?) <==> IsFinal(g) && s.error.None?
  {
    var s := StepGame(t, g, fx);
    var opening := OpeningPosts(t, g);
    var r := ReplyLoop(g, fx, g.current);
    var closing := if r.error.None? then ClosingPosts(g, fx) else [];
    StepGameShape(t, g, fx);
    ReplyLoopOnlyReplies(g, fx, g.current);
    ReplyLoopSucceeds(g, fx, g.current);
    if IsFinal(g) && s.error.None? {
      assert s.posts[|s.posts| - 1] == closing[0];
    }
  }

  /** The reply loop posts nothing but replies. */
  lemma {:induction false} ReplyLoopOnlyReplies(g: Game, fx: Effects, n: int)
    ensures forall i :: 0 <= i < |ReplyLoop(g, fx, n).posts| ==> ReplyLoop(g, fx, n).posts[i].StatsReply?
    decreases n
  {
    if n > 0 {
      ReplyLoopOnlyReplies(g, fx, n - 1);
    }
  }

  /** Seeing the same game state on two passes in a row posts no second quarter-end update. */
  lemma RepeatedPollNoSecondQuarterEnd(t: map<int, int>, g: Game, fx: Effects)
    ensures var again := StepGame(StepGame(t, g, fx).tracker, g, fx);
      forall i :: 0 <= i < |again.posts| ==> !again.posts[i].QuarterEndPost?
  {
    var t1 := StepGame(t, g, fx).tracker;
    StepGameTracker(t, g, fx);
    StepGameQuarterEndPost(t1, g, fx);
    assert !QuarterEnds(g, Tracked(t1, g.id));
  }

  /** The tracker is not monotone: a lower quarter that differs from the tracked one is posted and stored. */
  lemma TrackerMovesBackward(t: map<int, int>, g: Game, fx: Effects)
    requires Tracked(t, g.id) == 3 && g.current == 2 && !IsFinal(g)
    ensures StepGame(t, g, fx).tracker[g.id] == 2 < Tracked(t, g.id)
    ensures StepGame(t, g, fx).posts[1] == QuarterEndPost(g, 2)
  {
  }

  /** An aborted pass processes none of the games after the one that failed. */
  lemma {:induction false} RunGamesAbortSkipsRest(t: map<int, int>, games: seq<Game>, more: seq<Game>, fx: Effects)
    requires RunGames(t, games, fx).error.Some?
    ensures RunGames(t, games + more, fx) == RunGames(t, games, fx)
    decreases |games|
  {
    assert games != [];
    assert (games + more)[0] == games[0];
    var first := StepGame(t, games[0], fx);
    if first.error.None? {
      assert (games + more)[1..] == games[1..] + more;
      RunGamesAbortSkipsRest(first.tracker, games[1..], more, fx);
    }
  }

  /**
   * A pass over `games + more` that gets through `games` is the same as a
   * pass over `games` followed by a pass over `more` from the tracker it left.
   */
  lemma {:induction false} RunGamesAppend(t: map<int, int>, games: seq<Game>, more: seq<Game>, fx: Effects)
    requires RunGames(t, games, fx).error.None?
    ensures var r := RunGames(t, games, fx);
      var s := RunGames(r.tracker, more, fx);
      RunGames(t, games + more, fx) == Step(s.tracker, r.posts + s.posts, s.error)
    decreases |games|
  {
    if games == [] {
      assert games + more == more;
    } else {
      assert (games + more)[0] == games[0];
      assert (games + more)[1..] == games[1..] + more;
      var first := StepGame(t, games[0], fx);
      RunGamesAppend(first.tracker, games[1..], more, fx);
      var r' := RunGames(first.tracker, games[1..], fx);
      AppendAssoc(first.posts, r'.posts, RunGames(r'.tracker, more, fx).posts);
    }
  }

  /**
   * A pass keeps tracker values in {0, 2, 3, 4}, adds entries only for the
   * games it processes, and leaves the entries of all other games unchanged.
   */
  lemma {:induction false} RunGamesTracker(t: map<int, int>, games: seq<Game>, fx: Effects)
    ensures TrackerRange(t) ==> TrackerRange(RunGames(t, games, fx).tracker)
    ensures forall id :: id in RunGames(t, games, fx).tracker ==>
      id in t || exists i :: 0 <= i < |games| && games[i].id == id
    ensures forall id :: id in t && (forall i :: 0 <= i < |games| ==> games[i].id != id) ==>
      id in RunGames(t, games, fx).tracker && RunGames(t, games, fx).tracker[id] == t[id]
    decreases |games|
  {
    if games != [] {
      var first := StepGame(t, games[0], fx);
      StepGameTracker(t, games[0], fx);
      if TrackerRange(t) {
        StepGameTrackerRange(t, games[0], fx);
      }
      if first.error.None? {
        RunGamesTracker(first.tracker, games[1..], fx);
        forall id | id in RunGames(t, games, fx).tracker
          ensures id in t || exists i :: 0 <= i < |games| && games[i].id == id
        {
          if id !in first.tracker {
            var j :| 0 <= j < |games[1..]| && games[1..][j].id == id;
            assert games[j + 1].id == id;
          } else if id !in t {
            assert games[0].id == id;
          }
        }
        forall id | id in t && (forall i :: 0 <= i < |games| ==> games[i].id != id)
          ensures id in RunGames(t, games, fx).tracker && RunGames(t, games, fx).tracker[id] == t[id]
        {
          assert games[0].id != id;
          forall i | 0 <= i < |games[1..]| ensures games[1..][i].id != id {
            assert games[1..][i] == games[i + 1];
          }
        }
      } else {
        forall id | id in RunGames(t, games, fx).tracker && id !in t
          ensures exists i :: 0 <= i < |games| && games[i].id == id
        {
          assert games[0].id == id;
        }
      }
    }
  }

  /** The number of games a pass processes: all of them, or up to and including the first that fails. */
  function ProcessedCount(t: map<int, int>, games: seq<Game>, fx: Effects): (n: nat)
    ensures n <= |games|
    ensures n == 0 <==> games == []
    decreases |games|
  {
    if games == [] then 0
    else
      var first := StepGame(t, games[0], fx);
      if first.error.Some? then 1 else 1 + ProcessedCount(first.tracker, games[1..], fx)
  }

  /**
   * A pass processes exactly the prefix `games[..n]`, `n` being ProcessedCount:
   * the games before the last one of it succeed, it ends early only because
   * its last game failed, and the pass is the same as a pass over that prefix.
   */
  lemma {:induction false} RunGamesProcessesPrefix(t: map<int, int>, games: seq<Game>, fx: Effects)
    ensures RunGames(t, games, fx) == RunGames(t, games[..ProcessedCount(t, games, fx)], fx)
    ensures ProcessedCount(t, games, fx) < |games| ==> RunGames(t, games, fx).error.Some?
    ensures 0 < ProcessedCount(t, games, fx) ==>
      RunGames(t, games[..ProcessedCount(t, games, fx) - 1], fx).error.None?
    decreases |games|
  {
    if games != [] {
      var first := StepGame(t, games[0], fx);
      if first.error.Some? {
        assert games[..1][0] == games[0];
        assert games[..0] == [];
      } else {
        var m := ProcessedCount(first.tracker, games[1..], fx);
        RunGamesProcessesPrefix(first.tracker, games[1..], fx);
        assert games[..m + 1][0] == games[0];
        assert games[..m + 1][1..] == games[1..][..m];
        if 0 < m {
          assert games[..m][0] == games[0];
          assert games[..m][1..] == games[1..][..m - 1];
        } else {
          assert games[..m] == [];
        }
      }
    }
  }

  /** The tracker entries a pass creates belong to the games it processes. */
  lemma RunGamesNewEntriesProcessed(t: map<int, int>, games: seq<Game>, fx: Effects)
    ensures forall id :: id in RunGames(t, games, fx).tracker ==>
      id in t || exists i :: 0 <= i < ProcessedCount(t, games, fx) && games[i].id == id
  {
    var n := ProcessedCount(t, games, fx);
    RunGamesProcessesPrefix(t, games, fx);
    RunGamesTracker(t, games[..n], fx);
    forall id | id in RunGames(t, games, fx).tracker && id !in t
      ensures exists i :: 0 <= i < n && games[i].id == id
    {
      var i :| 0 <= i < |games[..n]| && games[..n][i].id == id;
      assert games[i].id == id;
    }
  }
}
