/**
 * The per-game statistics aggregation of the bot (`getStats`): from the
 * statistics endpoint's answer for one game it keeps, for the home team and
 * for the visitor team, the largest `points`, `assists` and `totReb` seen,
 * each starting at 0 and replaced only by a strictly larger value.
 *
 * The HTTP request itself is not modelled: its outcome, a failure or the
 * endpoint's `response` list, is an input of `GetStats`.
 */
module GameStats {
  import opened Wrappers

  /** One entry of a team's `statistics` list; only the first entry is read. */
  datatype TeamStats = TeamStats(points: int, assists: int, totReb: int)

  /** One element of a game record's `team` list. */
  datatype TeamEntry = TeamEntry(id: int, statistics: seq<TeamStats>)

  /** One element of the endpoint's `response` list: the game's home-team id and its teams. */
  datatype GameRecord = GameRecord(homeTeam: int, teams: seq<TeamEntry>)

  /** The six maxima `getStats` returns; `Team1` is the home slot, `Team2` the visitor slot. */
  datatype StatSummary = StatSummary(
    maxPointsTeam1: int, maxAssistsTeam1: int, maxTotRebTeam1: int,
    maxPointsTeam2: int, maxAssistsTeam2: int, maxTotRebTeam2: int)

  /** The outcome of the statistics request: it raised, or it answered with the `response` list. */
  datatype Fetch = Failed | Received(records: seq<GameRecord>)

  /**
   * RequestFailed: the statistics request itself raised.
   * NoGameData: the response list has no first element.
   * MissingTeamStatistics: a team's `statistics` list is empty, so reading its
   * first entry's fields raises a type error.
   */
  datatype StatsError = RequestFailed | NoGameData | MissingTeamStatistics

  datatype Side = Home | Visitor
  datatype Stat = Points | Assists | TotReb

  /** A team fills the home slot exactly when its id equals the game's `home_team`. */
  function SideOf(homeTeam: int, teamId: int): Side {
    if teamId == homeTeam then Home else Visitor
  }

  function StatOf(s: TeamStats, k: Stat): int {
    match k
    case Points => s.points
    case Assists => s.assists
    case TotReb => s.totReb
  }

  /** The slot of a summary that holds statistic `k` for `side`. */
  function Leader(r: StatSummary, side: Side, k: Stat): int {
    match (side, k)
    case (Home, Points) => r.maxPointsTeam1
    case (Home, Assists) => r.maxAssistsTeam1
    case (Home, TotReb) => r.maxTotRebTeam1
    case (Visitor, Points) => r.maxPointsTeam2
    case (Visitor, Assists) => r.maxAssistsTeam2
    case (Visitor, TotReb) => r.maxTotRebTeam2
  }

  /** Every team has a first statistics entry. */
  predicate HasStatistics(teams: seq<TeamEntry>) {
    forall t :: t in teams ==> |t.statistics| > 0
  }

  /** max(0, max(values)): 0 for no values. */
  function Max0(values: seq<int>): int {
    if values == [] then 0
    else
      var m := Max0(values[..|values| - 1]);
      var v := values[|values| - 1];
      if v > m then v else m
  }

  /** Statistic `k` of every team that fills `side`, in team order. */
  function SideValues(teams: seq<TeamEntry>, homeTeam: int, side: Side, k: Stat): seq<int>
    requires HasStatistics(teams)
  {
    if teams == [] then []
    else
      var init := SideValues(teams[..|teams| - 1], homeTeam, side, k);
      var t := teams[|teams| - 1];
      if SideOf(homeTeam, t.id) == side then init + [StatOf(t.statistics[0], k)] else init
  }

  /** The summary a game record yields: each slot is max(0, max over the teams that fill it). */
  function Aggregate(g: GameRecord): StatSummary
    requires HasStatistics(g.teams)
  {
    StatSummary(
      Max0(SideValues(g.teams, g.homeTeam, Home, Points)),
      Max0(SideValues(g.teams, g.homeTeam, Home, Assists)),
      Max0(SideValues(g.teams, g.homeTeam, Home, TotReb)),
      Max0(SideValues(g.teams, g.homeTeam, Visitor, Points)),
      Max0(SideValues(g.teams, g.homeTeam, Visitor, Assists)),
      Max0(SideValues(g.teams, g.homeTeam, Visitor, TotReb)))
  }

  /** The running maxima after one more team, filling `side`, whose first statistics entry is `s`. */
  function Absorb(acc: StatSummary, side: Side, s: TeamStats): StatSummary {
    match side
    case Home => acc.(
      maxPointsTeam1 := if s.points > acc.maxPointsTeam1 then s.points else acc.maxPointsTeam1,
      maxAssistsTeam1 := if s.assists > acc.maxAssistsTeam1 then s.assists else acc.maxAssistsTeam1,
      maxTotRebTeam1 := if s.totReb > acc.maxTotRebTeam1 then s.totReb else acc.maxTotRebTeam1)
    case Visitor => acc.(
      maxPointsTeam2 := if s.points > acc.maxPointsTeam2 then s.points else acc.maxPointsTeam2,
      maxAssistsTeam2 := if s.assists > acc.maxAssistsTeam2 then s.assists else acc.maxAssistsTeam2,
      maxTotRebTeam2 := if s.totReb > acc.maxTotRebTeam2 then s.totReb else acc.maxTotRebTeam2)
  }

  /** The fold over the `team` list, from six zeros; a team without statistics raises. */
  function FoldTeams(teams: seq<TeamEntry>, homeTeam: int): Result<StatSummary, StatsError>
    decreases |teams|
  {
    if teams == [] then Success(StatSummary(0, 0, 0, 0, 0, 0))
    else
      match FoldTeams(teams[..|teams| - 1], homeTeam)
      case Failure(e) => Failure(e)
      case Success(acc) =>
        var t := teams[|teams| - 1];
        if t.statistics == [] then Failure(MissingTeamStatistics)
        else Success(Absorb(acc, SideOf(homeTeam, t.id), t.statistics[0]))
  }

  /** What `getStats` returns or raises for the outcome of its request. */
  function StatsOf(fetch: Fetch): Result<StatSummary, StatsError> {
    match fetch
    case Failed => Failure(RequestFailed)
    case Received(records) =>
      if records == [] then Failure(NoGameData)
      else FoldTeams(records[0].teams, records[0].homeTeam)
  }

  /**
   * `getStats`: reads the first game record and folds over its teams, keeping
   * six running maxima that start at 0 and are replaced only by a strictly
   * larger value.
   */
  method GetStats(fetch: Fetch) returns (r: Result<StatSummary, StatsError>)
    ensures r == StatsOf(fetch)
    ensures fetch.Failed? ==> r == Failure(RequestFailed)
    ensures fetch.Received? && fetch.records == [] ==> r == Failure(NoGameData)
    ensures fetch.Received? && fetch.records != [] && !HasStatistics(fetch.records[0].teams) ==>
      r == Failure(MissingTeamStatistics)
    ensures fetch.Received? && fetch.records != [] && HasStatistics(fetch.records[0].teams) ==>
      r == Success(Aggregate(fetch.records[0]))
  {
    StatsOfMeaning(fetch);
    if fetch.Failed? {
      return Failure(RequestFailed);
    }
    var records := fetch.records;
    if records == [] {
      return Failure(NoGameData);
    }
    var gameData := records[0];
    var teams := gameData.teams;
    var maxPointsTeam1, maxAssistsTeam1, maxTotRebTeam1 := 0, 0, 0;
    var maxPointsTeam2, maxAssistsTeam2, maxTotRebTeam2 := 0, 0, 0;
    var i := 0;
    while i < |teams|
      invariant 0 <= i <= |teams|
      invariant FoldTeams(teams[..i], gameData.homeTeam) ==
        Success(StatSummary(maxPointsTeam1, maxAssistsTeam1, maxTotRebTeam1,
                            maxPointsTeam2, maxAssistsTeam2, maxTotRebTeam2))
    {
      var team := teams[i];
      assert teams[..i + 1][..i] == teams[..i];
      if team.statistics == [] {
        FoldTeamsFailsOnce(teams, i + 1, gameData.homeTeam);
        return Failure(MissingTeamStatistics);
      }
      var teamStats := team.statistics[0];
      var isHome := team.id == gameData.homeTeam;
      if teamStats.points > (if isHome then maxPointsTeam1 else maxPointsTeam2) {
        if isHome { maxPointsTeam1 := teamStats.points; } else { maxPointsTeam2 := teamStats.points; }
      }
      if teamStats.assists > (if isHome then maxAssistsTeam1 else maxAssistsTeam2) {
        if isHome { maxAssistsTeam1 := teamStats.assists; } else { maxAssistsTeam2 := teamStats.assists; }
      }
      if teamStats.totReb > (if isHome then maxTotRebTeam1 else maxTotRebTeam2) {
        if isHome { maxTotRebTeam1 := teamStats.totReb; } else { maxTotRebTeam2 := teamStats.totReb; }
      }
      i := i + 1;
    }
    assert teams[..i] == teams;
    return Success(StatSummary(maxPointsTeam1, maxAssistsTeam1, maxTotRebTeam1,
                               maxPointsTeam2, maxAssistsTeam2, maxTotRebTeam2));
  }

  /** Once the fold has raised on a prefix, the whole fold raises the same error. */
  lemma {:induction false} FoldTeamsFailsOnce(teams: seq<TeamEntry>, n: int, homeTeam: int)
    requires 0 <= n <= |teams|
    requires FoldTeams(teams[..n], homeTeam).Failure?
    ensures FoldTeams(teams, homeTeam) == FoldTeams(teams[..n], homeTeam)
    decreases |teams| - n
  {
    if n < |teams| {
      assert teams[..n + 1][..n] == teams[..n];
      FoldTeamsFailsOnce(teams, n + 1, homeTeam);
    } else {
      assert teams[..n] == teams;
    }
  }

  /**
   * The fold succeeds exactly when every team has a statistics entry, its only
   * error is MissingTeamStatistics, and on success each slot holds
   * max(0, max of that statistic over the teams that fill the slot).
   */
  lemma {:induction false} FoldTeamsIsMaximum(teams: seq<TeamEntry>, homeTeam: int)
    ensures FoldTeams(teams, homeTeam).Success? <==> HasStatistics(teams)
    ensures FoldTeams(teams, homeTeam).Failure? ==> FoldTeams(teams, homeTeam).error == MissingTeamStatistics
    ensures FoldTeams(teams, homeTeam).Success? ==>
      forall side, k :: Leader(FoldTeams(teams, homeTeam).value, side, k) == Max0(SideValues(teams, homeTeam, side, k))
    decreases |teams|
  {
    if teams != [] {
      var init := teams[..|teams| - 1];
      var last := teams[|teams| - 1];
      assert teams == init + [last];
      FoldTeamsIsMaximum(init, homeTeam);
      if FoldTeams(teams, homeTeam).Success? {
        forall side, k
          ensures Leader(FoldTeams(teams, homeTeam).value, side, k) == Max0(SideValues(teams, homeTeam, side, k))
        {
          var s := SideValues(init, homeTeam, side, k);
          var v := StatOf(last.statistics[0], k);
          if SideOf(homeTeam, last.id) == side {
            assert (s + [v])[..|s|] == s;
          }
        }
      }
    }
  }

  /**
   * `getStats` raises RequestFailed when its request raises, NoGameData when
   * the response holds no game record and MissingTeamStatistics when a team
   * has no statistics entry; otherwise it returns the aggregate of the first
   * record.
   */
  lemma StatsOfMeaning(fetch: Fetch)
    ensures fetch.Failed? ==> StatsOf(fetch) == Failure(RequestFailed)
    ensures fetch.Received? && fetch.records == [] ==> StatsOf(fetch) == Failure(NoGameData)
    ensures fetch.Received? && fetch.records != [] && !HasStatistics(fetch.records[0].teams) ==>
      StatsOf(fetch) == Failure(MissingTeamStatistics)
    ensures fetch.Received? && fetch.records != [] && HasStatistics(fetch.records[0].teams) ==>
      StatsOf(fetch) == Success(Aggregate(fetch.records[0]))
  {
    if fetch.Received? && fetch.records != [] {
      var g := fetch.records[0];
      FoldTeamsIsMaximum(g.teams, g.homeTeam);
      if HasStatistics(g.teams) {
        var r := FoldTeams(g.teams, g.homeTeam).value;
        assert Leader(r, Home, Points) == Aggregate(g).maxPointsTeam1;
        assert Leader(r, Home, Assists) == Aggregate(g).maxAssistsTeam1;
        assert Leader(r, Home, TotReb) == Aggregate(g).maxTotRebTeam1;
        assert Leader(r, Visitor, Points) == Aggregate(g).maxPointsTeam2;
        assert Leader(r, Visitor, Assists) == Aggregate(g).maxAssistsTeam2;
        assert Leader(r, Visitor, TotReb) == Aggregate(g).maxTotRebTeam2;
      }
    }
  }

  /** Max0 is the least upper bound of its values and of 0. */
  lemma {:induction false} Max0IsMaximum(values: seq<int>)
    ensures Max0(values) >= 0
    ensures forall v :: v in values ==> v <= Max0(values)
    ensures Max0(values) == 0 || Max0(values) in values
  {
    if values != [] {
      var init := values[..|values| - 1];
      Max0IsMaximum(init);
      assert values == init + [values[|values| - 1]];
    }
  }

  /** Max0 depends only on which values occur, not on their order or multiplicity. */
  lemma Max0SameElements(a: seq<int>, b: seq<int>)
    requires forall v :: v in a <==> v in b
    ensures Max0(a) == Max0(b)
  {
    Max0IsMaximum(a);
    Max0IsMaximum(b);
  }

  /** A value occurs in SideValues exactly when some team filling that side has it. */
  lemma {:induction false} SideValuesMembers(teams: seq<TeamEntry>, homeTeam: int, side: Side, k: Stat)
    requires HasStatistics(teams)
    ensures forall v :: v in SideValues(teams, homeTeam, side, k) <==>
      exists t :: t in teams && |t.statistics| > 0 && SideOf(homeTeam, t.id) == side && StatOf(t.statistics[0], k) == v
  {
    if teams != [] {
      var init := teams[..|teams| - 1];
      var last := teams[|teams| - 1];
      assert teams == init + [last];
      SideValuesMembers(init, homeTeam, side, k);
    }
  }

  /**
   * Each slot of the aggregate is max(0, max of that statistic over the teams
   * that fill the slot): at least 0, at least every such team's value, and
   * either 0 or the value of one such team. With no teams every slot is 0.
   */
  lemma AggregateIsLeaderMaximum(g: GameRecord, side: Side, k: Stat)
    requires HasStatistics(g.teams)
    ensures Leader(Aggregate(g), side, k) >= 0
    ensures forall t :: t in g.teams && SideOf(g.homeTeam, t.id) == side ==>
      StatOf(t.statistics[0], k) <= Leader(Aggregate(g), side, k)
    ensures Leader(Aggregate(g), side, k) == 0 ||
      exists t :: t in g.teams && SideOf(g.homeTeam, t.id) == side && StatOf(t.statistics[0], k) == Leader(Aggregate(g), side, k)
    ensures g.teams == [] ==> Leader(Aggregate(g), side, k) == 0
  {
    var s := SideValues(g.teams, g.homeTeam, side, k);
    assert Leader(Aggregate(g), side, k) == Max0(s);
    Max0IsMaximum(s);
    SideValuesMembers(g.teams, g.homeTeam, side, k);
    forall t | t in g.teams && SideOf(g.homeTeam, t.id) == side
      ensures StatOf(t.statistics[0], k) <= Max0(s)
    {
      assert StatOf(t.statistics[0], k) in s;
    }
  }

  /** Reordering the teams of a game record does not change its aggregate. */
  lemma AggregateOrderIndependent(g: GameRecord, h: GameRecord)
    requires HasStatistics(g.teams)
    requires h.homeTeam == g.homeTeam && multiset(h.teams) == multiset(g.teams)
    ensures HasStatistics(h.teams)
    ensures Aggregate(h) == Aggregate(g)
  {
    forall t | t in h.teams ensures t in g.teams {
      assert t in multiset(h.teams);
    }
    forall t | t in g.teams ensures t in h.teams {
      assert t in multiset(g.teams);
    }
    forall side, k
      ensures Max0(SideValues(h.teams, h.homeTeam, side, k)) == Max0(SideValues(g.teams, g.homeTeam, side, k))
    {
      SideValuesMembers(g.teams, g.homeTeam, side, k);
      SideValuesMembers(h.teams, h.homeTeam, side, k);
      Max0SameElements(SideValues(h.teams, h.homeTeam, side, k), SideValues(g.teams, g.homeTeam, side, k));
    }
  }

  /** A two-team game: each team's figures land in its own slot. */
  lemma AggregateTwoTeams(home: TeamStats, visitor: TeamStats, homeId: int, visitorId: int)
    requires homeId != visitorId
    requires home.points >= 0 && home.assists >= 0 && home.totReb >= 0
    requires visitor.points >= 0 && visitor.assists >= 0 && visitor.totReb >= 0
    ensures var g := GameRecord(homeId, [TeamEntry(homeId, [home]), TeamEntry(visitorId, [visitor])]);
      HasStatistics(g.teams) &&
      Aggregate(g) == StatSummary(home.points, home.assists, home.totReb,
                                  visitor.points, visitor.assists, visitor.totReb)
  {
    var teams := [TeamEntry(homeId, [home]), TeamEntry(visitorId, [visitor])];
    assert teams[..1] == [TeamEntry(homeId, [home])];
    assert teams[..1][..0] == [];
    forall k ensures SideValues(teams, homeId, Home, k) == [StatOf(home, k)]
      && SideValues(teams, homeId, Visitor, k) == [StatOf(visitor, k)]
    {
      assert SideValues(teams[..1], homeId, Home, k) == [StatOf(home, k)];
      assert SideValues(teams[..1], homeId, Visitor, k) == [];
    }
    forall v: int ensures Max0([v]) == if v > 0 then v else 0 {
      assert [v][..0] == [];
    }
  }
}
