/**
 * The REST views: which permission class each action of each view set demands, the
 * `add_score` action, the leaderboard ranking, a team's score evolution, and the filters
 * that decide which scores and log entries a listing returns.
 */
module Views {
  import opened Wrappers
  import opened Models
  import opened Permissions
  import opened Signals

  /* ---------- Per-action permission dispatch ---------- */

  /** The permission classes declared on the team view set's extra actions. */
  function TeamActionDecorator(action: string): Option<PermissionClass> {
    if action == "add_score" then Some(IsLeaderOrAdmin)
    else if action == "leaderboard" then Some(AllowAny)
    else if action == "my_teams" then Some(IsAuthenticated)
    else if action == "stats" then Some(IsAuthenticated)
    else if action == "export" then Some(IsAdmin)
    else None
  }

  /**
   * `TeamViewSet.get_permissions`. The two lists win over any declaration on the action;
   * the fallback is the action's own declaration, or the view set's `IsAuthenticated`.
   */
  function TeamPermission(action: string): PermissionClass {
    if action in {"list", "retrieve", "leaderboard", "stats", "export"} then IsAuthenticated
    else if action in {"create", "update", "partial_update", "destroy"} then IsAdmin
    else TeamActionDecorator(action).GetOr(IsAuthenticated)
  }

  /** `ScoreViewSet.get_permissions`; the view set's default is `IsAuthenticated`. */
  function ScorePermission(action: string): PermissionClass {
    if action in {"list", "retrieve", "export"} then IsAuthenticated
    else if action in {"create", "update", "partial_update", "destroy"} then IsLeaderOrAdmin
    else IsAuthenticated
  }

  /** `BadgeViewSet.get_permissions`. */
  function BadgePermission(action: string): PermissionClass {
    if action in {"list", "retrieve"} then IsAuthenticated else IsAdmin
  }

  /** `ChallengeViewSet.get_permissions`. */
  function ChallengePermission(action: string): PermissionClass {
    if action in {"list", "retrieve", "my_progress"} then IsAuthenticated else IsAdmin
  }

  /** Team reads need only a login; team writes need an admin; `add_score` falls back to its declaration. */
  lemma TeamDispatch(action: string, p: Principal)
    ensures action in {"list", "retrieve", "leaderboard", "stats", "export"} ==>
      (HasPermission(TeamPermission(action), p) <==> p.Authenticated?)
    ensures action in {"create", "update", "partial_update", "destroy"} ==>
      (HasPermission(TeamPermission(action), p) <==> p.Authenticated? && p.user.role == Admin)
    ensures TeamPermission("add_score") == IsLeaderOrAdmin
    ensures TeamPermission("my_teams") == IsAuthenticated
  {
  }

  /**
   * The dispatch overrides two declarations: the leaderboard, declared open to anyone,
   * demands a login, and the team export, declared admin-only, is open to every logged-in user.
   */
  lemma TeamDeclarationsOverridden(member: User)
    requires member.role == Member
    ensures TeamActionDecorator("leaderboard") == Some(AllowAny) && !HasPermission(TeamPermission("leaderboard"), Anonymous)
    ensures TeamActionDecorator("export") == Some(IsAdmin) && HasPermission(TeamPermission("export"), Authenticated(member))
    ensures !HasPermission(IsAdmin, Authenticated(member))
  {
  }

  /** Score reads need a login (the export too, despite its admin-only declaration); score writes need a leader or an admin. */
  lemma ScoreDispatch(action: string, p: Principal)
    ensures action in {"list", "retrieve", "export"} ==> (HasPermission(ScorePermission(action), p) <==> p.Authenticated?)
    ensures action in {"create", "update", "partial_update", "destroy"} ==>
      (HasPermission(ScorePermission(action), p) <==> p.Authenticated? && p.user.role != Member)
    ensures HasPermission(ScorePermission(action), p) ==> p.Authenticated?
  {
  }

  /** Badges and challenges: listed and read by any logged-in user, everything else admin-only. */
  lemma BadgeAndChallengeDispatch(action: string, p: Principal)
    ensures action in {"list", "retrieve"} ==>
      (HasPermission(BadgePermission(action), p) <==> p.Authenticated?) &&
      (HasPermission(ChallengePermission(action), p) <==> p.Authenticated?)
    ensures action !in {"list", "retrieve"} ==> (HasPermission(BadgePermission(action), p) <==> HasPermission(IsAdmin, p))
    ensures action !in {"list", "retrieve", "my_progress"} ==> (HasPermission(ChallengePermission(action), p) <==> HasPermission(IsAdmin, p))
  {
  }

  /* ---------- add_score ---------- */

  /** `get_object`: the team with the primary key, if there is one. */
  function FindTeam(teams: seq<Team>, id: TeamId): (r: Option<Team>)
    ensures r.Some? ==> r.value in teams && r.value.id == id
    ensures r.None? ==> forall i :: 0 <= i < |teams| ==> teams[i].id != id
  {
    if teams == [] then None
    else if teams[0].id == id then Some(teams[0])
    else FindTeam(teams[1..], id)
  }

  /** How an `add_score` request ends, before anything is written. */
  datatype AddScoreDecision = NotAuthenticated | Forbidden | NotFound | Proceed(team: Team)

  /** The HTTP status of each outcome. */
  function StatusOf(d: AddScoreDecision): int {
    match d
    case NotAuthenticated => 401
    case Forbidden => 403
    case NotFound => 404
    case Proceed(_) => 201
  }

  /**
   * The checks of `add_score` in the order the framework and the action run them: the
   * action's permission class, then the team lookup, then the ownership guard.
   */
  function DecideAddScore(p: Principal, teams: seq<Team>, id: TeamId): (d: AddScoreDecision)
    ensures d.Proceed? <==>
      p.Authenticated? && FindTeam(teams, id).Some? &&
      (Models.IsAdmin(p.user) || (Models.IsLeader(p.user) && FindTeam(teams, id).value.leader == Some(p.user.id)))
    ensures d.Proceed? ==> d.team == FindTeam(teams, id).value
    ensures d == NotAuthenticated <==> p.Anonymous?
    ensures d == NotFound <==> HasPermission(IsLeaderOrAdmin, p) && FindTeam(teams, id).None?
  {
    if !HasPermission(TeamPermission("add_score"), p) then
      if p.Anonymous? then NotAuthenticated else Forbidden
    else
      match FindTeam(teams, id)
      case None => NotFound
      case Some(team) =>
        if !Models.IsAdmin(p.user) && team.leader != Some(p.user.id) then Forbidden
        else Proceed(team)
  }

  /** A plain user is refused even when recorded as the team's leader; another team's leader is refused too. */
  lemma AddScoreOwnership(u: User, teams: seq<Team>, id: TeamId)
    ensures u.role == Member ==> DecideAddScore(Authenticated(u), teams, id) == Forbidden
    ensures u.role == Leader && FindTeam(teams, id).Some? && FindTeam(teams, id).value.leader != Some(u.id) ==>
      DecideAddScore(Authenticated(u), teams, id) == Forbidden
  {
  }

  /** The log entry `add_score` writes for the score it created. */
  function ScoreAddedLog(user: User, team: Team, s: Score): ActivityLog {
    ActivityLog("score_added", Some(user.id), Some(team.id), ScoreMeta(s.id, s.points))
  }

  /**
   * `TeamViewSet.add_score`. A refused request writes nothing; an accepted one creates exactly
   * one score (points default to 0, the description to the empty string), whose save runs the
   * badge engine, and then exactly one `score_added` entry. `ordered` is the ranking query's
   * result once the score is in.
   */
  method AddScore(db: Database, p: Principal, teamId: TeamId, points: Option<int>, description: Option<string>, ordered: seq<TeamId>)
      returns (status: int)
    requires db.Valid()
    modifies db
    ensures db.Valid()
    ensures status == StatusOf(DecideAddScore(p, old(db.teams), teamId))
    ensures status != 201 ==> db.scores == old(db.scores) && db.teamBadges == old(db.teamBadges) && db.logs == old(db.logs)
    ensures db.teams == old(db.teams) && db.badges == old(db.badges) && db.progress == old(db.progress)
    ensures db.nextScoreId == old(db.nextScoreId) + (if status == 201 then 1 else 0)
    ensures status == 201 ==>
      var team := DecideAddScore(p, old(db.teams), teamId).team;
      var s := Score(old(db.nextScoreId), team.id, points.GetOr(0), description.GetOr(""), Some(p.user.id));
      var awarded := NewAwards(db.StandingOf(team.id, ordered), db.badges, old(db.teamBadges));
      db.scores == old(db.scores) + [s] &&
      db.teamBadges == old(db.teamBadges) + AwardsFor(team.id, awarded) &&
      db.logs == old(db.logs) + BadgeLogs(team, awarded) + [ScoreAddedLog(p.user, team, s)]
  {
    var decision := DecideAddScore(p, db.teams, teamId);
    status := StatusOf(decision);
    if decision.Proceed? {
      var team := decision.team;
      var s := Score(db.nextScoreId, team.id, points.GetOr(0), description.GetOr(""), Some(p.user.id));
      db.SaveScore(s, team, ordered);
      db.logs := db.logs + [ScoreAddedLog(p.user, team, s)];
    }
  }

  /* ---------- Listings ---------- */

  /** Whether a score row survives `ScoreViewSet.get_queryset` for this user and optional team filter. */
  predicate ScoreVisible(s: Score, teams: seq<Team>, user: User, teamFilter: Option<TeamId>) {
    (teamFilter.Some? ==> s.team == teamFilter.value) &&
    (!Models.IsAdmin(user) ==> LeaderOf(teams, s.team) == Some(user.id))
  }

  /**
   * `ScoreViewSet.get_queryset`: the visible rows, in the order they are read. The score
   * table's default ordering is newest first, so `scores` is the table read in that order.
   */
  function VisibleScores(scores: seq<Score>, teams: seq<Team>, user: User, teamFilter: Option<TeamId>): (r: seq<Score>)
    ensures |r| <= |scores|
    ensures forall x :: x in r <==> x in scores && ScoreVisible(x, teams, user, teamFilter)
  {
    if scores == [] then []
    else
      var rest := VisibleScores(scores[1..], teams, user, teamFilter);
      assert forall x :: x in scores <==> x == scores[0] || x in scores[1..];
      if ScoreVisible(scores[0], teams, user, teamFilter) then [scores[0]] + rest else rest
  }

  /**
   * The listing keeps the order of the rows it reads, and each of them as often as it occurs:
   * it distributes over concatenation.
   */
  lemma {:induction false} VisibleScoresAppend(a: seq<Score>, b: seq<Score>, teams: seq<Team>, user: User, teamFilter: Option<TeamId>)
    ensures VisibleScores(a + b, teams, user, teamFilter) ==
      VisibleScores(a, teams, user, teamFilter) + VisibleScores(b, teams, user, teamFilter)
    decreases |a|
  {
    if a == [] {
      assert a + b == b;
    } else {
      var ab := a + b;
      assert ab[0] == a[0];
      assert ab[1..] == a[1..] + b;
      VisibleScoresAppend(a[1..], b, teams, user, teamFilter);
    }
  }

  /** A single row is listed as itself when it is visible and dropped otherwise. */
  lemma VisibleScoresSingle(x: Score, teams: seq<Team>, user: User, teamFilter: Option<TeamId>)
    ensures VisibleScores([x], teams, user, teamFilter) == (if ScoreVisible(x, teams, user, teamFilter) then [x] else [])
  {
    assert [x][1..] == [];
  }

  /**
   * The object-level rule and the listing agree on scores: a user may act on a score through
   * its team exactly when they are an admin or the listing shows them that score.
   */
  lemma ObjectRuleMatchesListing(s: Score, teams: seq<Team>, u: User)
    ensures IsTeamLeader(u, TeamObject(Some(TeamRef(LeaderOf(teams, s.team))))) <==>
      Models.IsAdmin(u) || ScoreVisible(s, teams, u, None)
  {
  }

  /** In a valid team table, the scores a non-admin may act on all belong to one team. */
  lemma ObjectRuleOneTeam(s1: Score, s2: Score, teams: seq<Team>, u: User)
    requires TeamTableValid(teams) && !Models.IsAdmin(u)
    requires IsTeamLeader(u, TeamObject(Some(TeamRef(LeaderOf(teams, s1.team)))))
    requires IsTeamLeader(u, TeamObject(Some(TeamRef(LeaderOf(teams, s2.team)))))
    ensures s1.team == s2.team
  {
    LeaderLeadsOneTeam(teams, s1.team, s2.team);
  }

  /** A non-admin only ever sees scores of teams they lead; the team filter narrows a listing and never widens it. */
  lemma ScoreListingScope(scores: seq<Score>, teams: seq<Team>, user: User, team: TeamId, x: Score)
    ensures !Models.IsAdmin(user) && x in VisibleScores(scores, teams, user, None) ==> LeaderOf(teams, x.team) == Some(user.id)
    ensures x in VisibleScores(scores, teams, user, Some(team)) ==>
      x in VisibleScores(scores, teams, user, None) && x.team == team
    ensures Models.IsAdmin(user) ==> (x in VisibleScores(scores, teams, user, None) <==> x in scores)
  {
  }

  /** Log entries of one team (or all, without a filter), in the listing's order. */
  function LogsOfTeam(logs: seq<ActivityLog>, teamFilter: Option<TeamId>): (r: seq<ActivityLog>)
    ensures |r| <= |logs|
    ensures forall x :: x in r <==> x in logs && (teamFilter.Some? ==> x.team == teamFilter)
  {
    if logs == [] then []
    else
      var rest := LogsOfTeam(logs[1..], teamFilter);
      assert forall x :: x in logs <==> x == logs[0] || x in logs[1..];
      if teamFilter.None? || logs[0].team == teamFilter then [logs[0]] + rest else rest
  }

  const LogListingCap: nat := 100

  /** `ActivityLogViewSet.get_queryset`: the matching entries, cut after the first hundred. */
  function LogListing(logs: seq<ActivityLog>, teamFilter: Option<TeamId>): (r: seq<ActivityLog>)
    ensures |r| <= LogListingCap
    ensures r <= LogsOfTeam(logs, teamFilter)
    ensures |r| == LogListingCap || r == LogsOfTeam(logs, teamFilter)
  {
    Take(LogsOfTeam(logs, teamFilter), LogListingCap)
  }

  /* ---------- Leaderboard ---------- */

  /** A row of the leaderboard query: a team, its leader's username, and its summed points (null without scores). */
  datatype TeamTotal = TeamTotal(team: Team, leaderUsername: Option<string>, total: Option<int>)

  datatype RankedTeam = RankedTeam(id: TeamId, name: string, description: string, leaderUsername: Option<string>, totalScore: int, rank: nat)

  /** `team.total_score or 0`. */
  function ScoreOf(row: TeamTotal): int {
    row.total.GetOr(0)
  }

  function Totals(rows: seq<TeamTotal>): (s: seq<int>)
    ensures |s| == |rows| && forall i :: 0 <= i < |rows| ==> s[i] == ScoreOf(rows[i])
  {
    seq(|rows|, i requires 0 <= i < |rows| => ScoreOf(rows[i]))
  }

  /**
   * The rank the loop gives the team at index `i`: the first team has rank 1, a team whose
   * score is below the previous one's takes its 1-based position, any other keeps the previous rank.
   */
  function RankAt(s: seq<int>, i: nat): (r: nat)
    requires i < |s|
    ensures 1 <= r <= i + 1
  {
    if i == 0 then 1
    else if s[i] < s[i - 1] then i + 1
    else RankAt(s, i - 1)
  }

  /** The leaderboard entry of one row at a rank. */
  function Entry(row: TeamTotal, rank: nat): RankedTeam {
    RankedTeam(row.team.id, row.team.name, row.team.description, row.leaderUsername, ScoreOf(row), rank)
  }

  /** The ranking loop of `TeamViewSet.leaderboard`: each row becomes an entry carrying `RankAt`. */
  method RankRows(teams: seq<TeamTotal>) returns (rankedTeams: seq<RankedTeam>)
    ensures |rankedTeams| == |teams|
    ensures forall i :: 0 <= i < |teams| ==> rankedTeams[i] == Entry(teams[i], RankAt(Totals(teams), i))
  {
    ghost var scores := Totals(teams);
    rankedTeams := [];
    var rank := 1;
    var prevScore: Option<int> := None;
    var i := 0;
    while i < |teams|
      invariant 0 <= i <= |teams|
      invariant |rankedTeams| == i
      invariant forall k :: 0 <= k < i ==> rankedTeams[k] == Entry(teams[k], RankAt(scores, k))
      invariant i == 0 ==> prevScore.None? && rank == 1
      invariant i > 0 ==> prevScore == Some(scores[i - 1]) && rank == RankAt(scores, i - 1)
    {
      var currentScore := ScoreOf(teams[i]);
      assert currentScore == scores[i];
      if prevScore.Some? && currentScore < prevScore.value {
        rank := |rankedTeams| + 1;
      }
      assert rank == RankAt(scores, i);
      EntriesStep(rankedTeams, teams, scores, Entry(teams[i], rank));
      rankedTeams := rankedTeams + [Entry(teams[i], rank)];
      prevScore := Some(currentScore);
      i := i + 1;
    }
  }

  /** Appending the next row's entry extends the loop's invariant by one index. */
  lemma EntriesStep(ranked: seq<RankedTeam>, teams: seq<TeamTotal>, scores: seq<int>, e: RankedTeam)
    requires |ranked| < |teams| == |scores|
    requires forall k :: 0 <= k < |ranked| ==> ranked[k] == Entry(teams[k], RankAt(scores, k))
    requires e == Entry(teams[|ranked|], RankAt(scores, |ranked|))
    ensures forall k :: 0 <= k < |ranked| + 1 ==> (ranked + [e])[k] == Entry(teams[k], RankAt(scores, k))
  {
    forall k | 0 <= k < |ranked| + 1
      ensures (ranked + [e])[k] == Entry(teams[k], RankAt(scores, k))
    {
      if k < |ranked| {
        assert (ranked + [e])[k] == ranked[k];
      }
    }
  }

  /** The rows a `limit` keeps: all of them without one, the first `limit` otherwise. */
  function Kept(rows: seq<TeamTotal>, limit: Option<int>): seq<TeamTotal>
    requires limit.Some? ==> limit.value >= 0
  {
    if limit.Some? then Take(rows, limit.value) else rows
  }

  /**
   * `TeamViewSet.leaderboard`. `rows` is the query result, ordered by total descending then
   * name; `limit` is the optional `limit` parameter (absent or empty is `None`). A negative
   * limit makes slicing the query fail.
   */
  method Leaderboard(rows: seq<TeamTotal>, limit: Option<int>) returns (r: Result<seq<RankedTeam>, string>)
    ensures r.Err? <==> limit.Some? && limit.value < 0
    ensures r.Ok? ==> |r.value| == |Kept(rows, limit)| && |r.value| <= |rows|
    ensures r.Ok? ==> forall i :: 0 <= i < |r.value| ==>
      r.value[i] == Entry(Kept(rows, limit)[i], RankAt(Totals(Kept(rows, limit)), i))
  {
    if limit.Some? && limit.value < 0 {
      return Err("Negative indexing is not supported.");
    }
    var ranked := RankRows(Kept(rows, limit));
    return Ok(ranked);
  }

  /** Scores sorted from highest to lowest, as the query orders them. */
  predicate NonIncreasing(s: seq<int>) {
    forall i, j :: 0 <= i < j < |s| ==> s[j] <= s[i]
  }

  /** How many scores are strictly higher than `x`. */
  function CountAbove(s: seq<int>, x: int): nat {
    if s == [] then 0 else (if s[0] > x then 1 else 0) + CountAbove(s[1..], x)
  }

  /** When exactly the first `k` scores are above `x`, `k` scores are above `x`. */
  lemma {:induction false} CountAboveSplit(s: seq<int>, x: int, k: nat)
    requires k <= |s|
    requires forall j :: 0 <= j < k ==> s[j] > x
    requires forall j :: k <= j < |s| ==> s[j] <= x
    ensures CountAbove(s, x) == k
    decreases |s|
  {
    if s != [] {
      CountAboveSplit(s[1..], x, if k == 0 then 0 else k - 1);
    }
  }

  /** Ranks never go down along the board, whatever the order of the rows. */
  lemma {:induction false} RanksNonDecreasing(s: seq<int>, i: nat, j: nat)
    requires i <= j < |s|
    ensures RankAt(s, i) <= RankAt(s, j)
    decreases j
  {
    if i < j && s[j] >= s[j - 1] {
      RanksNonDecreasing(s, i, j - 1);
    }
  }

  /**
   * On a board sorted by score, the rank is the standard competition rank ("1, 1, 3"):
   * one more than the number of teams with a strictly higher score.
   */
  lemma {:induction false} RankIsCompetitionRank(s: seq<int>, i: nat)
    requires NonIncreasing(s) && i < |s|
    ensures RankAt(s, i) == 1 + CountAbove(s, s[i])
    decreases i
  {
    if i == 0 {
      CountAboveSplit(s, s[0], 0);
    } else if s[i] < s[i - 1] {
      CountAboveSplit(s, s[i], i);
    } else {
      assert s[i] == s[i - 1];
      RankIsCompetitionRank(s, i - 1);
    }
  }

  /** On a sorted board, tied teams share a rank and a strictly lower score means a strictly larger rank. */
  lemma RanksFollowScores(s: seq<int>, i: nat, j: nat)
    requires NonIncreasing(s) && i < |s| && j < |s|
    ensures s[i] == s[j] ==> RankAt(s, i) == RankAt(s, j)
    ensures s[j] < s[i] ==> RankAt(s, i) < RankAt(s, j)
  {
    RankIsCompetitionRank(s, i);
    RankIsCompetitionRank(s, j);
    if s[j] < s[i] {
      CountAboveStrict(s, s[i], s[j]);
    }
  }

  /** Lowering the bar below a score that occurs adds at least that score to the count. */
  lemma {:induction false} CountAboveStrict(s: seq<int>, x: int, y: int)
    requires y < x && x in s
    ensures CountAbove(s, y) >= CountAbove(s, x) + 1
    decreases |s|
  {
    if s[0] == x {
      CountAboveMono(s[1..], x, y);
    } else {
      CountAboveStrict(s[1..], x, y);
    }
  }

  lemma {:induction false} CountAboveMono(s: seq<int>, x: int, y: int)
    requires y <= x
    ensures CountAbove(s, y) >= CountAbove(s, x)
    decreases |s|
  {
    if s != [] {
      CountAboveMono(s[1..], x, y);
    }
  }

  /** The leaderboard's candidate properties in one place: rank 1 first, ranks bounded by positions, nulls shown as 0. */
  lemma LeaderboardShape(rows: seq<TeamTotal>, i: nat)
    requires i < |rows|
    ensures RankAt(Totals(rows), 0) == 1
    ensures RankAt(Totals(rows), i) <= i + 1
    ensures rows[i].total.None? ==> Entry(rows[i], RankAt(Totals(rows), i)).totalScore == 0
    ensures i > 0 && Totals(rows)[i] < Totals(rows)[i - 1] ==> RankAt(Totals(rows), i) == i + 1
    ensures i > 0 && Totals(rows)[i] >= Totals(rows)[i - 1] ==> RankAt(Totals(rows), i) == RankAt(Totals(rows), i - 1)
  {
  }

  /* ---------- Team statistics ---------- */

  datatype EvolutionPoint = EvolutionPoint(points: int, cumulative: int)

  datatype TeamStats = TeamStats(totalScore: int, scoreCount: nat, evolution: seq<EvolutionPoint>, badgesCount: nat)

  /** The `stats` loop: one point per score, in order, carrying the running total. */
  method ScoreEvolution(scores: seq<Score>) returns (evolution: seq<EvolutionPoint>)
    ensures |evolution| == |scores|
    ensures forall i :: 0 <= i < |scores| ==>
      evolution[i].points == scores[i].points && evolution[i].cumulative == SumPoints(scores[..i + 1])
  {
    evolution := [];
    var cumulative := 0;
    var i := 0;
    while i < |scores|
      invariant 0 <= i <= |scores|
      invariant |evolution| == i
      invariant cumulative == SumPoints(scores[..i])
      invariant forall k :: 0 <= k < i ==>
        evolution[k].points == scores[k].points && evolution[k].cumulative == SumPoints(scores[..k + 1])
    {
      assert scores[..i + 1][..i] == scores[..i];
      cumulative := cumulative + scores[i].points;
      evolution := evolution + [EvolutionPoint(scores[i].points, cumulative)];
      i := i + 1;
    }
  }

  /** How many badges a team holds. */
  function BadgeCount(rows: seq<TeamBadge>, team: TeamId): nat {
    if rows == [] then 0 else (if rows[0].team == team then 1 else 0) + BadgeCount(rows[1..], team)
  }

  /**
   * `TeamViewSet.stats`: a missing team is a 404; otherwise the total, the count, the evolution
   * of the team's scores in table (creation) order, whose last running total is the team's total,
   * and the number of badges held.
   */
  method Stats(teams: seq<Team>, scores: seq<Score>, teamBadges: seq<TeamBadge>, id: TeamId) returns (r: Result<TeamStats, int>)
    ensures r.Err? <==> FindTeam(teams, id).None?
    ensures r.Err? ==> r.error == 404
    ensures r.Ok? ==>
      r.value.totalScore == TotalScore(scores, id) && r.value.scoreCount == ScoreCount(scores, id) &&
      |r.value.evolution| == r.value.scoreCount && r.value.badgesCount == BadgeCount(teamBadges, id) &&
      (forall i :: 0 <= i < |r.value.evolution| ==>
        r.value.evolution[i].points == TeamScores(scores, id)[i].points &&
        r.value.evolution[i].cumulative == SumPoints(TeamScores(scores, id)[..i + 1])) &&
      (r.value.evolution != [] ==> r.value.evolution[|r.value.evolution| - 1].cumulative == r.value.totalScore)
  {
    if FindTeam(teams, id).None? {
      return Err(404);
    }
    var own := TeamScores(scores, id);
    var evolution := ScoreEvolution(own);
    if evolution != [] {
      assert own[..|own|] == own;
    }
    return Ok(TeamStats(TotalScore(scores, id), ScoreCount(scores, id), evolution, BadgeCount(teamBadges, id)));
  }
}
