/**
 * The competition's persistent entities: users with a role, teams with an optional leader,
 * scores, badges with their award rule, awarded badges, challenge progress and the activity log.
 * A table is a sequence of rows in insertion order.
 */
module Models {
  import opened Wrappers

  type UserId = nat
  type TeamId = nat
  type BadgeId = nat
  type ScoreId = nat
  type ChallengeId = nat

  /** The three role choices of a user; a new user is a plain user. */
  datatype Role = Admin | Leader | Member

  const DefaultRole: Role := Member

  /** The value stored in the role column for each choice. */
  function RoleName(r: Role): string {
    match r
    case Admin => "admin"
    case Leader => "leader"
    case Member => "user"
  }

  /** Reads a stored role value back; anything outside the three choices is rejected. */
  function ParseRole(s: string): (r: Option<Role>)
    ensures r.Some? ==> RoleName(r.value) == s
  {
    if s == "admin" then Some(Admin)
    else if s == "leader" then Some(Leader)
    else if s == "user" then Some(Member)
    else None
  }

  lemma RoleNameRoundTrip(r: Role)
    ensures ParseRole(RoleName(r)) == Some(r)
  {
    match r
    case Admin =>
    case Leader =>
    case Member =>
  }

  /** The three stored names are distinct, so a stored name determines its role. */
  lemma RoleNameInjective(r1: Role, r2: Role)
    requires RoleName(r1) == RoleName(r2)
    ensures r1 == r2
  {
    RoleNameRoundTrip(r1);
    RoleNameRoundTrip(r2);
  }

  datatype User = User(id: UserId, username: string, role: Role)

  /** A freshly created user, before anyone assigns a role. */
  function NewUser(id: UserId, username: string): (u: User)
    ensures u.id == id && u.username == username
    ensures !IsAdmin(u) && !IsLeader(u)
  {
    User(id, username, DefaultRole)
  }

  /** `User.is_admin`: the role is exactly admin. */
  predicate IsAdmin(u: User) {
    u.role == Admin
  }

  /** `User.is_leader`: the role is exactly leader, so an admin is not a leader here. */
  predicate IsLeader(u: User) {
    u.role == Leader
  }

  /** The backend's two role tests never hold together, and a plain user passes neither. */
  lemma RolePredicatesExclusive(u: User)
    ensures !(IsAdmin(u) && IsLeader(u))
    ensures IsAdmin(u) <==> RoleName(u.role) == "admin"
    ensures IsLeader(u) <==> RoleName(u.role) == "leader"
    ensures !IsAdmin(u) && !IsLeader(u) <==> u.role == Member
  {
    RoleNameRoundTrip(u.role);
  }

  datatype Team = Team(id: TeamId, name: string, description: string, leader: Option<UserId>)

  datatype Score = Score(id: ScoreId, team: TeamId, points: int, description: string, createdBy: Option<UserId>)

  /** A badge's award rule: a condition type name and its JSON parameters (integers here). */
  datatype Badge = Badge(id: BadgeId, name: string, conditionType: string, conditionValue: map<string, int>)

  /** A row of the team/badge association; the pair is unique. */
  datatype TeamBadge = TeamBadge(team: TeamId, badge: BadgeId)

  datatype ChallengeProgress = ChallengeProgress(team: TeamId, challenge: ChallengeId, isCompleted: bool)

  /** The structured part of an activity-log entry (its free-text description is not modelled). */
  datatype Metadata =
    | TeamMeta(teamId: TeamId)
    | ScoreMeta(scoreId: ScoreId, points: int)
    | BadgeMeta(badgeId: BadgeId, badgeName: string)

  datatype ActivityLog = ActivityLog(action: string, user: Option<UserId>, team: Option<TeamId>, metadata: Metadata)

  /** The scores of one team, in table order. */
  function TeamScores(scores: seq<Score>, team: TeamId): (r: seq<Score>)
    ensures |r| <= |scores|
    ensures forall i :: 0 <= i < |r| ==> r[i].team == team
  {
    if scores == [] then []
    else
      var last := scores[|scores| - 1];
      TeamScores(scores[..|scores| - 1], team) + (if last.team == team then [last] else [])
  }

  /** A team's scores are exactly the rows of the table that belong to that team. */
  lemma {:induction false} TeamScoresMembers(scores: seq<Score>, team: TeamId, s: Score)
    ensures s in TeamScores(scores, team) <==> s in scores && s.team == team
    decreases |scores|
  {
    if scores != [] {
      var init := scores[..|scores| - 1];
      TeamScoresMembers(init, team, s);
      assert scores == init + [scores[|scores| - 1]];
    }
  }

  /** The sum of the points of some scores; 0 for none. */
  function SumPoints(scores: seq<Score>): int {
    if scores == [] then 0 else SumPoints(scores[..|scores| - 1]) + scores[|scores| - 1].points
  }

  /** `Team.total_score`: the sum of the team's points, 0 when it has none (the SQL sum is then null). */
  function TotalScore(scores: seq<Score>, team: TeamId): int {
    SumPoints(TeamScores(scores, team))
  }

  /** `Team.score_count`: how many scores the team has. */
  function ScoreCount(scores: seq<Score>, team: TeamId): nat {
    |TeamScores(scores, team)|
  }

  /** Saving one more score moves its own team's total and count by that score and leaves every other team's alone. */
  lemma TotalAfterNewScore(scores: seq<Score>, s: Score, team: TeamId)
    ensures TotalScore(scores + [s], team) == TotalScore(scores, team) + (if s.team == team then s.points else 0)
    ensures ScoreCount(scores + [s], team) == ScoreCount(scores, team) + (if s.team == team then 1 else 0)
  {
    assert (scores + [s])[..|scores + [s]| - 1] == scores;
    if s.team == team {
      var t := TeamScores(scores, team) + [s];
      assert t[..|t| - 1] == TeamScores(scores, team);
    } else {
      assert TeamScores(scores, team) + [] == TeamScores(scores, team);
    }
  }

  /** A team that was never scored has total 0 and count 0. */
  lemma {:induction false} UnscoredTeam(scores: seq<Score>, team: TeamId)
    requires forall i :: 0 <= i < |scores| ==> scores[i].team != team
    ensures TotalScore(scores, team) == 0 && ScoreCount(scores, team) == 0
    decreases |scores|
  {
    if scores != [] {
      UnscoredTeam(scores[..|scores| - 1], team);
    }
  }

  /** Sums split over concatenation. */
  lemma SumPointsAppend(a: seq<Score>, b: seq<Score>)
    ensures SumPoints(a + b) == SumPoints(a) + SumPoints(b)
    decreases |b|
  {
    if b == [] {
      assert a + b == a;
    } else {
      var n := |b| - 1;
      assert (a + b)[..|a + b| - 1] == a + b[..n];
      SumPointsAppend(a, b[..n]);
    }
  }

  /** At most one row per pair (`unique_together` on team and badge). */
  predicate UniqueTeamBadges(rows: seq<TeamBadge>) {
    forall i, j :: 0 <= i < j < |rows| ==> rows[i] != rows[j]
  }

  /** At most one progress row per team and challenge (`unique_together` on team and challenge). */
  predicate UniqueProgress(rows: seq<ChallengeProgress>) {
    forall i, j :: 0 <= i < j < |rows| ==> rows[i].team != rows[j].team || rows[i].challenge != rows[j].challenge
  }

  /**
   * The team table's constraints: the primary key is unique, the name is unique,
   * and a user leads at most one team (the leader link is one-to-one).
   */
  predicate TeamTableValid(teams: seq<Team>) {
    forall i, j :: 0 <= i < j < |teams| ==>
      teams[i].id != teams[j].id && teams[i].name != teams[j].name &&
      (teams[i].leader.Some? ==> teams[i].leader != teams[j].leader)
  }

  /** The leader of the team with the given primary key, if the team exists and has one. */
  function LeaderOf(teams: seq<Team>, team: TeamId): (r: Option<UserId>)
    ensures r.Some? ==> exists i :: 0 <= i < |teams| && teams[i].id == team && teams[i].leader == r
    ensures forall i :: 0 <= i < |teams| && teams[i].id == team && (forall k :: 0 <= k < i ==> teams[k].id != team) ==>
      r == teams[i].leader
    ensures (forall i :: 0 <= i < |teams| ==> teams[i].id != team) ==> r.None?
  {
    if teams == [] then None
    else if teams[0].id == team then teams[0].leader
    else
      assert forall i :: 1 <= i < |teams| ==> teams[1..][i - 1] == teams[i];
      LeaderOf(teams[1..], team)
  }

  /** In a valid team table, a team's leader leads no other team. */
  lemma LeaderLeadsOneTeam(teams: seq<Team>, t1: TeamId, t2: TeamId)
    requires TeamTableValid(teams)
    requires LeaderOf(teams, t1).Some? && LeaderOf(teams, t1) == LeaderOf(teams, t2)
    ensures t1 == t2
  {
    var i :| 0 <= i < |teams| && teams[i].id == t1 && teams[i].leader == LeaderOf(teams, t1);
    var j :| 0 <= j < |teams| && teams[j].id == t2 && teams[j].leader == LeaderOf(teams, t2);
  }
}
