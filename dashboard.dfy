/**
 * The admin dashboard page: how it loads its three data sources, and the pure helpers that
 * turn the leaderboard rows and the activity log into charts and lists.
 */
module Dashboard {
  import opened Wrappers
  import opened Json
  import opened Api
  import opened LeaderboardComponent
  import Views

  /* ---------- Chart data ---------- */

  const NameLimit: nat := 15

  /** A bar label: names longer than the limit are cut to it and marked with an ellipsis. */
  function ChartName(name: string): string {
    if |name| > NameLimit then name[..NameLimit] + "..." else name
  }

  /**
   * A label is the whole name or its first fifteen characters followed by `...`, is never
   * longer than eighteen characters, and shortening a label again leaves it as it is.
   */
  lemma ChartNameShape(name: string)
    ensures |name| <= NameLimit ==> ChartName(name) == name
    ensures |name| > NameLimit ==> ChartName(name)[..NameLimit] == name[..NameLimit] && ChartName(name)[NameLimit..] == "..."
    ensures |ChartName(name)| <= NameLimit + 3
    ensures ChartName(ChartName(name)) == ChartName(name)
  {
    if |name| > NameLimit {
      var shortened := name[..NameLimit] + "...";
      assert shortened[..NameLimit] == name[..NameLimit];
    }
  }

  /** One bar of the top-teams chart. */
  datatype ChartEntry = ChartEntry(name: Json, score: Json, fullName: Json)

  /**
   * The bar of one leaderboard row. Reading the length of a missing name throws, which is
   * `None`; a name that is not a string has no length and is kept as it is.
   */
  function ChartEntryOf(team: Json): (r: Option<ChartEntry>)
    ensures r.None? <==> Prop(team, "name").JNull? || Prop(team, "name").JUndefined?
  {
    var name := Prop(team, "name");
    if name.JNull? || name.JUndefined? then None
    else
      var shortened := if name.JStr? then JStr(ChartName(name.s)) else name;
      Some(ChartEntry(shortened, OrZero(Prop(team, "total_score")), name))
  }

  /** `teamChartData`: one bar per top team, or `None` when a row makes the mapping throw. */
  function TeamChartData(teams: seq<Json>): (r: Option<seq<ChartEntry>>)
    ensures r.Some? ==> |r.value| == |teams|
    ensures r.Some? ==> forall i :: 0 <= i < |teams| ==> ChartEntryOf(teams[i]) == Some(r.value[i])
    ensures r.None? ==> exists i :: 0 <= i < |teams| && ChartEntryOf(teams[i]).None?
    decreases |teams|
  {
    if teams == [] then Some([])
    else
      match (ChartEntryOf(teams[0]), TeamChartData(teams[1..]))
      case (Some(e), Some(rest)) => Some([e] + rest)
      case (None, _) => None
      case (Some(_), None) =>
        assert exists i :: 0 <= i < |teams[1..]| && ChartEntryOf(teams[1..][i]).None?;
        var i :| 0 <= i < |teams[1..]| && ChartEntryOf(teams[1..][i]).None?;
        assert ChartEntryOf(teams[i + 1]).None?;
        None
  }

  /** A bar keeps the full name, carries the score or 0, and is labelled by the shortened name. */
  lemma ChartEntryFields(team: Json)
    requires Prop(team, "name").JStr?
    ensures ChartEntryOf(team).Some?
    ensures ChartEntryOf(team).value.fullName == Prop(team, "name")
    ensures ChartEntryOf(team).value.name == JStr(ChartName(Prop(team, "name").s))
    ensures !Truthy(Prop(team, "total_score")) ==> ChartEntryOf(team).value.score == JNum(0)
  {
  }

  /** One slice of the score split chart. */
  datatype PieSlice = PieSlice(name: Json, value: Json)

  const PieSlices: nat := 5

  function SliceOf(team: Json): PieSlice {
    PieSlice(Prop(team, "name"), OrZero(Prop(team, "total_score")))
  }

  /** `pieChartData`: a slice for each of the first five teams. */
  function PieData(teams: seq<Json>): (r: seq<PieSlice>)
    ensures |r| == if |teams| < PieSlices then |teams| else PieSlices
    ensures forall i :: 0 <= i < |r| ==> r[i] == SliceOf(teams[i])
  {
    var top := Take(teams, PieSlices);
    seq(|top|, i requires 0 <= i < |top| => SliceOf(top[i]))
  }

  /** The split chart is drawn when there is a slice and some slice has a positive value. */
  predicate PieShown(pie: seq<PieSlice>) {
    |pie| > 0 && exists i :: 0 <= i < |pie| && Positive(pie[i].value)
  }

  /** The split chart is shown exactly when one of the first five teams has a positive score. */
  lemma PieShownIffPositiveTop(teams: seq<Json>)
    ensures PieShown(PieData(teams)) <==>
      exists i :: 0 <= i < |teams| && i < PieSlices && Positive(Prop(teams[i], "total_score"))
  {
    var pie := PieData(teams);
    if PieShown(pie) {
      var i :| 0 <= i < |pie| && Positive(pie[i].value);
      assert pie[i] == SliceOf(teams[i]);
    }
    if exists i :: 0 <= i < |teams| && i < PieSlices && Positive(Prop(teams[i], "total_score")) {
      var i :| 0 <= i < |teams| && i < PieSlices && Positive(Prop(teams[i], "total_score"));
      assert pie[i] == SliceOf(teams[i]);
      assert Positive(pie[i].value);
    }
  }

  /* ---------- Lists ---------- */

  /** `getActivityIcon`: the five known actions have their icons, every other action the pin. */
  function ActivityIcon(action: Json): string {
    if action == JStr("team_created") then "\U{1F465}"
    else if action == JStr("team_updated") then "\U{270F}\U{FE0F}"
    else if action == JStr("team_deleted") then "\U{1F5D1}\U{FE0F}"
    else if action == JStr("score_added") then "\U{1F4CA}"
    else if action == JStr("badge_earned") then "\U{1F3C6}"
    else "\U{1F4CC}"
  }

  const KnownActions: seq<string> := ["team_created", "team_updated", "team_deleted", "score_added", "badge_earned"]

  /** Each known action has its own icon, none of them the pin; any other value gets the pin. */
  lemma ActivityIconsDistinct(action: Json)
    ensures forall i, j :: 0 <= i < j < |KnownActions| ==> ActivityIcon(JStr(KnownActions[i])) != ActivityIcon(JStr(KnownActions[j]))
    ensures forall i :: 0 <= i < |KnownActions| ==> ActivityIcon(JStr(KnownActions[i])) != "\U{1F4CC}"
    ensures (forall i :: 0 <= i < |KnownActions| ==> action != JStr(KnownActions[i])) ==> ActivityIcon(action) == "\U{1F4CC}"
  {
    if forall i :: 0 <= i < |KnownActions| ==> action != JStr(KnownActions[i]) {
      assert action != JStr(KnownActions[0]) && action != JStr(KnownActions[1]) && action != JStr(KnownActions[2]);
      assert action != JStr(KnownActions[3]) && action != JStr(KnownActions[4]);
    }
  }

  /** The number shown beside each top team: its place in the list, counted from 1. */
  function DisplayedPositions(teams: seq<Json>): (r: seq<nat>)
    ensures |r| == |teams| && forall i :: 0 <= i < |r| ==> r[i] == i + 1
  {
    seq(|teams|, i requires 0 <= i < |teams| => i + 1)
  }

  /**
   * The dashboard numbers top teams by list position, while the backend gives tied teams one
   * rank: the second of two tied teams is shown as 2 but ranked 1.
   */
  lemma PositionsIgnoreTies(teams: seq<Json>, totals: seq<int>)
    requires |teams| == |totals| >= 2 && totals[0] == totals[1]
    ensures Views.RankAt(totals, 1) == 1
    ensures DisplayedPositions(teams)[1] == 2
  {
  }

  /**
   * For the rows of a leaderboard, each carrying its total and the rank the backend gave it,
   * the number shown beside a team is that rank exactly when the team is first or its total
   * is below the previous team's; after a tie the shown number is larger than the rank.
   */
  lemma PositionMatchesRank(teams: seq<Json>, totals: seq<int>, i: nat)
    requires |teams| == |totals| && i < |teams|
    requires forall k :: 0 <= k < |teams| ==>
      Prop(teams[k], "total_score") == JNum(totals[k]) && Prop(teams[k], "rank") == JNum(Views.RankAt(totals, k))
    ensures JNum(DisplayedPositions(teams)[i]) == Prop(teams[i], "rank") <==> i == 0 || totals[i] < totals[i - 1]
    ensures DisplayedPositions(teams)[i] >= Views.RankAt(totals, i)
  {
    if i > 0 && totals[i] >= totals[i - 1] {
      assert Views.RankAt(totals, i) == Views.RankAt(totals, i - 1) <= i;
    }
  }

  const ActivityShown: nat := 10

  /* ---------- Page state ---------- */

  const DashboardError: string := "Erreur lors du chargement des données du tableau de bord"

  const StatsPath: string := "/dashboard/stats/"
  /** The dashboard asks the leaderboard for its first five teams (`{ limit: 5 }`). */
  const TopTeamsLimit: nat := 5
  const LeaderboardPath: string := "/teams/leaderboard/?limit=" + NatToString(TopTeamsLimit)
  const ActivityPath: string := "/activity-logs/"

  /** The body of a call that succeeded, or `None` when the call was rejected. */
  function Body(outcome: Outcome): Option<Json> {
    if outcome.Resolved? && outcome.reply.Answered? then Some(outcome.reply.data) else None
  }

  class DashboardPage {
    var stats: Json
    var topTeams: seq<Json>
    var activityLogs: seq<Json>
    var loading: bool
    var error: Option<string>

    constructor ()
      ensures stats == JNull && topTeams == [] && activityLogs == [] && loading && error.None?
    {
      stats := JNull;
      topTeams := [];
      activityLogs := [];
      loading := true;
      error := None;
    }

    /**
     * `fetchDashboardData` with each call's outcome as input. The three calls run in order;
     * a failure of the statistics or the leaderboard call (or a leaderboard body that cannot be
     * read) sets the page error and stops there, whereas a failure of the activity call only
     * empties the activity list. `requested` lists the calls made.
     */
    method FetchDashboardData(statsOutcome: Outcome, leaderboardOutcome: Outcome, activityOutcome: Outcome)
        returns (requested: seq<string>)
      modifies this
      ensures !loading
      ensures Body(statsOutcome).None? ==>
        error == Some(DashboardError) && requested == [StatsPath] &&
        stats == old(stats) && topTeams == old(topTeams) && activityLogs == old(activityLogs)
      ensures Body(statsOutcome).Some? ==> stats == Body(statsOutcome).value
      ensures Body(statsOutcome).Some? && (Body(leaderboardOutcome).None? || Normalise(Body(leaderboardOutcome).value).None?) ==>
        error == Some(DashboardError) && requested == [StatsPath, LeaderboardPath] &&
        topTeams == old(topTeams) && activityLogs == old(activityLogs)
      ensures Body(statsOutcome).Some? && Body(leaderboardOutcome).Some? && Normalise(Body(leaderboardOutcome).value).Some? ==>
        error.None? && requested == [StatsPath, LeaderboardPath, ActivityPath] &&
        topTeams == Normalise(Body(leaderboardOutcome).value).value &&
        activityLogs == (match Body(activityOutcome)
          case None => []
          case Some(data) => if Normalise(data).Some? then Take(Normalise(data).value, ActivityShown) else [])
    {
      loading := true;
      error := None;
      requested := [StatsPath];
      var statsBody := Body(statsOutcome);
      if statsBody.None? {
        error := Some(DashboardError);
        loading := false;
        return;
      }
      stats := statsBody.value;
      requested := requested + [LeaderboardPath];
      var leaderboardBody := Body(leaderboardOutcome);
      var rows := if leaderboardBody.Some? then Normalise(leaderboardBody.value) else None;
      if rows.None? {
        error := Some(DashboardError);
        loading := false;
        return;
      }
      topTeams := rows.value;
      requested := requested + [ActivityPath];
      var activityBody := Body(activityOutcome);
      var activities := if activityBody.Some? then Normalise(activityBody.value) else None;
      if activities.Some? {
        activityLogs := Take(activities.value, ActivityShown);
      } else {
        activityLogs := [];
      }
      loading := false;
    }
  }

  /** The activity list holds at most ten entries, the first ones of the response, and an unreadable response leaves it empty. */
  lemma ActivityListShape(data: Json)
    ensures Normalise(data).Some? ==> |Take(Normalise(data).value, ActivityShown)| <= ActivityShown
    ensures Normalise(data).Some? ==> Take(Normalise(data).value, ActivityShown) <= Normalise(data).value
    ensures data.JArray? && |data.items| >= ActivityShown ==> Take(Normalise(data).value, ActivityShown) == data.items[..ActivityShown]
  {
    NormaliseCases(data);
  }

  /* ---------- Rendering ---------- */

  /** A statistics card: `stats?.key || 0`. */
  function StatCard(stats: Json, key: string): (r: Json)
    ensures stats.JNull? || stats.JUndefined? ==> r == JNum(0)
    ensures Truthy(Prop(stats, key)) ==> r == Prop(stats, key)
    ensures !Truthy(Prop(stats, key)) ==> r == JNum(0)
  {
    OrZero(Prop(stats, key))
  }

  /** The loaded page: the four cards, the two charts, the numbered top teams and the activity icons. */
  datatype Board = Board(
    cards: seq<Json>,
    bars: Option<seq<ChartEntry>>,
    pie: seq<PieSlice>,
    pieShown: bool,
    positions: seq<nat>,
    icons: seq<string>)

  datatype Page = Loading | ErrorPage(message: string) | Loaded(board: Board)

  function RenderDashboard(loading: bool, error: Option<string>, stats: Json, topTeams: seq<Json>, activityLogs: seq<Json>): (p: Page)
    ensures loading <==> p == Loading
    ensures !loading && error.Some? && error.value != "" <==> p.ErrorPage?
    ensures p.Loaded? ==> |p.board.positions| == |topTeams| && |p.board.icons| == |activityLogs| && |p.board.pie| <= PieSlices
  {
    if loading then Loading
    else if error.Some? && error.value != "" then ErrorPage(error.value)
    else
      var pie := PieData(topTeams);
      Loaded(Board(
        [StatCard(stats, "total_teams"), StatCard(stats, "total_scores"), StatCard(stats, "total_points"), StatCard(stats, "avg_score")],
        TeamChartData(topTeams),
        pie,
        PieShown(pie),
        DisplayedPositions(topTeams),
        seq(|activityLogs|, i requires 0 <= i < |activityLogs| => ActivityIcon(Prop(activityLogs[i], "action")))))
  }
}
