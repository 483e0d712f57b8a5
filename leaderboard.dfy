/**
 * The public leaderboard component: how it reads the leaderboard response, how it updates
 * its state after a fetch, and what it shows.
 */
module LeaderboardComponent {
  import opened Wrappers
  import opened Json
  import opened Api

  /**
   * `data.results || data || []`, then anything that is not an array becomes `[]`. Reading
   * `results` of a `null` or missing body throws, which is `None`.
   */
  function Normalise(data: Json): (r: Option<seq<Json>>)
    ensures r.None? <==> data.JNull? || data.JUndefined?
  {
    match Get(data, "results")
    case None => None
    case Some(results) =>
      var picked := Or(Or(results, data), JArray([]));
      Some(if picked.JArray? then picked.items else [])
  }

  /** The cases of `Normalise`: a truthy `results` wins, then an array body; everything else is empty. */
  lemma NormaliseCases(data: Json)
    ensures data.JObject? && "results" in data.fields && data.fields["results"].JArray? ==>
      Normalise(data) == Some(data.fields["results"].items)
    ensures data.JArray? ==> Normalise(data) == Some(data.items)
    ensures data.JObject? && "results" in data.fields && Truthy(data.fields["results"]) && !data.fields["results"].JArray? ==>
      Normalise(data) == Some([])
    ensures data.JObject? && ("results" !in data.fields || !Truthy(data.fields["results"])) ==> Normalise(data) == Some([])
    ensures !data.JObject? && !data.JArray? && !data.JNull? && !data.JUndefined? ==> Normalise(data) == Some([])
  {
  }

  /** `getMedal`: ranks 1, 2 and 3 (as numbers) become medals; any other value is shown as it is. */
  function GetMedal(rank: Json): Json {
    if rank == JNum(1) then JStr("\U{1F947}")
    else if rank == JNum(2) then JStr("\U{1F948}")
    else if rank == JNum(3) then JStr("\U{1F949}")
    else rank
  }

  /** The three podium places get three different medals, and only they change. */
  lemma MedalsOnlyForPodium(rank: Json)
    ensures GetMedal(rank) != rank <==> rank in {JNum(1), JNum(2), JNum(3)}
    ensures GetMedal(JNum(1)) != GetMedal(JNum(2)) && GetMedal(JNum(2)) != GetMedal(JNum(3)) && GetMedal(JNum(1)) != GetMedal(JNum(3))
  {
  }

  const LoadError: string := "Erreur lors du chargement du classement"

  class Leaderboard {
    var teams: seq<Json>
    var loading: bool
    var error: Option<string>

    constructor ()
      ensures teams == [] && loading && error.None?
    {
      teams := [];
      loading := true;
      error := None;
    }

    /**
     * `fetchLeaderboard` with the call's outcome as input: a usable reply replaces the rows
     * and clears the error; a failed call, or a body that cannot be read, keeps the rows and
     * sets the error message. Loading is over either way.
     */
    method FetchLeaderboard(outcome: Outcome)
      modifies this
      ensures !loading
      ensures outcome.Resolved? && IsSuccess(outcome.reply) && Normalise(outcome.reply.data).Some? ==>
        teams == Normalise(outcome.reply.data).value && error.None?
      ensures !(outcome.Resolved? && IsSuccess(outcome.reply) && Normalise(outcome.reply.data).Some?) ==>
        teams == old(teams) && error == Some(LoadError)
    {
      loading := true;
      var rows := if outcome.Resolved? && IsSuccess(outcome.reply) then Normalise(outcome.reply.data) else None;
      if rows.Some? {
        teams := rows.value;
        error := None;
      } else {
        error := Some(LoadError);
      }
      loading := false;
    }
  }

  /** One row of the table: the medal or rank, the name and the score (a missing score shows as 0). */
  datatype Row = Row(medal: Json, name: Json, score: Json)

  /** What the component renders. */
  datatype Screen = LoadingPlaceholder | ErrorView(message: string) | Table(rows: seq<Row>, noTeamsNote: bool)

  function RowOf(team: Json): Row {
    Row(GetMedal(Prop(team, "rank")), Prop(team, "name"), OrZero(Prop(team, "total_score")))
  }

  function Render(loading: bool, teams: seq<Json>, error: Option<string>): Screen {
    if loading && |teams| == 0 then LoadingPlaceholder
    else if error.Some? && error.value != "" then ErrorView(error.value)
    else Table(seq(|teams|, i requires 0 <= i < |teams| => RowOf(teams[i])), |teams| == 0)
  }

  /**
   * The placeholder shows only while loading with no rows; otherwise an error hides the table;
   * a refresh in progress keeps showing the rows; a missing or zero score is shown as 0.
   */
  lemma RenderGuards(loading: bool, teams: seq<Json>, error: Option<string>, i: nat)
    ensures Render(loading, teams, error) == LoadingPlaceholder <==> loading && teams == []
    ensures !(loading && teams == []) && error.Some? && error.value != "" ==> Render(loading, teams, error) == ErrorView(error.value)
    ensures (error.None? || error.value == "") && teams != [] ==>
      Render(loading, teams, error).Table? && |Render(loading, teams, error).rows| == |teams|
    ensures Render(loading, teams, error).Table? && i < |teams| && !Truthy(Prop(teams[i], "total_score")) ==>
      Render(loading, teams, error).rows[i].score == JNum(0)
  {
  }
}
