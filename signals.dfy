/**
 * The badge award engine. After a score is saved, every badge rule is evaluated for the
 * score's team; a badge the team does not hold yet and whose rule the team meets is awarded,
 * with one activity-log entry naming it.
 */
module Signals {
  import opened Wrappers
  import opened Models

  /** `condition_value.get(key, 0)`. */
  function Param(values: map<string, int>, key: string): int {
    if key in values then values[key] else 0
  }

  /**
   * What the rules read about one team: its total, its number of scores, and its 1-based
   * position in the ranking query (none when the team is absent from that result).
   */
  datatype Standing = Standing(team: TeamId, total: int, count: nat, position: Option<nat>)

  /** Whether a badge's rule holds for a team; an unknown condition type never holds. */
  predicate Earned(b: Badge, st: Standing) {
    if b.conditionType == "score_threshold" then st.total >= Param(b.conditionValue, "threshold")
    else if b.conditionType == "score_count" then st.count >= Param(b.conditionValue, "count")
    else if b.conditionType == "rank" then st.position.Some? && st.position.value <= Param(b.conditionValue, "rank")
    else false
  }

  /** A threshold or count badge without its parameter is earned by every team; a rank badge without one by none. */
  lemma MissingParameter(b: Badge, st: Standing)
    requires st.position.Some? ==> st.position.value >= 1
    ensures b.conditionType == "score_threshold" && "threshold" !in b.conditionValue ==> (Earned(b, st) <==> st.total >= 0)
    ensures b.conditionType == "score_count" && "count" !in b.conditionValue ==> Earned(b, st)
    ensures b.conditionType == "rank" && "rank" !in b.conditionValue ==> !Earned(b, st)
  {
  }

  /** The 1-based position of a team in the ranking query's result, if it appears there. */
  function Position(ordered: seq<TeamId>, team: TeamId): (r: Option<nat>)
    ensures r.Some? <==> team in ordered
    ensures r.Some? ==> 1 <= r.value <= |ordered| && ordered[r.value - 1] == team && team !in ordered[..r.value - 1]
  {
    if ordered == [] then None
    else if ordered[0] == team then Some(1)
    else
      match Position(ordered[1..], team)
      case None => None
      case Some(k) =>
        assert ordered[..k] == [ordered[0]] + ordered[1..][..k - 1];
        Some(k + 1)
  }

  /** Ties are not shared: two different teams never hold the same position, so a rank-n badge fits at most n teams. */
  lemma PositionsDistinct(ordered: seq<TeamId>, t1: TeamId, t2: TeamId)
    requires Position(ordered, t1).Some? && Position(ordered, t1) == Position(ordered, t2)
    ensures t1 == t2
  {
  }

  /** The ranking query's order: totals never increase along the result (ties are broken by name). */
  predicate RankingOrdered(ordered: seq<TeamId>, scores: seq<Score>) {
    forall i, j :: 0 <= i < j < |ordered| ==> TotalScore(scores, ordered[i]) >= TotalScore(scores, ordered[j])
  }

  /** In the ranking query's order, a team with a strictly higher total always holds an earlier position. */
  lemma HigherTotalRanksFirst(ordered: seq<TeamId>, scores: seq<Score>, t: TeamId, u: TeamId)
    requires RankingOrdered(ordered, scores) && t in ordered && u in ordered
    requires TotalScore(scores, u) > TotalScore(scores, t)
    ensures Position(ordered, u).value < Position(ordered, t).value
  {
  }

  /** A team's standing against the ranking query's result, as the engine reads it. */
  function StandingIn(scores: seq<Score>, ordered: seq<TeamId>, team: TeamId): Standing {
    Standing(team, TotalScore(scores, team), ScoreCount(scores, team), Position(ordered, team))
  }

  /**
   * A better standing never loses a badge: a higher total keeps a threshold badge, more
   * scores keep a count badge, an earlier position keeps a rank badge.
   */
  lemma EarnedMonotone(b: Badge, st: Standing, better: Standing)
    requires Earned(b, st)
    requires better.total >= st.total && better.count >= st.count
    requires st.position.Some? ==> better.position.Some? && better.position.value <= st.position.value
    ensures Earned(b, better)
  {
  }

  /**
   * On the ranking query's order, a rank badge a team earns is also earned by every team of
   * the result with a strictly higher total.
   */
  lemma RankBadgeFollowsTotals(b: Badge, ordered: seq<TeamId>, scores: seq<Score>, t: TeamId, u: TeamId)
    requires b.conditionType == "rank" && RankingOrdered(ordered, scores) && u in ordered
    requires Earned(b, StandingIn(scores, ordered, t))
    requires TotalScore(scores, u) > TotalScore(scores, t)
    ensures Earned(b, StandingIn(scores, ordered, u))
  {
    HigherTotalRanksFirst(ordered, scores, t, u);
  }

  /**
   * A rank-n badge fits at most n teams of the ranking: every team that earns it is among the
   * first n of the result.
   */
  lemma RankBadgeWithinFirst(b: Badge, ordered: seq<TeamId>, scores: seq<Score>, t: TeamId)
    requires b.conditionType == "rank" && Earned(b, StandingIn(scores, ordered, t))
    ensures t in ordered[..Position(ordered, t).value]
    ensures Position(ordered, t).value <= Param(b.conditionValue, "rank")
  {
    var k := Position(ordered, t).value;
    assert ordered[..k][k - 1] == t;
  }

  /** The inner ranking loop: walk the ranking query's result counting positions until the team is met. */
  method RankPosition(ordered: seq<TeamId>, team: TeamId) returns (pos: Option<nat>)
    ensures pos == Position(ordered, team)
  {
    var currentRank := 1;
    var i := 0;
    while i < |ordered|
      invariant 0 <= i <= |ordered|
      invariant currentRank == i + 1
      invariant team !in ordered[..i]
    {
      if ordered[i] == team {
        return Some(currentRank);
      }
      assert ordered[..i + 1] == ordered[..i] + [ordered[i]];
      currentRank := currentRank + 1;
      i := i + 1;
    }
    assert ordered[..i] == ordered;
    return None;
  }

  /** The association rows that awarding `bs` to `team` creates, one per badge, in order. */
  function AwardsFor(team: TeamId, bs: seq<Badge>): (r: seq<TeamBadge>)
    ensures |r| == |bs|
    ensures forall i :: 0 <= i < |bs| ==> r[i] == TeamBadge(team, bs[i].id)
  {
    seq(|bs|, i requires 0 <= i < |bs| => TeamBadge(team, bs[i].id))
  }

  /** The log entry for one awarded badge. */
  function BadgeLog(team: Team, b: Badge): ActivityLog {
    ActivityLog("badge_earned", None, Some(team.id), BadgeMeta(b.id, b.name))
  }

  /** The log entries for the awarded badges, one per badge, in order. */
  function BadgeLogs(team: Team, bs: seq<Badge>): (r: seq<ActivityLog>)
    ensures |r| == |bs|
    ensures forall i :: 0 <= i < |bs| ==> r[i] == BadgeLog(team, bs[i])
  {
    seq(|bs|, i requires 0 <= i < |bs| => BadgeLog(team, bs[i]))
  }

  /**
   * The badges one pass of the engine awards, in badge order: each badge is skipped when the
   * team already holds it (counting the ones this pass has just awarded), and otherwise
   * awarded when its rule holds.
   */
  function NewAwards(st: Standing, bs: seq<Badge>, held: seq<TeamBadge>): (r: seq<Badge>)
    decreases |bs|
  {
    if bs == [] then []
    else
      var prev := NewAwards(st, bs[..|bs| - 1], held);
      var b := bs[|bs| - 1];
      if TeamBadge(st.team, b.id) in held + AwardsFor(st.team, prev) || !Earned(b, st) then prev
      else prev + [b]
  }

  /** Only badges of the pass whose rule holds and that were not held before are awarded. */
  lemma {:induction false} NewAwardsSound(st: Standing, bs: seq<Badge>, held: seq<TeamBadge>)
    ensures |NewAwards(st, bs, held)| <= |bs|
    ensures forall b :: b in NewAwards(st, bs, held) ==> b in bs && Earned(b, st) && TeamBadge(st.team, b.id) !in held
    decreases |bs|
  {
    if bs != [] {
      NewAwardsSound(st, bs[..|bs| - 1], held);
    }
  }

  /** Every badge whose rule holds is held after one pass, either from before or newly awarded. */
  lemma {:induction false} NewAwardsComplete(st: Standing, bs: seq<Badge>, held: seq<TeamBadge>, b: Badge)
    requires b in bs && Earned(b, st)
    ensures TeamBadge(st.team, b.id) in held + AwardsFor(st.team, NewAwards(st, bs, held))
    decreases |bs|
  {
    var init := bs[..|bs| - 1];
    var last := bs[|bs| - 1];
    var prev := NewAwards(st, init, held);
    var r := NewAwards(st, bs, held);
    assert r == prev || r == prev + [last];
    assert forall x :: x in held + AwardsFor(st.team, prev) ==> x in held + AwardsFor(st.team, r) by {
      forall x | x in held + AwardsFor(st.team, prev)
        ensures x in held + AwardsFor(st.team, r)
      {
        if x !in held {
          var k :| 0 <= k < |prev| && AwardsFor(st.team, prev)[k] == x;
          assert AwardsFor(st.team, r)[k] == x;
        }
      }
    }
    if b == last {
      if !(TeamBadge(st.team, b.id) in held + AwardsFor(st.team, prev)) {
        assert r == prev + [last];
        assert AwardsFor(st.team, r)[|prev|] == TeamBadge(st.team, b.id);
      }
    } else {
      assert b in init by {
        var k :| 0 <= k < |bs| && bs[k] == b;
        assert k < |bs| - 1;
        assert init[k] == b;
      }
      NewAwardsComplete(st, init, held, b);
    }
  }

  /** When every badge whose rule holds is already held, a pass awards nothing. */
  lemma {:induction false} NothingNewWhenAllHeld(st: Standing, bs: seq<Badge>, held: seq<TeamBadge>)
    requires forall b :: b in bs && Earned(b, st) ==> TeamBadge(st.team, b.id) in held
    ensures NewAwards(st, bs, held) == []
    decreases |bs|
  {
    if bs != [] {
      var init := bs[..|bs| - 1];
      assert forall b :: b in init ==> b in bs;
      NothingNewWhenAllHeld(st, init, held);
      assert AwardsFor(st.team, []) == [];
      assert held + [] == held;
    }
  }

  /** A second pass over unchanged scores awards nothing: the engine is idempotent. */
  lemma Idempotent(st: Standing, bs: seq<Badge>, held: seq<TeamBadge>)
    ensures NewAwards(st, bs, held + AwardsFor(st.team, NewAwards(st, bs, held))) == []
  {
    var after := held + AwardsFor(st.team, NewAwards(st, bs, held));
    forall b | b in bs && Earned(b, st)
      ensures TeamBadge(st.team, b.id) in after
    {
      NewAwardsComplete(st, bs, held, b);
    }
    NothingNewWhenAllHeld(st, bs, after);
  }

  /** One pass never creates a second row for a pair: the association stays unique. */
  lemma {:induction false} NewAwardsKeepUnique(st: Standing, bs: seq<Badge>, held: seq<TeamBadge>)
    requires UniqueTeamBadges(held)
    ensures UniqueTeamBadges(held + AwardsFor(st.team, NewAwards(st, bs, held)))
    decreases |bs|
  {
    if bs != [] {
      var init := bs[..|bs| - 1];
      var last := bs[|bs| - 1];
      var prev := NewAwards(st, init, held);
      NewAwardsKeepUnique(st, init, held);
      var before := held + AwardsFor(st.team, prev);
      if NewAwards(st, bs, held) != prev {
        var x := TeamBadge(st.team, last.id);
        assert x !in before;
        assert held + AwardsFor(st.team, prev + [last]) == before + [x];
        UniqueAppend(before, x);
      }
    }
  }

  /** How one more badge extends a pass: it is appended exactly when it is not held and its rule holds. */
  lemma NewAwardsStep(st: Standing, bs: seq<Badge>, held: seq<TeamBadge>, i: nat)
    requires i < |bs|
    ensures var prev := NewAwards(st, bs[..i], held);
      NewAwards(st, bs[..i + 1], held) ==
        if TeamBadge(st.team, bs[i].id) in held + AwardsFor(st.team, prev) || !Earned(bs[i], st) then prev
        else prev + [bs[i]]
  {
    assert bs[..i + 1][..i] == bs[..i];
  }

  lemma AppendAward(team: Team, prev: seq<Badge>, b: Badge)
    ensures AwardsFor(team.id, prev + [b]) == AwardsFor(team.id, prev) + [TeamBadge(team.id, b.id)]
    ensures BadgeLogs(team, prev + [b]) == BadgeLogs(team, prev) + [BadgeLog(team, b)]
  {
  }

  /** One iteration of the engine's loop extends the rows and log entries of the pass by the badge at `i`, if it is awarded. */
  lemma PassStep(team: Team, st: Standing, bs: seq<Badge>, held: seq<TeamBadge>, logs0: seq<ActivityLog>, i: nat,
                 rows: seq<TeamBadge>, logs: seq<ActivityLog>)
    requires i < |bs| && st.team == team.id
    requires rows == held + AwardsFor(team.id, NewAwards(st, bs[..i], held))
    requires logs == logs0 + BadgeLogs(team, NewAwards(st, bs[..i], held))
    ensures var next := NewAwards(st, bs[..i + 1], held);
      if TeamBadge(team.id, bs[i].id) !in rows && Earned(bs[i], st) then
        rows + [TeamBadge(team.id, bs[i].id)] == held + AwardsFor(team.id, next) &&
        logs + [BadgeLog(team, bs[i])] == logs0 + BadgeLogs(team, next)
      else
        rows == held + AwardsFor(team.id, next) && logs == logs0 + BadgeLogs(team, next)
  {
    var prev := NewAwards(st, bs[..i], held);
    NewAwardsStep(st, bs, held, i);
    AppendAward(team, prev, bs[i]);
  }

  /** The rule test of one badge as the loop performs it, computing the rank position only for rank badges. */
  method RuleHolds(b: Badge, team: TeamId, totalScore: int, scoreCount: nat, ordered: seq<TeamId>) returns (earned: bool)
    ensures earned == Earned(b, Standing(team, totalScore, scoreCount, Position(ordered, team)))
  {
    earned := false;
    if b.conditionType == "score_threshold" {
      var threshold := Param(b.conditionValue, "threshold");
      if totalScore >= threshold {
        earned := true;
      }
    } else if b.conditionType == "score_count" {
      var count := Param(b.conditionValue, "count");
      if scoreCount >= count {
        earned := true;
      }
    } else if b.conditionType == "rank" {
      var rank := Param(b.conditionValue, "rank");
      var position := RankPosition(ordered, team);
      if position.Some? && position.value <= rank {
        earned := true;
      }
    }
  }

  lemma UniqueAppend(rows: seq<TeamBadge>, x: TeamBadge)
    requires UniqueTeamBadges(rows) && x !in rows
    ensures UniqueTeamBadges(rows + [x])
  {
  }

  /**
   * The competition database: the tables the engine reads and writes. Only the rows that
   * the modelled operations create are kept; primary keys of new scores come from a counter.
   */
  class Database {
    var teams: seq<Team>
    var scores: seq<Score>
    var badges: seq<Badge>
    var teamBadges: seq<TeamBadge>
    var progress: seq<ChallengeProgress>
    var logs: seq<ActivityLog>
    var nextScoreId: ScoreId

    /** The tables' uniqueness constraints, and score keys below the next one handed out. */
    ghost predicate Valid()
      reads this
    {
      TeamTableValid(teams) && UniqueTeamBadges(teamBadges) && UniqueProgress(progress) &&
      forall i :: 0 <= i < |scores| ==> scores[i].id < nextScoreId
    }

    /** A team's standing as the engine sees it, against the given ranking query result. */
    function StandingOf(team: TeamId, ordered: seq<TeamId>): (st: Standing)
      reads this`scores
      ensures st.team == team && st.position == Position(ordered, team)
      ensures st.total == TotalScore(scores, team) && st.count == ScoreCount(scores, team)
    {
      Standing(team, TotalScore(scores, team), ScoreCount(scores, team), Position(ordered, team))
    }

    constructor (teams: seq<Team>, badges: seq<Badge>)
      requires TeamTableValid(teams)
      ensures Valid()
      ensures this.teams == teams && this.badges == badges
      ensures scores == [] && teamBadges == [] && progress == [] && logs == []
    {
      this.teams := teams;
      this.badges := badges;
      scores, teamBadges, progress, logs := [], [], [], [];
      nextScoreId := 1;
    }

    /**
     * `check_and_assign_badges(team)`. `ordered` is the result of the ranking query (teams by
     * total descending, then name), which the loop reads for rank badges; this pass does not
     * change scores, so the query gives the same result for every rank badge.
     */
    method CheckAndAssignBadges(team: Team, ordered: seq<TeamId>)
      requires Valid()
      modifies this`teamBadges, this`logs
      ensures Valid()
      ensures teams == old(teams) && scores == old(scores) && badges == old(badges)
      ensures teamBadges == old(teamBadges) + AwardsFor(team.id, NewAwards(old(StandingOf(team.id, ordered)), badges, old(teamBadges)))
      ensures logs == old(logs) + BadgeLogs(team, NewAwards(old(StandingOf(team.id, ordered)), badges, old(teamBadges)))
    {
      ghost var st := StandingOf(team.id, ordered);
      ghost var held := teamBadges;
      var totalScore := TotalScore(scores, team.id);
      var scoreCount := ScoreCount(scores, team.id);
      assert st == Standing(team.id, totalScore, scoreCount, Position(ordered, team.id));
      var i := 0;
      while i < |badges|
        invariant 0 <= i <= |badges|
        invariant teamBadges == held + AwardsFor(team.id, NewAwards(st, badges[..i], held))
        invariant logs == old(logs) + BadgeLogs(team, NewAwards(st, badges[..i], held))
      {
        var badge := badges[i];
        PassStep(team, st, badges, held, old(logs), i, teamBadges, logs);
        if TeamBadge(team.id, badge.id) !in teamBadges {
          var earned := RuleHolds(badge, team.id, totalScore, scoreCount, ordered);
          if earned {
            teamBadges := teamBadges + [TeamBadge(team.id, badge.id)];
            logs := logs + [BadgeLog(team, badge)];
          }
        }
        i := i + 1;
      }
      assert badges[..i] == badges;
      NewAwardsKeepUnique(st, badges, held);
    }

    /**
     * `Score.save` for a new score: the row is inserted, the `post_save` signal runs the
     * engine for the score's team, and then the model's own hook runs it again.
     * `ordered` is the ranking query's result once the score is in.
     * Thanks to idempotence the outcome is that of a single pass.
     */
    method SaveScore(s: Score, team: Team, ordered: seq<TeamId>)
      requires Valid() && team in teams && s.team == team.id && s.id == nextScoreId
      modifies this
      ensures Valid()
      ensures scores == old(scores) + [s] && nextScoreId == old(nextScoreId) + 1
      ensures teams == old(teams) && badges == old(badges) && progress == old(progress)
      ensures StandingOf(team.id, ordered).total == old(TotalScore(scores, team.id)) + s.points
      ensures StandingOf(team.id, ordered).count == old(ScoreCount(scores, team.id)) + 1
      ensures teamBadges == old(teamBadges) + AwardsFor(team.id, NewAwards(StandingOf(team.id, ordered), badges, old(teamBadges)))
      ensures logs == old(logs) + BadgeLogs(team, NewAwards(StandingOf(team.id, ordered), badges, old(teamBadges)))
    {
      TotalAfterNewScore(scores, s, team.id);
      scores := scores + [s];
      nextScoreId := nextScoreId + 1;
      ghost var st := StandingOf(team.id, ordered);
      ghost var held := teamBadges;
      ghost var logs0 := logs;
      ghost var awarded := NewAwards(st, badges, held);
      // post_save signal, created is true for a new row
      CheckAndAssignBadges(team, ordered);
      assert teamBadges == held + AwardsFor(team.id, awarded);
      assert logs == logs0 + BadgeLogs(team, awarded);
      assert StandingOf(team.id, ordered) == st;
      // Score.save's own hook
      Idempotent(st, badges, held);
      ghost var again := NewAwards(st, badges, teamBadges);
      assert again == [];
      assert AwardsFor(team.id, again) == [] && BadgeLogs(team, again) == [];
      CheckAndAssignBadges(team, ordered);
      assert teamBadges == held + AwardsFor(team.id, awarded) + [];
      assert logs == logs0 + BadgeLogs(team, awarded) + [];
    }
  }
}
