# Podium: a Dafny model of the competition rules

Podium is a web application for running a team competition. Admins create teams and badges.
A team leader adds scores to their own team. A public leaderboard ranks teams by total points.
Badges are awarded automatically when a team meets a badge rule.

This project models the rules that decide what each tier does:

- **Backend** (Django REST framework):
  - the role tests and the permission classes;
  - the per-action permission dispatch of the four view sets;
  - the `add_score` action and its ownership guard;
  - the leaderboard's competition ranking and the team statistics' running total;
  - the score and activity-log listing filters;
  - the badge award engine, run by `check_and_assign_badges` from both the `post_save` signal and `Score.save`.
- **Client** (React):
  - the HTTP client's token store, default header and the two axios interceptors;
  - the session context (`login`, `logout`, `fetchUser`, the initial effect) and its role tests;
  - the home-page redirect and the role each route demands;
  - the leaderboard component's response normalisation, medals, state updates and render guards;
  - the admin dashboard's load policy and chart/list helpers.

Files, one module each:

- `wrappers.dfy` holds `Option`, `Result` and `Take`.
- `json.dfy` holds JavaScript values, with truthiness, `||` and property access.
- `models.dfy` holds the entities, role tests, team totals and table constraints.
- `permissions.dfy` holds the permission classes.
- `signals.dfy` holds the badge rules, the award engine and the `Database` class with `check_and_assign_badges` and `Score.save`.
- `views.dfy` holds the dispatch, `add_score`, the listings, the leaderboard and the stats.
- `api.dfy` holds the `ApiClient` class and the score-listing URL.
- `auth.dfy` holds the `AuthProvider` class.
- `app.dfy` holds `Home` and the routes.
- `leaderboard.dfy` holds the leaderboard component.
- `dashboard.dfy` holds the dashboard page.

Stateful code is modelled as classes:

- the database tables, as `seq` fields of `Database`;
- the browser's local storage and the axios default header, as fields of `ApiClient`;
- the React state of the session, the leaderboard and the dashboard.

Database queries and HTTP replies are inputs, with one exception: queries the backend runs while it works are computed by the model itself. These are a team's total, its count and the rule checks. The ranking query's result (team ids by total descending, then name) is passed in as `ordered`.

The model follows what the view code does, including where it contradicts the permission classes declared on an action:

- `get_permissions` of the team view set overrides two declared permission classes. The leaderboard demands a login although it is declared open to anyone. The team export is open to every logged-in user although it is declared admin-only.
- The score export's admin-only declaration is overridden in the same way.

`Views.TeamDeclarationsOverridden` and `Views.ScoreDispatch` state this behaviour.

## Model

| member | source | states |
|---|---|---|
| Models.RoleName | Backend/competition/models.py:9-14 | the value stored in the role column for each of the three choices |
| Models.ParseRole | Backend/competition/models.py:9-14 | a stored role value parses only to the role whose stored name it is |
| Models.RoleNameRoundTrip | Backend/competition/models.py:9-14 | each of the three roles reads back from its stored name |
| Models.RoleNameInjective | Backend/competition/models.py:9-14 | distinct roles have distinct stored names |
| Models.NewUser | Backend/competition/models.py:14 | a new user has the default role and is neither admin nor leader |
| Models.IsAdmin | Backend/competition/models.py:16-17 | `is_admin`: the role is exactly admin |
| Models.IsLeader | Backend/competition/models.py:19-20 | `is_leader`: the role is exactly leader, so an admin fails it |
| Models.RolePredicatesExclusive | Backend/competition/models.py:16-20 | `is_admin` iff role is admin, `is_leader` iff role is exactly leader, never both; a plain user passes neither |
| Models.TeamScores | Backend/competition/models.py:49-55 | the `scores` relation of a team, in table order: no more rows than the table, every one of that team |
| Models.TotalScore | Backend/competition/models.py:49-51 | `total_score`: the sum of the team's points, 0 without scores |
| Models.ScoreCount | Backend/competition/models.py:53-55 | `score_count`: the number of the team's scores |
| Models.TeamScoresMembers | Backend/competition/models.py:49-55 | a team's scores are exactly the table rows belonging to it |
| Models.TotalAfterNewScore | Backend/competition/models.py:49-55 | a new score adds its points and 1 to its own team's total and count, and leaves other teams unchanged |
| Models.UnscoredTeam | Backend/competition/models.py:49-51 | a team with no scores has total 0 and count 0 |
| Models.SumPointsAppend | Backend/competition/models.py:51 | the total over two runs of scores is the sum of their totals |
| Models.LeaderOf | Backend/competition/models.py:36-38 | the leader of the first row with that key, `None` when no row has the key; a reported leader belongs to a row with that key |
| Models.LeaderLeadsOneTeam | Backend/competition/models.py:36-38 | in a table meeting the unique and one-to-one constraints, one user leads at most one team |
| Permissions.HasPermission | Backend/competition/permissions.py:4-16 | `has_permission` of each class over the principal making the request |
| Permissions.PermissionByRole | Backend/competition/permissions.py:4-16 | `IsAdmin` iff authenticated admin; `IsLeaderOrAdmin` iff authenticated and not a plain user; anonymous fails `IsAuthenticated` |
| Permissions.LeaderClassesCoincide | Backend/competition/permissions.py:9-16 | `IsLeader` and `IsLeaderOrAdmin` admit the same principals; `IsAdmin` implies `IsLeaderOrAdmin` |
| Permissions.PermissionChain | Backend/competition/permissions.py:4-16 | admin ⊆ leader-or-admin ⊆ authenticated ⊆ anyone |
| Permissions.IsTeamLeader | Backend/competition/permissions.py:19-27 | `has_object_permission`: admins pass; others pass on an object they lead directly or through its team |
| Signals.Earned | Backend/competition/signals.py:24-52 | whether a badge rule holds for a standing; unknown condition types never hold |
| Signals.EarnedMonotone | Backend/competition/signals.py:29-52 | a standing with at least the total, the count and an earlier-or-equal position keeps every badge the weaker one earns |
| Signals.MissingParameter | Backend/competition/signals.py:29-40 | without its parameter a threshold badge needs a non-negative total, a count badge is always earned, a rank badge never |
| Signals.Position | Backend/competition/signals.py:43-52 | the position exists iff the team is in the ranking, and it is the 1-based index of the team's first occurrence |
| Signals.PositionsDistinct | Backend/competition/signals.py:46-52 | two teams never share a position, so ties are not shared |
| Signals.HigherTotalRanksFirst | Backend/competition/signals.py:43-45 | when the ranking result is ordered by total, a team with a strictly higher total holds an earlier position |
| Signals.RankBadgeFollowsTotals | Backend/competition/signals.py:39-52 | on the ranking query's order, a rank badge one team earns is earned by every ranked team with a strictly higher total |
| Signals.RankBadgeWithinFirst | Backend/competition/signals.py:39-52 | a team earning a rank-n badge is among the first n of the ranking |
| Signals.RankPosition | Backend/competition/signals.py:46-52 | the counting loop returns exactly `Position` |
| Signals.RuleHolds | Backend/competition/signals.py:24-52 | the branch chain sets `earned` exactly when `Earned` holds |
| Signals.NewAwards | Backend/competition/signals.py:19-55 | the badges one pass awards, in badge order, skipping those already held, including by this pass |
| Signals.NewAwardsSound | Backend/competition/signals.py:19-55 | a pass awards only badges whose rule holds and that the team did not hold |
| Signals.NewAwardsComplete | Backend/competition/signals.py:19-55 | after a pass the team holds every badge whose rule it meets |
| Signals.NothingNewWhenAllHeld | Backend/competition/signals.py:19-22 | a pass awards nothing when every earned badge is already held |
| Signals.Idempotent | Backend/competition/signals.py:6-22 | a second pass with unchanged scores awards nothing |
| Signals.NewAwardsKeepUnique | Backend/competition/signals.py:21-22 | a pass never creates a second row for a (team, badge) pair |
| Signals.NewAwardsStep | Backend/competition/signals.py:19-55 | one more badge is appended exactly when it is not held and its rule holds |
| Signals.Database.StandingOf | Backend/competition/signals.py:15-17 | the standing of the given team: the sum of its scores' points, their number, and its ranking position |
| Signals.Database.CheckAndAssignBadges | Backend/competition/signals.py:13-61 | appends exactly the pass's new awards and their log entries; keeps the tables' constraints; changes nothing else |
| Signals.Database.SaveScore | Backend/competition/models.py:112-115 | inserts the score, then the signal's pass and the hook's pass together award exactly what one pass awards for the post-insert standing |
| Views.TeamPermission | Backend/competition/views.py:35-40 | `get_permissions` of the team view set, falling back to the action's declaration |
| Views.ScorePermission | Backend/competition/views.py:210-215 | `get_permissions` of the score view set |
| Views.BadgePermission | Backend/competition/views.py:275-278 | `get_permissions` of the badge view set |
| Views.ChallengePermission | Backend/competition/views.py:286-289 | `get_permissions` of the challenge view set |
| Views.TeamDispatch | Backend/competition/views.py:35-40 | team reads need only a login, team writes need an admin, `add_score` and `my_teams` fall back to their declarations |
| Views.TeamDeclarationsOverridden | Backend/competition/views.py:35-40 | the leaderboard refuses anonymous visitors and the team export admits plain users, against their declarations |
| Views.ScoreDispatch | Backend/competition/views.py:210-215 | score reads (the export included) need a login; score writes need a leader or admin |
| Views.BadgeAndChallengeDispatch | Backend/competition/views.py:275-289 | badges and challenges are listed and read by any logged-in user, everything else is admin-only |
| Views.FindTeam | Backend/competition/views.py:85 | the found team is in the table with that key; none exists otherwise |
| Views.DecideAddScore | Backend/competition/views.py:83-90 | proceeds iff authenticated, the team exists, and the user is an admin or a leader-role user who leads that team; 401 iff anonymous; 404 iff the permission class passes and the team is missing; 403 in every other case |
| Views.AddScoreOwnership | Backend/competition/views.py:86-90 | a plain user is refused even as the recorded leader; another team's leader is refused |
| Views.AddScore | Backend/competition/views.py:84-111 | a refused request writes nothing and hands out no key; an accepted one adds one score (points default 0) under the next key, the engine's awards, and one `score_added` entry; teams, badges and progress are untouched |
| Views.ScoreVisible | Backend/competition/views.py:217-226 | a score row passes the team filter and, for non-admins, belongs to a team the user leads |
| Views.VisibleScores | Backend/competition/views.py:217-226 | reading the table newest first, a row is listed iff it is visible |
| Views.VisibleScoresAppend | Backend/competition/views.py:217-226 | the listing keeps the order and multiplicity of the rows read: it distributes over concatenation |
| Views.VisibleScoresSingle | Backend/competition/views.py:217-226 | a single row is listed as itself iff it is visible |
| Views.ScoreListingScope | Backend/competition/views.py:217-226 | non-admins never see other teams' scores; the filter narrows and never widens; admins see every row |
| Views.ObjectRuleMatchesListing | Backend/competition/permissions.py:19-27 | a user may act on a score through its team exactly when they are an admin or the score listing shows it to them |
| Views.ObjectRuleOneTeam | Backend/competition/permissions.py:19-27 | in a valid team table, the scores a non-admin may act on all belong to one team |
| Views.LogsOfTeam | Backend/competition/views.py:311-313 | an entry is kept iff the filter is absent or names its team |
| Views.LogListing | Backend/competition/views.py:309-314 | at most 100 entries, the first ones of the filtered listing |
| Views.RankAt | Backend/competition/views.py:124-131 | the rank at index i lies between 1 and i + 1 |
| Views.RankRows | Backend/competition/views.py:124-141 | the loop emits one entry per row, in order, each with `RankAt` |
| Views.Kept | Backend/competition/views.py:120-122 | the rows kept by the `limit` slice |
| Views.Leaderboard | Backend/competition/views.py:114-144 | fails iff the limit is negative; otherwise ranks the kept rows, one entry per kept row |
| Views.RanksNonDecreasing | Backend/competition/views.py:124-131 | ranks never decrease along the board |
| Views.RankIsCompetitionRank | Backend/competition/views.py:124-131 | on a board sorted by score, rank = 1 + number of strictly higher scores ("1, 1, 3") |
| Views.RanksFollowScores | Backend/competition/views.py:124-131 | on a sorted board, ties share a rank and a lower score gets a larger rank |
| Views.LeaderboardShape | Backend/competition/views.py:124-137 | first rank is 1; ranks are at most the position; a drop takes the position, a tie keeps the rank; a null total shows as 0 |
| Views.ScoreEvolution | Backend/competition/views.py:161-169 | one point per score in order, entry i carrying the sum of points 0..i |
| Views.BadgeCount | Backend/competition/views.py:175 | the number of badge rows of the team |
| Views.Stats | Backend/competition/views.py:156-176 | 404 iff the team is missing; otherwise total, count, badge count and one evolution entry per score in creation order, each with that score's points and the running total, the last running total being the team's total |
| Api.BearerIffStored | Frontend/src/services/api.js:13-19 | without a preset header, a request carries a bearer token iff an access token is stored, and carries that token |
| Api.CallOutcome | Frontend/src/services/api.js:27-53 | a call resolves iff the first reply succeeds or an attempted refresh succeeds and the replay succeeds; a resolved call carries a 2xx reply; without a refresh attempt a rejection carries the first reply |
| Api.StorageAfter | Frontend/src/services/api.js:31-49 | storage is untouched without a refresh attempt; loses both tokens when the refresh fails; holds the new access token when it succeeds; no other key changes |
| Api.ApiClient.SetToken | Frontend/src/services/api.js:59-65 | a truthy token sets the default header to `Bearer <token>`; a falsy one deletes it |
| Api.ApiClient.Request | Frontend/src/services/api.js:13-53 | success resolves and non-401s reject unchanged; a 401 without a refresh token rejects with nothing touched; a failed refresh clears both tokens, redirects once and rejects with the refresh error; a successful refresh stores the token and replays once, passing the replay's result on unchanged; outcome, storage and redirects agree with `CallOutcome`, `StorageAfter` and `Redirected` |
| Api.NatToString | Frontend/src/services/api.js:83 | an interpolated number is a non-empty string of digits |
| Api.ParseNatToString | Frontend/src/services/api.js:83 | reading the interpolated digits back gives the number |
| Api.ScoresUrl | Frontend/src/services/api.js:82-85 | the path of the score listing, with `?team=` only for a truthy id |
| Api.ScoresUrlRoundTrip | Frontend/src/services/api.js:82-85 | `/scores/` iff the id is falsy; a positive id gives `/scores/?team=<id>`, which reads back to the same id |
| Auth.AuthProvider.constructor | Frontend/src/contexts/AuthContext.js:7-9 | no user, loading, token read from storage |
| Auth.AuthProvider.Logout | Frontend/src/contexts/AuthContext.js:11-17 | both stored tokens, the token state, the default header and the user are cleared |
| Auth.AuthProvider.FetchUser | Frontend/src/contexts/AuthContext.js:19-29 | one `/auth/me/` request with the current header, then the call settles as `CallOutcome`; a resolved call sets the user from the reply and keeps token and header; a rejected one logs out, leaving the call's storage without both tokens; redirects as the client states; loading is false afterwards |
| Auth.AuthProvider.InitEffect | Frontend/src/contexts/AuthContext.js:31-38 | without a token loading ends with no request and nothing else changes; with one the header is set to the token and the user fetched, ending in the state `FetchUser` gives for `CallOutcome` |
| Auth.StartWithoutToken | Frontend/src/contexts/AuthContext.js:7-37 | a fresh session with nothing stored finishes loading with no user and no request |
| Auth.AuthProvider.Login | Frontend/src/contexts/AuthContext.js:40-46 | stores both tokens and sets the token state, the default header and the user |
| Auth.IsAdmin | Frontend/src/contexts/AuthContext.js:48 | `isAdmin`: a user exists with role `admin` |
| Auth.IsLeader | Frontend/src/contexts/AuthContext.js:49 | `isLeader`: a user exists with role `leader` or `admin` |
| Auth.RolesAcrossTiers | Frontend/src/contexts/AuthContext.js:48-49 | for a serialized backend user, client `isAdmin` iff backend `is_admin`, client `isLeader` iff leader or admin, so an admin is a client leader but not a backend leader |
| Auth.ClientRoleTests | Frontend/src/contexts/AuthContext.js:48-49 | no user passes neither test; `isAdmin` implies `isLeader` |
| App.Home | Frontend/src/App.js:11-38 | the placeholder iff loading; a redirect iff loaded with no user, an admin or a leader |
| App.MatchRoute | Frontend/src/App.js:45-62 | the route a path selects: `/login`, the `/admin/*` and `/leader/*` areas, `/`, or none |
| App.RequiredRole | Frontend/src/App.js:45-62 | only the admin and leader areas are guarded |
| App.HomeRedirectsFit | Frontend/src/App.js:11-38 | a visitor goes to the unguarded login page; an admin or leader goes to the area demanding exactly their role; the public board is for users who are not leaders |
| App.GuardedAreas | Frontend/src/App.js:45-62 | paths under `/admin` demand admin, under `/leader` demand leader, all others are unguarded |
| LeaderboardComponent.Normalise | Frontend/src/components/Leaderboard.js:15-16 | the read throws iff the body is null or missing |
| LeaderboardComponent.NormaliseCases | Frontend/src/components/Leaderboard.js:15-16 | truthy `results` arrays win, then array bodies; every other readable body gives `[]` |
| LeaderboardComponent.GetMedal | Frontend/src/components/Leaderboard.js:32-37 | `getMedal`: medals for ranks 1, 2, 3, the rank itself otherwise |
| LeaderboardComponent.MedalsOnlyForPodium | Frontend/src/components/Leaderboard.js:32-37 | only ranks 1, 2, 3 change, into three different medals |
| LeaderboardComponent.Leaderboard.constructor | Frontend/src/components/Leaderboard.js:6-8 | no rows, loading, no error |
| LeaderboardComponent.Leaderboard.FetchLeaderboard | Frontend/src/components/Leaderboard.js:10-24 | a readable reply replaces the rows and clears the error; otherwise rows stay and the error is set; loading ends false |
| LeaderboardComponent.RowOf | Frontend/src/components/Leaderboard.js:61-67 | a table row: the medal of the rank, the name and the score or 0 |
| LeaderboardComponent.Render | Frontend/src/components/Leaderboard.js:39-67 | the placeholder, the error or the table, in that order of precedence |
| LeaderboardComponent.RenderGuards | Frontend/src/components/Leaderboard.js:39-67 | the placeholder iff loading with no rows; an error hides the table; a missing score shows as 0 |
| Dashboard.ChartName | Frontend/src/pages/admin/DashboardPage.js:71 | a bar label: the name, cut to 15 characters plus `...` when longer |
| Dashboard.ChartNameShape | Frontend/src/pages/admin/DashboardPage.js:71 | a label is the name, or its first 15 characters plus `...` iff longer than 15; at most 18 characters; shortening is idempotent |
| Dashboard.ChartEntryOf | Frontend/src/pages/admin/DashboardPage.js:70-74 | building a bar throws iff the name is null or missing |
| Dashboard.TeamChartData | Frontend/src/pages/admin/DashboardPage.js:70-74 | one bar per team in order, or a failure caused by some row |
| Dashboard.ChartEntryFields | Frontend/src/pages/admin/DashboardPage.js:70-74 | a bar keeps the full name, shows the shortened one, and shows a missing score as 0 |
| Dashboard.SliceOf | Frontend/src/pages/admin/DashboardPage.js:77-80 | a slice: the team's name and its score or 0 |
| Dashboard.PieData | Frontend/src/pages/admin/DashboardPage.js:77-80 | exactly min(5, number of teams) slices, slice i being that of team i |
| Dashboard.PieShown | Frontend/src/pages/admin/DashboardPage.js:189 | the split chart is drawn when some slice has a positive value |
| Dashboard.PieShownIffPositiveTop | Frontend/src/pages/admin/DashboardPage.js:189 | the split chart is shown iff one of the first five teams has a positive score |
| Dashboard.ActivityIcon | Frontend/src/pages/admin/DashboardPage.js:82-97 | `getActivityIcon`: the icon of each known action, the pin otherwise |
| Dashboard.ActivityIconsDistinct | Frontend/src/pages/admin/DashboardPage.js:82-97 | the five known actions get five different icons, none of them the pin; every other action gets the pin |
| Dashboard.PositionMatchesRank | Frontend/src/pages/admin/DashboardPage.js:225-229 | for leaderboard rows carrying their totals and backend ranks, the number shown equals the row's rank iff the team is first or below the previous total; it is never smaller than the rank |
| Dashboard.PositionsIgnoreTies | Frontend/src/pages/admin/DashboardPage.js:225-229 | the second of two tied teams is ranked 1 by the backend but shown as 2 |
| Dashboard.DashboardPage.constructor | Frontend/src/pages/admin/DashboardPage.js:11-15 | no stats, no teams, no activity, loading, no error |
| Dashboard.DashboardPage.FetchDashboardData | Frontend/src/pages/admin/DashboardPage.js:22-52 | the leaderboard is asked for `limit=5`; a failed stats or leaderboard call sets the error and stops; a failed activity call only empties the list, which otherwise holds the first 10 entries; loading ends false |
| Dashboard.ActivityListShape | Frontend/src/pages/admin/DashboardPage.js:38-40 | the activity list holds at most 10 entries, the first ones of the response |
| Dashboard.StatCard | Frontend/src/pages/admin/DashboardPage.js:116 | a card shows the stat when it is truthy and 0 otherwise, including when there are no stats |
| Dashboard.RenderDashboard | Frontend/src/pages/admin/DashboardPage.js:54-67 | loading screen iff loading; error screen iff loaded with an error; otherwise one position per team and one icon per entry |

## Left out

- The Django ORM, querysets and DRF routing. Query results are sequences passed in. The ranking query's result is an input `ordered`. Its order by total is stated as `Signals.RankingOrdered`; the tie-break by name is not modelled.
- Tables are sequences in insertion order, which is creation order. The score and activity-log listings read their input as the table in its default ordering (newest first).
- Free-text `description` fields of log entries, `created_at` timestamps and the `date` of evolution points (wall-clock time).
- JWT issuance, `authenticate`, registration and `me` on the backend. Also the CSV exports, `dashboard_stats` (floating-point averages, a 30-day window) and `my_teams`. These are foreign library calls, formatting or clock-dependent code.
- `perform_create`, `perform_update` and `perform_destroy` of the view sets, and the `ChallengeProgressViewSet` query filter.
- Score updates through `save` on an existing row: the `post_save` receiver then skips the engine (the row is not new) and only the model hook runs it. This path is not modelled.
- Views.Leaderboard: `int(limit)` on a non-numeric parameter raises a server error. The limit is taken as already parsed here, with an empty or absent parameter as `None`.
- Views.Leaderboard: the query annotates `total_score`, which is also a read-only property of `Team`; the model assumes the annotated sum reaches the loop. Whether the ORM can set that attribute on each row is not modelled.
- Views.FindTeam: the lookup searches the whole team table. In the source, `get_object` searches `get_queryset`, which also applies the optional `search` filter (name or description containing the text) and `min_score` filter (summed points at least the value). With `min_score` set, a team below it is not found and gets a 404, and so does a team without scores. A non-numeric `min_score` raises a server error. None of these request parameters is modelled.
- Views.DecideAddScore: its 404 case is relative to `FindTeam`, so it holds only for requests without the `search` and `min_score` parameters.
- Views.Stats: its 404 case is relative to `FindTeam`, so it holds only for requests without the `search` and `min_score` parameters.
- Signals.Earned: a badge's `condition_value` is a JSON object whose parameters are integers here. The source compares whatever JSON is stored. A float threshold such as 99.5 compares as a float, which the model cannot express. A `null` or string parameter raises a TypeError, and a non-object value raises an AttributeError. Either error occurs inside the award pass after the score row is inserted, so `add_score` would fail with a server error and write no `score_added` entry. This error path is not modelled.
- Views.VisibleScores: the `team` query parameter is a string turned into a key by the ORM. Here it is already a key.
- Views.AddScore: the request's `points` value is taken as an integer; a malformed value would fail when the score row is written.
- Database NULL ordering in the ranking query is database-dependent. Null totals are read as 0 for ranking, but which teams come first is part of the input.
- Api.ApiClient.Request: a refresh reply whose body lacks `access` stores the string `undefined` in the browser. It is modelled as a refresh that carries a string.
- HTTP transport, `window.location` and `localStorage` are browser APIs. The store is a map, and the redirect to the login page is a counter. The page reload that follows the redirect is not modelled.
- The leaderboard's five-second polling timer, and all concurrency between requests.
- React rendering, JSX, charts, icons components, colours, `Layout`, `TeamManagement`, `AdminDashboard`, `LeaderDashboard`, and the seeding scripts.
- `ProtectedRoute` and `Login` are not part of this model. Only the role each route passes to the guard is stated.
- JavaScript numbers are integers here. Json.Positive holds only for a positive number, while JavaScript's `value > 0` coerces its operand, so a string such as `"5"` or `true` would also pass; that coercion is not modelled. String lengths count code points, not UTF-16 code units. React Router's case-insensitive matching and trailing slashes are not modelled.
- LeaderboardComponent.RowOf and Dashboard.SliceOf: a `null` row reads as having no properties instead of throwing during rendering.
- Auth.AuthProvider.InitEffect: the effect re-runs whenever the token state changes; the caller invokes it after each change.
