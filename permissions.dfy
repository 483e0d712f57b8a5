/**
 * The backend's permission classes. A request is made by an anonymous visitor or by an
 * authenticated user; each class is a boolean test over that principal (and, for the
 * object-level class, over the object the request addresses).
 */
module Permissions {
  import opened Wrappers
  import opened Models

  datatype Principal = Anonymous | Authenticated(user: User)

  /** The permission classes the views use: the framework's two and the three of the application. */
  datatype PermissionClass = AllowAny | IsAuthenticated | IsAdmin | IsLeader | IsLeaderOrAdmin

  /** `has_permission` of each class. */
  predicate HasPermission(c: PermissionClass, p: Principal) {
    match c
    case AllowAny => true
    case IsAuthenticated => p.Authenticated?
    case IsAdmin => p.Authenticated? && Models.IsAdmin(p.user)
    case IsLeader => p.Authenticated? && (Models.IsLeader(p.user) || Models.IsAdmin(p.user))
    case IsLeaderOrAdmin => p.Authenticated? && (Models.IsLeader(p.user) || Models.IsAdmin(p.user))
  }

  /** What each class admits, stated over the role of the principal. */
  lemma PermissionByRole(p: Principal)
    ensures HasPermission(IsAdmin, p) <==> p.Authenticated? && p.user.role == Admin
    ensures HasPermission(IsLeaderOrAdmin, p) <==> p.Authenticated? && p.user.role != Member
    ensures HasPermission(IsAuthenticated, p) <==> p != Anonymous
    ensures !HasPermission(IsAuthenticated, Anonymous)
  {
  }

  /** `IsLeader` and `IsLeaderOrAdmin` admit exactly the same principals, and admins pass both. */
  lemma LeaderClassesCoincide(p: Principal)
    ensures HasPermission(IsLeader, p) == HasPermission(IsLeaderOrAdmin, p)
    ensures HasPermission(IsAdmin, p) ==> HasPermission(IsLeaderOrAdmin, p)
  {
  }

  /** The classes form a chain: admin, then leader-or-admin, then authenticated, then anyone. */
  lemma PermissionChain(p: Principal)
    ensures HasPermission(IsAdmin, p) ==> HasPermission(IsLeaderOrAdmin, p)
    ensures HasPermission(IsLeaderOrAdmin, p) ==> HasPermission(IsAuthenticated, p)
    ensures HasPermission(IsAuthenticated, p) ==> HasPermission(AllowAny, p)
  {
  }

  /** A team as seen through a related object's `team` link. */
  datatype TeamRef = TeamRef(leader: Option<UserId>)

  /**
   * The kinds of object `IsTeamLeader` inspects: one with its own `leader` attribute (a team,
   * whose leader may be unset), one with a `team` link (a score, an awarded badge, a progress
   * row, a log entry whose team may be null), and anything else.
   */
  datatype Target = LeaderObject(leader: Option<UserId>) | TeamObject(team: Option<TeamRef>) | PlainObject

  /**
   * `IsTeamLeader.has_object_permission`. The source calls `is_admin()` on the request's user,
   * which an anonymous visitor does not have, so the class is only defined for a real user.
   */
  predicate IsTeamLeader(u: User, obj: Target) {
    if Models.IsAdmin(u) then true
    else match obj
      case LeaderObject(leader) => leader == Some(u.id)
      case TeamObject(team) => team.Some? && team.value.leader == Some(u.id)
      case PlainObject => false
  }
}
