/**
 * The client's HTTP layer: the token store kept in the browser's local storage, the default
 * Authorization header, the request interceptor that attaches the stored access token, and
 * the response interceptor that refreshes an expired token once and replays the request.
 * The network is not modelled: the reply to each call is an input.
 */
module Api {
  import opened Wrappers
  import opened Json

  const AccessKey: string := "access_token"
  const RefreshKey: string := "refresh_token"
  const RefreshPath: string := "/auth/refresh/"
  const MePath: string := "/auth/me/"

  /** `localStorage.getItem(key)` used as a condition: the stored value when there is one and it is not empty. */
  function StoredToken(storage: map<string, string>, key: string): (r: Option<string>)
    ensures r.Some? <==> key in storage && storage[key] != ""
    ensures r.Some? ==> r.value == storage[key]
  {
    if key in storage && storage[key] != "" then Some(storage[key]) else None
  }

  function Bearer(token: string): string {
    "Bearer " + token
  }

  /**
   * The Authorization header a request leaves with, given the header it already carries
   * (the client's default, or the one set on a replay): the stored access token, when
   * there is one, replaces it.
   */
  function OutgoingAuthorization(storage: map<string, string>, preset: Option<string>): (r: Option<string>)
    ensures StoredToken(storage, AccessKey).Some? ==> r == Some(Bearer(storage[AccessKey]))
    ensures StoredToken(storage, AccessKey).None? ==> r == preset
  {
    match StoredToken(storage, AccessKey)
    case Some(t) => Some(Bearer(t))
    case None => preset
  }

  /** Without a preset header, a request carries a bearer token exactly when an access token is stored, and it is that token. */
  lemma BearerIffStored(storage: map<string, string>, preset: Option<string>)
    ensures OutgoingAuthorization(storage, None).Some? <==> AccessKey in storage && storage[AccessKey] != ""
    ensures AccessKey in storage && storage[AccessKey] != "" ==>
      OutgoingAuthorization(storage, preset) == Some(Bearer(storage[AccessKey]))
  {
  }

  /** The reply to one HTTP call: a status and a body, or no response at all (a network error). */
  datatype Reply = Answered(status: int, data: Json) | NoResponse

  /** The client treats a 2xx status as success and rejects everything else. */
  predicate IsSuccess(r: Reply) {
    r.Answered? && 200 <= r.status < 300
  }

  predicate IsUnauthorized(r: Reply) {
    r.Answered? && r.status == 401
  }

  /** The reply to the token refresh call: a new access token, or the error the call failed with. */
  datatype RefreshReply = Refreshed(access: string) | RefreshFailed(error: Reply)

  /** How a call made through the client settles: its promise resolves or rejects with a reply. */
  datatype Outcome = Resolved(reply: Reply) | Rejected(reply: Reply)

  /** An HTTP request as it leaves the browser: its path and its Authorization header. */
  datatype Sent = Sent(path: string, authorization: Option<string>)

  /** The response interceptor tries a refresh when the first reply is a 401 and a refresh token is stored. */
  predicate RefreshAttempted(storage: map<string, string>, first: Reply) {
    IsUnauthorized(first) && StoredToken(storage, RefreshKey).Some?
  }

  /** A reply passed on unchanged: a 2xx resolves the call, anything else rejects it. */
  function Settle(r: Reply): Outcome {
    if IsSuccess(r) then Resolved(r) else Rejected(r)
  }

  /**
   * How a call settles, given the storage it starts from and the three replies. It resolves
   * exactly when the first reply succeeds, or when a refresh was attempted, succeeded, and
   * the replay succeeds; a resolved call always carries a 2xx reply.
   */
  function CallOutcome(storage: map<string, string>, first: Reply, refresh: RefreshReply, replay: Reply): (o: Outcome)
    ensures o.Resolved? <==>
      IsSuccess(first) || (RefreshAttempted(storage, first) && refresh.Refreshed? && IsSuccess(replay))
    ensures o.Resolved? ==> IsSuccess(o.reply)
    ensures o.Rejected? && !RefreshAttempted(storage, first) ==> o.reply == first
  {
    if !RefreshAttempted(storage, first) then Settle(first)
    else match refresh
      case RefreshFailed(error) => Rejected(error)
      case Refreshed(_) => Settle(replay)
  }

  /**
   * The storage after a call: untouched unless a refresh was attempted, both tokens removed
   * when it failed, the new access token stored when it succeeded. No other key changes.
   */
  function StorageAfter(storage: map<string, string>, first: Reply, refresh: RefreshReply): (r: map<string, string>)
    ensures forall k :: k != AccessKey && k != RefreshKey ==> (k in r <==> k in storage)
    ensures forall k :: k in r && k != AccessKey && k != RefreshKey ==> r[k] == storage[k]
    ensures RefreshAttempted(storage, first) && refresh.RefreshFailed? ==> AccessKey !in r && RefreshKey !in r
    ensures RefreshAttempted(storage, first) && refresh.Refreshed? ==> AccessKey in r && r[AccessKey] == refresh.access
    ensures !RefreshAttempted(storage, first) ==> r == storage
  {
    if !RefreshAttempted(storage, first) then storage
    else match refresh
      case RefreshFailed(_) => storage - {AccessKey, RefreshKey}
      case Refreshed(access) => storage[AccessKey := access]
  }

  /** The call sends the browser to the login page exactly when an attempted refresh fails. */
  predicate Redirected(storage: map<string, string>, first: Reply, refresh: RefreshReply) {
    RefreshAttempted(storage, first) && refresh.RefreshFailed?
  }

  class ApiClient {
    /** The browser's local storage. */
    var storage: map<string, string>
    /** `api.defaults.headers.common['Authorization']`. */
    var defaultAuth: Option<string>
    /** How many times the client has sent the browser to the login page. */
    var redirects: nat

    /**
     * Until the client has sent the browser to the login page (which reloads it), a default
     * Authorization header is only ever set while an access token is stored.
     */
    ghost predicate Valid()
      reads this
    {
      redirects == 0 ==> (defaultAuth.Some? ==> AccessKey in storage)
    }

    constructor (storage: map<string, string>)
      ensures this.storage == storage && defaultAuth.None? && redirects == 0
      ensures Valid()
    {
      this.storage := storage;
      defaultAuth := None;
      redirects := 0;
    }

    /** `authService.setToken`: a truthy token becomes the default bearer header, a falsy one deletes it. */
    method SetToken(token: Option<string>)
      modifies this`defaultAuth
      ensures token.Some? && token.value != "" ==> defaultAuth == Some(Bearer(token.value))
      ensures token.None? || token.value == "" ==> defaultAuth.None?
      ensures old(Valid()) && (defaultAuth.Some? ==> AccessKey in storage) ==> Valid()
    {
      if token.Some? && token.value != "" {
        defaultAuth := Some(Bearer(token.value));
      } else {
        defaultAuth := None;
      }
    }

    /**
     * One call through the client: the request interceptor, the call, and the response
     * interceptor. `first` is the reply to the request, `refresh` the reply the refresh call
     * would get and `replay` the reply the replayed request would get; `sent` lists the
     * requests that actually leave the browser, in order.
     */
    method Request(path: string, first: Reply, refresh: RefreshReply, replay: Reply) returns (outcome: Outcome, sent: seq<Sent>)
      requires Valid()
      modifies this`storage, this`redirects
      ensures Valid()
      ensures 1 <= |sent| <= 3 && sent[0] == Sent(path, OutgoingAuthorization(old(storage), defaultAuth))
      ensures outcome.Resolved? ==> IsSuccess(outcome.reply)
      ensures !IsUnauthorized(first) || StoredToken(old(storage), RefreshKey).None? ==>
        outcome == (if IsSuccess(first) then Resolved(first) else Rejected(first)) &&
        sent == [sent[0]] && storage == old(storage) && redirects == old(redirects)
      ensures IsUnauthorized(first) && StoredToken(old(storage), RefreshKey).Some? && refresh.RefreshFailed? ==>
        outcome == Rejected(refresh.error) && sent == [sent[0], Sent(RefreshPath, None)] &&
        storage == old(storage) - {AccessKey, RefreshKey} && redirects == old(redirects) + 1
      ensures IsUnauthorized(first) && StoredToken(old(storage), RefreshKey).Some? && refresh.Refreshed? ==>
        outcome == (if IsSuccess(replay) then Resolved(replay) else Rejected(replay)) &&
        sent == [sent[0], Sent(RefreshPath, None), Sent(path, Some(Bearer(refresh.access)))] &&
        storage == old(storage)[AccessKey := refresh.access] && redirects == old(redirects)
    ensures outcome == CallOutcome(old(storage), first, refresh, replay)
    ensures storage == StorageAfter(old(storage), first, refresh)
    ensures redirects == old(redirects) + (if Redirected(old(storage), first, refresh) then 1 else 0)
    {
      sent := [Sent(path, OutgoingAuthorization(storage, defaultAuth))];
      if IsSuccess(first) {
        return Resolved(first), sent;
      }
      // The original request is not marked `_retry`, so only its status decides.
      if !IsUnauthorized(first) {
        return Rejected(first), sent;
      }
      var refreshToken := StoredToken(storage, RefreshKey);
      if refreshToken.None? {
        return Rejected(first), sent;
      }
      // The refresh call goes through the bare HTTP client: no interceptor, no default header.
      sent := sent + [Sent(RefreshPath, None)];
      match refresh {
        case RefreshFailed(error) =>
          storage := storage - {AccessKey, RefreshKey};
          redirects := redirects + 1;
          return Rejected(error), sent;
        case Refreshed(access) =>
          storage := storage[AccessKey := access];
          // The replay is marked `_retry`: whatever it gets back is passed on unchanged.
          var auth := OutgoingAuthorization(storage, Some(Bearer(access)));
          sent := sent + [Sent(path, auth)];
          outcome := if IsSuccess(replay) then Resolved(replay) else Rejected(replay);
      }
    }
  }

  /* ---------- URL of the score listing ---------- */

  /** The argument of `scoreService.getAll`: absent (or `null`), a number, or a string. */
  datatype TeamIdArg = NoTeam | NumberId(n: int) | StringId(s: string)

  predicate IsTruthyId(id: TeamIdArg) {
    match id
    case NoTeam => false
    case NumberId(n) => n != 0
    case StringId(s) => s != ""
  }

  function Digit(d: nat): char
    requires d < 10
  {
    ('0' as int + d) as char
  }

  /** The decimal digits of a natural number, as JavaScript prints it. */
  function NatToString(n: nat): (s: string)
    ensures |s| >= 1
    ensures forall i :: 0 <= i < |s| ==> '0' <= s[i] <= '9'
    decreases n
  {
    if n < 10 then [Digit(n)] else NatToString(n / 10) + [Digit(n % 10)]
  }

  /** A number interpolated into a template string. */
  function IntToString(n: int): string {
    if n < 0 then "-" + NatToString(-n) else NatToString(n)
  }

  /** Reads a string of decimal digits back as a number, as the backend does with a query parameter. */
  function ParseDigits(s: string): int
    decreases |s|
  {
    if s == [] then 0 else 10 * ParseDigits(s[..|s| - 1]) + (s[|s| - 1] as int - '0' as int)
  }

  lemma {:induction false} ParseNatToString(n: nat)
    ensures ParseDigits(NatToString(n)) == n
    decreases n
  {
    if n >= 10 {
      var s := NatToString(n);
      assert s == NatToString(n / 10) + [Digit(n % 10)];
      assert s[..|s| - 1] == NatToString(n / 10);
      ParseNatToString(n / 10);
    }
  }

  /** `scoreService.getAll(teamId)`: the path of the score listing, filtered by team when an id is given. */
  function ScoresUrl(teamId: TeamIdArg): string {
    if !IsTruthyId(teamId) then "/scores/"
    else match teamId
      case NumberId(n) => "/scores/?team=" + IntToString(n)
      case StringId(s) => "/scores/?team=" + s
      case NoTeam => "/scores/"
  }

  /**
   * The listing is unfiltered exactly when the id is falsy; a positive numeric id is sent so
   * that reading the parameter back gives the same team.
   */
  lemma ScoresUrlRoundTrip(teamId: TeamIdArg)
    ensures ScoresUrl(teamId) == "/scores/" <==> !IsTruthyId(teamId)
    ensures teamId.NumberId? && teamId.n > 0 ==>
      var url := ScoresUrl(teamId);
      "/scores/?team=" <= url && ParseDigits(url[|"/scores/?team="|..]) == teamId.n
  {
    if IsTruthyId(teamId) {
      assert "/scores/?team=" <= ScoresUrl(teamId);
      assert |ScoresUrl(teamId)| > |"/scores/"|;
    }
    if teamId.NumberId? && teamId.n > 0 {
      var url := ScoresUrl(teamId);
      assert url[|"/scores/?team="|..] == NatToString(teamId.n);
      ParseNatToString(teamId.n);
    }
  }
}
