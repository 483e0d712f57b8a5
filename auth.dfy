/**
 * The client's session context: the signed-in user, the loading flag and the token state,
 * kept beside the token store of the HTTP client, and the client's two role tests.
 */
module Auth {
  import opened Wrappers
  import opened Json
  import Models
  import opened Api

  /** `localStorage.getItem(key)`: the stored string, or `null`. */
  function Stored(storage: map<string, string>, key: string): (r: Option<string>)
    ensures r.Some? <==> key in storage
    ensures r.Some? ==> r.value == storage[key]
  {
    if key in storage then Some(storage[key]) else None
  }

  /** `if (token)` on the token state. */
  predicate HasToken(token: Option<string>) {
    token.Some? && token.value != ""
  }

  class AuthProvider {
    const api: ApiClient
    var user: Json
    var loading: bool
    var token: Option<string>

    /**
     * Until the client has sent the browser to the login page, a token in the state is
     * backed by a stored access token.
     */
    ghost predicate Valid()
      reads this, api
    {
      api.Valid() && (api.redirects == 0 ==> (token.Some? ==> AccessKey in api.storage))
    }

    /** The initial state: no user, loading, and the token read from storage. */
    constructor (api: ApiClient)
      requires api.Valid()
      ensures this.api == api && user == JNull && loading && token == Stored(api.storage, AccessKey)
      ensures Valid()
    {
      this.api := api;
      user := JNull;
      loading := true;
      token := Stored(api.storage, AccessKey);
    }

    /** `logout`: both stored tokens, the token state, the default header and the user are cleared. */
    method Logout()
      requires Valid()
      modifies this`user, this`token, api`storage, api`defaultAuth
      ensures api.storage == old(api.storage) - {AccessKey, RefreshKey}
      ensures token.None? && api.defaultAuth.None? && user == JNull
      ensures loading == old(loading) && api.redirects == old(api.redirects)
      ensures Valid()
    {
      api.storage := api.storage - {AccessKey, RefreshKey};
      token := None;
      api.SetToken(None);
      user := JNull;
    }

    /**
     * `fetchUser`: asks the backend who is signed in. A reply sets the user; any failure (after
     * the client's own refresh attempt) logs out. Loading is over either way.
     */
    method FetchUser(first: Reply, refresh: RefreshReply, replay: Reply) returns (outcome: Outcome, sent: seq<Sent>)
      requires Valid()
      modifies this`user, this`token, this`loading, api`storage, api`defaultAuth, api`redirects
      ensures Valid() && !loading
      ensures 1 <= |sent| && sent[0] == Sent(MePath, OutgoingAuthorization(old(api.storage), old(api.defaultAuth)))
      ensures |sent| == 1 <==> !RefreshAttempted(old(api.storage), first)
      ensures outcome == CallOutcome(old(api.storage), first, refresh, replay)
      ensures api.redirects == old(api.redirects) + (if Redirected(old(api.storage), first, refresh) then 1 else 0)
      ensures IsSuccess(first) ==> outcome == Resolved(first) && user == first.data && api.storage == old(api.storage)
      ensures outcome.Resolved? ==>
        user == outcome.reply.data && token == old(token) && api.defaultAuth == old(api.defaultAuth) &&
        api.storage == StorageAfter(old(api.storage), first, refresh)
      ensures outcome.Rejected? ==>
        user == JNull && token.None? && api.defaultAuth.None? &&
        api.storage == StorageAfter(old(api.storage), first, refresh) - {AccessKey, RefreshKey}
    {
      outcome, sent := api.Request(MePath, first, refresh, replay);
      if outcome.Resolved? {
        user := outcome.reply.data;
      } else {
        Logout();
      }
      loading := false;
    }

    /**
     * The effect that runs when the token state changes: with a token, the default header is
     * set and the user fetched; without one, loading simply ends and nothing is requested.
     */
    method InitEffect(first: Reply, refresh: RefreshReply, replay: Reply) returns (sent: seq<Sent>)
      requires Valid()
      modifies this`user, this`token, this`loading, api`storage, api`defaultAuth, api`redirects
      ensures Valid() && !loading
      ensures !HasToken(old(token)) ==>
        sent == [] && user == old(user) && token == old(token) &&
        api.storage == old(api.storage) && api.defaultAuth == old(api.defaultAuth) && api.redirects == old(api.redirects)
      ensures HasToken(old(token)) ==>
        var o := CallOutcome(old(api.storage), first, refresh, replay);
        1 <= |sent| && sent[0] == Sent(MePath, OutgoingAuthorization(old(api.storage), Some(Bearer(old(token).value)))) &&
        api.redirects == old(api.redirects) + (if Redirected(old(api.storage), first, refresh) then 1 else 0) &&
        (o.Resolved? ==>
          user == o.reply.data && token == old(token) && api.defaultAuth == Some(Bearer(old(token).value)) &&
          api.storage == StorageAfter(old(api.storage), first, refresh)) &&
        (o.Rejected? ==>
          user == JNull && token.None? && api.defaultAuth.None? &&
          api.storage == StorageAfter(old(api.storage), first, refresh) - {AccessKey, RefreshKey})
    {
      if HasToken(token) {
        api.SetToken(token);
        var outcome;
        outcome, sent := FetchUser(first, refresh, replay);
      } else {
        sent := [];
        loading := false;
      }
    }

    /** `login`: stores both tokens, then sets the token state, the default header and the user. */
    method Login(accessToken: string, refreshToken: string, userData: Json)
      requires Valid()
      modifies this`user, this`token, api`storage, api`defaultAuth
      ensures api.storage == old(api.storage)[AccessKey := accessToken][RefreshKey := refreshToken]
      ensures token == Some(accessToken) && user == userData && loading == old(loading)
      ensures api.defaultAuth == (if accessToken != "" then Some(Bearer(accessToken)) else None)
      ensures Valid()
    {
      api.storage := api.storage[AccessKey := accessToken][RefreshKey := refreshToken];
      token := Some(accessToken);
      api.SetToken(Some(accessToken));
      user := userData;
    }
  }

  /** A fresh session with nothing stored finishes loading without a user and without a request. */
  method StartWithoutToken(api: ApiClient, first: Reply, refresh: RefreshReply, replay: Reply) returns (auth: AuthProvider, sent: seq<Sent>)
    requires api.Valid() && AccessKey !in api.storage
    modifies api`storage, api`defaultAuth, api`redirects
    ensures auth.api == api && auth.user == JNull && !auth.loading && sent == [] && auth.Valid()
    ensures api.storage == old(api.storage) && api.defaultAuth == old(api.defaultAuth) && api.redirects == old(api.redirects)
  {
    auth := new AuthProvider(api);
    sent := auth.InitEffect(first, refresh, replay);
  }

  /** `isAdmin` of the context: a user exists and its role is `admin`. */
  predicate IsAdmin(user: Json) {
    Truthy(user) && Prop(user, "role") == JStr("admin")
  }

  /** `isLeader` of the context: a user exists and its role is `leader` or `admin`. */
  predicate IsLeader(user: Json) {
    Truthy(user) && (Prop(user, "role") == JStr("leader") || Prop(user, "role") == JStr("admin"))
  }

  /** The user as the backend's `me` endpoint sends it. */
  function UserJson(u: Models.User): (j: Json)
    ensures j.JObject? && "role" in j.fields && j.fields["role"] == JStr(Models.RoleName(u.role))
  {
    JObject(map["id" := JNum(u.id), "username" := JStr(u.username), "role" := JStr(Models.RoleName(u.role))])
  }

  /**
   * The two tiers agree on admins but not on leaders: the client's `isLeader` also holds for
   * an admin, whose backend `is_leader` is false.
   */
  lemma RolesAcrossTiers(u: Models.User)
    ensures IsAdmin(UserJson(u)) <==> Models.IsAdmin(u)
    ensures IsLeader(UserJson(u)) <==> Models.IsLeader(u) || Models.IsAdmin(u)
    ensures Models.IsAdmin(u) ==> IsLeader(UserJson(u)) && !Models.IsLeader(u)
    ensures u.role == Models.Member ==> !IsLeader(UserJson(u)) && !IsAdmin(UserJson(u))
  {
    var j := UserJson(u);
    assert Truthy(j);
    assert Prop(j, "role") == JStr(Models.RoleName(u.role));
  }

  /** With no user neither test holds; on the client, an admin is always a leader. */
  lemma ClientRoleTests(user: Json)
    ensures !Truthy(user) ==> !IsAdmin(user) && !IsLeader(user)
    ensures IsAdmin(user) ==> IsLeader(user)
  {
  }
}
