/** The session controller of the dashboard: the in-memory user and loading flag, the
    reconciliation with stored credentials at startup, login and logout. Navigation is
    recorded in `navTarget` instead of being performed. */
module AuthContext {
  import opened JsText
  import opened JsonCodec
  import opened Jwt
  import opened ApiClient

  const DashboardPath := "/opca/dashboard"
  const LoginPath := "/auth/login"
  const FormatErrorMessage := "API yanıt formatı hatalı"

  /** The `data` object of a login response; each field may be missing from the body. */
  datatype LoginData = LoginData(token: Option<string>, refreshToken: Option<string>, user: Option<JsonObject>)

  /** The body of a login response: `{ success, data }`, either part possibly missing. */
  datatype LoginBody = LoginBody(success: bool, data: Option<LoginData>)

  predicate IsAdmin(user: JsonObject) {
    Lookup(user, "role") == Some(JStr("admin"))
  }

  /** The branch that picks the route by role: `returnUrl` is missing, empty or '/'. */
  predicate DefaultRoute(returnUrl: Option<string>) {
    !Truthy(returnUrl) || returnUrl.value == "/"
  }

  /** Where a successful login sends the browser: the `returnUrl` query value unless it is
      missing, empty or '/'; otherwise the dashboard, in the admin branch and in the other. */
  function RedirectTarget(returnUrl: Option<string>, user: JsonObject): (r: string)
    ensures r == DashboardPath || (Truthy(returnUrl) && r == returnUrl.value)
    ensures Truthy(returnUrl) && returnUrl.value != "/" ==> r == returnUrl.value
    ensures DefaultRoute(returnUrl) ==> r == DashboardPath
  {
    if DefaultRoute(returnUrl) then
      if IsAdmin(user) then DashboardPath else DashboardPath
    else returnUrl.value
  }

  /** The role of the user plays no part in the redirect. */
  lemma RedirectIgnoresRole(returnUrl: Option<string>, admin: JsonObject, other: JsonObject)
    requires IsAdmin(admin) && !IsAdmin(other)
    ensures RedirectTarget(returnUrl, admin) == RedirectTarget(returnUrl, other)
  {
  }

  /** The message of the TypeError raised by reading `role` of an undefined user (the text
      V8 gives it). */
  const RoleReadMessage := "Cannot read properties of undefined (reading 'role')"

  /** All three fields the handler destructures are present. */
  predicate Complete(d: LoginData) {
    d.token.Some? && d.refreshToken.Some? && d.user.Some?
  }

  /** The response passes the handler's own test: `success` and `data`. */
  predicate Responded(outcome: Outcome<LoginBody>) {
    outcome.Ok? && outcome.data.success && outcome.data.data.Some?
  }

  /** A login response is used only when it has `success` and a `data` object holding token,
      refresh token and user. */
  predicate Accepted(outcome: Outcome<LoginBody>) {
    Responded(outcome) && Complete(outcome.data.data.value)
  }

  /** What the catch handler receives: the request's own error, or the format error thrown
      for a response without `success`, `data` or one of the three fields. */
  function LoginError(outcome: Outcome<LoginBody>): (e: ApiError)
    requires !Accepted(outcome)
    ensures outcome.Err? ==> e == outcome.error
    ensures outcome.Ok? ==> e == SetupError(FormatErrorMessage)
  {
    if outcome.Ok? then SetupError(FormatErrorMessage) else outcome.error
  }

  /** Storage after `saveToken`, `saveRefreshToken` and `saveUserData` on the three fields;
      a missing field is stored as the text "undefined". */
  function StoredLogin(present: bool, items: map<string, string>, d: LoginData): map<string, string> {
    if present then
      items[TokenKey := StringOf(d.token)][RefreshTokenKey := StringOf(d.refreshToken)][UserDataKey := ProfileText(d.user)]
    else items
  }

  /** What a settled login leaves behind: user, storage, route and the error handed to the
      callback. */
  datatype LoginState = LoginState(user: Option<JsonObject>, items: map<string, string>,
                                   navTarget: Option<string>, callbackError: Option<ApiError>)

  /** `handleLogin` as written: any response with `success` and `data` is saved field by
      field, then `user.role` is read in the default-route branch, which throws a TypeError
      into the catch handler when the user is missing. */
  function LoginAsWritten(present: bool, items: map<string, string>, user0: Option<JsonObject>,
                          nav0: Option<string>, outcome: Outcome<LoginBody>, returnUrl: Option<string>,
                          hasCallback: bool): LoginState
  {
    if Responded(outcome) then
      var d := outcome.data.data.value;
      var stored := StoredLogin(present, items, d);
      if d.user.None? && DefaultRoute(returnUrl) then
        LoginState(None, stored, nav0, if hasCallback then Some(SetupError(RoleReadMessage)) else None)
      else
        LoginState(d.user, stored, Some(if d.user.Some? then RedirectTarget(returnUrl, d.user.value) else returnUrl.value), None)
    else LoginState(user0, items, nav0, if hasCallback then Some(LoginError(outcome)) else None)
  }

  /** `handleLogin` with the three fields checked before anything is saved: an incomplete
      `data` is treated like a missing one. */
  function LoginOf(present: bool, items: map<string, string>, user0: Option<JsonObject>,
                   nav0: Option<string>, outcome: Outcome<LoginBody>, returnUrl: Option<string>,
                   hasCallback: bool): LoginState
  {
    if Accepted(outcome) then
      var d := outcome.data.data.value;
      LoginState(d.user, StoredLogin(present, items, d), Some(RedirectTarget(returnUrl, d.user.value)), None)
    else LoginState(user0, items, nav0, if hasCallback then Some(LoginError(outcome)) else None)
  }

  /** The check changes nothing for a complete response or a rejected one. */
  lemma LoginAgreesOnCompleteData(present: bool, items: map<string, string>, user0: Option<JsonObject>,
                                  nav0: Option<string>, outcome: Outcome<LoginBody>, returnUrl: Option<string>,
                                  hasCallback: bool)
    requires Responded(outcome) ==> Complete(outcome.data.data.value)
    ensures LoginOf(present, items, user0, nav0, outcome, returnUrl, hasCallback)
            == LoginAsWritten(present, items, user0, nav0, outcome, returnUrl, hasCallback)
  {
  }

  /** As written, a success body whose `data` lacks the token still populates the user,
      overwrites the stored token with "undefined" and, once a `returnUrl` is set, redirects
      without calling the error callback. */
  lemma MissingTokenAsWritten(present: bool, items: map<string, string>, user0: Option<JsonObject>,
                              nav0: Option<string>, profile: JsonObject, refresh: string, returnUrl: string)
    requires present && returnUrl != "" && returnUrl != "/"
    ensures var d := LoginData(None, Some(refresh), Some(profile));
            var r := LoginAsWritten(present, items, user0, nav0, Ok(LoginBody(true, Some(d))), Some(returnUrl), true);
            r.user == Some(profile) && r.callbackError == None && r.navTarget == Some(returnUrl)
            && r.items[TokenKey] == "undefined"
  {
  }

  /** As written, a `data` without the user throws in the default-route branch only after
      all three keys were overwritten, and the stored profile "undefined" then makes the next
      startup stop with `loading` still true. */
  lemma MissingUserAsWritten(present: bool, items: map<string, string>, user0: Option<JsonObject>,
                             nav0: Option<string>, d: LoginData, returnUrl: Option<string>,
                             nowMs: int, decode: string -> Payload)
    requires present && d.user.None? && DefaultRoute(returnUrl)
    requires !IsMockSession(Some(StringOf(d.token)), Some(StringOf(d.refreshToken)))
    ensures var r := LoginAsWritten(present, items, user0, nav0, Ok(LoginBody(true, Some(d))), returnUrl, true);
            r.callbackError == Some(SetupError(RoleReadMessage)) && r.user == None
            && r.items == StoredLogin(present, items, d)
            && StartupOf(present, r.items, nowMs, decode, r.user, true).loading
  {
    var stored := StoredLogin(present, items, d);
    assert StoredItem(present, stored, TokenKey) == Some(StringOf(d.token));
    assert StoredItem(present, stored, RefreshTokenKey) == Some(StringOf(d.refreshToken));
    assert StoredItem(present, stored, UserDataKey) == Some("undefined");
  }

  /** With the check in place, a success body with an incomplete `data` leaves user, route
      and storage as they were and reaches the callback exactly once, as the format error. */
  lemma IncompleteLoginRejected(present: bool, items: map<string, string>, user0: Option<JsonObject>,
                                nav0: Option<string>, d: LoginData, returnUrl: Option<string>, hasCallback: bool)
    requires !Complete(d)
    ensures var r := LoginOf(present, items, user0, nav0, Ok(LoginBody(true, Some(d))), returnUrl, hasCallback);
            r.user == user0 && r.items == items && r.navTarget == nav0
            && r.callbackError == (if hasCallback then Some(SetupError(FormatErrorMessage)) else None)
  {
  }

  /** The state `initAuth` leaves behind, from the stored items as they were before it ran. */
  datatype Startup = Startup(user: Option<JsonObject>, items: map<string, string>, loading: bool)

  /** `initAuth`: purge mock tokens, then read token and profile, then keep the profile if
      the token is valid, or clear storage if a stored token is invalid. A stored profile
      that `JSON.parse` rejects throws out of the async function before `setLoading(false)`. */
  function StartupOf(present: bool, items: map<string, string>, nowMs: int, decode: string -> Payload,
                     user0: Option<JsonObject>, loading0: bool): Startup
  {
    var mock := IsMockSession(StoredItem(present, items, TokenKey), StoredItem(present, items, RefreshTokenKey));
    var purged := if mock then items - AuthKeys else items;
    var token := StoredItem(present, purged, TokenKey);
    var profile := ReadUserData(StoredItem(present, purged, UserDataKey));
    if profile.Unparsable? then Startup(user0, purged, loading0)
    else if Truthy(token) && profile.UserData? && Check(token, nowMs, decode) == Valid then
      Startup(Some(profile.profile), purged, false)
    else if Truthy(token) && Check(token, nowMs, decode) != Valid then
      Startup(user0, purged - AuthKeys, false)
    else Startup(user0, purged, false)
  }

  /** Mock credentials are purged before anything is read: such a session ends with all three
      keys removed and no user set. */
  lemma StartupPurgesMockFirst(present: bool, items: map<string, string>, nowMs: int, decode: string -> Payload,
                               user0: Option<JsonObject>, loading0: bool)
    requires IsMockSession(StoredItem(present, items, TokenKey), StoredItem(present, items, RefreshTokenKey))
    ensures var r := StartupOf(present, items, nowMs, decode, user0, loading0);
            r.items == items - AuthKeys && r.user == user0 && !r.loading
  {
    var purged := items - AuthKeys;
    assert StoredItem(present, purged, TokenKey) == None;
    assert StoredItem(present, purged, UserDataKey) == None;
  }

  /** The user is set only from a stored profile together with a stored token that passes
      the validity check; storage is then left as it was. */
  lemma StartupSetsUserOnlyWhenValid(present: bool, items: map<string, string>, nowMs: int, decode: string -> Payload,
                                     loading0: bool)
    ensures var r := StartupOf(present, items, nowMs, decode, None, loading0);
            r.user.Some? <==>
              !IsMockSession(StoredItem(present, items, TokenKey), StoredItem(present, items, RefreshTokenKey))
              && Truthy(StoredItem(present, items, TokenKey))
              && ReadUserData(StoredItem(present, items, UserDataKey)).UserData?
              && Check(StoredItem(present, items, TokenKey), nowMs, decode) == Valid
    ensures var r := StartupOf(present, items, nowMs, decode, None, loading0);
            r.user.Some? ==> r.user == Some(ReadUserData(StoredItem(present, items, UserDataKey)).profile)
                             && r.items == items && !r.loading
  {
    if IsMockSession(StoredItem(present, items, TokenKey), StoredItem(present, items, RefreshTokenKey)) {
      StartupPurgesMockFirst(present, items, nowMs, decode, None, loading0);
    }
  }

  /** A stored token that fails the check (and is no mock token) gets everything cleared,
      whether or not a profile is stored, unless the profile cannot be parsed. */
  lemma StartupClearsInvalidToken(present: bool, items: map<string, string>, nowMs: int, decode: string -> Payload,
                                  user0: Option<JsonObject>, loading0: bool)
    requires !IsMockSession(StoredItem(present, items, TokenKey), StoredItem(present, items, RefreshTokenKey))
    requires Truthy(StoredItem(present, items, TokenKey))
    requires Check(StoredItem(present, items, TokenKey), nowMs, decode) != Valid
    requires !ReadUserData(StoredItem(present, items, UserDataKey)).Unparsable?
    ensures var r := StartupOf(present, items, nowMs, decode, user0, loading0);
            r.items == items - AuthKeys && r.user == user0 && !r.loading
  {
  }

  /** A valid token without a stored profile changes nothing but the loading flag. */
  lemma StartupValidTokenWithoutProfile(present: bool, items: map<string, string>, nowMs: int, decode: string -> Payload,
                                        user0: Option<JsonObject>, loading0: bool)
    requires !IsMockSession(StoredItem(present, items, TokenKey), StoredItem(present, items, RefreshTokenKey))
    requires Check(StoredItem(present, items, TokenKey), nowMs, decode) == Valid
    requires ReadUserData(StoredItem(present, items, UserDataKey)) == NoUserData
    ensures var r := StartupOf(present, items, nowMs, decode, user0, loading0);
            r.items == items && r.user == user0 && !r.loading
  {
  }

  /** `loading` ends false on every path except the one where `JSON.parse` throws. */
  lemma StartupEndsLoading(present: bool, items: map<string, string>, nowMs: int, decode: string -> Payload,
                           user0: Option<JsonObject>, loading0: bool)
    ensures var mock := IsMockSession(StoredItem(present, items, TokenKey), StoredItem(present, items, RefreshTokenKey));
            var r := StartupOf(present, items, nowMs, decode, user0, loading0);
            !r.loading <==> mock || !ReadUserData(StoredItem(present, items, UserDataKey)).Unparsable? || !loading0
  {
    if IsMockSession(StoredItem(present, items, TokenKey), StoredItem(present, items, RefreshTokenKey)) {
      StartupPurgesMockFirst(present, items, nowMs, decode, user0, loading0);
    }
  }

  /** The `AuthProvider` state together with the store it works on. */
  class AuthSession {
    var user: Option<JsonObject>
    var loading: bool
    /** The last route handed to the router. */
    var navTarget: Option<string>
    const storage: AuthStorage

    /** `defaultProvider`: no user, still loading. */
    constructor (storage: AuthStorage)
      ensures user == None && loading && navTarget == None && this.storage == storage
    {
      user := None;
      loading := true;
      navTarget := None;
      this.storage := storage;
    }

    /** `initAuth` at clock `nowMs`. */
    method InitAuth(nowMs: int, decode: string -> Payload)
      modifies this, storage
      ensures var r := StartupOf(old(storage.present), old(storage.items), nowMs, decode, old(user), old(loading));
              user == r.user && loading == r.loading && storage.items == r.items
      ensures storage.present == old(storage.present) && navTarget == old(navTarget)
    {
      ghost var present, items := storage.present, storage.items;
      var _ := storage.ClearMockTokens();
      PurgedTokenIsNoMock(present, items, nowMs, decode);
      var storedToken := storage.GetToken();
      var userData := storage.GetUserData();
      if userData.Unparsable? {
        return;
      }
      if Truthy(storedToken) && userData.UserData? {
        var valid := storage.IsTokenValid(nowMs, decode);
        if valid {
          user := Some(userData.profile);
          loading := false;
          return;
        }
      }
      if Truthy(storedToken) {
        var valid := storage.IsTokenValid(nowMs, decode);
        if !valid {
          storage.ClearAuthData();
        }
      }
      loading := false;
    }

    /** `handleLogin` once the request has settled with `outcome`, with the three fields of
        `data` checked before anything is saved. An accepted response stores token, refresh
        token and profile, sets the user and schedules the redirect; anything else leaves
        user and storage alone and hands the error to the callback when one was supplied.
        `loading` ends false either way. */
    method HandleLogin(outcome: Outcome<LoginBody>, returnUrl: Option<string>, hasCallback: bool)
      returns (callbackError: Option<ApiError>)
      modifies this, storage
      ensures !loading && storage.present == old(storage.present)
      ensures var r := LoginOf(old(storage.present), old(storage.items), old(user), old(navTarget),
                               outcome, returnUrl, hasCallback);
              user == r.user && storage.items == r.items && navTarget == r.navTarget
              && callbackError == r.callbackError
      ensures Accepted(outcome) && storage.present ==>
        var d := outcome.data.data.value;
        storage.GetToken() == d.token && storage.GetRefreshToken() == d.refreshToken
        && storage.GetUserData() == UserData(d.user.value)
    {
      loading := true;
      if Accepted(outcome) {
        var d := outcome.data.data.value;
        storage.SaveToken(d.token.value);
        storage.SaveRefreshToken(d.refreshToken.value);
        storage.SaveUserData(d.user);
        user := d.user;
        navTarget := Some(RedirectTarget(returnUrl, d.user.value));
        loading := false;
        callbackError := None;
      } else {
        loading := false;
        callbackError := if hasCallback then Some(LoginError(outcome)) else None;
      }
    }

    /** `handleLogout`: storage cleared, no user, off to the login page. */
    method HandleLogout()
      modifies this, storage
      ensures storage.present == old(storage.present)
      ensures storage.items == if storage.present then old(storage.items) - AuthKeys else old(storage.items)
      ensures storage.GetToken() == None && storage.GetRefreshToken() == None && storage.GetUserData() == NoUserData
      ensures user == None && navTarget == Some(LoginPath) && loading == old(loading)
    {
      storage.ClearAuthData();
      user := None;
      navTarget := Some(LoginPath);
    }
  }
}
