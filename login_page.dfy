/** The login form: the required-fields check, the three-way classification of a failed
    login into the message the form shows, and the two redirects to the dashboard. */
module LoginPage {
  import opened JsText
  import opened JsonCodec
  import opened Jwt
  import opened ApiClient
  import opened AuthContext

  const RequiredFieldsMessage := "E-posta ve şifre alanları boş bırakılamaz"
  const StatusPrefix := "Hata kodu: "
  const LoginFailedSuffix := ". Giriş yapılamadı."
  const SetupPrefix := "İstek oluşturulamadı: "
  const ConnectivityLead := "API bağlantısı kurulamadı."

  /** The text shown when a request got no response; it names the API base URL. */
  function ConnectivityMessage(baseUrl: string): (r: string)
    ensures StartsWith(r, ConnectivityLead) && Contains(r, baseUrl)
  {
    var head := ConnectivityLead + " Lütfen API servisinin çalıştığından emin olun. (";
    var r := head + baseUrl + ")";
    assert r[..|ConnectivityLead|] == ConnectivityLead;
    assert OccursAt(r, baseUrl, |head|) by {
      assert r[|head|..|head| + |baseUrl|] == baseUrl;
    }
    r
  }

  /** The text shown for an error raised before any request went out. */
  function SetupMessage(msg: string): (r: string)
    ensures StartsWith(r, SetupPrefix) && r[|SetupPrefix|..] == msg
  {
    var r := SetupPrefix + msg;
    assert r[..|SetupPrefix|] == SetupPrefix;
    r
  }

  /** "Hata kodu: <status><suffix>" for a server error without a message of its own. */
  function StatusMessage(status: int, suffix: string): (r: string)
    ensures StartsWith(r, StatusPrefix) && r[|StatusPrefix|..] == IntToString(status) + suffix
  {
    var r := StatusPrefix + IntToString(status) + suffix;
    assert r[..|StatusPrefix|] == StatusPrefix;
    assert r[|StatusPrefix|..] == IntToString(status) + suffix;
    r
  }

  /** The status code can be read back out of a status message. */
  lemma StatusMessageStatus(status: nat, suffix: string)
    requires |suffix| > 0 && suffix[0] == '.'
    ensures ParseInt(StatusMessage(status, suffix)[|StatusPrefix|..]) == Some(status)
  {
    ParseIntOfNatToStringThen(status, suffix);
  }

  /** The error callback of the login form: the server's `message` when it sent a truthy one,
      else the status text; the connectivity text when no response came; the setup text
      otherwise. */
  function LoginErrorMessage(e: ApiError, baseUrl: string): (r: string)
    ensures e.HttpError? && Truthy(e.message) ==> r == e.message.value
    ensures e.HttpError? && !Truthy(e.message) ==>
              StartsWith(r, StatusPrefix) && r[|StatusPrefix|..] == IntToString(e.status) + LoginFailedSuffix
    ensures e.NoResponse? ==> Contains(r, baseUrl) && StartsWith(r, ConnectivityLead)
    ensures e.SetupError? ==> StartsWith(r, SetupPrefix) && r[|SetupPrefix|..] == e.msg
  {
    match e
    case HttpError(status, message) => OrDefault(message, StatusMessage(status, LoginFailedSuffix))
    case NoResponse => ConnectivityMessage(baseUrl)
    case SetupError(msg) => SetupMessage(msg)
  }

  /** A login response without `success`, `data` or one of its three fields reaches the
      form as a setup error that carries the format text. */
  lemma MalformedResponseMessage(body: LoginBody, baseUrl: string)
    requires !Accepted(Ok(body))
    ensures LoginErrorMessage(LoginError(Ok(body)), baseUrl) == SetupPrefix + FormatErrorMessage
  {
  }

  /** The effect that leaves the page for a signed-in user: only once loading has ended. */
  function SignedInRedirect(user: Option<JsonObject>, loading: bool): (r: Option<string>)
    ensures r.Some? <==> user.Some? && !loading
    ensures r.Some? ==> r.value == DashboardPath
  {
    if user.Some? && !loading then Some(DashboardPath) else None
  }

  /** The delayed check after submitting, over the user and error it captured: both roles
      are sent to the dashboard. */
  function PostLoginRedirect(user: Option<JsonObject>, error: Option<string>): (r: Option<string>)
    ensures r.Some? <==> user.Some? && error.None?
    ensures r.Some? ==> r.value == DashboardPath
  {
    if user.Some? && error.None? then
      if IsAdmin(user.value) then Some(DashboardPath) else Some(DashboardPath)
    else None
  }

  /** The form state the submit handler writes. */
  class LoginForm {
    var error: Option<string>
    var loginSuccess: bool
    var navTarget: Option<string>

    constructor ()
      ensures error == None && !loginSuccess && navTarget == None
    {
      error := None;
      loginSuccess := false;
      navTarget := None;
    }

    /** `handleSubmit`, with the login request settling as `outcome`. The previous error is
        cleared first; an empty field stops before any request. */
    method HandleSubmit(email: string, password: string, session: AuthSession, outcome: Outcome<LoginBody>,
                        returnUrl: Option<string>, baseUrl: string)
      modifies this, session, session.storage
      ensures email == "" || password == "" ==>
        error == Some(RequiredFieldsMessage) && unchanged(session) && unchanged(session.storage)
      ensures email != "" && password != "" && Accepted(outcome) ==>
        error == None && session.user == outcome.data.data.value.user
      ensures email != "" && password != "" && !Accepted(outcome) ==>
        error == Some(LoginErrorMessage(LoginError(outcome), baseUrl)) && session.user == old(session.user)
      ensures loginSuccess == old(loginSuccess) && navTarget == old(navTarget)
    {
      error := None;
      if email == "" || password == "" {
        error := Some(RequiredFieldsMessage);
        return;
      }
      var callbackError := session.HandleLogin(outcome, returnUrl, true);
      if callbackError.Some? {
        error := Some(LoginErrorMessage(callbackError.value, baseUrl));
      }
    }

    /** The check one second after submitting, over the captured user and error. */
    method AfterDelay(user: Option<JsonObject>, capturedError: Option<string>)
      modifies this
      ensures loginSuccess == (old(loginSuccess) || PostLoginRedirect(user, capturedError).Some?)
      ensures navTarget == if PostLoginRedirect(user, capturedError).Some?
                           then PostLoginRedirect(user, capturedError) else old(navTarget)
      ensures error == old(error)
    {
      var target := PostLoginRedirect(user, capturedError);
      if target.Some? {
        loginSuccess := true;
        navTarget := target;
      }
    }
  }
}
