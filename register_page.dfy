/** The registration form: the ordered five-step validation, the request body it sends, the
    four-way classification of a failed registration and the submit flow around them. */
module RegisterPage {
  import opened JsText
  import opened ApiClient
  import opened AuthContext
  import LoginPage

  const NameMessage := "Lütfen ad soyad giriniz"
  const EmailMessage := "Lütfen geçerli bir e-posta adresi giriniz"
  const PasswordMessage := "Şifre en az 6 karakter uzunluğunda olmalıdır"
  const MismatchMessage := "Şifreler eşleşmiyor"
  const TermsMessage := "Kullanım koşullarını kabul etmelisiniz"
  const DuplicateEmailMessage := "Bu e-posta adresi zaten kullanılıyor"
  const RegisterFailedSuffix := ". Kayıt yapılamadı."
  const ConflictStatus := 409
  const MinPasswordLength := 6

  /** The form fields; `role` starts as 'user'. */
  datatype RegisterValues = RegisterValues(fullName: string, email: string, password: string,
                                           confirmPassword: string, role: string)

  // ---------------------------------------------------------------------------
  // the e-mail pattern

  /** `s[i..j]` is a non-empty run of characters that `\S` matches. */
  ghost predicate NonSpaceRun(s: string, i: int, j: int) {
    0 <= i < j <= |s| && forall k :: i <= k < j ==> !IsSpace(s[k])
  }

  /** An '@' at `a` and a '.' at `b` with a non-empty run of non-space characters between. */
  ghost predicate AtRunDot(s: string, a: int, b: int) {
    NonSpaceRun(s, a + 1, b) && 0 <= a && b < |s| && s[a] == '@' && s[b] == '.'
  }

  /** A non-empty run of non-space characters right after position `b`, ending at `e`. */
  ghost predicate RunAfter(s: string, b: int, e: int) {
    NonSpaceRun(s, b + 1, e)
  }

  /** The unanchored pattern `\S+@\S+\.\S+` matches somewhere in `s`: three runs of non-space
      characters, the first ending before an '@', the second between the '@' and a '.', the
      third after the '.'. */
  ghost predicate EmailPattern(s: string) {
    exists i, a, b, e :: NonSpaceRun(s, i, a) && AtRunDot(s, a, b) && RunAfter(s, b, e)
  }

  /** The '@' at `a` and the '.' at `b` with one non-space character before the one, one after
      the other, and only non-space characters between them. */
  predicate AtDotPair(s: string, a: int, b: int)
    requires 1 <= a && a + 1 < b < |s| - 1
  {
    !IsSpace(s[a - 1]) && s[a] == '@' && s[b] == '.' && !IsSpace(s[b + 1])
    && forall k | a < k < b :: !IsSpace(s[k])
  }

  /** What the pattern needs at its ends is one non-space character on each side, so this
      check looks only at the '@', the '.', and the characters between and around them. */
  predicate EmailShape(s: string) {
    exists a, b | 1 <= a && a + 1 < b < |s| - 1 :: AtDotPair(s, a, b)
  }

  /** The check agrees with the pattern on every string, in both directions. */
  lemma EmailShapeMatchesPattern(s: string)
    ensures EmailShape(s) <==> EmailPattern(s)
  {
    if EmailShape(s) {
      var a, b :| 1 <= a && a + 1 < b < |s| - 1 && AtDotPair(s, a, b);
      assert NonSpaceRun(s, a - 1, a) && AtRunDot(s, a, b) && RunAfter(s, b, b + 2);
    }
    if EmailPattern(s) {
      var i, a, b, e :| NonSpaceRun(s, i, a) && AtRunDot(s, a, b) && RunAfter(s, b, e);
      assert !IsSpace(s[a - 1]) && !IsSpace(s[b + 1]);
      assert AtDotPair(s, a, b);
    }
  }

  /** The pattern does not demand that the whole input be an address. */
  lemma EmailPatternUnanchored()
    ensures EmailShape(" x a@b.c y")
  {
    var s := " x a@b.c y";
    assert AtDotPair(s, 4, 6);
  }

  // ---------------------------------------------------------------------------
  // validation

  /** `validateForm`: the message of the first check that fails, in the order name, e-mail,
      password, confirmation, terms; `None` when all five pass. */
  function ValidateForm(v: RegisterValues, termsAccepted: bool): (r: Option<string>)
    ensures r == Some(NameMessage) <==> Blank(v.fullName)
    ensures r == Some(EmailMessage) <==>
      !Blank(v.fullName) && (Blank(v.email) || !EmailPattern(v.email))
    ensures r == Some(PasswordMessage) <==>
      !Blank(v.fullName) && !Blank(v.email) && EmailPattern(v.email)
      && (Blank(v.password) || |v.password| < MinPasswordLength)
    ensures r == Some(MismatchMessage) <==>
      !Blank(v.fullName) && !Blank(v.email) && EmailPattern(v.email)
      && !Blank(v.password) && |v.password| >= MinPasswordLength && v.password != v.confirmPassword
    ensures r == Some(TermsMessage) <==>
      !Blank(v.fullName) && !Blank(v.email) && EmailPattern(v.email)
      && !Blank(v.password) && |v.password| >= MinPasswordLength && v.password == v.confirmPassword
      && !termsAccepted
    ensures r.None? <==>
      !Blank(v.fullName) && !Blank(v.email) && EmailPattern(v.email)
      && !Blank(v.password) && |v.password| >= MinPasswordLength && v.password == v.confirmPassword
      && termsAccepted
  {
    EmailShapeMatchesPattern(v.email);
    if Blank(v.fullName) then Some(NameMessage)
    else if Blank(v.email) || !EmailShape(v.email) then Some(EmailMessage)
    else if Blank(v.password) || |v.password| < MinPasswordLength then Some(PasswordMessage)
    else if v.password != v.confirmPassword then Some(MismatchMessage)
    else if !termsAccepted then Some(TermsMessage)
    else None
  }

  /** A password of six spaces is rejected for being blank, a padded one of six characters
      is accepted: the length is taken before trimming. */
  lemma PasswordLengthUntrimmed(v: RegisterValues)
    requires !Blank(v.fullName) && !Blank(v.email) && EmailPattern(v.email)
    requires v.password == " abcd " && v.confirmPassword == v.password
    ensures ValidateForm(v, true) == None
  {
    assert !IsSpace(v.password[1]);
  }

  // ---------------------------------------------------------------------------
  // request and errors

  /** The body of the register request. */
  datatype RegisterPayload = RegisterPayload(name: string, email: string, password: string, role: string)

  /** `fullName` is sent as `name`; e-mail, password and role are copied; the confirmation
      stays on the page. */
  function PayloadOf(v: RegisterValues): (r: RegisterPayload)
    ensures r.name == v.fullName && r.email == v.email && r.password == v.password && r.role == v.role
  {
    RegisterPayload(v.fullName, v.email, v.password, v.role)
  }

  /** Forms that differ only in the confirmation send the same body, and forms that send the
      same body agree on everything else. */
  lemma PayloadIgnoresConfirmation(v: RegisterValues, w: RegisterValues)
    ensures PayloadOf(v) == PayloadOf(w) <==> v.(confirmPassword := w.confirmPassword) == w
  {
  }

  /** The catch handler of the submit: 409 is the duplicate address; any other response shows
      the server's message or the status text; then the connectivity and setup texts. */
  function RegisterErrorMessage(e: ApiError, baseUrl: string): (r: string)
    ensures e.HttpError? && e.status == ConflictStatus ==> r == DuplicateEmailMessage
    ensures e.HttpError? && e.status != ConflictStatus && Truthy(e.message) ==> r == e.message.value
    ensures e.HttpError? && e.status != ConflictStatus && !Truthy(e.message) ==>
              r == LoginPage.StatusMessage(e.status, RegisterFailedSuffix)
    ensures e.NoResponse? ==> r == LoginPage.ConnectivityMessage(baseUrl)
    ensures e.SetupError? ==> r == LoginPage.SetupMessage(e.msg)
  {
    match e
    case HttpError(status, message) =>
      if status == ConflictStatus then DuplicateEmailMessage
      else OrDefault(message, LoginPage.StatusMessage(status, RegisterFailedSuffix))
    case NoResponse => LoginPage.ConnectivityMessage(baseUrl)
    case SetupError(msg) => LoginPage.SetupMessage(msg)
  }

  /** Registration and login show the same text for every error except a 409 and a server
      error without a message, where only the verb of the status text differs. */
  lemma RegisterAgreesWithLogin(e: ApiError, baseUrl: string)
    requires !(e.HttpError? && (e.status == ConflictStatus || !Truthy(e.message)))
    ensures RegisterErrorMessage(e, baseUrl) == LoginPage.LoginErrorMessage(e, baseUrl)
  {
  }

  /** The status code reads back out of the status text of a failed registration. */
  lemma RegisterStatusReadsBack(status: nat)
    requires status != ConflictStatus
    ensures var r := RegisterErrorMessage(HttpError(status, None), "");
            StartsWith(r, LoginPage.StatusPrefix) && ParseInt(r[|LoginPage.StatusPrefix|..]) == Some(status)
  {
    LoginPage.StatusMessageStatus(status, RegisterFailedSuffix);
  }

  /** The page state the submit handler writes. */
  class RegisterForm {
    var error: Option<string>
    var loading: bool
    var success: bool
    var navTarget: Option<string>

    constructor ()
      ensures error == None && !loading && !success && navTarget == None
    {
      error := None;
      loading := false;
      success := false;
      navTarget := None;
    }

    /** `handleSubmit`, with the register request settling as `outcome`; returns the body it
        sent, if any. A form that fails validation sends nothing and leaves `loading` alone;
        otherwise `loading` ends false, and success schedules the way to the login page. */
    method HandleSubmit(v: RegisterValues, termsAccepted: bool, outcome: Outcome<int>, baseUrl: string)
      returns (sent: Option<RegisterPayload>)
      modifies this
      ensures ValidateForm(v, termsAccepted).Some? ==>
        sent == None && error == ValidateForm(v, termsAccepted)
        && loading == old(loading) && success == old(success) && navTarget == old(navTarget)
      ensures ValidateForm(v, termsAccepted).None? ==> sent == Some(PayloadOf(v)) && !loading
      ensures ValidateForm(v, termsAccepted).None? && outcome.Ok? ==>
        success && navTarget == Some(LoginPath) && error == None
      ensures ValidateForm(v, termsAccepted).None? && outcome.Err? ==>
        success == old(success) && navTarget == old(navTarget)
        && error == Some(RegisterErrorMessage(outcome.error, baseUrl))
    {
      error := None;
      var invalid := ValidateForm(v, termsAccepted);
      if invalid.Some? {
        error := invalid;
        sent := None;
        return;
      }
      loading := true;
      sent := Some(PayloadOf(v));
      if outcome.Ok? {
        success := true;
        navTarget := Some(LoginPath);
      } else {
        error := Some(RegisterErrorMessage(outcome.error, baseUrl));
      }
      loading := false;
    }
  }
}
