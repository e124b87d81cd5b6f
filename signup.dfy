/** `screens/SignupScreen.js`: the ordered form check and `handleSignup`,
    with the backend's reply to `POST /signup/` as a parameter. */
module SignupScreen {
  import opened Base
  import opened Storage
  import Api

  /** The first rule `validateForm` finds broken, or `Valid`. */
  datatype Validation = Valid | MissingFields | PasswordMismatch | PasswordTooShort

  const MinPasswordLength := 6

  /** `validateForm`: all fields filled, then the two passwords equal, then
      the password at least six characters long; only the first failure is reported. */
  function ValidateForm(username: string, email: string, password: string, confirmPassword: string): (r: Validation)
    ensures r == Valid <==>
              username != "" && email != "" && password != "" && confirmPassword != ""
              && password == confirmPassword && |password| >= MinPasswordLength
    ensures r == MissingFields <==> username == "" || email == "" || password == "" || confirmPassword == ""
    ensures r == PasswordMismatch <==>
              username != "" && email != "" && password != "" && confirmPassword != ""
              && password != confirmPassword
    ensures r == PasswordTooShort <==>
              username != "" && email != "" && password != "" && confirmPassword != ""
              && password == confirmPassword && |password| < MinPasswordLength
  {
    if username == "" || email == "" || password == "" || confirmPassword == "" then MissingFields
    else if password != confirmPassword then PasswordMismatch
    else if |password| < MinPasswordLength then PasswordTooShort
    else Valid
  }

  /** The alert each failed rule shows. */
  function ValidationAlert(v: Validation): Alert
    requires v != Valid
  {
    if v == MissingFields then Alert("Validation Error", "All fields are required.")
    else if v == PasswordMismatch then Alert("Password Mismatch", "Passwords do not match.")
    else Alert("Password Error", "Password must be at least 6 characters long.")
  }

  const MissingTokensAlert := Alert("Signup Failed", "Missing tokens. Please try again.")
  const SignupErrorAlert := Alert("Signup Error", "An error occurred, please try again.")

  /** What `POST /signup/` settles with: a rejection, or the token fields of `response.data`. */
  datatype SignupReply =
    | SignupRejected(detail: Option<string>)
    | SignupData(accessToken: Option<string>, refreshToken: Option<string>)

  /** Everything `handleSignup` changes or shows; `request` is the body sent, if any. */
  datatype SignupFlow = SignupFlow(
    store: Entries,
    alert: Option<Alert>,
    request: Option<Api.SignupBody>,
    navigateHome: bool)

  function HandleSignupEffect(s: Entries, username: string, email: string, password: string,
                              confirmPassword: string, reply: SignupReply): (r: SignupFlow)
    ensures var v := ValidateForm(username, email, password, confirmPassword);
            && (r.request.None? <==> v != Valid)
            && (v != Valid ==> r.store == s && r.alert == Some(ValidationAlert(v)))
    ensures r.request.Some? ==> r.request == Some(Api.SignupRequest(username, email, password))
    ensures r.navigateHome <==> r.request.Some? && reply.SignupData? && Truthy(reply.accessToken) && Truthy(reply.refreshToken)
    ensures r.navigateHome ==>
              && r.alert == None
              && Get(r.store, "accessToken") == reply.accessToken
              && Get(r.store, "refreshToken") == reply.refreshToken
              && SameExcept(s, r.store, {"accessToken", "refreshToken"})
    ensures !r.navigateHome ==> r.store == s
    ensures r.request.Some? && reply.SignupRejected? ==> r.alert == Some(SignupErrorAlert)
    ensures r.request.Some? && reply.SignupData? && !r.navigateHome ==> r.alert == Some(MissingTokensAlert)
  {
    var v := ValidateForm(username, email, password, confirmPassword);
    if v != Valid then SignupFlow(s, Some(ValidationAlert(v)), None, false)
    else
      var request := Some(Api.SignupRequest(username, email, password));
      match reply
      case SignupRejected(_) => SignupFlow(s, Some(SignupErrorAlert), request, false)
      case SignupData(access, refresh) =>
        if Truthy(access) && Truthy(refresh) then
          SignupFlow(s["accessToken" := access.value]["refreshToken" := refresh.value], None, request, true)
        else SignupFlow(s, Some(MissingTokensAlert), request, false)
  }

  /** A request is sent only for a form that passed the check, so the
      `password_confirm` it carries equals what the user typed as confirmation. */
  lemma SentConfirmationMatchesForm(s: Entries, username: string, email: string, password: string,
                                    confirmPassword: string, reply: SignupReply)
    ensures var r := HandleSignupEffect(s, username, email, password, confirmPassword, reply);
            r.request.Some? ==> r.request.value.passwordConfirm == confirmPassword && |confirmPassword| >= MinPasswordLength
  {
  }

  /** The screen's form fields. */
  class Screen {
    var username: string
    var email: string
    var password: string
    var confirmPassword: string

    constructor ()
      ensures username == "" && email == "" && password == "" && confirmPassword == ""
    {
      username, email, password, confirmPassword := "", "", "", "";
    }

    /** `handleSignup`. */
    method HandleSignup(store: KeyValueStore, reply: SignupReply)
      returns (alert: Option<Alert>, request: Option<Api.SignupBody>, navigateHome: bool)
      modifies store
      ensures var flow := HandleSignupEffect(old(store.entries), username, email, password, confirmPassword, reply);
              store.entries == flow.store && alert == flow.alert && request == flow.request
              && navigateHome == flow.navigateHome
    {
      var v := ValidateForm(username, email, password, confirmPassword);
      if v != Valid {
        alert, request, navigateHome := Some(ValidationAlert(v)), None, false;
        return;
      }
      request := Some(Api.SignupRequest(username, email, password));
      match reply {
        case SignupRejected(_) =>
          alert, navigateHome := Some(SignupErrorAlert), false;
        case SignupData(access, refresh) =>
          if Truthy(access) && Truthy(refresh) {
            store.SetItem("accessToken", access.value);
            store.SetItem("refreshToken", refresh.value);
            alert, navigateHome := None, true;
          } else {
            alert, navigateHome := Some(MissingTokensAlert), false;
          }
      }
    }
  }
}
