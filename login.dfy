/** `screens/LoginScreen.js`: the remembered-credentials preload and
    `handleLogin`, with the backend's reply to `POST /login/` as a parameter. */
module LoginScreen {
  import opened Base
  import opened Storage
  import Api

  const MissingFieldsAlert := Alert("Missing Fields", "Please enter both username and password.")
  const NoTokensAlert := Alert("Login Failed", "Tokens not received, please try again.")

  /** `err.response?.data?.detail || 'Check your username or password'`. */
  function FailureAlert(detail: Option<string>): Alert
  {
    Alert("Oops!", if Truthy(detail) then detail.value else "Check your username or password")
  }

  /** The saved `username` and `password`, when both are present and non-empty. */
  function RememberedCredentials(s: Entries): (r: Option<(string, string)>)
    ensures r.Some? <==> Truthy(Get(s, "username")) && Truthy(Get(s, "password"))
    ensures r.Some? ==> Get(s, "username") == Some(r.value.0) && Get(s, "password") == Some(r.value.1)
  {
    var u := Get(s, "username");
    var p := Get(s, "password");
    if Truthy(u) && Truthy(p) then Some((u.value, p.value)) else None
  }

  /** Everything `handleLogin` changes or shows: the store, the API client's
      default header, the alert, whether `login` was called and whether the
      screen moves on to Home. */
  datatype LoginFlow = LoginFlow(
    store: Entries,
    authorization: Option<string>,
    alert: Option<Alert>,
    loginCalled: bool,
    navigateHome: bool)

  function HandleLoginEffect(s: Entries, authorization: Option<string>, username: string, password: string,
                             rememberMe: bool, reply: Api.LoginReply): (r: LoginFlow)
    // empty fields: no request, nothing written
    ensures !r.loginCalled <==> username == "" || password == ""
    ensures !r.loginCalled ==> r.store == s && r.authorization == authorization && r.alert == Some(MissingFieldsAlert)
    // a truthy access token: stored under both keys, remembered credentials written or cleared
    ensures r.navigateHome <==> r.loginCalled && reply.LoginData? && Truthy(reply.accessToken)
    ensures r.navigateHome ==>
              && r.alert == None
              && Get(r.store, "accessToken") == reply.accessToken
              && Get(r.store, "token") == reply.accessToken
              && (rememberMe ==> Get(r.store, "username") == Some(username) && Get(r.store, "password") == Some(password))
              && (!rememberMe ==> "username" !in r.store && "password" !in r.store)
              && SameExcept(s, r.store, {"token", "accessToken", "username", "password"})
    // an empty token: only api.js's own `token` write happens
    ensures r.loginCalled && reply.LoginData? && reply.accessToken == Some("") ==>
              r.alert == Some(NoTokensAlert) && r.store == s["token" := ""]
    // a rejection or a body without a token: the store is unchanged
    ensures r.loginCalled && (reply.LoginRejected? || reply.accessToken.None?) ==>
              && r.store == s && r.authorization == authorization
              && r.alert == Some(FailureAlert(if reply.LoginRejected? then reply.detail else None))
  {
    if username == "" || password == "" then
      LoginFlow(s, authorization, Some(MissingFieldsAlert), false, false)
    else
      var call := Api.LoginEffect(s, authorization, reply);
      match call.result
      case Err(detail) => LoginFlow(call.store, call.authorization, Some(FailureAlert(detail)), true, false)
      case Ok(token) =>
        if token == "" then
          LoginFlow(call.store, call.authorization, Some(NoTokensAlert), true, false)
        else
          var withToken := call.store["accessToken" := token];
          var remembered :=
            if rememberMe then withToken["username" := username]["password" := password]
            else withToken - {"username"} - {"password"};
          LoginFlow(remembered, call.authorization, None, true, true)
  }

  /** The screen's state cells. */
  class Screen {
    var username: string
    var password: string
    var rememberMe: bool
    var loading: bool

    constructor ()
      ensures username == "" && password == "" && !rememberMe && !loading
    {
      username, password, rememberMe, loading := "", "", false, false;
    }

    /** `checkRememberMe`: prefill the form only when both saved values are truthy. */
    method CheckRememberMe(store: KeyValueStore)
      modifies this`username, this`password, this`rememberMe
      ensures var saved := RememberedCredentials(store.entries);
              if saved.Some? then username == saved.value.0 && password == saved.value.1 && rememberMe
              else username == old(username) && password == old(password) && rememberMe == old(rememberMe)
    {
      var savedUsername := store.GetItem("username");
      var savedPassword := store.GetItem("password");
      if Truthy(savedUsername) && Truthy(savedPassword) {
        username := savedUsername.value;
        password := savedPassword.value;
        rememberMe := true;
      }
    }

    /** `handleLogin`; `loading` is reset in `finally`, so it is false after
        every attempt that got past the field check. */
    method HandleLogin(api: Api.ApiClient, store: KeyValueStore, reply: Api.LoginReply)
      returns (alert: Option<Alert>, navigateHome: bool)
      modifies this`loading, api, store
      ensures var flow := HandleLoginEffect(old(store.entries), old(api.authorization), username, password, rememberMe, reply);
              && store.entries == flow.store && api.authorization == flow.authorization
              && alert == flow.alert && navigateHome == flow.navigateHome
              && loading == (if flow.loginCalled then false else old(loading))
    {
      if username == "" || password == "" {
        alert, navigateHome := Some(MissingFieldsAlert), false;
        return;
      }
      loading := true;
      var result := api.Login(store, reply);
      match result {
        case Err(detail) =>
          alert, navigateHome := Some(FailureAlert(detail)), false;
        case Ok(token) =>
          if token != "" {
            store.SetItem("accessToken", token);
            if rememberMe {
              store.SetItem("username", username);
              store.SetItem("password", password);
            } else {
              store.RemoveItem("username");
              store.RemoveItem("password");
            }
            alert, navigateHome := None, true;
          } else {
            alert, navigateHome := Some(NoTokensAlert), false;
          }
      }
      loading := false;
    }
  }
}
