/** The session as the token store sees it across screens: every way the
    client writes the store, applied in any order. The client writes the
    refresh token under `refreshToken` but `logout()` looks it up under
    `refresh_token`. So, starting from a store without `refresh_token`,
    `logout()` never sends a refresh token to the server and never throws,
    and its local clearing of both tokens always happens. (The profile
    page's own logout-time post is a separate request that can still fail.) */
module Session {
  import opened Base
  import opened Storage
  import Api
  import LoginScreen
  import SignupScreen

  /** One store-changing user action, with the backend's reply. */
  datatype Event =
    | LoginAttempt(username: string, password: string, rememberMe: bool, reply: Api.LoginReply)
    | SignupAttempt(username: string, email: string, password: string, confirmPassword: string,
                    signupReply: SignupScreen.SignupReply)
    | RefreshAttempt(refreshReply: Api.RefreshReply)
    | LogoutAttempt(serverAccepts: bool)

  function Apply(s: Entries, e: Event): Entries
  {
    match e
    case LoginAttempt(u, p, remember, reply) =>
      LoginScreen.HandleLoginEffect(s, None, u, p, remember, reply).store
    case SignupAttempt(u, m, p, c, reply) =>
      SignupScreen.HandleSignupEffect(s, u, m, p, c, reply).store
    case RefreshAttempt(reply) => Api.RefreshEffect(s, reply).store
    case LogoutAttempt(ok) => Api.LogoutEffect(s, ok).store
  }

  function Replay(s: Entries, events: seq<Event>): Entries
    decreases |events|
  {
    if events == [] then s else Replay(Apply(s, events[0]), events[1..])
  }

  /** No action writes or removes the key `refresh_token`. */
  lemma ApplyKeepsRefreshUnderscore(s: Entries, e: Event)
    ensures Get(Apply(s, e), "refresh_token") == Get(s, "refresh_token")
  {
  }

  lemma {:induction false} ReplayKeepsRefreshUnderscore(s: Entries, events: seq<Event>)
    ensures Get(Replay(s, events), "refresh_token") == Get(s, "refresh_token")
    decreases |events|
  {
    if events != [] {
      ApplyKeepsRefreshUnderscore(s, events[0]);
      ReplayKeepsRefreshUnderscore(Apply(s, events[0]), events[1..]);
    }
  }

  /** Starting from a store without `refresh_token` (a fresh install), after
      any history `logout` does not contact the server, does not fail, and
      removes both tokens, whatever the server would have answered. */
  lemma {:induction false} LogoutNeverNotifies(s: Entries, events: seq<Event>, serverAccepts: bool)
    requires "refresh_token" !in s
    ensures var call := Api.LogoutEffect(Replay(s, events), serverAccepts);
            && !call.notified && call.error.None?
            && "accessToken" !in call.store && "refreshToken" !in call.store
  {
    ReplayKeepsRefreshUnderscore(s, events);
  }

  /** A signup that stores its tokens, followed by a logout, leaves neither token behind. */
  lemma SignupThenLogoutClears(s: Entries, u: string, m: string, p: string, c: string,
                               reply: SignupScreen.SignupReply, serverAccepts: bool)
    requires "refresh_token" !in s
    ensures var after := Replay(s, [SignupAttempt(u, m, p, c, reply), LogoutAttempt(serverAccepts)]);
            "accessToken" !in after && "refreshToken" !in after
  {
    var signup := SignupAttempt(u, m, p, c, reply);
    var mid := Apply(s, signup);
    ApplyKeepsRefreshUnderscore(s, signup);
    assert Replay(s, [signup, LogoutAttempt(serverAccepts)]) == Replay(mid, [LogoutAttempt(serverAccepts)]);
    assert Replay(mid, [LogoutAttempt(serverAccepts)]) == Apply(mid, LogoutAttempt(serverAccepts));
  }
}
