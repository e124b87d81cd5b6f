/** `src/services/api.js`: the HTTP wrapper's session operations (store
    reads and writes around a backend call whose outcome is a parameter) and
    the request bodies it builds. */
module Api {
  import opened Base
  import opened Storage
  import opened Forms

  // ---------------------------------------------------------------- login

  /** What `POST /login/` settles with: a rejection (with the server's
      `detail`, if any) or the response body's token fields. */
  datatype LoginReply =
    | LoginRejected(detail: Option<string>)
    | LoginData(accessToken: Option<string>, refreshToken: Option<string>)

  /** Effect of `login(username, password)`: the new store, the new default
      `Authorization` header, and the `access_token` of the body it resolves
      with (the only field of it a caller reads). */
  datatype LoginCall = LoginCall(store: Entries, authorization: Option<string>, result: Result<string>)

  /** `login` stores the access token under the key `token` (not
      `accessToken`) and sets the default header; a body without a token
      makes `setItem('token', undefined)` reject, so nothing is written. */
  function LoginEffect(s: Entries, authorization: Option<string>, reply: LoginReply): (r: LoginCall)
    ensures reply.LoginData? && reply.accessToken.Some? ==>
              && r.result == Ok(reply.accessToken.value)
              && Get(r.store, "token") == reply.accessToken
              && SameExcept(s, r.store, {"token"})
              && r.authorization == Some("Bearer " + reply.accessToken.value)
    ensures !(reply.LoginData? && reply.accessToken.Some?) ==>
              r.result.Err? && r.store == s && r.authorization == authorization
    ensures reply.LoginRejected? ==> r.result == Err(reply.detail)
    ensures Get(r.store, "accessToken") == Get(s, "accessToken")
  {
    match reply
    case LoginRejected(detail) => LoginCall(s, authorization, Err(detail))
    case LoginData(None, _) => LoginCall(s, authorization, Err(None))
    case LoginData(Some(token), _) =>
      LoginCall(s["token" := token], Some("Bearer " + token), Ok(token))
  }

  // ---------------------------------------------------------------- logout

  const LogoutFailure := "Failed to logout"

  /** Effect of `logout()`: the new store, whether the server was notified,
      and the error it throws, if any. */
  datatype LogoutCall = LogoutCall(store: Entries, notified: bool, error: Option<string>)

  /** `logout` notifies the server only when the key `refresh_token` holds a
      truthy value and clears `accessToken` and `refreshToken` only when
      nothing before threw; a failed notification leaves the store as it was. */
  function LogoutEffect(s: Entries, serverAccepts: bool): (r: LogoutCall)
    ensures r.notified <==> Truthy(Get(s, "refresh_token"))
    ensures r.error.Some? <==> r.notified && !serverAccepts
    ensures r.error.Some? ==> r.error == Some(LogoutFailure) && r.store == s
    ensures r.error.None? ==>
              && "accessToken" !in r.store && "refreshToken" !in r.store
              && SameExcept(s, r.store, {"accessToken", "refreshToken"})
  {
    var notified := Truthy(Get(s, "refresh_token"));
    if notified && !serverAccepts then LogoutCall(s, true, Some(LogoutFailure))
    else LogoutCall(s - {"accessToken"} - {"refreshToken"}, notified, None)
  }

  // ---------------------------------------------------------------- token refresh

  /** What `POST /token/refresh/` settles with: a rejection or the body's `access`. */
  datatype RefreshReply = RefreshRejected(detail: Option<string>) | RefreshData(access: Option<string>)

  /** Effect of `refreshAccessToken()`: the new store, the `refresh` value
      sent (read from `refreshToken`, sent even when missing), and the result. */
  datatype RefreshCall = RefreshCall(store: Entries, sent: Option<string>, result: Result<string>)

  function RefreshEffect(s: Entries, reply: RefreshReply): (r: RefreshCall)
    ensures r.sent == Get(s, "refreshToken")
    ensures reply.RefreshData? && reply.access.Some? ==>
              && r.result == Ok(reply.access.value)
              && Get(r.store, "accessToken") == reply.access
              && SameExcept(s, r.store, {"accessToken"})
    ensures !(reply.RefreshData? && reply.access.Some?) ==> r.result.Err? && r.store == s
  {
    match reply
    case RefreshRejected(detail) => RefreshCall(s, Get(s, "refreshToken"), Err(detail))
    case RefreshData(None) => RefreshCall(s, Get(s, "refreshToken"), Err(None))
    case RefreshData(Some(token)) =>
      RefreshCall(s["accessToken" := token], Get(s, "refreshToken"), Ok(token))
  }

  /** The module-level `api` instance: only its default `Authorization`
      header is state the core depends on. */
  class ApiClient {
    var authorization: Option<string>

    constructor ()
      ensures authorization == None
    {
      authorization := None;
    }

    /** `login(username, password)`. */
    method Login(store: KeyValueStore, reply: LoginReply) returns (result: Result<string>)
      modifies this, store
      ensures var call := LoginEffect(old(store.entries), old(authorization), reply);
              store.entries == call.store && authorization == call.authorization && result == call.result
    {
      match reply {
        case LoginRejected(detail) =>
          result := Err(detail);
        case LoginData(accessToken, _) =>
          if accessToken.None? {
            result := Err(None);
          } else {
            var token := accessToken.value;
            store.SetItem("token", token);
            authorization := Some("Bearer " + token);
            result := Ok(token);
          }
      }
    }
  }

  /** `logout()`. */
  method Logout(store: KeyValueStore, serverAccepts: bool) returns (notified: bool, error: Option<string>)
    modifies store
    ensures var call := LogoutEffect(old(store.entries), serverAccepts);
            store.entries == call.store && notified == call.notified && error == call.error
  {
    var refreshToken := store.GetItem("refresh_token");
    notified := Truthy(refreshToken);
    if notified && !serverAccepts {
      error := Some(LogoutFailure);
      return;
    }
    store.RemoveItem("accessToken");
    store.RemoveItem("refreshToken");
    error := None;
  }

  /** `refreshAccessToken()`. */
  method RefreshAccessToken(store: KeyValueStore, reply: RefreshReply) returns (sent: Option<string>, result: Result<string>)
    modifies store
    ensures var call := RefreshEffect(old(store.entries), reply);
            store.entries == call.store && sent == call.sent && result == call.result
  {
    sent := store.GetItem("refreshToken");
    match reply {
      case RefreshRejected(detail) =>
        result := Err(detail);
      case RefreshData(access) =>
        if access.None? {
          result := Err(None);
        } else {
          store.SetItem("accessToken", access.value);
          result := Ok(access.value);
        }
    }
  }

  // ---------------------------------------------------------------- request bodies

  /** The `profileData` that `updateProfile(token, profileData)` receives;
      `pictureUri` is the picked image's `uri` when one was picked. */
  datatype ProfileEdit = ProfileEdit(
    username: Option<string>,
    email: Option<string>,
    description: Option<string>,
    pictureUri: Option<string>)

  /** One optional `formData.append(name, value)`. */
  function OptionalPart(name: string, value: Option<FormValue>): (r: Form)
    ensures ValueOf(r, name) == value
    ensures forall n :: n != name ==> ValueOf(r, n) == None
    ensures forall i :: 0 <= i < |r| ==> r[i].name == name
    ensures Names(r) == if value.Some? then [name] else []
  {
    if value.Some? then [FormField(name, value.value)] else []
  }

  /** The three optional parts of a profile update, in the order appended. */
  function ProfileParts(email: Option<FormValue>, description: Option<FormValue>, picture: Option<FormValue>): (r: Form)
    ensures ValueOf(r, "user.email") == email
    ensures ValueOf(r, "description") == description
    ensures ValueOf(r, "picture") == picture
    ensures ValueOf(r, "username") == None
    ensures Names(r) == (if email.Some? then ["user.email"] else [])
                        + (if description.Some? then ["description"] else [])
                        + (if picture.Some? then ["picture"] else [])
  {
    var a := OptionalPart("user.email", email);
    var b := OptionalPart("description", description);
    var c := OptionalPart("picture", picture);
    assert Names(a + b + c) == Names(a) + Names(b) + Names(c) by {
      NamesConcat(a, b);
      NamesConcat(a + b, c);
    }
    assert ValueOf(a + b + c, "user.email") == email by {
      ValueOfConcat(a, b, "user.email");
      ValueOfConcat(a + b, c, "user.email");
    }
    assert ValueOf(a + b + c, "description") == description by {
      ValueOfConcat(a, b, "description");
      ValueOfConcat(a + b, c, "description");
    }
    assert ValueOf(a + b + c, "picture") == picture by {
      ValueOfConcat(a, b, "picture");
      ValueOfConcat(a + b, c, "picture");
    }
    assert ValueOf(a + b + c, "username") == None by {
      ValueOfConcat(a, b, "username");
      ValueOfConcat(a + b, c, "username");
    }
    a + b + c
  }

  /** The `FormData` of `updateProfile`: exactly one `user.email` part and
      one `description` part when those are truthy, one `picture` part (as
      `profile.jpg`, `image/jpeg`) when a picture is given, in that order,
      and never the username. */
  function ProfileUpdateForm(edit: ProfileEdit): (r: Form)
    ensures ValueOf(r, "user.email") == if Truthy(edit.email) then Some(Text(edit.email.value)) else None
    ensures ValueOf(r, "description") == if Truthy(edit.description) then Some(Text(edit.description.value)) else None
    ensures ValueOf(r, "picture") ==
              if edit.pictureUri.Some? then Some(File(edit.pictureUri.value, "profile.jpg", "image/jpeg")) else None
    ensures ValueOf(r, "username") == None
    ensures Names(r) == (if Truthy(edit.email) then ["user.email"] else [])
                        + (if Truthy(edit.description) then ["description"] else [])
                        + (if edit.pictureUri.Some? then ["picture"] else [])
  {
    ProfileParts(if Truthy(edit.email) then Some(Text(edit.email.value)) else None,
                 if Truthy(edit.description) then Some(Text(edit.description.value)) else None,
                 if edit.pictureUri.Some? then Some(File(edit.pictureUri.value, "profile.jpg", "image/jpeg")) else None)
  }

  /** The JSON body of `POST /signup/`. */
  datatype SignupBody = SignupBody(username: string, email: string, password: string, passwordConfirm: string)

  /** `signup(username, email, password)` confirms the password with itself. */
  function SignupRequest(username: string, email: string, password: string): (r: SignupBody)
    ensures r.passwordConfirm == r.password == password
    ensures r.username == username && r.email == email
  {
    SignupBody(username, email, password, password)
  }

  /** `incrementVideoView(videoId)` resolves with the response body, or with
      nothing when the request failed: it never rejects. */
  function IncrementVideoView<T>(reply: Result<T>): (r: Option<T>)
    ensures r.Some? <==> reply.Ok?
    ensures reply.Ok? ==> r == Some(reply.value)
  {
    match reply
    case Ok(body) => Some(body)
    case Err(_) => None
  }
}
