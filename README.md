# LearnIT client core in Dafny

LearnIT is a small video-sharing app. Its React Native client has a feed, a
profile page, login, signup and upload screens, plus a thin HTTP wrapper,
`api.js`. This project models the decision logic of those pieces and proves
properties about it:

- the feed's search and category filter;
- the per-video comment cache that the feed and the profile page keep;
- the view-once player;
- deleting one's own videos;
- the session tokens kept in the device's key-value store;
- the upload and profile-update payloads.

Each screen's state cells are fields of a Dafny `class`. Each handler is a
`method` that changes exactly those cells and, where it writes the
key-value store, a `KeyValueStore` object. A handler that changes
several things is specified by a pure `…Effect` function. The method's
postcondition states that its new state equals what that function computes
from the old state. The function's own postconditions state what the
source promises: which keys change, which stay, and which alert appears.

Every backend outcome is a parameter of the operation that awaits it:

- a reply datatype, or an `Option` that is `None` when the request rejected;
- a `bool` saying whether a request that returns nothing useful succeeded.

An `Alert.alert` call becomes a returned `Alert` value. Navigation becomes
a returned `navigateHome` / `navigateLogin` flag.

Modules:

- `Base`: `Option`, `Result`, `Alert` and JavaScript truthiness of an
  optional string.
- `Text`: `toLowerCase`, `includes` and `trim`.
- `Seqs`: `Array.prototype.filter`.
- `Entities`: the records the backend returns.
- `Storage`: AsyncStorage as a class over a `map<string, string>`.
- `Forms`: `FormData`.
- `CommentCache`: the comment map logic that both screens contain.
- `Player`: `VideoPlayer`.
- `Api`, `HomeScreen`, `ProfileScreen`, `LoginScreen`, `SignupScreen` and
  `UploadScreen`: one module per source file.
- `Session`: lemmas about any sequence of store-changing actions across
  screens.

Where the code differs from what its comments or the app's apparent design
suggest, the model follows the code:

- `login` in `api.js` stores the token under the key `token`. The login
  screen then stores it again under `accessToken`.
- `logout()` in `api.js` looks the refresh token up under `refresh_token`.
  Nothing ever writes that key; signup writes `refreshToken`. So on every
  store reached from one without `refresh_token`, `logout()` never sends a
  refresh token to the server, never throws, and clears both tokens
  locally. `Session.LogoutNeverNotifies` proves this.
- The only logout request the server then receives is the profile page's
  own `logout_time` post, which `handleLogout` sends before it calls
  `logout()`. When that post fails, both tokens stay in the store.
- `ProfileScreen`'s `fetchProfile` returns before its `try`/`finally` when
  there is no access token. Its spinner flag `loading` therefore stays set
  in that case.
- `ProfileScreen`'s `handleDeleteComment` has no ownership check. The feed's
  `handleDeleteComment` has one.

## Model

| member | source | states |
|---|---|---|
| Text.IncludesIffOccurs | learnITApp/screens/HomeScreen.js:181-183 | `includes` is true exactly when the needle occurs at some index of the haystack |
| Text.BlankIffAllWhitespace | learnITApp/screens/HomeScreen.js:125 | `!content.trim()` holds exactly when every character is ECMAScript white space or a line terminator, including for the empty string |
| Seqs.Filter | learnITApp/screens/HomeScreen.js:178-186 | the result of `filter` is a subsequence of the input; every kept element passes the test; each element occurs as often as in the input if it passes and not at all otherwise |
| HomeScreen.FilteredVideos | learnITApp/screens/HomeScreen.js:178-186 | the displayed feed is the matching videos, in feed order, each with its feed multiplicity |
| HomeScreen.VideoMatchesIff | learnITApp/screens/HomeScreen.js:179-185 | a video matches iff the lower-cased query occurs in its lower-cased title, uploader name or description, and the selected category is null, empty or equal to the video's |
| HomeScreen.DisplayedIffMatches | learnITApp/screens/HomeScreen.js:178-186 | a video is displayed iff it is in the feed and matches |
| HomeScreen.EmptySearchShowsAll | learnITApp/screens/HomeScreen.js:178-186 | an empty query with no category displays the whole feed unchanged |
| HomeScreen.FilterIdempotent | learnITApp/screens/HomeScreen.js:178-186 | filtering the displayed list again displays the same list |
| HomeScreen.FilterIgnoresQueryCase | learnITApp/screens/HomeScreen.js:179-183 | queries with equal lower-case forms display the same list |
| HomeScreen.LowerCasedQueryShowsSame | learnITApp/screens/HomeScreen.js:179-183 | searching with the lower-cased query displays the same list as the query as typed |
| HomeScreen.VideoList.constructor | learnITApp/screens/HomeScreen.js:75-82 | the feed starts empty, with no query, no category, no comments and no profile |
| HomeScreen.VideoList.FetchData | learnITApp/screens/HomeScreen.js:84-92 | a successful fetch replaces the feed; a failed one keeps it and alerts "Failed to load videos" |
| HomeScreen.VideoList.Refresh | learnITApp/screens/HomeScreen.js:321-325 | the refresh button clears query and category, reloads the feed, and the whole feed is then displayed |
| HomeScreen.VideoList.FetchProfile | learnITApp/screens/HomeScreen.js:98-122 | a request is made iff a truthy access token is stored; the profile is set only from a successful reply |
| HomeScreen.VideoList.HandleAddComment | learnITApp/screens/HomeScreen.js:124-145 | blank content, or no loaded profile, changes nothing; otherwise the optimistic comment is appended to the thread before posting and is kept whatever the post does |
| HomeScreen.VideoList.HandleDeleteComment | learnITApp/screens/HomeScreen.js:147-163 | the server is asked iff the first cached comment with that id (the one `find` returns) was written by the logged-in user; the thread loses that id only when the server agreed |
| HomeScreen.VideoList.ToggleComments | learnITApp/screens/HomeScreen.js:165-176 | visibility is always flipped; the thread is fetched iff none is cached, and stored only from a successful reply |
| CommentCache.Append | learnITApp/screens/HomeScreen.js:135-138 | the thread (empty if absent) gains the comment at its end, keeping its prefix; every other thread is unchanged |
| CommentCache.OptimisticComment | learnITApp/screens/HomeScreen.js:127-133 | the optimistic comment carries the typed content and the logged-in user's name |
| CommentCache.Remove | learnITApp/screens/HomeScreen.js:153-156 | the new thread is a subsequence of the old, holds no comment with the id, and keeps every other comment exactly as often as the old thread held it |
| CommentCache.RemoveUndoesAppend | learnITApp/screens/HomeScreen.js:135-156 | deleting a freshly appended comment whose id is new restores the thread as it was |
| CommentCache.Find | learnITApp/screens/HomeScreen.js:148 | `find` returns nothing iff no comment has the id, and otherwise the first comment of the thread with that id |
| CommentCache.Toggle | learnITApp/screens/HomeScreen.js:166 | the video's visibility flips (absent counts as hidden) and no other video's entry changes |
| CommentCache.ToggleTwice | learnITApp/screens/HomeScreen.js:166 | toggling twice restores every video's visibility |
| CommentCache.StoreFetched | learnITApp/screens/HomeScreen.js:167-174 | a successful fetch stores the reply as the thread; a failed one changes nothing; other threads are unchanged |
| Player.VideoPlayer.constructor | learnITApp/screens/HomeScreen.js:34-36 | a new player has not viewed and has made no view request |
| Player.VideoPlayer.HandlePlaybackStatusUpdate | learnITApp/screens/HomeScreen.js:38-43 | a request is made iff the status is playing and the player had not viewed; at most one request is ever made per player |
| Player.RequestOnFirstPlaying | learnITApp/screens/HomeScreen.js:38-43 | in a status sequence, a request happens at position i iff the player had not viewed, status i is playing, and no earlier status was |
| Player.AtMostOneRequest | learnITApp/screens/HomeScreen.js:38-43 | no two positions of a status sequence both request a view |
| Player.RequestIffEverPlaying | learnITApp/screens/ProfileScreen.js:27-32 | some request is made iff the player had not viewed and some status is playing |
| ProfileScreen.RemoveVideo | learnITApp/screens/ProfileScreen.js:151 | exactly the videos with the deleted id disappear; the rest keep their order and multiplicity |
| ProfileScreen.DeletableVideos | learnITApp/screens/ProfileScreen.js:270 | the videos shown with a delete button are exactly those the logged-in user uploaded, in list order and with their multiplicity |
| ProfileScreen.DeleteVideoEffect | learnITApp/screens/ProfileScreen.js:137-161 | no token: no request and a login alert; only status 204 removes the video, with a success alert; 403 gives the not-allowed alert; any other failure gives the generic alert; other 2xx changes nothing silently |
| ProfileScreen.Screen.constructor | learnITApp/screens/ProfileScreen.js:51-55 | the page starts loading, with no profile, videos or comments |
| ProfileScreen.Screen.FetchProfile | learnITApp/screens/ProfileScreen.js:58-84 | profile and videos are set only when both requests succeed; a failure alerts and keeps both; no token gives an alert, no request, and leaves `loading` as it was; after a request `loading` is false |
| ProfileScreen.Screen.HandleAddComment | learnITApp/screens/ProfileScreen.js:89-110 | as on the feed: non-blank content with a loaded profile appends the optimistic comment, otherwise nothing changes |
| ProfileScreen.Screen.HandleDeleteComment | learnITApp/screens/ProfileScreen.js:112-122 | with no ownership check, the server is always asked, and the comment id is removed from a cached thread iff the server agreed |
| ProfileScreen.Screen.ToggleComments | learnITApp/screens/ProfileScreen.js:124-135 | visibility flips; a thread is fetched iff not cached |
| ProfileScreen.Screen.HandleDeleteVideo | learnITApp/screens/ProfileScreen.js:137-161 | the user's videos and the alert are those that `DeleteVideoEffect` gives for the stored token |
| ProfileScreen.Screen.HandleLogout | learnITApp/screens/ProfileScreen.js:177-200 | no token: alert and store unchanged; a failed logout-time post: its message alerted and store unchanged; otherwise the store is what `logout` leaves, and Login follows iff it did not throw |
| LoginScreen.RememberedCredentials | learnITApp/screens/LoginScreen.js:24-31 | saved credentials exist iff both saved values are non-empty, and they are those values |
| LoginScreen.Screen.constructor | learnITApp/screens/LoginScreen.js:17-21 | the form starts empty, not remembered, not loading |
| LoginScreen.Screen.CheckRememberMe | learnITApp/screens/LoginScreen.js:24-31 | the form is prefilled and remember-me set iff both saved values are non-empty; otherwise it is untouched |
| LoginScreen.HandleLoginEffect | learnITApp/screens/LoginScreen.js:36-66 | empty fields: no request and store unchanged; navigation iff the reply carries a non-empty access token, which is then stored under `token` and `accessToken`, with credentials saved or removed by remember-me and no other key touched; an empty token leaves only `token` written; a rejection or a missing token leaves the store unchanged and alerts the server's detail or the default message |
| LoginScreen.Screen.HandleLogin | learnITApp/screens/LoginScreen.js:36-66 | store, default header, alert and navigation are those of `HandleLoginEffect`; `loading` is false after every attempt that sent a request |
| SignupScreen.ValidateForm | learnITApp/screens/SignupScreen.js:16-30 | the first broken rule in the order fields, match, length is reported, and valid iff all fields are filled, the passwords are equal and at least 6 long |
| SignupScreen.HandleSignupEffect | learnITApp/screens/SignupScreen.js:32-55 | a request is sent iff the form is valid; navigation iff both tokens are truthy, which are then stored with nothing else touched; in every other case the store is unchanged and the matching alert appears |
| SignupScreen.SentConfirmationMatchesForm | learnITApp/screens/SignupScreen.js:32-37 | a sent request's `password_confirm` equals what the user typed as confirmation and is at least 6 long |
| SignupScreen.Screen.constructor | learnITApp/screens/SignupScreen.js:8-11 | the form starts empty |
| SignupScreen.Screen.HandleSignup | learnITApp/screens/SignupScreen.js:32-55 | store, alert, request and navigation are those of `HandleSignupEffect` |
| UploadScreen.AcceptAsset | learnITApp/screens/UploadScreen.js:60-73 | an asset is refused iff its size is known and above 50 MiB; the file keeps its URI, and a missing or empty name or type falls back to `video.mp4` / `video/mp4` |
| UploadScreen.PickVideoEffect | learnITApp/screens/UploadScreen.js:40-78 | exactly one of an error and a file results; a file iff a non-cancelled pick returned an acceptable first asset; each failure sets its own message |
| UploadScreen.UploadForm | learnITApp/screens/UploadScreen.js:97-105 | the payload has exactly the parts title, description, category and video, in that order, carrying the screen's values |
| UploadScreen.HandleUploadEffect | learnITApp/screens/UploadScreen.js:80-122 | incomplete fields: nothing starts; no token: not-authenticated error and nothing sent; otherwise the payload is sent, and Home follows iff the reply's status is 200; otherwise the matching error is set |
| UploadScreen.Screen.constructor | learnITApp/screens/UploadScreen.js:22-28 | the form starts empty, with the first category selected |
| UploadScreen.Screen.PickVideo | learnITApp/screens/UploadScreen.js:40-78 | a success sets file and preview and keeps an earlier error; a failure sets only the error |
| UploadScreen.Screen.HandleUpload | learnITApp/screens/UploadScreen.js:80-122 | error, payload and navigation are those of `HandleUploadEffect`; `uploading` is false again whenever the field check passed |
| Api.LoginEffect | learnITApp/src/services/api.js:15-30 | a reply with an access token stores it under `token` only and sets the `Bearer` header; any other outcome rejects with the store and header unchanged; `accessToken` is never touched |
| Api.ApiClient.Login | learnITApp/src/services/api.js:15-30 | store, header and result are those of `LoginEffect` |
| Api.LogoutEffect | learnITApp/src/services/api.js:32-45 | the server is notified iff `refresh_token` holds a truthy value; it throws "Failed to logout" iff that notification fails, and then the store is unchanged; otherwise exactly `accessToken` and `refreshToken` are removed |
| Api.Logout | learnITApp/src/services/api.js:32-45 | store, notification and error are those of `LogoutEffect` |
| Api.RefreshEffect | learnITApp/src/services/api.js:81-94 | the value sent is whatever `refreshToken` holds; a reply with `access` stores it under `accessToken` only; any other outcome rejects with the store unchanged |
| Api.RefreshAccessToken | learnITApp/src/services/api.js:81-94 | store, value sent and result are those of `RefreshEffect` |
| Api.ProfileUpdateForm | learnITApp/src/services/api.js:98-110 | the form's parts are exactly `user.email` if truthy, `description` if truthy and `picture` if given, once each and in that order, carrying the edit's values (the picture as `profile.jpg`/`image/jpeg`), and never the username |
| Api.SignupRequest | learnITApp/src/services/api.js:126-133 | the signup body confirms the password with itself and carries the given username and email |
| Api.IncrementVideoView | learnITApp/src/services/api.js:141-148 | the call resolves with the body iff the request succeeded, and with nothing otherwise; it never rejects |
| Forms.ValueOf | learnITApp/src/services/api.js:98-110 | nothing iff no part has the name; otherwise the value of the first part appended under it |
| Forms.ValueOfConcat | learnITApp/src/services/api.js:98-110 | looking a name up in two concatenated forms finds it in the first if there, else in the second |
| Session.ReplayKeepsRefreshUnderscore | learnITApp/src/services/api.js:34 | no sequence of logins, signups, refreshes and logouts writes or removes the key `refresh_token` |
| Session.LogoutNeverNotifies | learnITApp/src/services/api.js:32-45 | from a store without `refresh_token`, after any history, `logout` does not contact the server, does not throw, and removes both tokens |
| Session.SignupThenLogoutClears | learnITApp/screens/SignupScreen.js:44-46 | a signup followed by a logout leaves neither token in the store |

## Left out

- Rendering, styles, modals and the navigation stack are not modelled. The model returns navigation as flags.
- HTTP, axios and `Promise.all` are not modelled; each awaited outcome is a parameter. `fetchProfile` on the profile page takes both replies jointly: both must succeed.
- React's asynchronous state setters and stale closures are not modelled. A handler reads the state as it was when it started and writes its result at once.
- `Date.now()` ids and `toISOString()` timestamps are opaque parameters. Relative-date formatting (`formatRelativeTime`) is display only.
- `uploadVideo`, `getVideos`, `getProfile`, `fetchUserVideos`, `deleteOwnVideo`, `getComments`, `postComment` and `deleteComment` are not modelled beyond the outcome each call settles with; their URLs and headers are plain request construction. As written, `uploadVideo` builds its `Authorization` header from an `accessToken` that is not in scope (api.js:206), so every upload rejects and the status-200 branch of `handleUpload` is unreachable; the model keeps the resolved case so that the handler's own logic is stated.
- The media-library permission dialog and the image picker are modelled only by the `PickReply` they settle with.
- `editProfileScreen.js`, `VideoScreen.js`, `App.js`, `videoService.js`, `profileService.js` and `signals.py` are not part of this model.
- `console.log` / `console.error` output is not modelled.
- AsyncStorage writes that fail for reasons other than an undefined value are not modelled. `setItem` with an undefined value is modelled as rejecting before anything is written; this is why `login` and `refreshAccessToken` leave the store unchanged for a body without a token.
- `HomeScreen.js` uses `Alert.alert` without importing `Alert`. The model returns no alert value for the feed's profile load, whose only observable effect is that the profile stays unset.
- The feed's upload button and its own token check are navigation only.
- Text.Lower: lower-cases ASCII letters only, because `toLowerCase`'s full Unicode case mapping is not modelled.
- SignupScreen.ValidateForm: counts the password's length in Unicode code points, where JavaScript counts UTF-16 code units; the two differ only for characters outside the Basic Multilingual Plane.
