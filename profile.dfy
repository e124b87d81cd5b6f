/** `screens/ProfileScreen.js`: loading the profile and the user's videos,
    deleting an owned video, and the same comment handlers as the feed
    (without its ownership gate on deletion). */
module ProfileScreen {
  import opened Base
  import opened Entities
  import opened Text
  import Seqs
  import opened Storage
  import opened CommentCache
  import Api

  const NoTokenAlert := Alert("Error", "Access token not found. Please login again.")
  const LoadFailedAlert := Alert("Error", "Failed to load profile or videos.")
  const DeletedAlert := Alert("Success", "Video deleted successfully")
  const ForbiddenAlert := Alert("Error", "You are not allowed to delete this video.")
  const DeleteFailedAlert := Alert("Error", "Failed to delete video.")

  function VideoIdIsNot(videoId: int): Video -> bool
  {
    (v: Video) => v.id != videoId
  }

  /** `prevVideos.filter((video) => video.id !== videoId)`: exactly the
      videos with that id are dropped, the others keep their order and count. */
  function RemoveVideo(videos: seq<Video>, videoId: int): (r: seq<Video>)
    ensures Seqs.IsSubsequence(r, videos)
    ensures forall v :: multiset(r)[v] == if v.id == videoId then 0 else multiset(videos)[v]
    ensures forall v :: v in r <==> v in videos && v.id != videoId
  {
    var r := Seqs.Filter(videos, VideoIdIsNot(videoId));
    forall v ensures v in r <==> v in videos && v.id != videoId {
      Seqs.FilterMembership(videos, VideoIdIsNot(videoId), v);
    }
    r
  }

  function UploadedBy(userId: int): Video -> bool
  {
    (v: Video) => v.uploader == userId
  }

  /** The videos rendered with a delete button: `video.uploader === profile.user.id`. */
  function DeletableVideos(videos: seq<Video>, userId: int): (r: seq<Video>)
    ensures Seqs.IsSubsequence(r, videos)
    ensures forall v :: v in r <==> v in videos && v.uploader == userId
    ensures forall v :: multiset(r)[v] == if v.uploader == userId then multiset(videos)[v] else 0
  {
    var r := Seqs.Filter(videos, UploadedBy(userId));
    forall v ensures v in r <==> v in videos && v.uploader == userId {
      Seqs.FilterMembership(videos, UploadedBy(userId), v);
    }
    r
  }

  /** How `DELETE /profile/videos/{id}/` settles: no response at all, or an HTTP status. */
  datatype DeleteReply = NoResponse | Status(code: int)

  /** axios resolves for a 2xx status and rejects for any other. */
  predicate Resolves(reply: DeleteReply)
  {
    reply.Status? && 200 <= reply.code < 300
  }

  /** What `handleDeleteVideo` ends with: the new `userVideos`, the alert, and
      whether the request was sent. */
  datatype DeleteVideoFlow = DeleteVideoFlow(videos: seq<Video>, alert: Option<Alert>, requested: bool)

  function DeleteVideoEffect(videos: seq<Video>, token: Option<string>, videoId: int, reply: DeleteReply): (r: DeleteVideoFlow)
    ensures r.requested <==> Truthy(token)
    ensures !r.requested ==> r.videos == videos && r.alert == Some(NoTokenAlert)
    ensures r.requested && reply == Status(204) ==> r.videos == RemoveVideo(videos, videoId) && r.alert == Some(DeletedAlert)
    ensures reply != Status(204) ==> r.videos == videos
    ensures r.requested && Resolves(reply) && reply.code != 204 ==> r.alert == None
    ensures r.requested && reply == Status(403) ==> r.alert == Some(ForbiddenAlert)
    ensures r.requested && !Resolves(reply) && reply != Status(403) ==> r.alert == Some(DeleteFailedAlert)
  {
    if !Truthy(token) then DeleteVideoFlow(videos, Some(NoTokenAlert), false)
    else if Resolves(reply) then
      if reply.code == 204 then DeleteVideoFlow(RemoveVideo(videos, videoId), Some(DeletedAlert), true)
      else DeleteVideoFlow(videos, None, true)
    else if reply.Status? && reply.code == 403 then DeleteVideoFlow(videos, Some(ForbiddenAlert), true)
    else DeleteVideoFlow(videos, Some(DeleteFailedAlert), true)
  }

  const LoggedOutAlert := Alert("Success", "You have logged out successfully.")

  /** `error.message || 'There was an issue logging out.'`. */
  function LogoutErrorAlert(message: string): Alert
  {
    Alert("Error", if message != "" then message else "There was an issue logging out.")
  }

  /** `ProfileScreen`'s state cells. */
  class Screen {
    var profile: Option<Profile>
    var loading: bool
    var userVideos: seq<Video>
    var comments: Cache
    var showComments: map<int, bool>

    constructor ()
      ensures profile == None && loading && userVideos == [] && comments == map[] && showComments == map[]
    {
      profile, loading, userVideos := None, true, [];
      comments, showComments := map[], map[];
    }

    /** The videos shown with a delete button (nothing is rendered before a profile is loaded). */
    function DeleteButtons(): seq<Video>
      reads this
    {
      if profile.Some? then DeletableVideos(userVideos, profile.value.user.id) else []
    }

    /** `fetchProfile`: both requests must succeed for either cell to be set.
        Without a token it returns before the `try`, so `loading` stays as it was. */
    method FetchProfile(store: KeyValueStore, profileReply: Option<Profile>, videosReply: Option<seq<Video>>)
      returns (alert: Option<Alert>, requested: bool)
      modifies this`profile, this`userVideos, this`loading
      ensures requested <==> Truthy(store.GetItem("accessToken"))
      ensures !requested ==>
                alert == Some(NoTokenAlert) && profile == old(profile) && userVideos == old(userVideos) && loading == old(loading)
      ensures requested ==> !loading
      ensures requested && profileReply.Some? && videosReply.Some? ==>
                profile == profileReply && userVideos == videosReply.value && alert == None
      ensures requested && (profileReply.None? || videosReply.None?) ==>
                profile == old(profile) && userVideos == old(userVideos) && alert == Some(LoadFailedAlert)
    {
      var accessToken := store.GetItem("accessToken");
      requested := Truthy(accessToken);
      if !requested {
        alert := Some(NoTokenAlert);
        return;
      }
      if profileReply.Some? && videosReply.Some? {
        profile := profileReply;
        userVideos := videosReply.value;
        alert := None;
      } else {
        alert := Some(LoadFailedAlert);
      }
      loading := false;
    }

    /** `handleAddComment`: the same optimistic, never rolled back append as the feed's. */
    method HandleAddComment(videoId: int, content: string, newId: int, createdAt: string, postSucceeds: bool)
      returns (posted: bool)
      modifies this`comments
      ensures posted <==> !IsBlank(content) && profile.Some?
      ensures posted ==> comments == Append(old(comments), videoId, OptimisticComment(newId, content, profile.value, createdAt))
      ensures !posted ==> comments == old(comments)
    {
      if IsBlank(content) || profile.None? {
        return false;
      }
      comments := Append(comments, videoId, OptimisticComment(newId, content, profile.value, createdAt));
      // `postComment` runs now; `postSucceeds` only decides whether an error is logged
      posted := true;
    }

    /** `handleDeleteComment`: no ownership check here; the server is always
        asked, and only a success removes the id, from that video's thread
        only. For a thread that was never loaded the state updater would
        throw; the model leaves `comments` unchanged there. That case cannot
        arise from the page, which renders a comment's delete button only
        inside a loaded thread. */
    method HandleDeleteComment(commentId: int, videoId: int, deleteSucceeds: bool) returns (requested: bool)
      modifies this`comments
      ensures requested
      ensures comments ==
                if deleteSucceeds && videoId in old(comments)
                then old(comments)[videoId := Remove(old(comments)[videoId], commentId)]
                else old(comments)
    {
      requested := true;
      if deleteSucceeds && videoId in comments {
        comments := comments[videoId := Remove(comments[videoId], commentId)];
      }
    }

    /** `toggleComments`: as on the feed. */
    method ToggleComments(videoId: int, reply: Option<seq<Comment>>) returns (fetched: bool)
      modifies this`showComments, this`comments
      ensures showComments == Toggle(old(showComments), videoId)
      ensures fetched <==> NeedsFetch(old(comments), videoId)
      ensures comments == if fetched then StoreFetched(old(comments), videoId, reply) else old(comments)
    {
      showComments := Toggle(showComments, videoId);
      fetched := NeedsFetch(comments, videoId);
      if fetched {
        comments := StoreFetched(comments, videoId, reply);
      }
    }

    /** `handleLogout`: with a stored access token it posts the logout time,
        then runs `logout()`; only when both settle without error does it
        report success and go to Login. `logoutTimeError` is the message of
        the first request's error, if it failed. */
    method HandleLogout(store: KeyValueStore, logoutTimeError: Option<string>, serverAccepts: bool)
      returns (alert: Alert, navigateLogin: bool)
      modifies store
      ensures !Truthy(old(store.GetItem("accessToken"))) ==>
                store.entries == old(store.entries) && alert == NoTokenAlert && !navigateLogin
      ensures Truthy(old(store.GetItem("accessToken"))) && logoutTimeError.Some? ==>
                store.entries == old(store.entries) && alert == LogoutErrorAlert(logoutTimeError.value) && !navigateLogin
      ensures Truthy(old(store.GetItem("accessToken"))) && logoutTimeError.None? ==>
                var call := Api.LogoutEffect(old(store.entries), serverAccepts);
                && store.entries == call.store
                && navigateLogin == call.error.None?
                && alert == if call.error.None? then LoggedOutAlert else LogoutErrorAlert(call.error.value)
    {
      var accessToken := store.GetItem("accessToken");
      if !Truthy(accessToken) {
        return NoTokenAlert, false;
      }
      if logoutTimeError.Some? {
        return LogoutErrorAlert(logoutTimeError.value), false;
      }
      var notified, error := Api.Logout(store, serverAccepts);
      if error.Some? {
        return LogoutErrorAlert(error.value), false;
      }
      alert, navigateLogin := LoggedOutAlert, true;
    }

    /** `handleDeleteVideo`. */
    method HandleDeleteVideo(store: KeyValueStore, videoId: int, reply: DeleteReply)
      returns (alert: Option<Alert>, requested: bool)
      modifies this`userVideos
      ensures var flow := DeleteVideoEffect(old(userVideos), store.GetItem("accessToken"), videoId, reply);
              userVideos == flow.videos && alert == flow.alert && requested == flow.requested
    {
      var accessToken := store.GetItem("accessToken");
      if !Truthy(accessToken) {
        return Some(NoTokenAlert), false;
      }
      requested := true;
      match reply {
        case Status(code) =>
          if 200 <= code < 300 {
            if code == 204 {
              alert := Some(DeletedAlert);
              userVideos := RemoveVideo(userVideos, videoId);
            } else {
              alert := None;
            }
          } else if code == 403 {
            alert := Some(ForbiddenAlert);
          } else {
            alert := Some(DeleteFailedAlert);
          }
        case NoResponse =>
          alert := Some(DeleteFailedAlert);
      }
    }
  }
}
