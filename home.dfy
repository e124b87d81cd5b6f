/** `screens/HomeScreen.js`: the feed filter and the `VideoList` handlers
    (loading the feed and the profile, adding, deleting and toggling
    comments, the refresh button), with every backend outcome as a parameter. */
module HomeScreen {
  import opened Base
  import opened Entities
  import opened Text
  import Seqs
  import Storage
  import opened CommentCache

  /** The lower-cased query is included in the lower-cased title, uploader name or description. */
  predicate SearchMatches(v: Video, query: string)
  {
    var term := Lower(query);
    Includes(Lower(v.title), term) || Includes(Lower(v.uploaderUsername), term) || Includes(Lower(v.description), term)
  }

  /** `selectedCategory ? video.category === selectedCategory : true`. */
  predicate CategoryMatches(v: Video, selected: Option<string>)
  {
    Truthy(selected) ==> v.category == selected.value
  }

  predicate VideoMatches(v: Video, query: string, selected: Option<string>)
  {
    SearchMatches(v, query) && CategoryMatches(v, selected)
  }

  /** The callback passed to `videos.filter`. */
  function MatchTest(query: string, selected: Option<string>): Video -> bool
  {
    v => VideoMatches(v, query, selected)
  }

  /** `filteredVideos`: the videos that match, in feed order, each as often as in the feed. */
  function FilteredVideos(videos: seq<Video>, query: string, selected: Option<string>): (r: seq<Video>)
    ensures Seqs.IsSubsequence(r, videos)
    ensures forall v :: v in r ==> VideoMatches(v, query, selected)
    ensures forall v :: multiset(r)[v] == if VideoMatches(v, query, selected) then multiset(videos)[v] else 0
  {
    Seqs.Filter(videos, MatchTest(query, selected))
  }

  /** What a match means, with substring occurrence spelled out. */
  lemma VideoMatchesIff(v: Video, query: string, selected: Option<string>)
    ensures VideoMatches(v, query, selected) <==>
              && (|| (exists i :: OccursAt(Lower(v.title), Lower(query), i))
                  || (exists i :: OccursAt(Lower(v.uploaderUsername), Lower(query), i))
                  || (exists i :: OccursAt(Lower(v.description), Lower(query), i)))
              && (selected.None? || selected.value == "" || v.category == selected.value)
  {
    IncludesIffOccurs(Lower(v.title), Lower(query));
    IncludesIffOccurs(Lower(v.uploaderUsername), Lower(query));
    IncludesIffOccurs(Lower(v.description), Lower(query));
  }

  /** A feed video is displayed exactly when it matches. */
  lemma DisplayedIffMatches(videos: seq<Video>, query: string, selected: Option<string>, v: Video)
    ensures v in FilteredVideos(videos, query, selected) <==> v in videos && VideoMatches(v, query, selected)
  {
    Seqs.FilterMembership(videos, MatchTest(query, selected), v);
  }

  /** An empty query and no category display the whole feed. */
  lemma EmptySearchShowsAll(videos: seq<Video>)
    ensures FilteredVideos(videos, "", None) == videos
  {
    forall v | v in videos ensures MatchTest("", None)(v) {
      IncludesEmpty(Lower(v.title));
    }
    Seqs.FilterKeepsAll(videos, MatchTest("", None));
  }

  /** Filtering the filtered list again changes nothing. */
  lemma FilterIdempotent(videos: seq<Video>, query: string, selected: Option<string>)
    ensures FilteredVideos(FilteredVideos(videos, query, selected), query, selected) == FilteredVideos(videos, query, selected)
  {
    Seqs.FilterIdempotent(videos, MatchTest(query, selected));
  }

  /** Queries that differ only in letter case display the same videos. */
  lemma FilterIgnoresQueryCase(videos: seq<Video>, q1: string, q2: string, selected: Option<string>)
    requires Lower(q1) == Lower(q2)
    ensures FilteredVideos(videos, q1, selected) == FilteredVideos(videos, q2, selected)
  {
    Seqs.FilterSameTest(videos, MatchTest(q1, selected), MatchTest(q2, selected));
  }

  /** Typing the query in lower case displays the same list as typing it in any case. */
  lemma LowerCasedQueryShowsSame(videos: seq<Video>, query: string, selected: Option<string>)
    ensures FilteredVideos(videos, Lower(query), selected) == FilteredVideos(videos, query, selected)
  {
    LowerIdempotent(query);
    FilterIgnoresQueryCase(videos, Lower(query), query, selected);
  }

  /** `VideoList`'s state cells. */
  class VideoList {
    var videos: seq<Video>
    var searchQuery: string
    var selectedCategory: Option<string>
    var comments: Cache
    var showComments: map<int, bool>
    var profile: Option<Profile>

    constructor ()
      ensures videos == [] && searchQuery == "" && selectedCategory == None
      ensures comments == map[] && showComments == map[] && profile == None
    {
      videos, searchQuery, selectedCategory := [], "", None;
      comments, showComments, profile := map[], map[], None;
    }

    /** The list the `FlatList` renders. */
    function Displayed(): seq<Video>
      reads this
    {
      FilteredVideos(videos, searchQuery, selectedCategory)
    }

    /** `fetchData`: replace the feed wholesale, or keep it and alert. */
    method FetchData(reply: Option<seq<Video>>) returns (alert: Option<string>)
      modifies this`videos
      ensures videos == if reply.Some? then reply.value else old(videos)
      ensures alert == if reply.Some? then None else Some("Failed to load videos")
    {
      if reply.Some? {
        videos := reply.value;
        alert := None;
      } else {
        alert := Some("Failed to load videos");
      }
    }

    /** The refresh button: clear the query and the category, then `fetchData`;
        afterwards the whole feed is displayed. */
    method Refresh(reply: Option<seq<Video>>) returns (alert: Option<string>)
      modifies this`searchQuery, this`selectedCategory, this`videos
      ensures searchQuery == "" && selectedCategory == None
      ensures videos == if reply.Some? then reply.value else old(videos)
      ensures alert == if reply.Some? then None else Some("Failed to load videos")
      ensures Displayed() == videos
    {
      searchQuery := "";
      selectedCategory := None;
      alert := FetchData(reply);
      EmptySearchShowsAll(videos);
    }

    /** The profile effect: no request without a stored access token;
        `profile` is set only from a successful reply. */
    method FetchProfile(store: Storage.KeyValueStore, reply: Option<Profile>) returns (requested: bool)
      modifies this`profile
      ensures requested <==> Truthy(store.GetItem("accessToken"))
      ensures profile == if requested && reply.Some? then reply else old(profile)
    {
      var accessToken := store.GetItem("accessToken");
      requested := Truthy(accessToken);
      if requested && reply.Some? {
        profile := reply;
      }
    }

    /** `handleAddComment`: blank content (or no loaded profile, on which the
        handler throws) changes nothing and posts nothing; otherwise the
        comment is appended before posting and stays whatever the post does. */
    method HandleAddComment(videoId: int, content: string, newId: int, createdAt: string, postSucceeds: bool)
      returns (posted: bool)
      modifies this`comments
      ensures posted <==> !IsBlank(content) && profile.Some?
      ensures posted ==> comments == Append(old(comments), videoId, OptimisticComment(newId, content, profile.value, createdAt))
      ensures !posted ==> comments == old(comments)
    {
      if IsBlank(content) || profile.None? {
        return false;
      }
      var newComment := OptimisticComment(newId, content, profile.value, createdAt);
      comments := Append(comments, videoId, newComment);
      // `postComment` runs now; `postSucceeds` only decides whether an error is logged
      posted := true;
    }

    /** `handleDeleteComment`: the server is asked only for the user's own
        cached comment, and the thread loses that id only after it agreed. */
    method HandleDeleteComment(commentId: int, videoId: int, deleteSucceeds: bool) returns (requested: bool)
      modifies this`comments
      ensures requested <==> profile.Some? && IsOwnComment(old(comments), videoId, commentId, profile.value.user.username)
      ensures requested ==> videoId in old(comments)
      ensures comments ==
                if requested && deleteSucceeds
                then old(comments)[videoId := Remove(Thread(old(comments), videoId), commentId)]
                else old(comments)
    {
      if profile.None? {
        return false;
      }
      requested := IsOwnComment(comments, videoId, commentId, profile.value.user.username);
      if requested && deleteSucceeds {
        comments := comments[videoId := Remove(comments[videoId], commentId)];
      }
    }

    /** `toggleComments`: always flips the visibility and fetches the thread
        only when none is cached. */
    method ToggleComments(videoId: int, reply: Option<seq<Comment>>) returns (fetched: bool)
      modifies this`showComments, this`comments
      ensures showComments == Toggle(old(showComments), videoId)
      ensures fetched <==> NeedsFetch(old(comments), videoId)
      ensures comments == if fetched then StoreFetched(old(comments), videoId, reply) else old(comments)
    {
      showComments := Toggle(showComments, videoId);
      fetched := NeedsFetch(comments, videoId);
      if fetched {
        comments := StoreFetched(comments, videoId, reply);
      }
    }
  }
}
