/** The per-video comment state that HomeScreen and ProfileScreen each keep:
    `comments`, a map from video id to the cached thread, and `showComments`,
    a map from video id to whether the thread is expanded. Both screens update
    them with the same expressions, defined here once. */
module CommentCache {
  import opened Base
  import opened Entities
  import Seqs

  type Cache = map<int, seq<Comment>>

  /** `prev[videoId] || []`. */
  function Thread(cache: Cache, videoId: int): seq<Comment>
  {
    if videoId in cache then cache[videoId] else []
  }

  /** The key `k` is bound to the same thread in both maps (or absent from both). */
  ghost predicate SameThread(a: Cache, b: Cache, k: int)
  {
    (k in a <==> k in b) && (k in a ==> a[k] == b[k])
  }

  /** `{ ...prev, [videoId]: [...(prev[videoId] || []), c] }`: the optimistic append. */
  function Append(cache: Cache, videoId: int, c: Comment): (r: Cache)
    ensures videoId in r && |r[videoId]| == |Thread(cache, videoId)| + 1
    ensures r[videoId][..|Thread(cache, videoId)|] == Thread(cache, videoId)
    ensures r[videoId][|Thread(cache, videoId)|] == c
    ensures forall k :: k != videoId ==> SameThread(cache, r, k)
  {
    cache[videoId := Thread(cache, videoId) + [c]]
  }

  /** The comment a handler builds for the logged-in user before posting. */
  function OptimisticComment(id: int, content: string, profile: Profile, createdAt: string): (c: Comment)
    ensures c.userUsername == profile.user.username && c.content == content
  {
    Comment(id, content, profile.user.username, profile.picture, createdAt)
  }

  /** `comment => comment.id !== commentId`. */
  function IdIsNot(commentId: int): Comment -> bool
  {
    (c: Comment) => c.id != commentId
  }

  /** `thread.filter((comment) => comment.id !== commentId)`. */
  function Remove(thread: seq<Comment>, commentId: int): (r: seq<Comment>)
    ensures Seqs.IsSubsequence(r, thread)
    ensures forall c :: c in r ==> c.id != commentId
    ensures forall c :: c in thread && c.id != commentId ==> c in r
    ensures forall c :: multiset(r)[c] == if c.id == commentId then 0 else multiset(thread)[c]
  {
    var r := Seqs.Filter(thread, IdIsNot(commentId));
    forall c | c in thread && c.id != commentId ensures c in r {
      Seqs.FilterMembership(thread, IdIsNot(commentId), c);
    }
    r
  }

  /** Removing the id of a comment just appended to a thread in which that id
      was unused gives the thread back: the optimistic insert can be undone. */
  lemma {:induction false} RemoveUndoesAppend(cache: Cache, videoId: int, c: Comment)
    requires forall d :: d in Thread(cache, videoId) ==> d.id != c.id
    ensures Remove(Append(cache, videoId, c)[videoId], c.id) == Thread(cache, videoId)
  {
    var t := Thread(cache, videoId);
    assert Append(cache, videoId, c)[videoId] == t + [c];
    RemoveAppendedLast(t, c);
  }

  lemma {:induction false} RemoveAppendedLast(t: seq<Comment>, c: Comment)
    requires forall d :: d in t ==> d.id != c.id
    ensures Seqs.Filter(t + [c], IdIsNot(c.id)) == t
    decreases |t|
  {
    if t == [] {
      assert [c][1..] == [];
    } else {
      assert (t + [c])[1..] == t[1..] + [c];
      RemoveAppendedLast(t[1..], c);
    }
  }

  /** `comments.find((comment) => comment.id === commentId)`: the first comment with that id. */
  function Find(thread: seq<Comment>, commentId: int): (r: Option<Comment>)
    ensures r.None? <==> forall i :: 0 <= i < |thread| ==> thread[i].id != commentId
    ensures r.Some? ==> exists i :: 0 <= i < |thread| && thread[i] == r.value
                                  && r.value.id == commentId
                                  && forall j :: 0 <= j < i ==> thread[j].id != commentId
    decreases |thread|
  {
    if thread == [] then None
    else if thread[0].id == commentId then Some(thread[0])
    else
      var r := Find(thread[1..], commentId);
      assert forall i :: 1 <= i < |thread| ==> thread[i] == thread[1..][i - 1];
      if r.Some? then
        var i :| 0 <= i < |thread[1..]| && thread[1..][i] == r.value && r.value.id == commentId
                 && forall j :: 0 <= j < i ==> thread[1..][j].id != commentId;
        assert thread[i + 1] == r.value;
        r
      else r
  }

  /** HomeScreen's delete gate: the first cached comment with that id is by `username`. */
  predicate IsOwnComment(cache: Cache, videoId: int, commentId: int, username: string)
  {
    var found := Find(Thread(cache, videoId), commentId);
    found.Some? && found.value.userUsername == username
  }

  /** `!!showComments[videoId]`: an absent entry reads as hidden. */
  predicate IsShown(show: map<int, bool>, videoId: int)
  {
    videoId in show && show[videoId]
  }

  /** `{ ...prev, [videoId]: !prev[videoId] }`. */
  function Toggle(show: map<int, bool>, videoId: int): (r: map<int, bool>)
    ensures videoId in r && (IsShown(r, videoId) <==> !IsShown(show, videoId))
    ensures forall k :: k != videoId ==> (k in r <==> k in show) && (k in show ==> r[k] == show[k])
  {
    show[videoId := !IsShown(show, videoId)]
  }

  /** Toggling twice gives back the visibility it started from. */
  lemma ToggleTwice(show: map<int, bool>, videoId: int)
    ensures IsShown(Toggle(Toggle(show, videoId), videoId), videoId) == IsShown(show, videoId)
    ensures forall k :: k != videoId ==> IsShown(Toggle(Toggle(show, videoId), videoId), k) == IsShown(show, k)
  {
  }

  /** `if (!comments[videoId])`: a thread is fetched only when none is cached
      (an empty cached array is truthy and counts as cached). */
  predicate NeedsFetch(cache: Cache, videoId: int)
  {
    videoId !in cache
  }

  /** After a toggle, a fetched thread is cached and a failed fetch changes nothing. */
  function StoreFetched(cache: Cache, videoId: int, reply: Option<seq<Comment>>): (r: Cache)
    ensures reply.None? ==> r == cache
    ensures reply.Some? ==> videoId in r && r[videoId] == reply.value
    ensures forall k :: k != videoId ==> SameThread(cache, r, k)
  {
    if reply.Some? then cache[videoId := reply.value] else cache
  }
}
