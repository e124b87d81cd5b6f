/** `VideoPlayer` (the same component in HomeScreen and ProfileScreen): a
    one-bit state machine that asks the backend to count a view on the first
    playback-status update reporting that the video is playing. */
module Player {

  class VideoPlayer {
    const videoId: int
    /** `hasViewed`. */
    var hasViewed: bool
    /** How many `incrementVideoView(videoId)` calls this instance has issued. */
    ghost var viewRequests: nat

    ghost predicate Valid()
      reads this
    {
      viewRequests == if hasViewed then 1 else 0
    }

    constructor (videoId: int)
      ensures this.videoId == videoId && !hasViewed && viewRequests == 0 && Valid()
    {
      this.videoId := videoId;
      hasViewed := false;
      viewRequests := 0;
    }

    /** `handlePlaybackStatusUpdate(status)`; `requested` tells whether it
        called `incrementVideoView`. */
    method HandlePlaybackStatusUpdate(isPlaying: bool) returns (requested: bool)
      requires Valid()
      modifies this
      ensures Valid() && viewRequests <= 1
      ensures requested == Step(old(hasViewed), isPlaying)
      ensures hasViewed == (old(hasViewed) || isPlaying)
      ensures viewRequests == old(viewRequests) + (if requested then 1 else 0)
    {
      requested := false;
      if isPlaying && !hasViewed {
        hasViewed := true;
        requested := true;
        viewRequests := viewRequests + 1;
      }
    }
  }

  /** Whether one update issues a view request, given the flag before it. */
  predicate Step(hasViewed: bool, isPlaying: bool)
  {
    isPlaying && !hasViewed
  }

  /** For a run of updates (`isPlaying` of each status, in order), which of
      them issue a view request. */
  function Requests(hasViewed: bool, statuses: seq<bool>): (r: seq<bool>)
    ensures |r| == |statuses|
    decreases |statuses|
  {
    if statuses == [] then []
    else [Step(hasViewed, statuses[0])] + Requests(hasViewed || statuses[0], statuses[1..])
  }

  /** The update at index `i` issues a request exactly when the flag was
      clear to begin with and `i` is the first update that reports playing. */
  lemma {:induction false} RequestOnFirstPlaying(hasViewed: bool, statuses: seq<bool>, i: int)
    requires 0 <= i < |statuses|
    ensures Requests(hasViewed, statuses)[i]
        <==> !hasViewed && statuses[i] && forall j :: 0 <= j < i ==> !statuses[j]
    decreases |statuses|
  {
    if i > 0 {
      var tail := statuses[1..];
      RequestOnFirstPlaying(hasViewed || statuses[0], tail, i - 1);
      assert forall j :: 1 <= j <= i ==> statuses[j] == tail[j - 1];
    }
  }

  /** A player that starts unviewed issues at most one request over any run. */
  lemma AtMostOneRequest(statuses: seq<bool>, i: int, j: int)
    requires 0 <= i < j < |statuses|
    ensures !(Requests(false, statuses)[i] && Requests(false, statuses)[j])
  {
    RequestOnFirstPlaying(false, statuses, i);
    RequestOnFirstPlaying(false, statuses, j);
  }

  /** ... and exactly one when some update reports playing. */
  lemma {:induction false} RequestIffEverPlaying(hasViewed: bool, statuses: seq<bool>)
    ensures (true in Requests(hasViewed, statuses)) <==> !hasViewed && true in statuses
    decreases |statuses|
  {
    if statuses != [] {
      RequestIffEverPlaying(hasViewed || statuses[0], statuses[1..]);
      assert statuses == [statuses[0]] + statuses[1..];
      var r := Requests(hasViewed, statuses);
      assert r == [Step(hasViewed, statuses[0])] + Requests(hasViewed || statuses[0], statuses[1..]);
    }
  }
}
