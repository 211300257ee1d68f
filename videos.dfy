/**
 * Video records as the upstream `user/posts` listing returns them, the
 * `|| 0` reading of their counters, and the canonical watch URL.
 */
module Videos {
  import opened Wrappers

  /**
   * One upstream video entry. Each counter may be absent; `playCount`,
   * `diggCount`, `commentCount` and `shareCount` stand for the payload's
   * `play_count`, `digg_count`, `comment_count` and `share_count`.
   */
  datatype RawVideo = RawVideo(
    videoId: string,
    title: Option<string>,
    cover: Option<string>,
    duration: Option<nat>,
    playCount: Option<nat>,
    diggCount: Option<nat>,
    commentCount: Option<nat>,
    shareCount: Option<nat>,
    createTime: Option<nat>)

  /** The four counters the statistics fold over. */
  datatype Metric = Plays | Diggs | Comments | Shares

  /** `c || 0`: an absent counter reads as 0 (a zero one already is 0). */
  function OrZero(c: Option<nat>): (r: nat)
    ensures r != 0 <==> c.Some? && c.value != 0
    ensures r != 0 ==> r == c.value
  {
    c.GetOr(0)
  }

  /** The counter `m` of `v`, missing read as 0. */
  function Count(v: RawVideo, m: Metric): nat {
    match m
    case Plays => OrZero(v.playCount)
    case Diggs => OrZero(v.diggCount)
    case Comments => OrZero(v.commentCount)
    case Shares => OrZero(v.shareCount)
  }

  /** The view count the ranking sorts by: `play_count || 0`. */
  function Views(v: RawVideo): nat {
    Count(v, Plays)
  }

  const WatchPrefix: string := "https://www.tiktok.com/@"
  const VideoSegment: string := "/video/"

  /**
   * `https://www.tiktok.com/@{handle}/video/{id}`: the handle and the id sit
   * at fixed offsets, so both can be read back from the URL.
   */
  function WatchUrl(handle: string, id: string): (u: string)
    ensures |u| == |WatchPrefix| + |handle| + |VideoSegment| + |id|
    ensures u[..|WatchPrefix|] == WatchPrefix
    ensures u[|WatchPrefix|..|WatchPrefix| + |handle|] == handle
    ensures u[|WatchPrefix| + |handle|..|u| - |id|] == VideoSegment
    ensures u[|u| - |id|..] == id
  {
    WatchPrefix + handle + VideoSegment + id
  }
}
