/**
 * The per-video objects of the `/api/user-videos` response: defaults for
 * missing fields and the watch URL under the connected account's handle.
 */
module VideoList {
  import opened Wrappers
  import opened Videos
  import opened VideoUrls
  import opened Stats

  datatype VideoView = VideoView(
    id: string,
    title: string,
    thumbnail: Option<string>,
    duration: Option<nat>,
    views: nat,
    likes: nat,
    comments: nat,
    shares: nat,
    createTime: Option<nat>,
    url: string)

  const UntitledTitle: string := "Sans titre"

  /** `v.title || 'Sans titre'`: an absent or empty title is replaced. */
  function TitleOrDefault(t: Option<string>): (r: string)
    ensures r != ""
    ensures t.Some? && t.value != "" ==> r == t.value
    ensures t.None? || t.value == "" ==> r == UntitledTitle
  {
    if t.Some? && t.value != "" then t.value else UntitledTitle
  }

  /**
   * One response object: never an empty title, every counter its `|| 0`
   * reading, and a URL the video analysis accepts and reads the id back from.
   */
  function ToView(handle: string, v: RawVideo): (w: VideoView)
    ensures w.id == v.videoId && w.title != ""
    ensures w.title == TitleOrDefault(v.title)
    ensures w.thumbnail == v.cover && w.duration == v.duration && w.createTime == v.createTime
    ensures w.url == WatchUrl(handle, v.videoId)
    ensures w.views == Count(v, Plays) && w.likes == Count(v, Diggs)
    ensures w.comments == Count(v, Comments) && w.shares == Count(v, Shares)
    ensures IsHandle(handle) && IsDigits(v.videoId) ==> ExtractVideoId(w.url) == Some(v.videoId)
  {
    assert IsHandle(handle) && IsDigits(v.videoId) ==>
             ExtractVideoId(WatchUrl(handle, v.videoId)) == Some(v.videoId) by {
      if IsHandle(handle) && IsDigits(v.videoId) {
        WatchUrlRoundTrip(handle, v.videoId);
      }
    }
    VideoView(
      v.videoId,
      TitleOrDefault(v.title),
      v.cover,
      v.duration,
      Count(v, Plays),
      Count(v, Diggs),
      Count(v, Comments),
      Count(v, Shares),
      v.createTime,
      WatchUrl(handle, v.videoId))
  }

  /** `videos.map(v => ({ … }))`: one view per video, in listing order. */
  function ListVideos(handle: string, vs: seq<RawVideo>): (r: seq<VideoView>)
    ensures |r| == |vs|
    ensures forall i :: 0 <= i < |vs| ==> r[i] == ToView(handle, vs[i])
  {
    if vs == [] then [] else [ToView(handle, vs[0])] + ListVideos(handle, vs[1..])
  }

  /** The counter of a listed video that corresponds to metric `m`. */
  function ViewCount(w: VideoView, m: Metric): nat {
    match m
    case Plays => w.views
    case Diggs => w.likes
    case Comments => w.comments
    case Shares => w.shares
  }

  function SumOf(ws: seq<VideoView>, m: Metric): nat {
    if ws == [] then 0 else ViewCount(ws[0], m) + SumOf(ws[1..], m)
  }

  /** The listed counters add up to the totals the statistics are computed from. */
  lemma {:induction false} ListedTotalsMatchStats(handle: string, vs: seq<RawVideo>, m: Metric)
    ensures SumOf(ListVideos(handle, vs), m) == Total(vs, m)
  {
    if vs != [] {
      ListedTotalsMatchStats(handle, vs[1..], m);
      assert ListVideos(handle, vs)[1..] == ListVideos(handle, vs[1..]);
    }
  }

  /**
   * Every listed video has a non-empty title, and when its id is numeric its
   * URL passes the video analysis guard and the regex reads that id back.
   */
  lemma ListedVideosLinkBack(handle: string, vs: seq<RawVideo>, i: nat)
    requires i < |vs| && IsHandle(handle) && IsDigits(vs[i].videoId)
    ensures var w := ListVideos(handle, vs)[i];
      && w.title != "" && w.id == vs[i].videoId
      && StartVideoAnalysis(w.url) == Lookup(w.url)
      && ExtractVideoId(w.url) == Some(vs[i].videoId)
  {
    WatchUrlRoundTrip(handle, vs[i].videoId);
  }
}
