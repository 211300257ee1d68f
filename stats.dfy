/**
 * `calculateStats`: totals, rounded averages, the follower-relative
 * engagement rate and the three most viewed videos of a video window.
 */
module Stats {
  import opened Wrappers
  import opened Videos
  import opened Ranking
  import opened Profiles
  import VideoUrls

  /** One entry of `top3Videos`: title, views and likes are copied as they are, without defaults. */
  datatype TopVideo = TopVideo(title: Option<string>, views: Option<nat>, likes: Option<nat>, url: string)

  /**
   * The statistics object. `engagementRate` is kept in hundredths of a
   * percent: 314 stands for the 3.14 that `toFixed(2)` produces.
   */
  datatype AccountStats = AccountStats(
    avgViews: nat,
    avgLikes: nat,
    avgComments: nat,
    avgShares: nat,
    engagementRate: nat,
    topVideo: Option<TopVideo>,
    top3Videos: seq<TopVideo>)

  /** The object returned for an empty video window. */
  const NoData: AccountStats := AccountStats(0, 0, 0, 0, 0, None, [])

  const TopCount: nat := 3

  /** `videos.reduce((sum, v) => sum + (v.x || 0), 0)`. */
  function Total(vs: seq<RawVideo>, m: Metric): nat {
    if vs == [] then 0 else Count(vs[0], m) + Total(vs[1..], m)
  }

  /** The fold adds up piecewise: the total of two windows is the sum of their totals. */
  lemma {:induction false} TotalAppend(a: seq<RawVideo>, b: seq<RawVideo>, m: Metric)
    ensures Total(a + b, m) == Total(a, m) + Total(b, m)
  {
    if a == [] {
      assert a + b == b;
    } else {
      TotalAppend(a[1..], b, m);
      assert (a + b)[0] == a[0] && (a + b)[1..] == a[1..] + b;
    }
  }

  /** `Math.round(t / n)` for a non-negative `t`: the nearest integer, halves rounded up. */
  function RoundedDiv(t: nat, n: nat): (r: nat)
    requires n > 0
    ensures 2 * n * r <= 2 * t + n < 2 * n * r + 2 * n
  {
    (2 * t + n) / (2 * n)
  }

  /** `Math.round(total / videos.length)`: the rounded mean, between the least and the greatest value. */
  function Average(vs: seq<RawVideo>, m: Metric): (a: nat)
    requires |vs| > 0
    ensures 2 * |vs| * a <= 2 * Total(vs, m) + |vs| < 2 * |vs| * a + 2 * |vs|
    ensures MinCount(vs, m) <= a <= MaxCount(vs, m)
  {
    TotalBounds(vs, m, MinCount(vs, m), MaxCount(vs, m));
    RoundedDivBetween(Total(vs, m), |vs|, MinCount(vs, m), MaxCount(vs, m));
    RoundedDiv(Total(vs, m), |vs|)
  }

  /** `totalLikes + totalComments + totalShares`. */
  function Engagement(vs: seq<RawVideo>): nat {
    Total(vs, Diggs) + Total(vs, Comments) + Total(vs, Shares)
  }

  /**
   * `((totalEngagement / n) / followerCount * 100).toFixed(2)` in hundredths
   * of a percent when `followerCount > 0`, else 0.
   */
  function EngagementRate(followers: nat, vs: seq<RawVideo>): (rate: nat)
    requires |vs| > 0
    ensures followers == 0 ==> rate == 0
    ensures followers > 0 ==>
      2 * (|vs| * followers) * rate <= 20000 * Engagement(vs) + |vs| * followers
        < 2 * (|vs| * followers) * rate + 2 * (|vs| * followers)
  {
    if followers > 0 then RoundedDiv(10000 * Engagement(vs), |vs| * followers) else 0
  }

  /** The mapping of a ranked video into a `top3Videos` entry: it ranks as the video did. */
  function ToTop(handle: string, v: RawVideo): (e: TopVideo)
    ensures e.title == v.title && e.views == v.playCount && e.likes == v.diggCount
    ensures OrZero(e.views) == Views(v)
    ensures e.url == WatchUrl(handle, v.videoId)
  {
    TopVideo(v.title, v.playCount, v.diggCount, WatchUrl(handle, v.videoId))
  }

  /**
   * `sortedVideos.slice(0, 3)`: the first min(3, n) videos of the ranking,
   * in ranking order; no video it leaves out has more views than one it keeps.
   */
  function TopSelection(vs: seq<RawVideo>): (sel: seq<RawVideo>)
    ensures |sel| == if |vs| < TopCount then |vs| else TopCount
    ensures sel == SortByViews(vs)[..|sel|]
    ensures ByViewsDescending(sel)
    ensures forall i, j :: 0 <= i < |sel| && |sel| <= j < |vs| ==> Views(SortByViews(vs)[j]) <= Views(sel[i])
  {
    var sorted := SortByViews(vs);
    SortByViewsCorrect(vs);
    var k := if |sorted| <= TopCount then |sorted| else TopCount;
    RankingPrefix(sorted, k);
    sorted[..k]
  }

  /** A prefix of a ranking is a ranking, and nothing after it has more views than anything in it. */
  lemma RankingPrefix(sorted: seq<RawVideo>, k: nat)
    requires ByViewsDescending(sorted) && k <= |sorted|
    ensures ByViewsDescending(sorted[..k])
    ensures forall i, j :: 0 <= i < k <= j < |sorted| ==> Views(sorted[j]) <= Views(sorted[..k][i])
  {
  }

  /** `calculateStats(userInfo, videos)`. */
  function CalculateStats(profile: Profile, videos: seq<RawVideo>): (r: AccountStats)
    ensures |videos| == 0 ==> r == NoData
    ensures |r.top3Videos| == if |videos| < TopCount then |videos| else TopCount
    ensures r.topVideo == if |videos| > 0 then Some(r.top3Videos[0]) else None
    ensures profile.followerCount == 0 ==> r.engagementRate == 0
    ensures forall i, j :: 0 <= i < j < |r.top3Videos| ==>
              OrZero(r.top3Videos[j].views) <= OrZero(r.top3Videos[i].views)
  {
    if |videos| == 0 then NoData
    else
      var sel := TopSelection(videos);
      var top3 := seq(|sel|, i requires 0 <= i < |sel| => ToTop(profile.uniqueId, sel[i]));
      assert forall i :: 0 <= i < |sel| ==> OrZero(top3[i].views) == Views(sel[i]);
      AccountStats(
        Average(videos, Plays),
        Average(videos, Diggs),
        Average(videos, Comments),
        Average(videos, Shares),
        EngagementRate(profile.followerCount, videos),
        if |top3| > 0 then Some(top3[0]) else None,
        top3)
  }

  /** The average field of `stats` that belongs to metric `m`. */
  function AverageOf(stats: AccountStats, m: Metric): nat {
    match m
    case Plays => stats.avgViews
    case Diggs => stats.avgLikes
    case Comments => stats.avgComments
    case Shares => stats.avgShares
  }

  /** The smallest value of counter `m` in a non-empty window. */
  function MinCount(vs: seq<RawVideo>, m: Metric): (r: nat)
    requires |vs| > 0
    ensures forall i :: 0 <= i < |vs| ==> r <= Count(vs[i], m)
    ensures exists i :: 0 <= i < |vs| && r == Count(vs[i], m)
  {
    if |vs| == 1 then Count(vs[0], m)
    else
      var rest := MinCount(vs[1..], m);
      if Count(vs[0], m) <= rest then Count(vs[0], m) else rest
  }

  /** The largest value of counter `m` in a non-empty window. */
  function MaxCount(vs: seq<RawVideo>, m: Metric): (r: nat)
    requires |vs| > 0
    ensures forall i :: 0 <= i < |vs| ==> Count(vs[i], m) <= r
    ensures exists i :: 0 <= i < |vs| && r == Count(vs[i], m)
  {
    if |vs| == 1 then Count(vs[0], m)
    else
      var rest := MaxCount(vs[1..], m);
      if Count(vs[0], m) >= rest then Count(vs[0], m) else rest
  }

  lemma {:induction false} TotalBounds(vs: seq<RawVideo>, m: Metric, lo: nat, hi: nat)
    requires forall i :: 0 <= i < |vs| ==> lo <= Count(vs[i], m) <= hi
    ensures |vs| * lo <= Total(vs, m) <= |vs| * hi
  {
    if vs != [] {
      TotalBounds(vs[1..], m, lo, hi);
      assert |vs| * lo == lo + (|vs| - 1) * lo;
      assert |vs| * hi == hi + (|vs| - 1) * hi;
    }
  }

  lemma MulCancelStrict(q: int, a: int, b: int)
    requires q > 0 && q * a < q * b
    ensures a < b
  {
    assert q * (b - a) == q * b - q * a;
  }

  /** A rounded quotient stays between any bounds the exact quotient lies between. */
  lemma RoundedDivBetween(t: nat, n: nat, lo: nat, hi: nat)
    requires n > 0 && n * lo <= t <= n * hi
    ensures lo <= RoundedDiv(t, n) <= hi
  {
    var r := RoundedDiv(t, n);
    var q := 2 * n;
    assert q * r <= 2 * t + n < q * r + q;
    assert q * r < q * (hi + 1) by {
      assert 2 * t + n <= q * hi + n;
    }
    MulCancelStrict(q, r, hi + 1);
    assert q * lo < q * (r + 1) by {
      assert q * lo <= 2 * t;
    }
    MulCancelStrict(q, lo, r + 1);
  }

  /** Each average is the rounded mean of its counter and lies between its minimum and maximum. */
  lemma AveragesWithinRange(profile: Profile, videos: seq<RawVideo>, m: Metric)
    requires |videos| > 0
    ensures var avg := AverageOf(CalculateStats(profile, videos), m);
      && 2 * |videos| * avg <= 2 * Total(videos, m) + |videos| < 2 * |videos| * avg + 2 * |videos|
      && MinCount(videos, m) <= avg <= MaxCount(videos, m)
  {
  }

  /**
   * With followers, the rate is `engagement / n / followers * 100` rounded to
   * the nearest hundredth; without, it is 0.
   */
  lemma EngagementRateRounding(profile: Profile, videos: seq<RawVideo>)
    requires |videos| > 0
    ensures var rate := CalculateStats(profile, videos).engagementRate;
      var d := |videos| * profile.followerCount;
      && (profile.followerCount == 0 ==> rate == 0)
      && (profile.followerCount > 0 ==>
            2 * d * rate <= 20000 * Engagement(videos) + d < 2 * d * rate + 2 * d)
  {
  }

  /** Each top entry is the mapping of the ranked video at its position. */
  lemma TopEntries(profile: Profile, videos: seq<RawVideo>)
    ensures var r := CalculateStats(profile, videos);
      var sel := TopSelection(videos);
      && |r.top3Videos| == |sel|
      && (forall i :: 0 <= i < |sel| ==> r.top3Videos[i] == ToTop(profile.uniqueId, sel[i]))
  {
    if |videos| == 0 {
      assert |TopSelection(videos)| == 0;
    }
  }

  /** Each top entry links to its video under the profile's handle. */
  lemma TopUrls(profile: Profile, videos: seq<RawVideo>)
    ensures var r := CalculateStats(profile, videos);
      var sel := TopSelection(videos);
      && |r.top3Videos| == |sel|
      && (forall i :: 0 <= i < |sel| ==>
            r.top3Videos[i].url == WatchPrefix + profile.uniqueId + VideoSegment + sel[i].videoId)
  {
    TopEntries(profile, videos);
  }

  /** The ranking splits into the selection and the rest, and the rest ranks no higher. */
  lemma RankingSplit(videos: seq<RawVideo>)
    ensures var sel := TopSelection(videos);
      var rest := SortByViews(videos)[|sel|..];
      && multiset(sel) + multiset(rest) == multiset(videos)
      && (forall i, j :: 0 <= i < |sel| && 0 <= j < |rest| ==> Views(rest[j]) <= Views(sel[i]))
  {
    var sorted := SortByViews(videos);
    var sel := TopSelection(videos);
    var rest := sorted[|sel|..];
    assert sel == sorted[..|sel|];
    SplitMultiset(sorted, |sel|);
    assert multiset(sorted) == multiset(videos);
    forall i, j | 0 <= i < |sel| && 0 <= j < |rest| ensures Views(rest[j]) <= Views(sel[i]) {
      assert rest[j] == sorted[|sel| + j];
    }
  }

  lemma SplitMultiset(s: seq<RawVideo>, k: nat)
    requires k <= |s|
    ensures multiset(s[..k]) + multiset(s[k..]) == multiset(s)
  {
    assert s == s[..k] + s[k..];
  }

  /**
   * The top list is the first `min(3, n)` videos of the stable ranking: what
   * it leaves out has no more views than anything it keeps, and each entry
   * links to its video under the profile's handle.
   */
  lemma TopThreeSelection(profile: Profile, videos: seq<RawVideo>)
    ensures var r := CalculateStats(profile, videos);
      var sel := TopSelection(videos);
      var rest := SortByViews(videos)[|sel|..];
      && multiset(sel) + multiset(rest) == multiset(videos)
      && |r.top3Videos| == |sel|
      && (forall i :: 0 <= i < |sel| ==> r.top3Videos[i] == ToTop(profile.uniqueId, sel[i]))
      && (forall i :: 0 <= i < |sel| ==>
            r.top3Videos[i].url == WatchPrefix + profile.uniqueId + VideoSegment + sel[i].videoId)
      && (forall i, j :: 0 <= i < |sel| && 0 <= j < |rest| ==> Views(rest[j]) <= Views(sel[i]))
  {
    TopEntries(profile, videos);
    TopUrls(profile, videos);
    RankingSplit(videos);
  }

  /** The URL of a top entry with a numeric id passes the video analysis guard and reads that id back. */
  lemma TopVideoLinksBack(profile: Profile, videos: seq<RawVideo>, i: nat)
    requires VideoUrls.IsHandle(profile.uniqueId)
    requires i < |TopSelection(videos)| && VideoUrls.IsDigits(TopSelection(videos)[i].videoId)
    ensures var url := CalculateStats(profile, videos).top3Videos[i].url;
      && VideoUrls.ExtractVideoId(url) == Some(TopSelection(videos)[i].videoId)
      && VideoUrls.StartVideoAnalysis(url).Lookup?
  {
    var sel := TopSelection(videos);
    assert CalculateStats(profile, videos).top3Videos[i] == ToTop(profile.uniqueId, sel[i]);
    VideoUrls.WatchUrlRoundTrip(profile.uniqueId, sel[i].videoId);
  }
}

module StatsScenario {
  import opened Wrappers
  import opened Videos
  import opened Ranking
  import opened Profiles
  import opened Stats

  lemma {:induction false} TotalOfCopies(v: RawVideo, vs: seq<RawVideo>, m: Metric)
    requires forall i :: 0 <= i < |vs| ==> vs[i] == v
    ensures Total(vs, m) == |vs| * Count(v, m)
  {
    if vs != [] {
      TotalOfCopies(v, vs[1..], m);
    }
  }

  /** A window of identical videos averages to that video's counters. */
  lemma EqualVideosAverage(v: RawVideo, vs: seq<RawVideo>, m: Metric)
    requires |vs| > 0 && forall i :: 0 <= i < |vs| ==> vs[i] == v
    ensures Average(vs, m) == Count(v, m)
  {
    TotalOfCopies(v, vs, m);
    RoundedDivBetween(Total(vs, m), |vs|, Count(v, m), Count(v, m));
  }

  /** A window of identical videos ranks that video first, second and third. */
  lemma EqualVideosTop(v: RawVideo, vs: seq<RawVideo>)
    requires |vs| >= TopCount && forall i :: 0 <= i < |vs| ==> vs[i] == v
    ensures TopSelection(vs) == [v, v, v]
  {
    SortByViewsCorrect(vs);
    var sorted := SortByViews(vs);
    forall i | 0 <= i < TopCount ensures sorted[i] == v {
      assert sorted[i] in multiset(vs);
    }
  }

  const ScenarioVideo: RawVideo :=
    RawVideo("7", Some("clip"), None, None, Some(5000), Some(250), Some(25), Some(25), None)
  const ScenarioProfile: Profile :=
    Profile(None, "creator", None, None, None, None, 10000, 0, 0, 10, false)

  /** The fields of the statistics of a non-empty window, one by one. */
  lemma StatsOfWindow(profile: Profile, videos: seq<RawVideo>)
    requires |videos| > 0
    ensures var r := CalculateStats(profile, videos);
      && r.avgViews == Average(videos, Plays) && r.avgLikes == Average(videos, Diggs)
      && r.avgComments == Average(videos, Comments) && r.avgShares == Average(videos, Shares)
      && r.engagementRate == EngagementRate(profile.followerCount, videos)
      && |r.top3Videos| == |TopSelection(videos)|
      && r.topVideo == Some(ToTop(profile.uniqueId, TopSelection(videos)[0]))
  {
  }

  predicate IsScenarioWindow(vs: seq<RawVideo>) {
    |vs| == 10 && forall i :: 0 <= i < |vs| ==> vs[i] == ScenarioVideo
  }

  lemma ScenarioAverages(vs: seq<RawVideo>)
    requires IsScenarioWindow(vs)
    ensures Average(vs, Plays) == 5000 && Average(vs, Diggs) == 250
    ensures Average(vs, Comments) == 25 && Average(vs, Shares) == 25
  {
    EqualVideosAverage(ScenarioVideo, vs, Plays);
    EqualVideosAverage(ScenarioVideo, vs, Diggs);
    EqualVideosAverage(ScenarioVideo, vs, Comments);
    EqualVideosAverage(ScenarioVideo, vs, Shares);
  }

  lemma ScenarioRate(vs: seq<RawVideo>)
    requires IsScenarioWindow(vs)
    ensures EngagementRate(10000, vs) == 300
  {
    TotalOfCopies(ScenarioVideo, vs, Diggs);
    TotalOfCopies(ScenarioVideo, vs, Comments);
    TotalOfCopies(ScenarioVideo, vs, Shares);
    assert Engagement(vs) == 3000;
    assert RoundedDiv(30000000, 100000) == 300;
  }

  /** The scenario video's top entry links to its watch page. */
  lemma ScenarioTopEntry()
    ensures ToTop("creator", ScenarioVideo)
      == TopVideo(Some("clip"), Some(5000), Some(250), "https://www.tiktok.com/@creator/video/7")
  {
    assert WatchUrl("creator", "7") == "https://www.tiktok.com/@creator/video/7";
  }

  /**
   * Ten equal videos of 5000 views, 250 likes, 25 comments and 25 shares on
   * an account of 10000 followers: the averages are the per-video counts and
   * the rate is (300 / 10000) * 100 = 3.00 percent.
   */
  lemma TenEqualVideos(vs: seq<RawVideo>)
    requires IsScenarioWindow(vs)
    ensures var r := CalculateStats(ScenarioProfile, vs);
      && r.avgViews == 5000 && r.avgLikes == 250 && r.avgComments == 25 && r.avgShares == 25
      && r.engagementRate == 300
      && |r.top3Videos| == 3
      && r.topVideo == Some(TopVideo(Some("clip"), Some(5000), Some(250), "https://www.tiktok.com/@creator/video/7"))
  {
    ScenarioAverages(vs);
    ScenarioRate(vs);
    EqualVideosTop(ScenarioVideo, vs);
    StatsOfWindow(ScenarioProfile, vs);
    ScenarioTopEntry();
  }
}
