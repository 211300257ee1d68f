/**
 * Extraction of a video id from a pasted TikTok URL with the regular
 * expression `/video\/(\d+)/`, and the rejection of a URL it does not match.
 */
module VideoUrls {
  import opened Wrappers
  import opened Videos

  const Marker: string := "video/"

  predicate IsDigit(c: char) {
    '0' <= c <= '9'
  }

  /** A non-empty string of decimal digits. */
  predicate IsDigits(d: string) {
    |d| > 0 && forall k :: 0 <= k < |d| ==> IsDigit(d[k])
  }

  /** The regular expression matches at position `i`: `video/` and then at least one digit. */
  predicate MatchAt(s: string, i: nat) {
    i + |Marker| < |s| && s[i..i + |Marker|] == Marker && IsDigit(s[i + |Marker|])
  }

  /** No match starts before position `i`. */
  predicate NoMatchBefore(s: string, i: nat) {
    forall j: nat :: j < i ==> !MatchAt(s, j)
  }

  /** The greedy `\d+`: the longest run of digits starting at `j`. */
  function DigitRun(s: string, j: nat): (d: string)
    requires j <= |s|
    ensures j + |d| <= |s| && d == s[j..j + |d|]
    ensures forall k :: 0 <= k < |d| ==> IsDigit(d[k])
    ensures j + |d| == |s| || !IsDigit(s[j + |d|])
    decreases |s| - j
  {
    if j < |s| && IsDigit(s[j]) then [s[j]] + DigitRun(s, j + 1) else []
  }

  /**
   * The regex engine's scan: try each start position from `i` on, leftmost
   * first. It finds nothing exactly when no match starts at `i` or later, and
   * otherwise the digit run of the first match at or after `i`.
   */
  function FindFrom(s: string, i: nat): (r: Option<string>)
    requires i <= |s|
    ensures r.None? <==> forall j: nat :: i <= j ==> !MatchAt(s, j)
    ensures r.Some? ==>
      exists m: nat :: i <= m && MatchAt(s, m) && (forall j: nat :: i <= j < m ==> !MatchAt(s, j))
                       && r.value == DigitRun(s, m + |Marker|)
    decreases |s| - i
  {
    if i + |Marker| >= |s| then
      assert forall j: nat :: i <= j ==> !MatchAt(s, j);
      None
    else if MatchAt(s, i) then
      assert DigitRun(s, i + |Marker|) != [];
      Some(DigitRun(s, i + |Marker|))
    else
      var r := FindFrom(s, i + 1);
      LeftmostFromNext(s, i, r);
      r
  }

  /** A position that does not match leaves the leftmost match from the next position leftmost. */
  lemma LeftmostFromNext(s: string, i: nat, r: Option<string>)
    requires !MatchAt(s, i)
    requires r.None? <==> forall j: nat :: i + 1 <= j ==> !MatchAt(s, j)
    requires r.Some? ==>
      exists m: nat :: i + 1 <= m && MatchAt(s, m) && (forall j: nat :: i + 1 <= j < m ==> !MatchAt(s, j))
                       && r.value == DigitRun(s, m + |Marker|)
    ensures r.None? <==> forall j: nat :: i <= j ==> !MatchAt(s, j)
    ensures r.Some? ==>
      exists m: nat :: i <= m && MatchAt(s, m) && (forall j: nat :: i <= j < m ==> !MatchAt(s, j))
                       && r.value == DigitRun(s, m + |Marker|)
  {
    if r.Some? {
      var m: nat :| i + 1 <= m && MatchAt(s, m) && (forall j: nat :: i + 1 <= j < m ==> !MatchAt(s, j))
                    && r.value == DigitRun(s, m + |Marker|);
      assert forall j: nat :: i <= j < m ==> !MatchAt(s, j);
    }
  }

  /** `videoUrl.match(/video\/(\d+)/)?.[1]`. */
  function ExtractVideoId(url: string): (r: Option<string>)
    ensures r.None? <==> forall i: nat :: !MatchAt(url, i)
    ensures r.Some? ==> IsDigits(r.value)
    ensures r.Some? ==> exists i: nat :: MatchAt(url, i) && NoMatchBefore(url, i)
                                         && r.value == DigitRun(url, i + |Marker|)
  {
    FindFrom(url, 0)
  }

  /**
   * Whether `/api/analyze-video` answers 400 or goes on to look the video up.
   * The lookup is made with the whole pasted URL: the extracted id only
   * decides that the URL is acceptable and is not used afterwards.
   */
  datatype AnalyzeStart = BadRequest(status: nat, message: string) | Lookup(videoUrl: string)

  /** The guard of `/api/analyze-video`: without a video id the video is not looked up. */
  function StartVideoAnalysis(videoUrl: string): (r: AnalyzeStart)
    ensures r.BadRequest? <==> forall i: nat :: !MatchAt(videoUrl, i)
    ensures r.BadRequest? ==> r.status == 400 && r.message == "URL TikTok invalide"
    ensures r.Lookup? ==> r.videoUrl == videoUrl && ExtractVideoId(videoUrl).Some?
  {
    if ExtractVideoId(videoUrl).None? then BadRequest(400, "URL TikTok invalide")
    else Lookup(videoUrl)
  }

  /** A handle as TikTok issues them never holds a slash. */
  predicate IsHandle(h: string) {
    forall k :: 0 <= k < |h| ==> h[k] != '/'
  }

  /** The id of a canonical watch URL is the one extraction finds in it again. */
  lemma WatchUrlRoundTrip(handle: string, id: string)
    requires IsHandle(handle) && IsDigits(id)
    ensures ExtractVideoId(WatchUrl(handle, id)) == Some(id)
  {
    var s := WatchUrl(handle, id);
    var m := |WatchPrefix| + |handle| + 1;
    NoMatchBeforeVideoId(handle, id);
    assert s[m..m + 6] == Marker;
    assert s[m + 6..] == id;
    DigitRunOfDigits(s, m + 6, id);
    FindFromSkips(s, 0, m);
  }

  /** In a watch URL no `video/` followed by a digit starts before the `video/` segment. */
  lemma NoMatchBeforeVideoId(handle: string, id: string)
    requires IsHandle(handle) && IsDigits(id)
    ensures NoMatchBefore(WatchUrl(handle, id), |WatchPrefix| + |handle| + 1)
  {
    var s := WatchUrl(handle, id);
    var p := |WatchPrefix| + |handle|;
    PrefixHasNoV();
    forall j: nat | j < p + 1 ensures !MatchAt(s, j) {
      if j + |Marker| < |s| {
        if j < |WatchPrefix| {
          assert s[j] == WatchPrefix[j];
          assert s[j..j + |Marker|][0] != Marker[0];
        } else if j + 5 < p {
          assert s[j + 5] == handle[j + 5 - |WatchPrefix|];
          assert s[j..j + |Marker|][5] != Marker[5];
        } else if j + 5 == p {
          assert s[j + 6] == VideoSegment[1];
        } else {
          assert s[j + 5] == VideoSegment[j + 5 - p];
          assert s[j..j + |Marker|][5] != Marker[5];
        }
      }
    }
  }

  lemma PrefixHasNoV()
    ensures |WatchPrefix| == 24
    ensures forall k :: 0 <= k < |WatchPrefix| ==> WatchPrefix[k] != 'v'
  {
  }

  /** Scanning from `i` lands on the first match `m` when there is none in between. */
  lemma {:induction false} FindFromSkips(s: string, i: nat, m: nat)
    requires i <= m && MatchAt(s, m)
    requires forall j: nat :: i <= j < m ==> !MatchAt(s, j)
    ensures FindFrom(s, i) == Some(DigitRun(s, m + |Marker|))
    decreases m - i
  {
    if i < m {
      FindFromSkips(s, i + 1, m);
    }
  }

  /** A digit run that fills the string to its end is read whole. */
  lemma {:induction false} DigitRunOfDigits(s: string, j: nat, d: string)
    requires j + |d| == |s| && s[j..] == d
    requires forall k :: 0 <= k < |d| ==> IsDigit(d[k])
    ensures DigitRun(s, j) == d
    decreases |d|
  {
    if d != [] {
      assert s[j] == d[0];
      assert s[j + 1..] == d[1..];
      DigitRunOfDigits(s, j + 1, d[1..]);
    }
  }
}
