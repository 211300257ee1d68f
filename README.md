# TikTok account statistics, profile normalisation and video links

This project models the pure logic inside the CreateShorts backend (`server.js`). The backend connects a TikTok account, lists its recent videos and starts a video analysis. The model covers four pieces:

- **Account statistics** (`calculateStats`). It takes the normalised profile and the upstream video window. Counters that are missing read as 0. Each average is `Math.round` of the total divided by the number of videos. The engagement rate is relative to the follower count and rounded to hundredths of a percent. The top-3 list is the first three videos of a stable ranking by descending view count, and each entry carries its canonical watch URL.
- **Profile normalisation**. The TikWM `user/info` payload is mapped into the canonical profile. A count is taken from its camelCase alias if that is truthy, else from its snake_case alias if truthy, else it is 0. `uniqueId` falls back to the requested handle, and `verified` falls back to false.
- **The `/api/user-videos` video list**. Each video is mapped to a response object. A missing title becomes `Sans titre`, missing counters become 0, and the URL is `https://www.tiktok.com/@{handle}/video/{id}`.
- **Video-id extraction** for `/api/analyze-video`. It is the regular expression `video\/(\d+)`: the leftmost `video/` followed by a digit, then the longest run of digits. After the caller has been authenticated, a URL without a match is answered with 400 before the video is looked up. The lookup itself uses the whole pasted URL: the extracted id is not used after the check.

Everything is pure: datatypes, functions and lemmas. JavaScript fields that may be absent are `Option` values; counts are `nat`.

Modules, one per concern:
- `Wrappers` (wrappers.dfy): `Option`.
- `Videos` (videos.dfy): the raw video record, the `|| 0` reading of counters, the watch URL.
- `VideoUrls` (video_urls.dfy): the regex scanner, the 400 guard, and the watch-URL round trip.
- `Ranking` (ranking.dfy): the stable descending sort by views.
- `Profiles` (profiles.dfy): profile normalisation.
- `Stats` and `StatsScenario` (stats.dfy): `calculateStats` and its properties, with one concrete scenario.
- `VideoList` (video_list.dfy): the per-video response mapping.

Numeric conventions:
- `Math.round(t / n)` for `t >= 0` is `(2t + n) / (2n)` in integer division. Its contract states that the result is the nearest integer with halves rounded up.
- The engagement rate is an integer number of hundredths of a percent, for example 314 for 3.14. It is `((likes + comments + shares) / n) / followers * 100` to the nearest hundredth.

Facts about `server.js` that the model keeps:
- The engagement rate is relative to the follower count. For ten videos of 5000 views and 300 interactions on an account of 10000 followers it is 3.00 (`StatsScenario.TenEqualVideos`).
- `server.js` has no virality score, no growth tier and no second provider, so none is modelled.
- The statistics for an empty window have no label fields. They are exactly the zero object with `topVideo` null and an empty `top3Videos`.

## Model

| member | source | states |
|---|---|---|
| Stats.CalculateStats | server.js:348-394 | An empty window gives exactly the zero object with no top video. Otherwise the top list has min(3, n) entries, in non-increasing order of views. `topVideo` is the first top entry, or null when there is none. With no followers the engagement rate is 0. |
| Stats.TotalAppend | server.js:361-364 | `Stats.Total`, the `reduce` sum of a counter with missing values read as 0, is additive: the total over two windows joined is the sum of their totals. |
| Stats.TotalBounds | server.js:361-364 | If every video's counter lies between lo and hi, `Stats.Total` lies between n times lo and n times hi. |
| Stats.RoundedDiv | server.js:366-369 | `Math.round(t / n)`: the result r satisfies r - 1/2 <= t/n < r + 1/2, so halves round up. |
| Stats.RoundedDivBetween | server.js:366-369 | A rounded quotient stays between any two whole bounds that the exact quotient lies between. |
| Stats.Average | server.js:366-369 | The average of a counter is its total divided by n to the nearest integer, halves up. It lies between the least and the greatest value of that counter in the window. |
| Stats.AveragesWithinRange | server.js:361-369 | Each average field of the statistics is the rounded mean of its total, with missing counters read as 0. It lies between the smallest and the largest value of that counter in the window. |
| Stats.MinCount | server.js:361-369 | The least counter value of a non-empty window: no video has less, and some video has exactly that value. |
| Stats.MaxCount | server.js:361-369 | The greatest counter value of a non-empty window: no video has more, and some video has exactly that value. |
| Stats.EngagementRate | server.js:371-374 | With no followers the rate is 0. Otherwise it is `Stats.Engagement` (`totalEngagement`, likes plus comments plus shares), over n, over followers, times 100, to the nearest hundredth, halves up. |
| Stats.EngagementRateRounding | server.js:371-374 | The rate field of the statistics: 0 without followers, and with followers (likes+comments+shares)/n/followers*100 rounded to the nearest hundredth. |
| Stats.ToTop | server.js:378-383 | A top entry copies the video's title, `play_count` and `digg_count` as they are, with no defaults, so it ranks as its video does. Its URL is the watch URL of the video under the given handle. |
| Stats.TopSelection | server.js:377-378 | The selection has min(3, n) entries and is the front of the stable ranking. It is in non-increasing order of views, and no video after it in the ranking has more views than one in it. |
| Stats.RankingPrefix | server.js:378 | Any front part of a ranking is a ranking, and nothing after it has more views than anything in it. |
| Stats.TopEntries | server.js:378-383 | The top list has one entry per selected video, and each entry is that video's mapping under the profile's handle. |
| Stats.TopUrls | server.js:382 | Each top entry's URL is `https://www.tiktok.com/@` + uniqueId + `/video/` + video_id. |
| Stats.RankingSplit | server.js:377-378 | The selection and the rest of the ranking together are exactly the window, and no video of the rest has more views than a selected one. |
| Stats.TopThreeSelection | server.js:377-383 | The top entries are the mappings of the first min(3, n) videos of the ranking. The kept and the left-out videos together are the whole window. No left-out video has more views than a kept one. Each entry's URL is `https://www.tiktok.com/@` + uniqueId + `/video/` + video_id. |
| Stats.TopVideoLinksBack | server.js:382 | For a slash-free handle and a numeric id, a top entry's URL passes the video analysis check and the regex reads back that video's id. |
| Ranking.Insert | server.js:377 | Inserting a video into a ranking adds exactly that video and keeps the ranking in non-increasing order of views. |
| Ranking.SortByViews | server.js:377 | The sorted copy has the window's length and the same videos. It is in non-increasing order of `play_count`, read as 0 when missing. |
| Ranking.SortByViewsCorrect | server.js:377 | The sorted copy is a permutation of the window, in non-increasing order of `play_count` (or 0 when missing). Videos with equal views keep their listing order, as a stable sort does. |
| Ranking.InsertKeepsTies | server.js:377 | Inserting a video puts it at the front of its own tie class and leaves every other tie class unchanged. |
| Ranking.WithViewsCons | server.js:377 | The videos with a given view count in a list are those of its head, if it has that count, followed by those of its tail. |
| StatsScenario.TotalOfCopies | server.js:361-364 | A window of n identical videos totals n times that video's counter. |
| StatsScenario.EqualVideosAverage | server.js:366-369 | A window of identical videos averages to that video's counters. |
| StatsScenario.EqualVideosTop | server.js:377-379 | A window of at least three identical videos ranks that video three times. |
| StatsScenario.StatsOfWindow | server.js:360-394 | For a non-empty window each field of the statistics is its average, its rate or its top entry, and `topVideo` is the entry of the first ranked video. |
| StatsScenario.ScenarioAverages | server.js:366-369 | Ten videos of 5000/250/25/25 average to 5000/250/25/25. |
| StatsScenario.ScenarioRate | server.js:371-374 | Ten videos of 250/25/25 interactions on 10000 followers give a rate of 3.00 percent. |
| StatsScenario.ScenarioTopEntry | server.js:378-383 | The scenario video's top entry carries its title, views and likes, and links to `https://www.tiktok.com/@creator/video/7`. |
| StatsScenario.TenEqualVideos | server.js:348-394 | Ten videos of 5000/250/25/25 on 10000 followers give averages 5000/250/25/25, a rate of 3.00, three top entries, and a top video linking to `https://www.tiktok.com/@creator/video/7`. |
| Profiles.FirstTruthy | server.js:187-190 | The camelCase alias, else the snake_case alias, else 0: the result is non-zero exactly when one alias is truthy. A truthy camelCase alias wins; otherwise a truthy snake_case alias does. |
| Profiles.StatsOrAbsent | server.js:187-190 | `userData.stats?.…`: a present stats object is read as it is. An absent one reads every alias as absent, so every count falls back to 0. |
| Profiles.HandleOr | server.js:182 | A non-empty `unique_id` is kept. An absent or empty one falls back to the requested username. |
| Profiles.Normalize | server.js:180-192 | The identity fields are copied. `verified` is true only when the payload says true. Each count is the first truthy alias, and every count is 0 when the stats object is absent. |
| Profiles.ProfileFromResponse | server.js:171-196 | There is no profile (the function's null) exactly when the payload or its user object is absent. Otherwise the result is the normalised profile. |
| Profiles.CamelZeroFallsThrough | server.js:187-190 | A camelCase 0 or absent alias falls through to the snake_case alias, or to 0. |
| Profiles.NormalizeRoundTrip | server.js:180-192 | A profile with a non-empty handle, written back as a camelCase payload, normalises to itself, whatever username was requested. |
| Videos.OrZero | server.js:361-364 | A missing count reads as 0, here and in the video list: the result is non-zero exactly when the count is present and non-zero, and then it is that count. |
| Videos.WatchUrl | server.js:382 | The watch URL, here and in the video list, is the fixed prefix, the handle, `/video/` and the id, each at a fixed offset, so the handle and the id can be read back from it. |
| VideoUrls.DigitRun | server.js:487 | `\d+` is greedy: the run is a slice of the input made of digits, and it stops at the end of the input or at a non-digit. |
| VideoUrls.FindFrom | server.js:487 | Scanning from position i finds nothing exactly when no match starts at i or after. When it finds something, that is the digit run of the first match at or after i. |
| VideoUrls.LeftmostFromNext | server.js:487 | When no match starts at i, the first match from i on is the first match from i + 1 on. |
| VideoUrls.ExtractVideoId | server.js:487-492 | No id exactly when the URL has no `video/` followed by a digit. Otherwise the id is non-empty digits: the longest digit run after the leftmost such `video/`. |
| VideoUrls.StartVideoAnalysis | server.js:487-495 | The request is rejected with 400 and `URL TikTok invalide` exactly when there is no match. Otherwise the lookup proceeds with the whole pasted URL, which does contain a video id. |
| VideoUrls.WatchUrlRoundTrip | server.js:382 | For a slash-free handle and a numeric id, extracting from the watch URL gives back that id. |
| VideoUrls.NoMatchBeforeVideoId | server.js:454 | In a watch URL with a slash-free handle, no match starts before the `video/` segment. |
| VideoUrls.PrefixHasNoV | server.js:382 | The fixed prefix `https://www.tiktok.com/@` contains no `v`, so no `video/` can start inside it. |
| VideoUrls.FindFromSkips | server.js:487 | Scanning from i reaches the first match m when nothing between i and m matches. |
| VideoUrls.DigitRunOfDigits | server.js:487 | A run of digits that reaches the end of the input is read whole. |
| VideoList.TitleOrDefault | server.js:446 | The title is never empty. A non-empty title is kept; an absent or empty one becomes `Sans titre`. |
| VideoList.ToView | server.js:444-455 | A response object keeps the video's id. Its title is the video's non-empty title, else `Sans titre`. Thumbnail, duration and creation time are copied. Each counter is the video's count or 0. Its URL is the watch URL under the account's handle, and for a slash-free handle and a numeric id the regex reads the id back from it. |
| VideoList.ListVideos | server.js:444-455 | There is one response object per video, in listing order, and each is that video's mapping. |
| VideoList.ListedTotalsMatchStats | server.js:449-452 | The listed views, likes, comments and shares add up to the totals the statistics are computed from. |
| VideoList.ListedVideosLinkBack | server.js:446-454 | A listed video has a non-empty title and keeps its id. For a slash-free handle and a numeric id, its URL pasted into the video analysis passes the check and is looked up as it is, and the regex reads back that same id. |

## Left out

- Stats.CalculateStats: the input window is a value, so leaving it unchanged is automatic. The spread copy that the source sorts in place is not modelled as a mutation.
- Stats.EngagementRateRounding: the rate is exact rational arithmetic rounded half up to hundredths. The binary floating point of `toFixed(2)` and `parseFloat` can differ from this at the last digit.
- A `null` videos argument is modelled as the empty window. The only caller passes the array returned by the fetch, which is never null.
- Counters are modelled as natural numbers or absent. Negative, fractional, string or NaN values from the upstream payload are not modelled, and neither is JavaScript's double-precision limit.
- A missing `video_id` reads as the text `undefined` in the source's URL. The model's ids are always strings.
- `uniqueId` and the handle are copied as text. The source's handling of non-string values here is not modelled.
- The HTTP routes, status codes other than the 400 for an invalid video URL, CORS and the server start. These are request plumbing.
- The database client, authentication checks and the `connected_accounts` upsert. These are foreign calls and persistence.
- The TikWM HTTP calls and the probing of their response shape. These are network I/O; only the mapping of the returned payload is modelled. The error path of `fetchTikTokUserInfo` is not modelled: on any failure it logs and throws a new error, `Impossible de récupérer les infos du compte`.
- The AI prompts, the chat completion calls, parsing of their output and the hard-coded default analyses. These are external calls and constant text.
- The 1.5 s rate-limit delay, `toLocaleString` and logging. These are timing, locale and I/O.
- VideoUrls.StartVideoAnalysis: the URL is a string. A missing or non-string `videoUrl` makes `videoUrl.match` throw, and the route answers 500, not 400. This is not modelled.
- The extracted `videoId` is not used after the 400 check. The lookup passes the whole URL, and nothing in the model depends on the id.
- Stats.ToTop: its own contract does not state the URL round trip. That is stated for whole statistics by Stats.TopVideoLinksBack, and for a single URL by VideoUrls.WatchUrlRoundTrip.
