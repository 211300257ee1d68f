/**
 * The mapping of the TikWM `user/info` payload (`data.user` and `data.stats`)
 * into the canonical creator profile that `fetchTikTokUserInfo` returns.
 */
module Profiles {
  import opened Wrappers

  /** A counter that the payload may carry under a camelCase and a snake_case name. */
  datatype Aliased = Aliased(camel: Option<nat>, snake: Option<nat>)

  /**
   * `data.user`. `uniqueId` holds the payload's snake_case `unique_id`; the
   * two avatar fields are read under their camelCase names.
   */
  datatype RawUser = RawUser(
    id: Option<string>,
    uniqueId: Option<string>,
    nickname: Option<string>,
    avatarLarger: Option<string>,
    avatarMedium: Option<string>,
    signature: Option<string>,
    verified: Option<bool>)

  /** `data.stats`: followerCount / follower_count, followingCount / following_count, and so on. */
  datatype RawStats = RawStats(follower: Aliased, following: Aliased, heart: Aliased, video: Aliased)

  /** `response.data.data`. */
  datatype UserData = UserData(user: Option<RawUser>, stats: Option<RawStats>)

  /** The canonical profile. */
  datatype Profile = Profile(
    id: Option<string>,
    uniqueId: string,
    nickname: Option<string>,
    avatarLarger: Option<string>,
    avatarMedium: Option<string>,
    signature: Option<string>,
    followerCount: nat,
    followingCount: nat,
    heartCount: nat,
    videoCount: nat,
    verified: bool)

  /** JavaScript truthiness of a number that may be absent. */
  predicate Truthy(c: Option<nat>) {
    c.Some? && c.value != 0
  }

  /** `camel || snake || 0`. */
  function FirstTruthy(a: Aliased): (r: nat)
    ensures r != 0 <==> Truthy(a.camel) || Truthy(a.snake)
    ensures Truthy(a.camel) ==> r == a.camel.value
    ensures !Truthy(a.camel) && Truthy(a.snake) ==> r == a.snake.value
  {
    if Truthy(a.camel) then a.camel.value
    else if Truthy(a.snake) then a.snake.value
    else 0
  }

  /** `stats?.…`: an absent stats object reads every alias as absent. */
  function StatsOrAbsent(stats: Option<RawStats>): (st: RawStats)
    ensures stats.Some? ==> st == stats.value
    ensures stats.None? ==> FirstTruthy(st.follower) == FirstTruthy(st.following)
                            == FirstTruthy(st.heart) == FirstTruthy(st.video) == 0
  {
    stats.GetOr(RawStats(Aliased(None, None), Aliased(None, None), Aliased(None, None), Aliased(None, None)))
  }

  /** `user.unique_id || username`: an absent or empty id falls back to the requested handle. */
  function HandleOr(uniqueId: Option<string>, username: string): (r: string)
    ensures uniqueId.Some? && uniqueId.value != "" ==> r == uniqueId.value
    ensures uniqueId.None? || uniqueId.value == "" ==> r == username
  {
    if uniqueId.Some? && uniqueId.value != "" then uniqueId.value else username
  }

  /** The object literal built from `data.user` and `data.stats`. */
  function Normalize(user: RawUser, stats: Option<RawStats>, username: string): (p: Profile)
    ensures p.id == user.id && p.nickname == user.nickname && p.signature == user.signature
    ensures p.avatarLarger == user.avatarLarger && p.avatarMedium == user.avatarMedium
    ensures p.verified <==> user.verified == Some(true)
    ensures p.uniqueId == HandleOr(user.uniqueId, username)
    ensures stats.None? ==> p.followerCount == p.followingCount == p.heartCount == p.videoCount == 0
    ensures stats.Some? ==> p.followerCount == FirstTruthy(stats.value.follower)
                            && p.followingCount == FirstTruthy(stats.value.following)
                            && p.heartCount == FirstTruthy(stats.value.heart)
                            && p.videoCount == FirstTruthy(stats.value.video)
  {
    var st := StatsOrAbsent(stats);
    Profile(
      user.id,
      HandleOr(user.uniqueId, username),
      user.nickname,
      user.avatarLarger,
      user.avatarMedium,
      user.signature,
      FirstTruthy(st.follower),
      FirstTruthy(st.following),
      FirstTruthy(st.heart),
      FirstTruthy(st.video),
      user.verified.GetOr(false))
  }

  /** The success path of `fetchTikTokUserInfo`; `None` is its `null` when there is no user. */
  function ProfileFromResponse(data: Option<UserData>, username: string): (r: Option<Profile>)
    ensures r.None? <==> data.None? || data.value.user.None?
    ensures r.Some? ==> r.value == Normalize(data.value.user.value, data.value.stats, username)
  {
    if data.Some? && data.value.user.Some? then
      Some(Normalize(data.value.user.value, data.value.stats, username))
    else None
  }

  /** A camelCase 0 does not win: the snake_case alias is read instead. */
  lemma CamelZeroFallsThrough(a: Aliased)
    requires a.camel == Some(0) || a.camel.None?
    ensures FirstTruthy(a) == a.snake.GetOr(0)
  {
  }

  /** The payload that carries a profile in camelCase, the normaliser's inverse. */
  function ToUserData(p: Profile): UserData {
    UserData(
      Some(RawUser(p.id, Some(p.uniqueId), p.nickname, p.avatarLarger, p.avatarMedium, p.signature, Some(p.verified))),
      Some(RawStats(
        Aliased(Some(p.followerCount), None),
        Aliased(Some(p.followingCount), None),
        Aliased(Some(p.heartCount), None),
        Aliased(Some(p.videoCount), None))))
  }

  /** A profile written back as a payload normalises to itself, whatever handle was requested. */
  lemma NormalizeRoundTrip(p: Profile, username: string)
    requires p.uniqueId != ""
    ensures ProfileFromResponse(Some(ToUserData(p)), username) == Some(p)
  {
  }
}
