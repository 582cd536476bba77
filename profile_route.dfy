/** The profile lookup (`POST` of the profile route file): the username is
    checked, the upstream profile is fetched, an empty answer is a 404, and
    the answer is mapped field by field through `||` fallback chains. */
module ProfileRoute {
  import opened Wrappers
  import opened Radix
  import opened Js
  import opened JsNumber
  import opened Http

  /** The `profile` object of a successful reply; the counts are JavaScript
      numbers and the other fields keep whatever JSON value the chain chose. */
  datatype Profile = Profile(
    username: Json,
    full_name: Json,
    biography: Json,
    profile_pic_url: Json,
    followers_count: Number,
    following_count: Number,
    posts_count: Number,
    media_count: Number,
    is_verified: Json,
    is_private: Json,
    website: Json,
    email: Json,
    phone_number: Json,
    follower_count: Number,
    raw_data: Json)

  const Fallback := "Failed to fetch Instagram profile"
  const NoProfileData := "No profile data found"

  /** `!profile || Object.keys(profile).length === 0`. */
  predicate HasNoData(profile: Json)
    ensures HasNoData(profile) <==>
              || profile.JNull? || profile.JBool? || profile.JNum?
              || profile == JStr("") || profile == JArr([]) || profile == JObj(map[])
  {
    !Truthy(Some(profile)) || OwnKeyCount(profile) == 0
  }

  /** The object literal of lines 140 to 156 for a truthy upstream `profile`
      and the requested `username`. A count whose source cannot be converted
      to a string raises a TypeError. */
  function Normalise(profile: Json, username: Json): (r: Eval<Profile>)
    requires Truthy(Some(profile))
    ensures r.TypeError? <==>
              || Unconvertible(OrElse(Or(Get(profile, "followers_count"), Get(profile, "followers")), JStr("0")))
              || Unconvertible(OrElse(Or(Get(profile, "following_count"), Get(profile, "following")), JStr("0")))
              || Unconvertible(OrElse(Or(Get(profile, "posts_count"), Get(profile, "media_count")), JStr("0")))
    ensures r.Ok? ==>
              var p := r.value;
              && p.follower_count == p.followers_count
              && p.media_count == p.posts_count
              && p.raw_data == profile
              && (p.followers_count.Int? ==> p.followers_count.i >= 0)
              && (p.following_count.Int? ==> p.following_count.i >= 0)
              && (p.posts_count.Int? ==> p.posts_count.i >= 0)
  {
    var followers := CountOf(OrElse(Or(Get(profile, "followers_count"), Get(profile, "followers")), JStr("0")));
    var following := CountOf(OrElse(Or(Get(profile, "following_count"), Get(profile, "following")), JStr("0")));
    var posts := CountOf(OrElse(Or(Get(profile, "posts_count"), Get(profile, "media_count")), JStr("0")));
    var media := CountOf(OrElse(Or(Get(profile, "posts_count"), Get(profile, "media_count")), JStr("0")));
    var follower := CountOf(OrElse(Or(Get(profile, "followers_count"), Get(profile, "followers")), JStr("0")));
    if followers.TypeError? || following.TypeError? || posts.TypeError? || media.TypeError? || follower.TypeError?
    then TypeError
    else
      Ok(Profile(
        username := OrElse(Get(profile, "username"), username),
        full_name := OrElse(Or(Get(profile, "full_name"), Get(profile, "name")), JStr("")),
        biography := OrElse(Or(Get(profile, "biography"), Get(profile, "bio")), JStr("")),
        profile_pic_url := OrElse(Or(Get(profile, "profile_pic_url"), Get(profile, "profile_picture")), JStr("")),
        followers_count := followers.value,
        following_count := following.value,
        posts_count := posts.value,
        media_count := media.value,
        is_verified := OrElse(Or(Get(profile, "is_verified"), Get(profile, "verified")), JBool(false)),
        is_private := OrElse(Or(Get(profile, "is_private"), Get(profile, "private")), JBool(false)),
        website := OrElse(Get(profile, "website"), JStr("")),
        email := OrElse(Get(profile, "email"), JStr("")),
        phone_number := OrElse(Get(profile, "phone_number"), JStr("")),
        follower_count := follower.value,
        raw_data := profile))
  }

  /** Every field of the normalised profile is the declarative fallback
      chain of the candidate keys the source lists, with its default. */
  lemma NormaliseFollowsChains(profile: Json, username: Json)
    requires Truthy(Some(profile))
    requires Normalise(profile, username).Ok?
    ensures var p := Normalise(profile, username).value;
            && p.username == FirstTruthy([Get(profile, "username")], username)
            && p.full_name == FirstTruthy([Get(profile, "full_name"), Get(profile, "name")], JStr(""))
            && p.biography == FirstTruthy([Get(profile, "biography"), Get(profile, "bio")], JStr(""))
            && p.profile_pic_url == FirstTruthy([Get(profile, "profile_pic_url"), Get(profile, "profile_picture")], JStr(""))
            && p.is_verified == FirstTruthy([Get(profile, "is_verified"), Get(profile, "verified")], JBool(false))
            && p.is_private == FirstTruthy([Get(profile, "is_private"), Get(profile, "private")], JBool(false))
            && p.website == FirstTruthy([Get(profile, "website")], JStr(""))
            && p.email == FirstTruthy([Get(profile, "email")], JStr(""))
            && p.phone_number == FirstTruthy([Get(profile, "phone_number")], JStr(""))
            && Ok(p.followers_count) == CountOf(FirstTruthy([Get(profile, "followers_count"), Get(profile, "followers")], JStr("0")))
            && Ok(p.following_count) == CountOf(FirstTruthy([Get(profile, "following_count"), Get(profile, "following")], JStr("0")))
            && Ok(p.posts_count) == CountOf(FirstTruthy([Get(profile, "posts_count"), Get(profile, "media_count")], JStr("0")))
  {
    OrChainOfTwo(Get(profile, "username"), None, username);
    OrChainOfTwo(Get(profile, "full_name"), Get(profile, "name"), JStr(""));
    OrChainOfTwo(Get(profile, "biography"), Get(profile, "bio"), JStr(""));
    OrChainOfTwo(Get(profile, "profile_pic_url"), Get(profile, "profile_picture"), JStr(""));
    OrChainOfTwo(Get(profile, "is_verified"), Get(profile, "verified"), JBool(false));
    OrChainOfTwo(Get(profile, "is_private"), Get(profile, "private"), JBool(false));
    OrChainOfTwo(Get(profile, "website"), None, JStr(""));
    OrChainOfTwo(Get(profile, "email"), None, JStr(""));
    OrChainOfTwo(Get(profile, "phone_number"), None, JStr(""));
    OrChainOfTwo(Get(profile, "followers_count"), Get(profile, "followers"), JStr("0"));
    OrChainOfTwo(Get(profile, "following_count"), Get(profile, "following"), JStr("0"));
    OrChainOfTwo(Get(profile, "posts_count"), Get(profile, "media_count"), JStr("0"));
  }

  /** The whole `POST` handler. `upstream` is what the profile request would
      give; it is consulted, and a call recorded, only for a truthy username. */
  function Post(request: Payload, upstream: Upstream): (h: Handled<Json, ApiReply<Profile>>)
    ensures UsernameStage(request, Fallback).Stop? ==>
              h == Handled(Failure(UsernameStage(request, Fallback).status, UsernameStage(request, Fallback).error), [])
    ensures h.calls != [] <==> UsernameStage(request, Fallback).Continue?
    ensures h.calls != [] ==> h.calls == [Get(request.value, "username").value]
    ensures h.calls != [] && UpstreamStage(upstream, Fallback).Stop? ==>
              h.reply == Failure(UpstreamStage(upstream, Fallback).status, UpstreamStage(upstream, Fallback).error)
    ensures h.calls != [] && upstream.Answered? && !IsOk(upstream.status) && CanCarryBody(upstream.status) ==>
              h.reply == Failure(upstream.status, Text("Instagram API error: " + upstream.statusText))
    ensures h.calls != [] && upstream.Answered? && !IsOk(upstream.status) && !CanCarryBody(upstream.status) ==>
              h.reply == Failure(500, RuntimeMessage)
    ensures h.calls != [] && UpstreamStage(upstream, Fallback).Continue? && !HasNoData(upstream.payload.value)
              && Normalise(upstream.payload.value, h.calls[0]).TypeError? ==>
              h.reply == Failure(500, RuntimeMessage)
    ensures h.calls != [] && UpstreamStage(upstream, Fallback).Continue? && HasNoData(upstream.payload.value) ==>
              h.reply == Failure(404, Text(NoProfileData))
    ensures h.reply.Success? <==>
              && h.calls != []
              && UpstreamStage(upstream, Fallback).Continue?
              && !HasNoData(upstream.payload.value)
              && Normalise(upstream.payload.value, h.calls[0]).Ok?
    ensures h.reply.Success? ==> Ok(h.reply.payload) == Normalise(upstream.payload.value, h.calls[0])
    ensures h.reply.Status() in {200, 400, 404, 500} ||
              (upstream.Answered? && !IsOk(upstream.status) && CanCarryBody(upstream.status) && h.reply.Status() == upstream.status)
  {
    match UsernameStage(request, Fallback)
    case Stop(status, error) => Handled(Failure(status, error), [])
    case Continue(username) =>
      var reply :=
        match UpstreamStage(upstream, Fallback)
        case Stop(status, error) => Failure(status, error)
        case Continue(profile) =>
          if HasNoData(profile) then Failure(404, Text(NoProfileData))
          else
            match Normalise(profile, username)
            case TypeError => Failure(500, RuntimeMessage)
            case Ok(p) => Success(p);
      Handled(reply, [username])
  }

  /** A count is 0 when no candidate of its chain is truthy (missing, null,
      false, 0 or ""), and an integer source other than 0 gives itself
      clamped at 0; the alias fields follow. */
  lemma CountDefaults(profile: Json, username: Json, n: int)
    requires Truthy(Some(profile))
    requires Normalise(profile, username).Ok?
    ensures var p := Normalise(profile, username).value;
            && (!Truthy(Get(profile, "followers_count")) && !Truthy(Get(profile, "followers")) ==>
                  p.followers_count == Int(0) && p.follower_count == Int(0))
            && (!Truthy(Get(profile, "following_count")) && !Truthy(Get(profile, "following")) ==>
                  p.following_count == Int(0))
            && (!Truthy(Get(profile, "posts_count")) && !Truthy(Get(profile, "media_count")) ==>
                  p.posts_count == Int(0) && p.media_count == Int(0))
            && (Get(profile, "followers_count") == Some(JNum(n)) && n != 0 ==>
                  p.followers_count == Int(if n < 0 then 0 else n))
  {
    NormaliseFollowsChains(profile, username);
    CountChainDefaults(Get(profile, "followers_count"), Get(profile, "followers"), n);
    CountChainDefaults(Get(profile, "following_count"), Get(profile, "following"), n);
    CountChainDefaults(Get(profile, "posts_count"), Get(profile, "media_count"), n);
  }

  /** Scenario: the upstream answers `{followers: "<n>", username: "alice"}`
      (for example "1200") for the username "alice". */
  lemma AliceScenario(body: Json, n: nat)
    requires body == JObj(map["followers" := JStr(DecimalString(n)), "username" := JStr("alice")])
    ensures
      var r := Normalise(body, JStr("alice"));
      && r.Ok?
      && r.value.username == JStr("alice")
      && r.value.followers_count == Int(n)
      && r.value.follower_count == Int(n)
      && r.value.posts_count == Int(0)
      && r.value.full_name == JStr("")
      && r.value.is_verified == JBool(false)
      && r.value.raw_data == body
  {
    AliceFields(body, n);
    AliceProfile(body, n);
  }

  /** The scenario above, from the keys the upstream body does and does not carry. */
  lemma AliceProfile(body: Json, n: nat)
    requires body.JObj?
    requires Get(body, "followers") == Some(JStr(DecimalString(n))) && Get(body, "username") == Some(JStr("alice"))
    requires Get(body, "followers_count") == None
    requires Get(body, "following_count") == None && Get(body, "following") == None
    requires Get(body, "posts_count") == None && Get(body, "media_count") == None
    requires Get(body, "full_name") == None && Get(body, "name") == None
    requires Get(body, "is_verified") == None && Get(body, "verified") == None
    ensures
      var r := Normalise(body, JStr("alice"));
      && r.Ok?
      && r.value.username == JStr("alice")
      && r.value.followers_count == Int(n)
      && r.value.follower_count == Int(n)
      && r.value.posts_count == Int(0)
      && r.value.full_name == JStr("")
      && r.value.is_verified == JBool(false)
      && r.value.raw_data == body
  {
    AliceCounts(body, n);
    CountOfDecimalString(n);
    CountChainDefaults(None, None, 0);
    NormaliseFollowsChains(body, JStr("alice"));
    OrChainOfTwo(None, Some(JStr(DecimalString(n))), JStr("0"));
    OrChainOfTwo(Some(JStr("alice")), None, JStr("alice"));
    OrChainOfTwo(None, None, JStr(""));
    OrChainOfTwo(None, None, JBool(false));
  }

  /** The three count chains of the scenario convert, so the profile normalises. */
  lemma AliceCounts(body: Json, n: nat)
    requires body.JObj?
    requires Get(body, "followers") == Some(JStr(DecimalString(n)))
    requires Get(body, "followers_count") == None
    requires Get(body, "following_count") == None && Get(body, "following") == None
    requires Get(body, "posts_count") == None && Get(body, "media_count") == None
    ensures Normalise(body, JStr("alice")).Ok?
  {
    var followers := OrElse(Or(Get(body, "followers_count"), Get(body, "followers")), JStr("0"));
    var following := OrElse(Or(Get(body, "following_count"), Get(body, "following")), JStr("0"));
    var posts := OrElse(Or(Get(body, "posts_count"), Get(body, "media_count")), JStr("0"));
    assert followers == JStr(DecimalString(n));
    assert following == JStr("0") && posts == JStr("0");
    assert !Unconvertible(followers) && !Unconvertible(following) && !Unconvertible(posts);
  }

  lemma AliceFields(body: Json, n: nat)
    requires body == JObj(map["followers" := JStr(DecimalString(n)), "username" := JStr("alice")])
    ensures Get(body, "followers") == Some(JStr(DecimalString(n))) && Get(body, "username") == Some(JStr("alice"))
    ensures Get(body, "followers_count") == None
    ensures Get(body, "following_count") == None && Get(body, "following") == None
    ensures Get(body, "posts_count") == None && Get(body, "media_count") == None
    ensures Get(body, "full_name") == None && Get(body, "name") == None
    ensures Get(body, "is_verified") == None && Get(body, "verified") == None
  {
  }
}
