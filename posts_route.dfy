/** The post listing (`POST` of the posts route file): the username is
    checked, the upstream listing is fetched, the list of posts is taken from
    the body, and every post is mapped through `||` fallback chains. */
module PostsRoute {
  import opened Wrappers
  import opened Js
  import opened JsNumber
  import opened Http

  /** One element of the `posts` array of a successful reply. */
  datatype Post = Post(
    id: Json,
    caption: Json,
    timestamp: Json,
    media_type: Json,
    media_url: Json,
    like_count: Number,
    comment_count: Number,
    raw_data: Json)

  /** The payload of a successful reply: the posts and the whole upstream body. */
  datatype Page = Page(posts: seq<Post>, raw_response: Json)

  const Fallback := "Failed to fetch Instagram posts"

  /** The list the handler maps over: the body itself when it is an array,
      otherwise `data.posts || data.data || []`. Reading a property of null,
      or calling `.map` on a value that is not an array, raises a TypeError. */
  function PostList(data: Json): (r: Eval<seq<Json>>)
    ensures data.JArr? ==> r == Ok(data.items)
    ensures data.JNull? ==> r == TypeError
    ensures !data.JArr? && !data.JNull? ==>
              var chosen := FirstTruthy([Get(data, "posts"), Get(data, "data")], JArr([]));
              r == (if chosen.JArr? then Ok(chosen.items) else TypeError)
    ensures !data.JArr? && !data.JNull? && !Truthy(Get(data, "posts")) && !Truthy(Get(data, "data")) ==>
              r == Ok([])
  {
    if data.JArr? then Ok(data.items)
    else if data.JNull? then TypeError
    else
      OrChainOfTwo(Get(data, "posts"), Get(data, "data"), JArr([]));
      FirstTruthyChoice([Get(data, "posts"), Get(data, "data")], JArr([]));
      match OrElse(Or(Get(data, "posts"), Get(data, "data")), JArr([]))
      case JArr(posts) => Ok(posts)
      case _ => TypeError
  }

  /** The object literal of lines 50 to 57 for one element. Reading a
      property of a null element, or converting a count source that cannot
      become a string, raises a TypeError. */
  function Normalise(post: Json): (r: Eval<Post>)
    ensures post.JNull? ==> r == TypeError
    ensures !post.JNull? ==>
              (r.TypeError? <==>
                 || Unconvertible(OrElse(Or(Get(post, "like_count"), Get(post, "likes")), JStr("0")))
                 || Unconvertible(OrElse(Or(Get(post, "comment_count"), Get(post, "comments")), JStr("0"))))
    ensures r.Ok? ==>
              && r.value.raw_data == post
              && (r.value.like_count.Int? ==> r.value.like_count.i >= 0)
              && (r.value.comment_count.Int? ==> r.value.comment_count.i >= 0)
  {
    if post.JNull? then TypeError
    else
      var likes := CountOf(OrElse(Or(Get(post, "like_count"), Get(post, "likes")), JStr("0")));
      var comments := CountOf(OrElse(Or(Get(post, "comment_count"), Get(post, "comments")), JStr("0")));
      if likes.TypeError? || comments.TypeError? then TypeError
      else
        Ok(Post(
          id := OrElse(Or(Get(post, "id"), Get(post, "pk")), JStr("")),
          caption := OrElse(Or(Get(post, "caption"), Get(post, "text")), JStr("")),
          timestamp := OrElse(Or(Get(post, "timestamp"), Get(post, "taken_at")), JNull),
          media_type := OrElse(Or(Get(post, "media_type"), Get(post, "type")), JStr("image")),
          media_url := OrElse(Or(Or(Get(post, "media_url"), Get(post, "image_url")),
                                 OptionalGet(Get(post, "images"), "0")), JStr("")),
          like_count := likes.value,
          comment_count := comments.value,
          raw_data := post))
  }

  /** `posts.map(...)` over the normaliser. */
  function MapPosts(list: seq<Json>): (r: Eval<seq<Post>>)
    ensures r.Ok? ==> |r.value| == |list|
  {
    MapAll(Normalise, list)
  }

  /** The map succeeds exactly when every element normalises, and then the
      i-th post is the i-th element normalised, carrying it as raw data. */
  lemma MapPostsElementwise(list: seq<Json>)
    ensures MapPosts(list).Ok? <==> forall i | 0 <= i < |list| :: Normalise(list[i]).Ok?
    ensures MapPosts(list).Ok? ==>
              forall i | 0 <= i < |list| :: Ok(MapPosts(list).value[i]) == Normalise(list[i])
    ensures MapPosts(list).Ok? ==>
              forall i | 0 <= i < |list| :: MapPosts(list).value[i].raw_data == list[i]
  {
    MapAllElementwise(Normalise, list);
  }

  /** The whole `POST` handler. `upstream` is what the listing request would
      give; it is consulted, and a call recorded, only for a truthy username. */
  function Handle(request: Payload, upstream: Upstream): (h: Handled<Json, ApiReply<Page>>)
    ensures UsernameStage(request, Fallback).Stop? ==>
              h == Handled(Failure(UsernameStage(request, Fallback).status, UsernameStage(request, Fallback).error), [])
    ensures h.calls != [] <==> UsernameStage(request, Fallback).Continue?
    ensures h.calls != [] ==> h.calls == [Get(request.value, "username").value]
    ensures h.calls != [] && UpstreamStage(upstream, Fallback).Stop? ==>
              h.reply == Failure(UpstreamStage(upstream, Fallback).status, UpstreamStage(upstream, Fallback).error)
    ensures h.calls != [] && UpstreamStage(upstream, Fallback).Continue? && PostList(upstream.payload.value).TypeError? ==>
              h.reply == Failure(500, RuntimeMessage)
    ensures h.calls != [] && UpstreamStage(upstream, Fallback).Continue? && PostList(upstream.payload.value).Ok?
              && MapPosts(PostList(upstream.payload.value).value).TypeError? ==>
              h.reply == Failure(500, RuntimeMessage)
    ensures h.calls != [] && upstream.Answered? && !IsOk(upstream.status) && CanCarryBody(upstream.status) ==>
              h.reply == Failure(upstream.status, Text("Instagram API error: " + upstream.statusText))
    ensures h.calls != [] && upstream.Answered? && !IsOk(upstream.status) && !CanCarryBody(upstream.status) ==>
              h.reply == Failure(500, RuntimeMessage)
    ensures h.reply.Success? <==>
              && h.calls != []
              && UpstreamStage(upstream, Fallback).Continue?
              && PostList(upstream.payload.value).Ok?
              && MapPosts(PostList(upstream.payload.value).value).Ok?
    ensures h.reply.Success? ==>
              && h.reply.payload.raw_response == upstream.payload.value
              && Ok(h.reply.payload.posts) == MapPosts(PostList(upstream.payload.value).value)
    ensures h.reply.Status() in {200, 400, 500} ||
              (upstream.Answered? && !IsOk(upstream.status) && CanCarryBody(upstream.status) && h.reply.Status() == upstream.status)
  {
    match UsernameStage(request, Fallback)
    case Stop(status, error) => Handled(Failure(status, error), [])
    case Continue(username) =>
      var reply :=
        match UpstreamStage(upstream, Fallback)
        case Stop(status, error) => Failure(status, error)
        case Continue(data) =>
          match PostList(data)
          case TypeError => Failure(500, RuntimeMessage)
          case Ok(list) =>
            match MapPosts(list)
            case TypeError => Failure(500, RuntimeMessage)
            case Ok(posts) => Success(Page(posts, data));
      Handled(reply, [username])
  }

  /** A listing whose body carries no posts (neither `posts` nor `data` is
      truthy) is still a success, with an empty list and the body echoed. */
  lemma EmptyListingSucceeds(request: Payload, upstream: Upstream)
    requires UsernameStage(request, Fallback).Continue?
    requires UpstreamStage(upstream, Fallback).Continue?
    requires var data := upstream.payload.value;
             && !data.JArr? && !data.JNull?
             && !Truthy(Get(data, "posts")) && !Truthy(Get(data, "data"))
    ensures Handle(request, upstream).reply == Success(Page([], upstream.payload.value))
  {
  }

  /** Every field of a normalised post is the declarative fallback chain of
      the candidate keys the source lists, with its default; `images?.[0]`
      is undefined when `images` is missing or null. */
  lemma NormaliseFollowsChains(post: Json)
    requires Normalise(post).Ok?
    ensures var p := Normalise(post).value;
            && p.id == FirstTruthy([Get(post, "id"), Get(post, "pk")], JStr(""))
            && p.caption == FirstTruthy([Get(post, "caption"), Get(post, "text")], JStr(""))
            && p.timestamp == FirstTruthy([Get(post, "timestamp"), Get(post, "taken_at")], JNull)
            && p.media_type == FirstTruthy([Get(post, "media_type"), Get(post, "type")], JStr("image"))
            && p.media_url == FirstTruthy([Get(post, "media_url"), Get(post, "image_url"),
                                           OptionalGet(Get(post, "images"), "0")], JStr(""))
            && Ok(p.like_count) == CountOf(FirstTruthy([Get(post, "like_count"), Get(post, "likes")], JStr("0")))
            && Ok(p.comment_count) == CountOf(FirstTruthy([Get(post, "comment_count"), Get(post, "comments")], JStr("0")))
  {
    OrChainOfTwo(Get(post, "id"), Get(post, "pk"), JStr(""));
    OrChainOfTwo(Get(post, "caption"), Get(post, "text"), JStr(""));
    OrChainOfTwo(Get(post, "timestamp"), Get(post, "taken_at"), JNull);
    OrChainOfTwo(Get(post, "media_type"), Get(post, "type"), JStr("image"));
    OrChains(Get(post, "media_url"), Get(post, "image_url"), OptionalGet(Get(post, "images"), "0"), JStr(""));
    OrChainOfTwo(Get(post, "like_count"), Get(post, "likes"), JStr("0"));
    OrChainOfTwo(Get(post, "comment_count"), Get(post, "comments"), JStr("0"));
  }

  /** The defaults of a post with none of the source keys set: empty id,
      caption and media URL, null timestamp, "image" media type, zero counts. */
  lemma NormaliseDefaults(post: Json)
    requires post == JObj(map[])
    ensures Normalise(post) == Ok(Post(JStr(""), JStr(""), JNull, JStr("image"), JStr(""), Int(0), Int(0), post))
  {
    EmptyFields(post);
    BarePost(post);
  }

  lemma BarePost(post: Json)
    requires post.JObj?
    requires Get(post, "id") == None && Get(post, "pk") == None
    requires Get(post, "caption") == None && Get(post, "text") == None
    requires Get(post, "timestamp") == None && Get(post, "taken_at") == None
    requires Get(post, "media_type") == None && Get(post, "type") == None
    requires Get(post, "media_url") == None && Get(post, "image_url") == None
    requires OptionalGet(Get(post, "images"), "0") == None
    requires Get(post, "like_count") == None && Get(post, "likes") == None
    requires Get(post, "comment_count") == None && Get(post, "comments") == None
    ensures Normalise(post) == Ok(Post(JStr(""), JStr(""), JNull, JStr("image"), JStr(""), Int(0), Int(0), post))
  {
    CountChainDefaults(None, None, 0);
    OrChainOfTwo(None, None, JStr("0"));
    assert Normalise(post).Ok?;
    NormaliseFollowsChains(post);
    OrChainOfTwo(None, None, JStr(""));
    OrChainOfTwo(None, None, JNull);
    OrChainOfTwo(None, None, JStr("image"));
    OrChains(None, None, None, JStr(""));
  }

  lemma EmptyFields(post: Json)
    requires post == JObj(map[])
    ensures Get(post, "id") == None && Get(post, "pk") == None
    ensures Get(post, "caption") == None && Get(post, "text") == None
    ensures Get(post, "timestamp") == None && Get(post, "taken_at") == None
    ensures Get(post, "media_type") == None && Get(post, "type") == None
    ensures Get(post, "media_url") == None && Get(post, "image_url") == None
    ensures OptionalGet(Get(post, "images"), "0") == None
    ensures Get(post, "like_count") == None && Get(post, "likes") == None
    ensures Get(post, "comment_count") == None && Get(post, "comments") == None
  {
  }

  /** Scenario: a bare array `[{pk: "1", text: "hi", likes: "<n>"}]` (for
      example n = 5) gives one post with id "1", caption "hi", that like
      count, media type "image", and the element itself as raw data. */
  lemma BareArrayScenario(element: Json, n: nat)
    requires element == JObj(map["pk" := JStr("1"), "text" := JStr("hi"), "likes" := JStr(Radix.DecimalString(n))])
    ensures var r := MapPosts(PostList(JArr([element])).value);
            && r.Ok? && |r.value| == 1
            && r.value[0].id == JStr("1")
            && r.value[0].caption == JStr("hi")
            && r.value[0].like_count == Int(n)
            && r.value[0].comment_count == Int(0)
            && r.value[0].media_type == JStr("image")
            && r.value[0].raw_data == element
  {
    ElementFields(element, n);
    var p := ElementPost(element, n);
    SingletonListing(element, p);
  }

  /** A one-element array whose element normalises maps to that one post. */
  lemma SingletonListing(element: Json, p: Post)
    requires Normalise(element) == Ok(p)
    ensures MapPosts(PostList(JArr([element])).value) == Ok([p])
  {
    var list := PostList(JArr([element])).value;
    assert list == [element];
    MapPostsElementwise(list);
    assert MapPosts(list).value == [p];
  }

  /** The single element of the scenario above, normalised. */
  lemma ElementPost(element: Json, n: nat) returns (p: Post)
    requires element.JObj?
    requires Get(element, "id") == None && Get(element, "pk") == Some(JStr("1"))
    requires Get(element, "caption") == None && Get(element, "text") == Some(JStr("hi"))
    requires Get(element, "like_count") == None && Get(element, "likes") == Some(JStr(Radix.DecimalString(n)))
    requires Get(element, "comment_count") == None && Get(element, "comments") == None
    requires Get(element, "media_type") == None && Get(element, "type") == None
    ensures Normalise(element) == Ok(p)
    ensures && p.id == JStr("1") && p.caption == JStr("hi") && p.like_count == Int(n)
            && p.comment_count == Int(0) && p.media_type == JStr("image") && p.raw_data == element
  {
    CountOfDecimalString(n);
    CountChainDefaults(None, None, 0);
    OrChainOfTwo(None, Some(JStr(Radix.DecimalString(n))), JStr("0"));
    OrChainOfTwo(None, None, JStr("0"));
    assert Normalise(element).Ok?;
    p := Normalise(element).value;
    NormaliseFollowsChains(element);
    OrChainOfTwo(None, Some(JStr("1")), JStr(""));
    OrChainOfTwo(None, Some(JStr("hi")), JStr(""));
    OrChainOfTwo(None, None, JStr("image"));
  }

  lemma ElementFields(element: Json, n: nat)
    requires element == JObj(map["pk" := JStr("1"), "text" := JStr("hi"), "likes" := JStr(Radix.DecimalString(n))])
    ensures Get(element, "id") == None && Get(element, "pk") == Some(JStr("1"))
    ensures Get(element, "caption") == None && Get(element, "text") == Some(JStr("hi"))
    ensures Get(element, "like_count") == None && Get(element, "likes") == Some(JStr(Radix.DecimalString(n)))
    ensures Get(element, "comment_count") == None && Get(element, "comments") == None
    ensures Get(element, "media_type") == None && Get(element, "type") == None
  {
  }
}
