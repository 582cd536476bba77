# Instagram API routes, modelled in Dafny

This project models the server side of a small Next.js site that shows an
Instagram profile. It covers three route handlers:

- **Image proxy** (`GET` in `app/api/instagram-profile/route.ts`) takes the
  `url` query parameter and refuses it when it is missing, unparsable, or
  when its hostname contains none of the fragments `instagram.com`,
  `cdninstagram.com`, `fbcdn.net` and `scontent`. Otherwise it fetches the
  image and returns its bytes with Content-Type (default `image/jpeg`),
  `Cache-Control: public, max-age=604800, immutable` and
  `Access-Control-Allow-Origin: *`. It answers 504 on a timeout abort,
  passes through the status of a failed upstream response, and answers 500
  otherwise.
- **Profile lookup** (`POST` in the same file) reads `username` from the
  JSON body. It answers 400 when `username` is falsy, asks the profile API
  once, and passes through the status of a failed upstream response. It
  answers 404 when the returned profile is falsy or has no own keys.
  Otherwise it normalises the profile with `||` fallback chains and
  `Math.max(0, Number.parseInt(...))` counts.
- **Post listing** (`POST` in `app/api/instagram-posts/route.ts`) does the
  same username and upstream steps. It takes the body itself when it is an
  array, else `data.posts || data.data || []`. It maps every element through
  a fallback-chain normaliser and answers `{posts, raw_response}`, including
  when the list is empty.

The model is pure. Each handler is a function from its inputs to a
`Handled(reply, calls)` value, and `calls` lists the outbound requests the
handler would make. What the network, the URL parser and the clock would
deliver are parameters:

- the result of `fetch`, including an `AbortError` raised by the 10-second
  timer;
- the parsed or unparsable JSON bodies;
- `new URL(...).hostname`, as a partial function.

This makes "no request is made" a provable statement (`calls == []`).

JavaScript semantics that the handlers rely on are modelled explicitly:

- truthiness, and `||` returning one of its operands;
- property access on objects, arrays and strings, where reading a property
  of null raises a TypeError;
- `Object.keys(...).length`;
- `ToString` for the conversion inside `parseInt`, where an object with an
  own `toString` key cannot be converted;
- `Number.parseInt` as in section 19.2.5 of ECMA-262: leading
  StrWhiteSpaceChar, sign, `0x` prefix, longest digit prefix, and NaN when
  there are no digits;
- `Math.max(0, NaN)` being NaN.

In the two JSON routes, an exception (a fetch that throws, a body that is
not JSON, a TypeError raised by the normalisers) reaches the handler's
catch-all, which answers 500 with the error's message, or with the route's
fallback text when that message is empty. In the image proxy, the inner
catch turns an `AbortError` into 504 and rethrows anything else, and the
outer catch answers 500 with the fixed text "Internal server error".

The hostname check is a substring test, not a domain-suffix test. A suffix
test would reject `notinstagram.com`; this substring test admits it. The
lemma `ImageProxy.SubstringMatchExamples` proves that `notinstagram.com`,
`scontent-fake.example.com` and `instagram.com.example.net` are all
allowed.

A JSON reply can carry only a status from 200 to 599 other than 204, 205 and
304; the Response constructor throws for any other status. Where a handler
would pass an upstream status through, such a status therefore ends in the
catch-all and a 500.

Modules:

| file | module | contents |
|---|---|---|
| `wrappers.dfy` | `Wrappers` | `Option` |
| `radix.dfy` | `Radix` | decimal and hexadecimal digits, digit strings and their values |
| `js.dfy` | `Js` | JSON values, truthiness, the `or` operator, property access, `Object.keys`, `Array.prototype.map` |
| `js_number.dfy` | `JsNumber` | `ToString`, `Number.parseInt`, `Math.max(0, ·)`, the count conversion |
| `http.dfy` | `Http` | upstream outcomes, JSON replies, the shared username and upstream stages |
| `image_proxy.dfy` | `ImageProxy` | the image proxy |
| `profile_route.dfy` | `ProfileRoute` | the profile lookup |
| `posts_route.dfy` | `PostsRoute` | the post listing |

## Model

| member | source | states |
|---|---|---|
| `Js.Truthy` | app/api/instagram-profile/route.ts:128 | null and undefined are never truthy; every array and object, even an empty one, is truthy |
| `Js.Or` | app/api/instagram-profile/route.ts:141-153 | the `or` of `a` and `b` is one of its operands; it is truthy iff either operand is; it is `a` when `a` is truthy and `b` when `a` is falsy |
| `Js.OrElse` | app/api/instagram-profile/route.ts:142-153 | a chain ending in a defined default is the `or` of its operands and is never undefined |
| `Js.FirstTruthyChoice` | app/api/instagram-profile/route.ts:141-153 | a fallback chain yields its default when no candidate is truthy, and otherwise the first truthy candidate |
| `Js.OrChains` | app/api/instagram-posts/route.ts:50-56 | the `or` chains of one, two and three candidates ending in a default are exactly that fallback chain |
| `Js.GetIndex` | app/api/instagram-posts/route.ts:54 | `images[0]` style reads: index `i` of an array or string is its `i`-th element or character, and undefined past the end |
| `Js.MapAll` | app/api/instagram-posts/route.ts:49 | a successful `map` has as many results as the list has elements |
| `Js.MapAllElementwise` | app/api/instagram-posts/route.ts:49-58 | `map` succeeds iff the callback succeeds on every element, and then element `i` of the result is the callback's result on element `i` |
| `Radix.ValueOfDecimalString` | app/api/instagram-profile/route.ts:145 | reading back the decimal rendering of `n` gives `n` |
| `Radix.DecimalStringOfValue` | app/api/instagram-profile/route.ts:145 | a canonical digit string is the rendering of its value (the inverse direction) |
| `JsNumber.ToString` | app/api/instagram-profile/route.ts:145 | conversion raises a TypeError exactly for values that hold an object with an own `toString`; strings are themselves, integers their decimal text |
| `JsNumber.Join` | app/api/instagram-profile/route.ts:145 | joining converted array elements fails iff one of them failed |
| `JsNumber.TrimStart` | app/api/instagram-profile/route.ts:145 | the result is a suffix of the input, everything dropped is white space, and it does not start with white space |
| `JsNumber.ParseInt` | app/api/instagram-profile/route.ts:145 | `parseInt` yields an integer only when its input holds a decimal digit, so a string without one gives NaN |
| `JsNumber.ParseIntReadsLeadingDigits` | app/api/instagram-profile/route.ts:145 | `parseInt` of an optional minus sign, the decimal text of `n` and any tail that does not start with a digit (nor, when `n` is 0, with `x` or `X`) is `n` or `-n` |
| `JsNumber.ParseIntOfNumberString` | app/api/instagram-profile/route.ts:145 | `parseInt` of an integer's own text gives the integer back |
| `JsNumber.ParseIntSkipsWhiteSpace` | app/api/instagram-profile/route.ts:145 | leading white space does not change the result of `parseInt` |
| `JsNumber.MaxZero` | app/api/instagram-profile/route.ts:145 | `Math.max(0, x)` is NaN iff `x` is, and otherwise the larger of `x` and 0 |
| `JsNumber.CountOf` | app/api/instagram-profile/route.ts:145 | a count raises iff its source cannot be converted; an integer result is never negative; an integer source is clamped at 0; a digitless string, a boolean or a plain object gives NaN |
| `JsNumber.CountChainDefaults` | app/api/instagram-posts/route.ts:55-56 | a count whose two candidates are falsy is 0; a non-zero integer first candidate gives itself clamped at 0 |
| `JsNumber.CountOfDecimalString` | app/api/instagram-profile/route.ts:145 | a count given as the decimal text of `n` is `n` |
| `Http.UsernameStage` | app/api/instagram-profile/route.ts:89-93 | the handler goes on iff the body parses, is not null and has a truthy `username`; a falsy one answers 400 "Username is required"; a body that is not JSON is a 500 with its message (or the fallback), and a null body a 500 with the runtime's TypeError message |
| `Http.UpstreamStage` | app/api/instagram-profile/route.ts:99-124 | the handler goes on iff the upstream answered ok with JSON; a non-ok answer passes its status through with "Instagram API error: " and its status text when a JSON reply can carry that status, and is a 500 otherwise; a fetch that throws, or an ok answer whose body is not JSON, is a 500 with the error's message (or the fallback); every stop's status can be carried |
| `ImageProxy.Includes` | app/api/instagram-profile/route.ts:23 | `s.includes(part)` holds iff `part` occurs in `s` at some position |
| `ImageProxy.IsAllowed` | app/api/instagram-profile/route.ts:16-23 | a hostname is allowed iff it contains `instagram.com`, `fbcdn.net` or `scontent`: the four-entry list decides exactly as these three |
| `ImageProxy.CdnEntryIsSubsumed` | app/api/instagram-profile/route.ts:18 | a hostname containing `cdninstagram.com` contains `instagram.com`, so that entry never changes the decision |
| `ImageProxy.Check` | app/api/instagram-profile/route.ts:5-31 | a missing or empty `url` is refused first, then an unparsable one, then a hostname containing no allowed fragment; a URL is permitted iff it parses and its hostname contains one |
| `ImageProxy.Caught` | app/api/instagram-profile/route.ts:73-83 | an `AbortError` is a 504 "Request timeout"; every other exception ends in the outer catch as 500 "Internal server error" |
| `ImageProxy.Respond` | app/api/instagram-profile/route.ts:35-83 | 504 iff the fetch or the body read was aborted; any other exception from either is 500 "Internal server error"; an image iff the response is ok and its body is read; a non-ok status is passed through when a JSON reply can carry it and is a 500 otherwise; the status is 200, 500, 504 or the upstream's; the image keeps the bytes and gets exactly three headers with the fixed Cache-Control, `*` origin and Content-Type defaulting to `image/jpeg` |
| `ImageProxy.Get` | app/api/instagram-profile/route.ts:3-85 | missing, invalid and forbidden URLs get their 400/400/403 replies and no fetch; a fetch of exactly the given URL happens iff it is permitted, and its reply is `Respond`'s; the status is 200, 400, 403, 500, 504 or the upstream's |
| `ImageProxy.IncludesTransitive` | app/api/instagram-profile/route.ts:23 | substring containment is transitive |
| `ImageProxy.AllowanceIsMonotone` | app/api/instagram-profile/route.ts:16-28 | a hostname that contains an allowed hostname is allowed |
| `ImageProxy.HostnameWithoutNIsDenied` | app/api/instagram-profile/route.ts:16-28 | every allowed fragment contains an `n`, so a hostname without one is forbidden |
| `ImageProxy.SubstringMatchExamples` | app/api/instagram-profile/route.ts:16-28 | look-alike and embedding hostnames are allowed; `example.com` and `evil.example.com` are forbidden |
| `ProfileRoute.HasNoData` | app/api/instagram-profile/route.ts:128 | the 404 test holds exactly for null, booleans, numbers (true and 5 included), the empty string, the empty array and the empty object |
| `ProfileRoute.Normalise` | app/api/instagram-profile/route.ts:138-156 | normalising raises iff one of the three count sources cannot be converted; `follower_count` equals `followers_count`, `media_count` equals `posts_count`, `raw_data` is the upstream body, and integer counts are never negative |
| `ProfileRoute.NormaliseFollowsChains` | app/api/instagram-profile/route.ts:141-155 | every profile field is the fallback chain over the keys the route lists for it, with its default |
| `ProfileRoute.CountDefaults` | app/api/instagram-profile/route.ts:145-154 | a count whose candidates are all falsy is 0, with its alias; a non-zero integer `followers_count` gives itself clamped at 0 |
| `ProfileRoute.Post` | app/api/instagram-profile/route.ts:87-168 | an early stop makes no upstream call; exactly one call with the username happens otherwise; a non-ok upstream status passes through when a JSON reply can carry it and is a 500 otherwise; every other upstream stop (a fetch that throws, a body that is not JSON) is the reply; an empty profile gives 404; a count that cannot be converted gives 500; success iff every stage passes and normalising succeeds, with the normalised profile as payload; the status is 200, 400, 404, 500 or a passed-through upstream status |
| `ProfileRoute.AliceScenario` | app/api/instagram-profile/route.ts:138-156 | the body `{followers: "<n>", username: "alice"}` normalises to username `alice`, `n` followers (also as `follower_count`), 0 posts, an empty full name, not verified, and the body as raw data |
| `PostsRoute.PostList` | app/api/instagram-posts/route.ts:45-49 | an array body is the list; a null body raises; otherwise the list is the fallback chain `posts`, `data`, `[]`, and a non-array result raises when mapped; with neither key truthy the list is empty |
| `PostsRoute.Normalise` | app/api/instagram-posts/route.ts:49-58 | a null element raises; otherwise normalising raises iff one of the two count sources cannot be converted; `raw_data` is the element and integer counts are never negative |
| `PostsRoute.MapPosts` | app/api/instagram-posts/route.ts:49-58 | the mapped list has the length of the input |
| `PostsRoute.MapPostsElementwise` | app/api/instagram-posts/route.ts:49-58 | the map succeeds iff every element normalises; post `i` is element `i` normalised and carries element `i` as raw data |
| `PostsRoute.Handle` | app/api/instagram-posts/route.ts:3-71 | an early stop makes no upstream call; exactly one call with the username happens otherwise; a non-ok upstream status passes through when a JSON reply can carry it and is a 500 otherwise; every other upstream stop is the reply; a null body, a list that is not an array, or a post that cannot be normalised gives 500; success iff every stage, the list extraction and the map succeed, with the mapped posts and the whole body as payload; the status is 200, 400, 500 or a passed-through upstream status |
| `PostsRoute.EmptyListingSucceeds` | app/api/instagram-posts/route.ts:44-60 | a body with neither `posts` nor `data` gives a success with no posts and the body echoed |
| `PostsRoute.NormaliseFollowsChains` | app/api/instagram-posts/route.ts:50-56 | every post field is the fallback chain over the keys the route lists for it, with `images?.[0]` as the third media URL candidate |
| `PostsRoute.BarePost` | app/api/instagram-posts/route.ts:50-57 | any object element that has none of the listed keys gives empty id, caption and media URL, a null timestamp, media type `image`, zero counts and itself as raw data |
| `PostsRoute.NormaliseDefaults` | app/api/instagram-posts/route.ts:50-57 | in particular the empty object gives those defaults |
| `PostsRoute.BareArrayScenario` | app/api/instagram-posts/route.ts:45-58 | the bare array `[{pk: "1", text: "hi", likes: "<n>"}]` gives one post with id `1`, caption `hi`, `n` likes, 0 comments, media type `image` and the element as raw data |

## Left out

- Network, timers and framework: `fetch`, the `AbortController` timer, `request.json()`, `response.json()` and `NextResponse` are not modelled. Their outcomes are inputs to the handlers, and a reply is a value rather than an HTTP response.
- The outbound request headers (User-Agent, Referer, the RapidAPI key taken from the environment) and the request bodies sent upstream are not modelled. The model records only the target of each call: the image URL, or the username.
- URL parsing: `new URL(...)` and its hostname extraction are a parameter of the proxy.
- The outer catch of the proxy around `new URL(request.url)` is not modelled, because the framework always supplies a valid request URL.
- `console.log` and `console.error` are left out; they have no effect on replies.
- The `OPTIONS` handlers of both files are left out; each returns a constant CORS reply.
- `ImageProxy.Aborted`: the 10-second timer is cleared once the response headers arrive, before the body is read, so a stalled body read is not bounded by it. The model has no notion of time and takes the name of the error as given.
- `Http.UpstreamStage`: on the profile route, a failure of `response.text()` on the error path is not modelled. It would turn the passthrough into a 500.
- `Js.Json`: numbers are integers only. Fractions, exponent notation, magnitudes beyond 2^53 and the decimal rendering of numbers at or above 10^21 are not modelled, so `parseInt` of such a number is not covered.
- `JsNumber.ParseInt`: `parseInt` returns a double, while the model keeps the exact integer. A count given as a digit string above 2^53 would be rounded, and one at or above 10^21 would be serialised in exponent form; `JsNumber.CountOf` does neither.
- `JsNumber.MaxZero`: the model returns NaN as a value, as `Math.max` does. Its serialisation to `null` by `JSON.stringify` is not modelled.
- Strings are sequences of Unicode scalar values, not UTF-16 code units. `length`, index properties and `includes` therefore differ from JavaScript for characters outside the Basic Multilingual Plane.
- `Js.Get`: inherited properties (`constructor`, `__proto__` and the like) are not modelled. None of the keys the handlers read is one.
- `Http.ErrorText`: the exact text of a TypeError message is engine-specific. It is modelled only as a non-empty runtime message.
