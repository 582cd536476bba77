/** The image proxy (`GET` of the profile route file): the `url` query
    parameter is checked, its hostname is matched against a fixed list of
    domain fragments, and only then is the image fetched and its bytes
    returned with long-lived cache headers. */
module ImageProxy {
  import opened Wrappers
  import opened Http

  /** The fragments a hostname must contain, in the order they are tried. */
  const AllowedDomains: seq<string> := ["instagram.com", "cdninstagram.com", "fbcdn.net", "scontent"]

  const CacheControl := "public, max-age=604800, immutable"
  const DefaultContentType := "image/jpeg"

  /** `part` occurs in `s` starting at index `i`. */
  predicate OccursAt(s: string, part: string, i: int)
  {
    0 <= i && i + |part| <= |s| && s[i..i + |part|] == part
  }

  /** `s.includes(part)`: some position of `s` starts an occurrence of `part`
      (the empty string occurs everywhere). */
  function Includes(s: string, part: string): (r: bool)
    ensures r <==> exists i :: OccursAt(s, part, i)
  {
    if |part| > |s| then false
    else if s[..|part|] == part then (assert OccursAt(s, part, 0); true)
    else
      var r := Includes(s[1..], part);
      assert forall i :: OccursAt(s[1..], part, i) <==> OccursAt(s, part, i + 1);
      assert !OccursAt(s, part, 0);
      assert r ==> exists i :: OccursAt(s, part, i) by {
        if r { var i :| OccursAt(s[1..], part, i); assert OccursAt(s, part, i + 1); }
      }
      assert (exists i :: OccursAt(s, part, i)) ==> r by {
        if exists i :: OccursAt(s, part, i) {
          var i :| OccursAt(s, part, i);
          assert i > 0 && OccursAt(s[1..], part, i - 1);
        }
      }
      r
  }

  /** `allowedDomains.some((domain) => hostname.includes(domain))`. The
      entry "cdninstagram.com" never decides anything: any hostname that
      contains it also contains "instagram.com". */
  predicate IsAllowed(hostname: string)
    ensures IsAllowed(hostname) <==>
              Includes(hostname, "instagram.com") || Includes(hostname, "fbcdn.net") || Includes(hostname, "scontent")
  {
    CdnEntryIsSubsumed(hostname);
    var allowed := exists k | 0 <= k < |AllowedDomains| :: Includes(hostname, AllowedDomains[k]);
    assert allowed <==>
             || Includes(hostname, AllowedDomains[0]) || Includes(hostname, AllowedDomains[1])
             || Includes(hostname, AllowedDomains[2]) || Includes(hostname, AllowedDomains[3]) by {
      if allowed {
        var k :| 0 <= k < |AllowedDomains| && Includes(hostname, AllowedDomains[k]);
        assert k == 0 || k == 1 || k == 2 || k == 3;
      }
    }
    allowed
  }

  /** A hostname containing "cdninstagram.com" contains "instagram.com". */
  lemma CdnEntryIsSubsumed(hostname: string)
    ensures Includes(hostname, "cdninstagram.com") ==> Includes(hostname, "instagram.com")
  {
    if Includes(hostname, "cdninstagram.com") {
      assert OccursAt("cdninstagram.com", "instagram.com", 3);
      IncludesTransitive(hostname, "cdninstagram.com", "instagram.com");
    }
  }

  /** The decision taken before any fetch. */
  datatype Guard =
    | MissingUrl         // `url` absent or empty
    | InvalidUrl         // `new URL(url)` threw
    | Forbidden          // no allowed fragment in the hostname
    | Permitted(url: string)

  /** Lines 6 to 31: `hostname` stands for `new URL(...).hostname`, `None`
      when the constructor throws. */
  function Check(url: Option<string>, hostname: string -> Option<string>): (g: Guard)
    ensures g == MissingUrl <==> url == None || url == Some("")
    ensures g == InvalidUrl <==> url.Some? && url.value != "" && hostname(url.value).None?
    ensures g == Forbidden <==>
              url.Some? && url.value != "" && hostname(url.value).Some? && !IsAllowed(hostname(url.value).value)
    ensures g.Permitted? <==>
              url.Some? && url.value != "" && hostname(url.value).Some? && IsAllowed(hostname(url.value).value)
    ensures g.Permitted? ==> g.url == url.value
  {
    match url
    case None => MissingUrl
    case Some(u) =>
      if u == "" then MissingUrl
      else
        match hostname(u)
        case None => InvalidUrl
        case Some(host) => if IsAllowed(host) then Permitted(u) else Forbidden
  }

  /** How reading the image body ends: its bytes, or an exception's name. */
  datatype Body = Bytes(data: seq<bv8>) | ReadThrew(name: string)

  /** What the timeout-guarded `fetch` gives: an exception's name (a fired
      timer aborts the fetch with an "AbortError"), or a response with its
      status, its `content-type` header and the outcome of reading its body. */
  datatype Fetch =
    | Threw(name: string)
    | Fetched(status: int, contentType: Option<string>, body: Body)

  /** A JSON error reply `{error}`, or the image bytes with their headers. */
  datatype Reply =
    | Refused(status: int, error: string)
    | Image(data: seq<bv8>, headers: map<string, string>)
  {
    function Status(): int
    {
      if Refused? then status else 200
    }
  }

  /** The fetch or the body read threw an error named "AbortError". The
      timer is cleared as soon as the response headers arrive, before the
      body is read, so the timer itself can only abort the fetch; the model
      takes the error name as given either way. */
  predicate Aborted(fetched: Fetch)
  {
    || (fetched.Threw? && fetched.name == "AbortError")
    || (fetched.Fetched? && IsOk(fetched.status) && fetched.body.ReadThrew? && fetched.body.name == "AbortError")
  }

  /** Any other exception from the fetch or the body read. */
  predicate OtherException(fetched: Fetch)
  {
    || (fetched.Threw? && fetched.name != "AbortError")
    || (fetched.Fetched? && IsOk(fetched.status) && fetched.body.ReadThrew? && fetched.body.name != "AbortError")
  }

  /** An exception that reaches the outer catch: 500. */
  const InternalError := Refused(500, "Internal server error")

  /** The inner catch: an "AbortError" is a timeout, anything else is
      rethrown into the outer catch. */
  function Caught(name: string): (r: Reply)
    ensures r.Refused?
    ensures r == Refused(504, "Request timeout") <==> name == "AbortError"
    ensures r != Refused(504, "Request timeout") ==> r == InternalError
  {
    if name == "AbortError" then Refused(504, "Request timeout") else InternalError
  }

  /** Lines 38 to 83, after the guard has permitted the fetch. The error
      reply for a response that is not ok is built inside the inner try:
      when its status cannot carry a JSON body, building it throws, and the
      error is rethrown to the outer catch. */
  function Respond(fetched: Fetch): (r: Reply)
    ensures r == Refused(504, "Request timeout") <==> Aborted(fetched)
    ensures OtherException(fetched) ==> r == InternalError
    ensures r.Image? <==> fetched.Fetched? && IsOk(fetched.status) && fetched.body.Bytes?
    ensures fetched.Fetched? && !IsOk(fetched.status) && CanCarryBody(fetched.status) ==>
              r == Refused(fetched.status, "Failed to fetch image from source")
    ensures fetched.Fetched? && !IsOk(fetched.status) && !CanCarryBody(fetched.status) ==>
              r == InternalError
    ensures r.Status() in {200, 500, 504} || (fetched.Fetched? && r.Status() == fetched.status)
    ensures r.Refused? && r.status == 500 && r.error == "Internal server error" ==>
              !Aborted(fetched) && !(fetched.Fetched? && !IsOk(fetched.status) && CanCarryBody(fetched.status) && fetched.status != 500)
    ensures r.Image? ==>
              && r.data == fetched.body.data
              && r.headers.Keys == {"Content-Type", "Cache-Control", "Access-Control-Allow-Origin"}
              && r.headers["Cache-Control"] == CacheControl
              && r.headers["Access-Control-Allow-Origin"] == "*"
              && r.headers["Content-Type"] ==
                   (if fetched.contentType.Some? && fetched.contentType.value != ""
                    then fetched.contentType.value else DefaultContentType)
  {
    match fetched
    case Threw(name) => Caught(name)
    case Fetched(status, contentType, body) =>
      if !IsOk(status) then
        if CanCarryBody(status) then Refused(status, "Failed to fetch image from source") else InternalError
      else
        match body
        case ReadThrew(name) => Caught(name)
        case Bytes(data) =>
          var ct := if contentType.Some? && contentType.value != "" then contentType.value else DefaultContentType;
          Image(data, map["Content-Type" := ct, "Cache-Control" := CacheControl, "Access-Control-Allow-Origin" := "*"])
  }

  /** The whole `GET` handler. `fetched` is what the fetch of the permitted
      URL gives; it is consulted, and a call recorded, only when the guard
      permits the URL. */
  function Get(url: Option<string>, hostname: string -> Option<string>, fetched: Fetch): (h: Handled<string, Reply>)
    ensures Check(url, hostname) == MissingUrl ==> h == Handled(Refused(400, "Image URL is required"), [])
    ensures Check(url, hostname) == InvalidUrl ==> h == Handled(Refused(400, "Invalid URL format"), [])
    ensures Check(url, hostname) == Forbidden ==> h == Handled(Refused(403, "Forbidden: Domain not allowed"), [])
    ensures h.calls != [] <==> Check(url, hostname).Permitted?
    ensures h.calls != [] ==> h.calls == [url.value] && h.reply == Respond(fetched)
    ensures h.reply.Image? ==> h.reply.headers["Cache-Control"] == CacheControl
    ensures h.reply.Status() in {200, 400, 403, 500, 504} || (fetched.Fetched? && h.reply.Status() == fetched.status)
  {
    match Check(url, hostname)
    case MissingUrl => Handled(Refused(400, "Image URL is required"), [])
    case InvalidUrl => Handled(Refused(400, "Invalid URL format"), [])
    case Forbidden => Handled(Refused(403, "Forbidden: Domain not allowed"), [])
    case Permitted(u) => Handled(Respond(fetched), [u])
  }

  /** Substring containment is transitive. */
  lemma IncludesTransitive(s: string, mid: string, part: string)
    requires Includes(s, mid) && Includes(mid, part)
    ensures Includes(s, part)
  {
    var j :| OccursAt(s, mid, j);
    var i :| OccursAt(mid, part, i);
    var found := s[j + i..j + i + |part|];
    forall t | 0 <= t < |part|
      ensures found[t] == part[t]
    {
      assert mid[i + t] == s[j..j + |mid|][i + t] == s[j + i + t];
      assert part[t] == mid[i..i + |part|][t] == mid[i + t];
    }
    assert found == part;
    assert OccursAt(s, part, j + i);
  }

  /** Allowance is monotone: a hostname containing an allowed hostname is
      allowed too. */
  lemma AllowanceIsMonotone(hostname: string, longer: string)
    requires IsAllowed(hostname) && Includes(longer, hostname)
    ensures IsAllowed(longer)
  {
    var k :| 0 <= k < |AllowedDomains| && Includes(hostname, AllowedDomains[k]);
    IncludesTransitive(longer, hostname, AllowedDomains[k]);
  }

  /** Every character of `part` occurs in any string that includes it. */
  lemma IncludedCharsOccur(s: string, part: string, k: int)
    requires Includes(s, part) && 0 <= k < |part|
    ensures part[k] in s
  {
    var i :| OccursAt(s, part, i);
    assert s[i + k] == part[k];
  }

  /** Every allowed fragment contains an 'n', so a hostname without one is
      denied. */
  lemma HostnameWithoutNIsDenied(hostname: string)
    requires 'n' !in hostname
    ensures !IsAllowed(hostname)
  {
    if IsAllowed(hostname) {
      var k :| 0 <= k < |AllowedDomains| && Includes(hostname, AllowedDomains[k]);
      var d := AllowedDomains[k];
      var pos := if k == 0 then 1 else if k == 1 then 2 else if k == 2 then 4 else 3;
      assert d[pos] == 'n';
      IncludedCharsOccur(hostname, d, pos);
    }
  }

  /** The match is on substrings, not on domain suffixes: look-alike and
      embedding hosts are allowed, unrelated ones denied. */
  lemma SubstringMatchExamples()
    ensures IsAllowed("scontent-fake.example.com")
    ensures IsAllowed("notinstagram.com")
    ensures IsAllowed("instagram.com.example.net")
    ensures !IsAllowed("example.com")
    ensures !IsAllowed("evil.example.com")
  {
    assert OccursAt("scontent-fake.example.com", AllowedDomains[3], 0);
    assert OccursAt("notinstagram.com", AllowedDomains[0], 3);
    assert OccursAt("instagram.com.example.net", AllowedDomains[0], 0);
    HostnameWithoutNIsDenied("example.com");
    HostnameWithoutNIsDenied("evil.example.com");
  }
}
