/** What the two JSON routes share: the outcome of reading a JSON body, the
    outcome of the one outbound request, the reply `{success, ...}`, and the
    two early-exit stages both routes run before they look at the data. */
module Http {
  import opened Wrappers
  import opened Js

  /** The result of `await r.json()`: the parsed value, or the message of
      the exception it raised. */
  datatype Payload = Parsed(value: Json) | Unparsable(message: string)

  /** What the single outbound `fetch` gives: an exception with its message,
      or a response with its status, status text and JSON body. */
  datatype Upstream =
    | Unreachable(message: string)
    | Answered(status: int, statusText: string, payload: Payload)

  /** `Response.ok`. */
  predicate IsOk(status: int)
  {
    200 <= status <= 299
  }

  /** The `error` text of a failure reply: a fixed or computed string, or the
      (non-empty) message of a TypeError raised by the JavaScript runtime. */
  datatype ErrorText = Text(text: string) | RuntimeMessage

  /** `error.message || fallback`. */
  function MessageOr(message: string, fallback: string): ErrorText
  {
    Text(if message != "" then message else fallback)
  }

  /** A JSON reply: `{success: true, ...}` with status 200, or
      `{success: false, error}` with its status. */
  datatype ApiReply<+T> = Success(payload: T) | Failure(status: int, error: ErrorText)
  {
    function Status(): int
    {
      if Success? then 200 else status
    }
  }

  /** A handler's reply with the outbound requests it made, in order. */
  datatype Handled<+C, +R> = Handled(reply: R, calls: seq<C>)

  /** The outcome of an early stage: go on with a value, or reply now. */
  datatype Stage = Continue(value: Json) | Stop(status: int, error: ErrorText)

  const UsernameRequired := "Username is required"

  /** `const { username } = await request.json()` and `if (!username) return 400`.
      Destructuring null raises a TypeError; any exception lands in the
      route's catch-all, which replies 500 with `error.message || fallback`. */
  function UsernameStage(request: Payload, fallback: string): (g: Stage)
    ensures g.Continue? <==>
              request.Parsed? && !request.value.JNull? && Truthy(Get(request.value, "username"))
    ensures g.Continue? ==> Some(g.value) == Get(request.value, "username")
    ensures g.Stop? && g.status == 400 <==>
              request.Parsed? && !request.value.JNull? && !Truthy(Get(request.value, "username"))
    ensures g.Stop? && g.status == 400 ==> g.error == Text(UsernameRequired)
    ensures g.Stop? ==> g.status == 400 || g.status == 500
    ensures request.Unparsable? ==> g == Stop(500, MessageOr(request.message, fallback))
    ensures request == Parsed(JNull) ==> g == Stop(500, RuntimeMessage)
  {
    match request
    case Unparsable(m) => Stop(500, MessageOr(m, fallback))
    case Parsed(JNull) => Stop(500, RuntimeMessage)
    case Parsed(body) =>
      var username := Get(body, "username");
      if !Truthy(username) then Stop(400, Text(UsernameRequired))
      else Continue(username.value)
  }

  /** The statuses a Response carrying a body may have: the Response
      constructor throws a RangeError outside 200 to 599 and a TypeError for
      the null body statuses 204, 205 and 304 (Fetch standard, the Response
      class, "initialize a response"). */
  predicate CanCarryBody(status: int)
  {
    200 <= status <= 599 && status != 204 && status != 205 && status != 304
  }

  /** The outbound call and `if (!response.ok)`: a fetch exception or a body
      that is not JSON is a 500; a response that is not ok passes its status
      through with "Instagram API error: " and its status text, unless the
      JSON reply cannot carry that status, in which case building it throws
      and the catch-all answers 500. */
  function UpstreamStage(upstream: Upstream, fallback: string): (g: Stage)
    ensures g.Continue? <==> upstream.Answered? && IsOk(upstream.status) && upstream.payload.Parsed?
    ensures g.Continue? ==> g.value == upstream.payload.value
    ensures upstream.Answered? && !IsOk(upstream.status) && CanCarryBody(upstream.status) ==>
              g == Stop(upstream.status, Text("Instagram API error: " + upstream.statusText))
    ensures upstream.Answered? && !IsOk(upstream.status) && !CanCarryBody(upstream.status) ==>
              g == Stop(500, RuntimeMessage)
    ensures upstream.Unreachable? ==> g == Stop(500, MessageOr(upstream.message, fallback))
    ensures upstream.Answered? && IsOk(upstream.status) && upstream.payload.Unparsable? ==>
              g == Stop(500, MessageOr(upstream.payload.message, fallback))
    ensures g.Stop? ==> CanCarryBody(g.status)
    ensures g.Stop? && g.status != 500 ==> upstream.Answered? && g.status == upstream.status
  {
    match upstream
    case Unreachable(m) => Stop(500, MessageOr(m, fallback))
    case Answered(status, statusText, payload) =>
      if !IsOk(status) then
        if CanCarryBody(status) then Stop(status, Text("Instagram API error: " + statusText))
        else Stop(500, RuntimeMessage)
      else
        match payload
        case Unparsable(m) => Stop(500, MessageOr(m, fallback))
        case Parsed(v) => Continue(v)
  }
}
