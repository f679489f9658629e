/**
 * The exchange with a vendor's API, shared by the three engines: the
 * request an engine posts, what comes back, and how a reply is turned into
 * the JSON body, an error, or a panic.
 *
 * The network is not modelled: the engines receive the `HttpResult` of
 * their request from the caller.
 */
module Http {
  import opened Common
  import opened Json

  /** `ureq::post(url)`, its `set(name, value)` headers and `send_json(body)`. */
  datatype Request = Post(url: string, headers: seq<(string, string)>, body: Json)

  /** What `send_json` yields: a 2xx response, an `Error::Status` for
      another status code, or an `Error::Transport`. `body` is `None` when
      the response does not read as JSON (`into_json` fails). */
  datatype HttpResult =
    | Answered(body: Option<Json>)
    | StatusError(code: int, errorBody: Option<Json>)
    | TransportError

  /** The errors `execute` returns. */
  datatype EngineError =
    | ApiError               // "API ERROR": a status code other than 2xx
    | OtherApiError          // "OTHER API ERROR": the request did not complete
    | UnreadableErrorBody    // the status error's body is not JSON (`?` on `into_json`)
    | NoToolCalls            // "No tool calls found in response"
    | NoToolNamed(name: string)  // "No tool registered with name ..."
    | NoCallback(name: string)   // "No callback registered for tool ..."

  /** The reply after the HTTP step: its JSON body, an error returned to
      the caller, or a panic (an `unwrap` on a failure). */
  datatype Receipt = Received(json: Json) | Refused(error: EngineError) | Crashed

  /** The first tool call of a reply: none, a name with its arguments, or
      a call the engine cannot read and `unwrap`s into a panic. */
  datatype ToolCall = NoToolCall | Call(name: string, args: Json) | Malformed

  /** The HTTP step of the OpenAI and Google engines: a status error is an
      `API ERROR` once its body has been read, a transport failure an
      `OTHER API ERROR`, and only an unreadable 2xx body panics. */
  function ReceiveChecked(reply: HttpResult): (r: Receipt)
    ensures r.Received? <==> reply.Answered? && reply.body.Some?
    ensures r.Received? ==> r.json == reply.body.value
    ensures r.Crashed? <==> reply.Answered? && reply.body.None?
    ensures r.Refused? ==> !reply.Answered? && r.error in {ApiError, OtherApiError, UnreadableErrorBody}
    ensures reply.StatusError? ==> r == Refused(if reply.errorBody.Some? then ApiError else UnreadableErrorBody)
    ensures reply.TransportError? ==> r == Refused(OtherApiError)
  {
    match reply
    case Answered(Some(json)) => Received(json)
    case Answered(None) => Crashed
    case StatusError(_, Some(_)) => Refused(ApiError)
    case StatusError(_, None) => Refused(UnreadableErrorBody)
    case TransportError => Refused(OtherApiError)
  }

  /** The HTTP step of the Anthropic engine: `send_json(..).unwrap()`, so
      every failure, a status error included, panics. */
  function ReceiveUnwrapped(reply: HttpResult): (r: Receipt)
    ensures !r.Refused?
    ensures r.Received? <==> reply.Answered? && reply.body.Some?
    ensures r.Received? ==> r.json == reply.body.value
  {
    match reply
    case Answered(Some(json)) => Received(json)
    case _ => Crashed
  }
}
