/**
 * `/api/realtime`: `GET` reports that the route is alive; `POST` asks the
 * model provider for a short-lived client secret for a voice session and
 * passes its value to the page.
 *
 * The provider call is a parameter (`Upstream`); `errorText` stands for the
 * message of an exception reaching the route's `catch`.
 */
module RealtimeRoute {
  import opened Common
  import opened Json

  datatype Reply = Reply(status: int, body: Json)

  const Alive: string := "api/realtime is alive. Use POST to get ephemeral key."
  const MissingKey: string := "Missing OPENAI_API_KEY in Vercel (Production)"
  const NoSecret: string := "Failed to create client secret"
  const NoToken: string := "Token missing in OpenAI response"
  const ServerError: string := "Server error"

  /** `{ error: { message, ...extra } }` */
  function ErrorBody(message: Json, extra: map<string, Json>): Json {
    JObj(map["error" := JObj(extra["message" := message])])
  }

  /** `GET /api/realtime`. */
  function Probe(): (r: Reply)
    ensures r.status == 200 && r.body.JObj? && "ok" in r.body.fields && r.body.fields["ok"] == JBool(true)
  {
    Reply(200, JObj(map["ok" := JBool(true), "message" := JStr(Alive)]))
  }

  /** What the provider call produced: a thrown `fetch`, or a status and the
      body read as JSON (`null` when that fails). */
  datatype Upstream = Unreachable | Answered(status: int, data: Json)

  predicate IsOk(status: int) {
    200 <= status <= 299
  }

  /** The message of a failed provider call: the provider's `error.message`
      when it is truthy. */
  function FailureMessage(data: Json): (m: Json)
    ensures Truthy(Some(m))
    ensures Truthy(Get(Get(Some(data), "error"), "message")) ==> m == Get(Get(Some(data), "error"), "message").value
  {
    Or(Get(Get(Some(data), "error"), "message"), JStr(NoSecret))
  }

  /** The secret: `data?.client_secret?.value || data?.value`. */
  function Secret(data: Json): (v: Option<Json>)
    ensures Truthy(Get(Get(Some(data), "client_secret"), "value")) ==> v == Get(Get(Some(data), "client_secret"), "value")
    ensures !Truthy(Get(Get(Some(data), "client_secret"), "value")) ==> v == Get(Some(data), "value")
  {
    var nested := Get(Get(Some(data), "client_secret"), "value");
    if Truthy(nested) then nested else Get(Some(data), "value")
  }

  /** `catch (e)`: `e?.message || "Server error"`. */
  function CrashReply(errorText: string): (r: Reply)
    ensures r.status == 500
  {
    Reply(500, ErrorBody(JStr(if errorText != "" then errorText else ServerError), map[]))
  }

  predicate HasKey(apiKey: Option<string>) {
    apiKey.Some? && apiKey.value != ""
  }

  /** `POST /api/realtime`. */
  function Post(apiKey: Option<string>, up: Upstream, errorText: string): (r: Reply)
    ensures !HasKey(apiKey) ==> r == Reply(500, ErrorBody(JStr(MissingKey), map[]))
    ensures r.status == 200 <==> HasKey(apiKey) && up.Answered? && IsOk(up.status) && Truthy(Secret(up.data))
    ensures r.status == 200 ==> r.body == JObj(map["value" := Secret(up.data).value])
    ensures HasKey(apiKey) && up.Answered? && !IsOk(up.status) ==>
      r == Reply(up.status, ErrorBody(FailureMessage(up.data),
                                      map["status" := JNum(up.status as real), "raw" := up.data]))
    ensures HasKey(apiKey) && up.Unreachable? ==> r == CrashReply(errorText)
  {
    if !HasKey(apiKey) then Reply(500, ErrorBody(JStr(MissingKey), map[]))
    else match up
      case Unreachable => CrashReply(errorText)
      case Answered(status, data) =>
        if !IsOk(status) then
          Reply(status, ErrorBody(FailureMessage(data),
                                  map["status" := JNum(status as real), "raw" := data]))
        else
          var value := Secret(data);
          if !Truthy(value) then Reply(500, ErrorBody(JStr(NoToken), map["raw" := data]))
          else Reply(200, JObj(map["value" := value.value]))
  }

  /** The provider's documented answer hands the nested secret to the page. */
  lemma PostPassesSecret(apiKey: Option<string>, status: int, secret: string, expires: Json, errorText: string)
    requires HasKey(apiKey) && IsOk(status) && secret != ""
    ensures var data := JObj(map["client_secret" := JObj(map["value" := JStr(secret), "expires_at" := expires])]);
      Post(apiKey, Answered(status, data), errorText) == Reply(200, JObj(map["value" := JStr(secret)]))
  {
  }

  // ---------------------------------------------------------------- methods

  /** The HTTP methods a request to the route can use. */
  datatype Method = GET | POST | PUT

  /** The route as shipped: it exports `GET` and `POST` only, and the framework
      answers any other method with 405 and an empty body (`JNull` here). */
  function Dispatch(m: Method, apiKey: Option<string>, up: Upstream, errorText: string): (r: Reply)
    ensures m == GET ==> r == Probe()
    ensures m == POST ==> r == Post(apiKey, up, errorText)
    ensures m == PUT ==> r.status == 405 && !IsOk(r.status)
  {
    match m
    case GET => Probe()
    case POST => Post(apiKey, up, errorText)
    case PUT => Reply(405, JNull)
  }

  /** The chat page's `PUT /api/realtime` with `{sdp, token}` is refused
      whatever the key and the provider: the page never receives an answer. */
  lemma SdpExchangeRefused(apiKey: Option<string>, up: Upstream, errorText: string)
    ensures !IsOk(Dispatch(PUT, apiKey, up, errorText).status)
    ensures Dispatch(PUT, apiKey, up, errorText).body == JNull
  {
  }

  /** The provider's answer to an SDP offer relayed with the client secret:
      a thrown call, or a status and the answer text. */
  datatype SdpUpstream = SdpUnreachable | SdpAnswered(status: int, sdp: string)

  const SdpFailed: string := "SDP exchange failed"

  /** A `PUT` handler that does what the page expects: with the server key
      present it relays the offer and returns the provider's answer as `{sdp}`. */
  function Answer(apiKey: Option<string>, up: SdpUpstream, errorText: string): (r: Reply)
    ensures !HasKey(apiKey) ==> r == Reply(500, ErrorBody(JStr(MissingKey), map[]))
    ensures IsOk(r.status) <==> HasKey(apiKey) && up.SdpAnswered? && IsOk(up.status) && up.sdp != ""
    ensures IsOk(r.status) ==> r.body == JObj(map["sdp" := JStr(up.sdp)])
  {
    if !HasKey(apiKey) then Reply(500, ErrorBody(JStr(MissingKey), map[]))
    else match up
      case SdpUnreachable => CrashReply(errorText)
      case SdpAnswered(status, sdp) =>
        if !IsOk(status) then Reply(status, ErrorBody(JStr(SdpFailed), map["status" := JNum(status as real)]))
        else if sdp == "" then Reply(502, ErrorBody(JStr(SdpFailed), map[]))
        else Reply(200, JObj(map["sdp" := JStr(sdp)]))
  }

  /** The route with that `PUT` handler. */
  function DispatchWithAnswer(m: Method, apiKey: Option<string>, up: Upstream, sdpUp: SdpUpstream,
                              errorText: string): (r: Reply)
    ensures m != PUT ==> r == Dispatch(m, apiKey, up, errorText)
    ensures m == PUT ==> r == Answer(apiKey, sdpUp, errorText)
  {
    if m != PUT then Dispatch(m, apiKey, up, errorText) else Answer(apiKey, sdpUp, errorText)
  }
}
