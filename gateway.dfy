/**
 * What the two API Gateway handlers share: the origin and API-key checks and
 * the three response builders. `CaptureData.js` and `VerifyLogin.js` each
 * carry their own copy, identical in code; they are defined once here.
 * A response body is the JSON value the handler passes to `JSON.stringify`.
 */
module Gateway {
  import opened Wrappers
  import opened Json

  /**
   * The invocation event, as far as the handlers read it. `headers` is absent
   * when API Gateway passes no header object; `identity` is absent when the
   * request context has no identity; either makes the property read throw.
   */
  datatype Event = Event(
    headers: Option<map<string, string>>,
    identity: Option<map<string, string>>,
    body: Option<seq<(string, Json)>>)

  /** The two environment values the checks compare against; either may be unset. */
  datatype Env = Env(apiKey: Option<string>, origin: Option<string>)

  datatype Response = Response(statusCode: int, headers: seq<(string, string)>, body: Json)

  const CorsHeaders: seq<(string, string)> := [("Access-Control-Allow-Origin", "*"), ("Content-Type", "application/json")]

  /** `event.headers.origin`, or a TypeError when there is no header object. */
  function Origin(event: Event): Result<Option<string>, string>
  {
    match event.headers
    case None => Failure("TypeError")
    case Some(h) => Success(if "origin" in h then Some(h["origin"]) else None)
  }

  /** `event.requestContext.identity.apiKey`, or a TypeError when there is no identity. */
  function ApiKey(event: Event): Result<Option<string>, string>
  {
    match event.identity
    case None => Failure("TypeError")
    case Some(id) => Success(if "apiKey" in id then Some(id["apiKey"]) else None)
  }

  /** `verifyAPIKey`: defined, non-empty and equal to the configured key. */
  function VerifyApiKey(apiKey: Option<string>, env: Env): (ok: bool)
    ensures ok <==> apiKey.Some? && apiKey.value != "" && env.apiKey == Some(apiKey.value)
  {
    !(apiKey.None? || apiKey.value == "" || env.apiKey != Some(apiKey.value))
  }

  /** `verifyOrigin`: defined, non-empty and equal to the configured origin. */
  function VerifyOrigin(origin: Option<string>, env: Env): (ok: bool)
    ensures ok <==> origin.Some? && origin.value != "" && env.origin == Some(origin.value)
  {
    !(origin.None? || origin.value == "" || env.origin != Some(origin.value))
  }

  /** `buildSuccessfulResponse(data)` */
  function Successful(data: Json): (r: Response)
    ensures r.statusCode == 200 && Cors(r) && r.body == data
  {
    Response(200, CorsHeaders, data)
  }

  /** `buildErrorResponse(err)`, `err` being what `JSON.stringify` sees of the error. */
  function Errored(err: Json): (r: Response)
    ensures r.statusCode == 500 && Cors(r)
    ensures Get2(r.body, "data", "Error") == Some(err)
  {
    Response(500, CorsHeaders, JObject([("data", JObject([("Error", err)]))]))
  }

  /** `buildRejectedResponse(code, message)` */
  function Rejected(code: int, message: string): (r: Response)
    ensures r.statusCode == code && Cors(r)
    ensures Get2(r.body, "data", "message") == Some(JString(message))
  {
    Response(code, CorsHeaders, JObject([("data", JObject([("message", JString(message))]))]))
  }

  /** The response is open to every origin and declares a JSON body. */
  predicate Cors(r: Response)
  {
    && Lookup(r.headers, "Access-Control-Allow-Origin") == Some("*")
    && Lookup(r.headers, "Content-Type") == Some("application/json")
  }

  /** `{ status: "success" }` */
  const StatusSuccess: Json := JObject([("status", JString("success"))])

  /** What `JSON.stringify` makes of a thrown `Error`: its fields are not enumerable. */
  const ThrownError: Json := JObject([])

  const BadOrigin := "Invalid request origin"
  const BadApiKey := "Invalid API key"

  /** The two checks in the handlers' order, then the request itself. */
  datatype Check = CheckFailed(response: Response) | Threw(error: string) | Passed

  /**
   * The check both handlers run first: the origin is read and checked before
   * the API key is even read.
   */
  function Checked(event: Event, env: Env): (c: Check)
    ensures c.CheckFailed? ==> c.response.statusCode == 403 && Cors(c.response)
    ensures c.Passed? <==>
      && Origin(event).Success? && VerifyOrigin(Origin(event).value, env)
      && ApiKey(event).Success? && VerifyApiKey(ApiKey(event).value, env)
    ensures Origin(event).Success? && !VerifyOrigin(Origin(event).value, env) ==> c == CheckFailed(Rejected(403, BadOrigin))
    ensures (Origin(event).Success? && VerifyOrigin(Origin(event).value, env) && ApiKey(event).Success?
      && !VerifyApiKey(ApiKey(event).value, env)) ==> c == CheckFailed(Rejected(403, BadApiKey))
    ensures c.Threw? <==>
      Origin(event).Failure? || (VerifyOrigin(Origin(event).value, env) && ApiKey(event).Failure?)
  {
    match Origin(event)
    case Failure(e) => Threw(e)
    case Success(origin) =>
      if !VerifyOrigin(origin, env) then CheckFailed(Rejected(403, BadOrigin))
      else match ApiKey(event)
        case Failure(e) => Threw(e)
        case Success(key) =>
          if !VerifyApiKey(key, env) then CheckFailed(Rejected(403, BadApiKey))
          else Passed
  }

  /** A rejected origin is rejected whatever API key the event carries. */
  lemma OriginFirst(event: Event, identity: Option<map<string, string>>, env: Env)
    requires Origin(event).Success? && !VerifyOrigin(Origin(event).value, env)
    ensures Checked(event.(identity := identity), env) == Checked(event, env) == CheckFailed(Rejected(403, BadOrigin))
  {
  }
}
