/**
 * The login check: an API Gateway handler that answers 200 when the request
 * comes from the configured origin with the configured API key, 403 when
 * either check fails, and 500 when reading the event throws.
 */
module VerifyLogin {
  import opened Wrappers
  import opened Json
  import opened Gateway

  /** The response the handler passes to its callback. */
  function Handle(event: Event, env: Env): (r: Response)
    ensures Cors(r)
    ensures r.statusCode == 200 <==> Checked(event, env).Passed?
    ensures r.statusCode == 200 ==> r.body == StatusSuccess
    ensures r.statusCode == 500 <==> Checked(event, env).Threw?
    ensures r.statusCode == 500 ==> r == Errored(ThrownError)
    ensures r.statusCode == 403 <==> Checked(event, env).CheckFailed?
  {
    match Checked(event, env)
    case Threw(_) => Errored(ThrownError)
    case CheckFailed(response) => response
    case Passed => Successful(StatusSuccess)
  }

  /** The three outcomes, in the order the handler decides them. */
  lemma DecisionOrder(event: Event, env: Env)
    requires Origin(event).Success?
    ensures !VerifyOrigin(Origin(event).value, env) ==> Handle(event, env) == Rejected(403, BadOrigin)
    ensures VerifyOrigin(Origin(event).value, env) && ApiKey(event).Success? && !VerifyApiKey(ApiKey(event).value, env)
      ==> Handle(event, env) == Rejected(403, BadApiKey)
    ensures VerifyOrigin(Origin(event).value, env) && ApiKey(event).Success? && VerifyApiKey(ApiKey(event).value, env)
      ==> Handle(event, env) == Successful(StatusSuccess)
  {
  }

  /**
   * The success body carries no `uploadUrl`, although the client reads
   * `response.data.uploadUrl` from it.
   */
  lemma NoUploadUrl(event: Event, env: Env)
    requires Handle(event, env).statusCode == 200
    ensures Get(Handle(event, env).body, "uploadUrl") == None
    ensures Get(Handle(event, env).body, "status") == Some(JString("success"))
  {
  }

  /** A thrown error is reported as `{data: {Error: {}}}`. */
  lemma ErrorBody(event: Event, env: Env)
    requires Origin(event).Failure?
    ensures Handle(event, env).statusCode == 500
    ensures Get2(Handle(event, env).body, "data", "Error") == Some(JObject([]))
  {
  }
}
