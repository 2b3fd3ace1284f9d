/** The relay server (server/server.js): the CORS origin decision, the
    configuration echo, and the two proxied provider routes. The provider call
    itself is abstracted to its outcome, which each route takes as a
    parameter. */
module TavusServer {
  import opened Wrappers
  import opened Js
  import opened JsText
  import opened Axios
  import Persona

  /** The environment variables read directly by server.js (unset is None). */
  datatype Environment = Environment(nodeEnv: Option<string>, tavusApiKey: Option<string>)

  /** The resolved configuration exported by server/config.js. */
  datatype ServerConfig = ServerConfig(
    tavusApiKey: string,
    tavusApiUrl: string,
    replicaId: string,
    defaultPersonaId: string)

  /** `process.env.NODE_ENV === 'production'` */
  predicate IsProduction(env: Environment) {
    env.nodeEnv == Some("production")
  }

  /** `process.env.TAVUS_API_KEY ? ... : ...` */
  predicate KeyFromEnvironment(env: Environment) {
    env.tavusApiKey.Some? && env.tavusApiKey.value != ""
  }

  // ---------------------------------------------------------------------------
  // CORS

  /** The fixed allow-list consulted outside production. */
  const AllowedOrigins: seq<string> := [
    "http://localhost:8080",
    "http://127.0.0.1:8080",
    "http://192.168.43.252:8080",
    "https://mento-ai-backend-q75s.onrender.com"
  ]

  const CorsRejectionPrefix := "The CORS policy for this site does not allow access from the specified Origin: "

  /** What the `origin` callback reports: allowed, or an error with its message. */
  datatype CorsVerdict = Allow | Deny(reason: string)

  /** The `origin` callback. A missing (or empty) origin and every origin in
      production are allowed; otherwise exactly the listed origins are. */
  function CorsOrigin(origin: Option<string>, env: Environment, allowed: seq<string>): (v: CorsVerdict)
    ensures v.Allow? <==> origin.None? || origin.value == "" || IsProduction(env) || origin.value in allowed
    ensures v.Deny? ==> origin.Some? && v.reason == CorsRejectionPrefix + origin.value
  {
    if origin.None? || origin.value == "" then Allow
    else if IsProduction(env) then Allow
    else if IndexOf(allowed, origin.value) == -1 then Deny(CorsRejectionPrefix + origin.value)
    else Allow
  }

  /** The callback as server.js installs it, over its fixed allow-list. */
  function CorsCallback(origin: Option<string>, env: Environment): (v: CorsVerdict)
    ensures v.Allow? <==> origin.None? || origin.value == "" || IsProduction(env) || origin.value in AllowedOrigins
    ensures !IsProduction(env) && origin == Some("http://localhost:8080") ==> v.Allow?
    ensures !IsProduction(env) && origin == Some("https://example.com") ==> v.Deny?
  {
    CorsOrigin(origin, env, AllowedOrigins)
  }

  // ---------------------------------------------------------------------------
  // Configuration echo (GET /api/debug/config)

  /** `${key.substring(0, 8)}...` */
  function KeyPreview(key: string): (p: string)
    ensures |p| == (if |key| < 8 then |key| else 8) + 3
    ensures p[..|p| - 3] == key[..|p| - 3]
    ensures p[|p| - 3..] == "..."
  {
    Prefix(key, 8) + "..."
  }

  datatype DebugConfigView = DebugConfigView(
    environment: Option<string>,
    tavusApiUrl: string,
    replicaId: string,
    defaultPersonaId: string,
    apiKeySource: string,
    apiKeyLength: nat,
    apiKeyPreview: Option<string>,
    hasValidConfig: bool)

  /** The body of GET /api/debug/config. */
  function DebugConfig(env: Environment, config: ServerConfig): (d: DebugConfigView)
    ensures d.environment == env.nodeEnv && d.tavusApiUrl == config.tavusApiUrl
    ensures d.replicaId == config.replicaId && d.defaultPersonaId == config.defaultPersonaId
    ensures d.apiKeySource == if KeyFromEnvironment(env) then "environment" else "fallback"
    ensures d.apiKeyLength == |config.tavusApiKey|
    ensures d.apiKeyPreview.Some? <==> config.tavusApiKey != ""
    ensures d.apiKeyPreview.Some? ==> d.apiKeyPreview.value == KeyPreview(config.tavusApiKey)
    ensures d.hasValidConfig <==> config.tavusApiKey != "" && config.replicaId != ""
  {
    var key := config.tavusApiKey;
    DebugConfigView(
      env.nodeEnv,
      config.tavusApiUrl,
      config.replicaId,
      config.defaultPersonaId,
      if KeyFromEnvironment(env) then "environment" else "fallback",
      if key != "" then |key| else 0,
      if key != "" then Some(KeyPreview(key)) else None,
      key != "" && config.replicaId != "")
  }

  // ---------------------------------------------------------------------------
  // Proxied routes

  /** How the provider call settled: its parsed body, or the axios error. */
  datatype ProviderOutcome = Answered(data: Value) | Threw(error: AxiosError)

  /** The non-secret fields a failed conversation creation reports. */
  datatype FailureDebug = FailureDebug(
    replicaId: string,
    hasApiKey: bool,
    apiKeySource: string,
    apiKeyLength: nat,
    apiKeyPreview: string)
  {
    function Body(): Value {
      Obj(map[
        "replicaId" := Str(replicaId),
        "hasApiKey" := Bool(hasApiKey),
        "apiKeySource" := Str(apiKeySource),
        "apiKeyLength" := Num(apiKeyLength),
        "apiKeyPreview" := Str(apiKeyPreview)])
    }
  }

  /** What a route answers: the provider body on success, or an error status
      with `{message, details[, debug]}`; a `details` of Undefined is omitted. */
  datatype Reply =
    | Ok(body: Value)
    | Failure(status: int, message: Value, details: Value, debug: Option<FailureDebug>)
  {
    function Status(): int {
      if Ok? then 200 else status
    }

    /** The JSON body the client receives. */
    function Body(): (v: Value)
      ensures Failure? ==> v.Obj? && "message" in v.fields && v.fields["message"] == message
    {
      match this
      case Ok(body) => body
      case Failure(_, message, details, debug) =>
        Obj(map["message" := message]
            + (if details.Undefined? then map[] else map["details" := details])
            + (if debug.None? then map[] else map["debug" := debug.value.Body()]))
    }
  }

  const FetchReplicaFailed := "Failed to fetch replica"
  const CreateConversationFailed := "Failed to create conversation"

  /** `error.response?.status || 500` */
  function FailureStatus(e: AxiosError): int {
    if e.response.Some? && e.response.value.status != 0 then e.response.value.status else 500
  }

  /** `error.response?.data?.message || fallback` */
  function FailureMessage(e: AxiosError, fallback: string): Value {
    Or(e.DataMessage(), Str(fallback))
  }

  /** GET /api/tavus/replica. */
  function ReplicaRoute(outcome: ProviderOutcome): (r: Reply)
    ensures outcome.Answered? ==> r == Ok(outcome.data)
    ensures outcome.Threw? ==> r.Failure? && r.debug.None?
    ensures outcome.Threw? ==> var e := outcome.error;
      && (e.response.Some? && e.response.value.status != 0 ==> r.status == e.response.value.status)
      && (e.response.None? || e.response.value.status == 0 ==> r.status == 500)
      && (Truthy(e.DataMessage()) ==> r.message == e.DataMessage())
      && (!Truthy(e.DataMessage()) ==> r.message == Str(FetchReplicaFailed))
      && r.details == e.ResponseData()
  {
    match outcome
    case Answered(data) => Ok(data)
    case Threw(e) => Failure(FailureStatus(e), FailureMessage(e, FetchReplicaFailed), e.ResponseData(), None)
  }

  /** The debug block of a failed conversation creation. */
  function ConversationFailureDebug(env: Environment, config: ServerConfig): (d: FailureDebug)
    ensures d.replicaId == config.replicaId
    ensures d.hasApiKey <==> config.tavusApiKey != ""
    ensures d.apiKeyLength == |config.tavusApiKey|
    ensures d.apiKeyPreview == if config.tavusApiKey == "" then "None" else KeyPreview(config.tavusApiKey)
    ensures d.apiKeySource == if KeyFromEnvironment(env) then "env" else "fallback"
  {
    var key := config.tavusApiKey;
    FailureDebug(
      config.replicaId,
      key != "",
      if KeyFromEnvironment(env) then "env" else "fallback",
      if key != "" then |key| else 0,
      if key != "" then KeyPreview(key) else "None")
  }

  /** The payload forwarded to the provider's conversation endpoint:
      `{ replica_id, persona_id? }`. */
  datatype ProviderPayload = ProviderPayload(replicaId: string, personaId: Option<string>)

  /** `const { personaId } = req.body`, for a body whose `personaId` is a
      string or absent. */
  function RequestPersonaId(body: Value): (p: Option<string>)
    ensures p.Some? <==> Get(body, "personaId").Str?
    ensures p.Some? ==> Get(body, "personaId") == Str(p.value)
  {
    match Get(body, "personaId")
    case Str(s) => Some(s)
    case _ => None
  }

  /** The reading the clients' request bodies call for: the `persona_id` key
      that both clients post, falling back to `personaId` for callers that use
      the relay's own key. */
  function RequestPersonaIdAsSent(body: Value): (p: Option<string>)
    ensures Get(body, "persona_id").Str? ==> p == Some(Get(body, "persona_id").s)
    ensures !Get(body, "persona_id").Str? ==> p == RequestPersonaId(body)
  {
    match Get(body, "persona_id")
    case Str(s) => Some(s)
    case _ => RequestPersonaId(body)
  }

  /** POST /api/tavus/conversation, given the request's `personaId` and how
      the provider answers the payload. */
  method CreateConversationRoute(personaId: Option<string>, config: ServerConfig, env: Environment, provider: ProviderOutcome)
    returns (payload: ProviderPayload, reply: Reply)
    ensures payload.replicaId == config.replicaId
    ensures payload.personaId == Persona.PreferredPersona(personaId, config.defaultPersonaId)
    ensures provider.Answered? ==> reply == Ok(provider.data)
    ensures provider.Threw? ==> reply.Failure? && reply.debug == Some(ConversationFailureDebug(env, config))
    ensures provider.Threw? ==> var e := provider.error;
      && (e.response.Some? && e.response.value.status != 0 ==> reply.status == e.response.value.status)
      && (e.response.None? || e.response.value.status == 0 ==> reply.status == 500)
      && (Truthy(e.DataMessage()) ==> reply.message == e.DataMessage())
      && (!Truthy(e.DataMessage()) ==> reply.message == Str(CreateConversationFailed))
      && (Truthy(e.ResponseData()) ==> reply.details == e.ResponseData())
      && (!Truthy(e.ResponseData()) ==> reply.details == Str(e.message))
  {
    payload := ProviderPayload(config.replicaId, None);
    var explicit := TrimmedNonEmpty(personaId.Some?, personaId.GetOr(""));
    if explicit {
      payload := payload.(personaId := personaId);
    } else if TrimmedNonEmpty(true, config.defaultPersonaId) {
      payload := payload.(personaId := Some(config.defaultPersonaId));
    }
    TrimmedNonEmptyIff(personaId.Some?, personaId.GetOr(""));
    TrimmedNonEmptyIff(true, config.defaultPersonaId);

    match provider
    case Answered(data) =>
      reply := Ok(data);
    case Threw(e) =>
      var details := Or(e.ResponseData(), Str(e.message));
      reply := Failure(FailureStatus(e), FailureMessage(e, CreateConversationFailed), details,
                       Some(ConversationFailureDebug(env, config)));
  }

  /** With the shipped default `defaultPersonaId = ''`, a request without a
      usable persona names none, leaving the choice to the provider. */
  lemma NoPersonaUnderDefaultConfig(personaId: Option<string>)
    requires personaId.None? || !HasVisibleChar(personaId.value)
    ensures Persona.PreferredPersona(personaId, "") == None
  {
  }
}
