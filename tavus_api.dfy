/** The client API wrapper (client/src/services/api/tavus.ts) that the context
    uses: a truthy-only persona payload and `handleError`. */
module TavusApi {
  import opened Wrappers
  import opened Js
  import opened Axios
  import Persona
  import opened TavusService
  import HttpClient

  /** The payload of `createConversation`: `persona_id` exactly when the id is
      a non-empty string. No trimming and no default: a white-space id is sent
      as is. */
  function ConversationPayload(personaId: Option<string>): (p: Persona.ConversationRequest)
    ensures p.personaId.Some? <==> personaId.Some? && personaId.value != ""
    ensures p.personaId.Some? ==> p.personaId == personaId
  {
    if personaId.Some? && personaId.value != "" then Persona.ConversationRequest(personaId)
    else Persona.ConversationRequest(None)
  }

  const ResponseErrorFallback := "An error occurred"
  const UnknownErrorFallback := "An unknown error occurred"

  /** `value != null`: reading a property of `undefined` or `null` throws. */
  predicate NotNullish(v: Value) {
    !v.Undefined? && !v.Null?
  }

  /** `handleError(error)`. An error with a truthy `response` reports the
      response's `data.message` (or a fixed fallback), its status and its data;
      any other error reports its own `message` (or another fallback), no
      status, and itself as details. The message is never falsy. */
  function HandleError(error: Value): (r: ApiError)
    requires NotNullish(error)
    ensures Truthy(r.message)
    ensures var response := Get(error, "response");
      Truthy(response) ==>
        && r.status == Get(response, "status")
        && r.details == Get(response, "data")
        && (Truthy(Get(Get(response, "data"), "message")) ==> r.message == Get(Get(response, "data"), "message"))
        && (!Truthy(Get(Get(response, "data"), "message")) ==> r.message == Str(ResponseErrorFallback))
    ensures !Truthy(Get(error, "response")) ==>
        && r.status == Undefined
        && r.details == error
        && (Truthy(Get(error, "message")) ==> r.message == Get(error, "message"))
        && (!Truthy(Get(error, "message")) ==> r.message == Str(UnknownErrorFallback))
  {
    var response := Get(error, "response");
    if Truthy(response) then
      var data := Get(response, "data");
      ApiError(Or(Get(data, "message"), Str(ResponseErrorFallback)), Get(response, "status"), data)
    else
      ApiError(Or(Get(error, "message"), Str(UnknownErrorFallback)), Undefined, error)
  }

  /** How `getReplica` and `createConversation` settle, given how the HTTP call
      settled: the response body unchanged, or the `handleError` record. */
  function Settle(call: Settled<HttpResponse>): (r: Settled<Value>)
    requires call.Rejected? ==> NotNullish(call.reason)
    ensures call.Resolved? ==> r == Resolved(call.value.data)
    ensures call.Rejected? ==> r.Rejected? && r.reason == HandleError(call.reason).AsValue()
  {
    match call
    case Resolved(response) => Resolved(response.data)
    case Rejected(reason) => Rejected(HandleError(reason).AsValue())
  }

  /** The interceptor rejects with a fresh `Error` that has no `response`, so
      `handleError` always takes its second branch on it: no status, the
      `Error` itself as details, and the interceptor's message whenever that
      is non-empty. */
  lemma HandleInterceptorRejection(e: AxiosError)
    ensures var r := HandleError(HttpClient.Rejection(e));
      && r.status == Undefined
      && r.details == HttpClient.Rejection(e)
      && (HttpClient.RejectionMessage(e) != "" ==> r.message == Str(HttpClient.RejectionMessage(e)))
      && (HttpClient.RejectionMessage(e) == "" ==> r.message == Str(UnknownErrorFallback))
  {
  }
}
