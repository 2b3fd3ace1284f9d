/** The client service (client/src/services/tavusService.ts): the `ApiError`
    record, `createApiError`, and the two calls, whose persona selection
    follows the same rule as the server. */
module TavusService {
  import opened Wrappers
  import opened Js
  import opened JsText
  import opened Axios
  import Persona
  import HttpClient

  /** `{ message, status?, details? }`. A `status` of Undefined is an absent
      status. */
  datatype ApiError = ApiError(message: Value, status: Value, details: Value) {

    /** The plain object that is thrown: never an `Error` instance. */
    function AsValue(): (v: Value)
      ensures v.Obj? && !IsErrorInstance(v)
      ensures Get(v, "message") == message && Get(v, "details") == details && Get(v, "status") == status
    {
      Obj(map["message" := message, "details" := details]
          + (if status.Undefined? then map[] else map["status" := status]))
    }
  }

  const GetReplicaFailed := "Failed to fetch replica"
  const CreateConversationFailed := "Failed to create conversation"

  /** `error && typeof error === 'object' && 'message' in error` */
  predicate HasMessageProperty(error: Value) {
    Truthy(error) && IsObjectType(error) && HasProperty(error, "message")
  }

  /** `createApiError(error, defaultMessage)`: an object carrying a `message`
      keeps it (whatever it is) and its `status` if it has one; anything else
      gets the default message and no status. The original value is always
      kept as `details`. */
  function CreateApiError(error: Value, defaultMessage: string): (r: ApiError)
    ensures r.details == error
    ensures HasMessageProperty(error) ==> r.message == Get(error, "message")
    ensures HasMessageProperty(error) && HasProperty(error, "status") ==> r.status == Get(error, "status")
    ensures !(HasMessageProperty(error) && HasProperty(error, "status")) ==> r.status == Undefined
    ensures !HasMessageProperty(error) ==> r.message == Str(defaultMessage)
  {
    if HasMessageProperty(error) then
      ApiError(Get(error, "message"), if HasProperty(error, "status") then Get(error, "status") else Undefined, error)
    else
      ApiError(Str(defaultMessage), Undefined, error)
  }

  /** The payload of `createConversation`: the persona id when it is not blank
      after trimming, else the configured default when that is not blank, else
      no `persona_id` at all. The result is sent verbatim, never trimmed. */
  function ConversationPayload(personaId: Option<string>, defaultPersonaId: string): (p: Persona.ConversationRequest)
    ensures p.personaId == Persona.PreferredPersona(personaId, defaultPersonaId)
  {
    TrimmedNonEmptyIff(personaId.Some?, personaId.GetOr(""));
    TrimmedNonEmptyIff(true, defaultPersonaId);
    if TrimmedNonEmpty(personaId.Some?, personaId.GetOr("")) then Persona.ConversationRequest(personaId)
    else if TrimmedNonEmpty(true, defaultPersonaId) then Persona.ConversationRequest(Some(defaultPersonaId))
    else Persona.ConversationRequest(None)
  }

  /** The shared `try`/`catch` of both calls, given how the HTTP call settled
      and the call's own default message: the response body, or the
      `createApiError` record. */
  function Settle(call: Settled<HttpResponse>, defaultMessage: string): (r: Settled<Value>)
    ensures call.Resolved? ==> r == Resolved(call.value.data)
    ensures call.Rejected? ==> r.Rejected? && r.reason == CreateApiError(call.reason, defaultMessage).AsValue()
  {
    match call
    case Resolved(response) => Resolved(response.data)
    case Rejected(reason) => Rejected(CreateApiError(reason, defaultMessage).AsValue())
  }

  /** `getReplica()`: the replica body, or the `ApiError` whose default
      message is `Failed to fetch replica`. */
  function GetReplica(call: Settled<HttpResponse>): (r: Settled<Value>)
    ensures call.Resolved? ==> r == Resolved(call.value.data)
    ensures call.Rejected? ==> r.Rejected? && !IsErrorInstance(r.reason)
    ensures call.Rejected? ==> Get(r.reason, "details") == call.reason
    ensures call.Rejected? && !HasMessageProperty(call.reason) ==>
      Get(r.reason, "message") == Str(GetReplicaFailed) && Get(r.reason, "status") == Undefined
    ensures call.Rejected? && HasMessageProperty(call.reason) ==>
      Get(r.reason, "message") == Get(call.reason, "message")
  {
    Settle(call, GetReplicaFailed)
  }

  /** What `createConversation(personaId)` posts, and how it settles. */
  datatype Posted = Posted(body: Persona.ConversationRequest, result: Settled<Value>)

  /** `createConversation(personaId)`, given how the POST of its payload
      settled: the payload follows `PreferredPersona`, and a failure becomes
      the `ApiError` whose default message is `Failed to create conversation`. */
  function CreateConversation(personaId: Option<string>, defaultPersonaId: string, call: Settled<HttpResponse>): (r: Posted)
    ensures r.body.personaId == Persona.PreferredPersona(personaId, defaultPersonaId)
    ensures call.Resolved? ==> r.result == Resolved(call.value.data)
    ensures call.Rejected? ==> r.result.Rejected? && !IsErrorInstance(r.result.reason)
    ensures call.Rejected? ==> Get(r.result.reason, "details") == call.reason
    ensures call.Rejected? && !HasMessageProperty(call.reason) ==>
      Get(r.result.reason, "message") == Str(CreateConversationFailed) && Get(r.result.reason, "status") == Undefined
    ensures call.Rejected? && HasMessageProperty(call.reason) ==>
      Get(r.result.reason, "message") == Get(call.reason, "message")
  {
    Posted(ConversationPayload(personaId, defaultPersonaId), Settle(call, CreateConversationFailed))
  }

  /** Unlike `handleError`, `createApiError` copies the interceptor's message
      unconditionally (an `Error` always has a `message`), and reports no
      status because the interceptor's `Error` has none. */
  lemma CreateApiErrorOnInterceptorRejection(e: AxiosError, defaultMessage: string)
    ensures CreateApiError(HttpClient.Rejection(e), defaultMessage)
      == ApiError(Str(HttpClient.RejectionMessage(e)), Undefined, HttpClient.Rejection(e))
  {
  }
}
