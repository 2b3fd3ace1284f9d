/** The client's HTTP layer (client/src/utils/api.ts): a request interceptor
    that attaches the stored bearer token, and a response interceptor that
    passes successes through and turns every failure into one `Error` with a
    human-readable message, clearing the stored token on 401. */
module HttpClient {
  import opened Wrappers
  import opened Js
  import opened Axios

  /** The browser's `localStorage`, a string-to-string store. */
  class LocalStorage {
    var items: map<string, string>

    constructor (items: map<string, string>)
      ensures this.items == items
    {
      this.items := items;
    }

    /** `localStorage.getItem(key)`; None is `null`. */
    function GetItem(key: string): (v: Option<string>)
      reads this
      ensures v.Some? <==> key in items
      ensures v.Some? ==> v.value == items[key]
    {
      if key in items then Some(items[key]) else None
    }

    /** `localStorage.removeItem(key)` */
    method RemoveItem(key: string)
      modifies this
      ensures items == old(items) - {key}
    {
      items := items - {key};
    }
  }

  /** The configuration of an outgoing request; only its headers are modelled. */
  class RequestConfig {
    var headers: map<string, string>

    constructor (headers: map<string, string>)
      ensures this.headers == headers
    {
      this.headers := headers;
    }
  }

  const TokenKey := "token"
  const AuthorizationHeader := "Authorization"

  /** The request interceptor: a stored, non-empty token becomes an
      `Authorization: Bearer <token>` header; otherwise the configuration is
      left as it was. The store is only read. */
  method AttachAuthorization(storage: LocalStorage, config: RequestConfig)
    modifies config
    ensures var t := storage.GetItem(TokenKey);
      config.headers == if t.Some? && t.value != "" then old(config.headers)[AuthorizationHeader := "Bearer " + t.value]
                        else old(config.headers)
  {
    var token := storage.GetItem(TokenKey);
    if token.Some? && token.value != "" {
      config.headers := config.headers[AuthorizationHeader := "Bearer " + token.value];
    }
  }

  const CreditsExhaustedMessage := "API credits exhausted. Please try again later."
  const AuthenticationFailedMessage := "Authentication failed. Please log in again."
  const ServerErrorMessage := "Server error. Please try again later."
  const NetworkErrorMessage := "Network error. Please check your connection."
  const UnexpectedErrorMessage := "An unexpected error occurred."
  const StatusFailurePrefix := "Request failed with status "

  /** The branch of the response interceptor a failure takes. */
  datatype ErrorKind =
    | CreditsExhausted
    | AuthenticationFailed
    | ServerError
    | ClientError
    | NetworkError
    | RequestError

  /** The interceptor's if-chain. Its tests overlap nowhere, so the branch is
      fixed by the status (or the lack of a response) alone. */
  function Classify(e: AxiosError): (k: ErrorKind)
    ensures k == CreditsExhausted <==> e.response.Some? && e.response.value.status in {402, 429}
    ensures k == AuthenticationFailed <==> e.response.Some? && e.response.value.status == 401
    ensures k == ServerError <==> e.response.Some? && e.response.value.status >= 500
    ensures k == ClientError <==>
      e.response.Some? && e.response.value.status < 500 && e.response.value.status !in {401, 402, 429}
    ensures k == NetworkError <==> e.response.None? && e.requestSent
    ensures k == RequestError <==> e.response.None? && !e.requestSent
  {
    if e.response.Some? then
      var status := e.response.value.status;
      if status == 402 || status == 429 then CreditsExhausted
      else if status == 401 then AuthenticationFailed
      else if status >= 500 then ServerError
      else ClientError
    else if e.requestSent then NetworkError
    else RequestError
  }

  /** The message of the `Error` the interceptor rejects with. The last
      `ensures` is tight: `Js.EmptyArrayTextIsEmpty` shows that an empty-array
      `message` does give an empty text. */
  function RejectionMessage(e: AxiosError): (m: string)
    ensures Classify(e) == CreditsExhausted ==> m == CreditsExhaustedMessage
    ensures Classify(e) == AuthenticationFailed ==> m == AuthenticationFailedMessage
    ensures Classify(e) == ServerError ==> m == ServerErrorMessage
    ensures Classify(e) == NetworkError ==> m == NetworkErrorMessage
    ensures Classify(e) == ClientError && Truthy(e.DataMessage()) ==> m == ToJsString(e.DataMessage())
    ensures Classify(e) == ClientError && !Truthy(e.DataMessage()) ==>
      m == StatusFailurePrefix + IntToString(e.response.value.status)
    ensures Classify(e) == RequestError ==> m == if e.message != "" then e.message else UnexpectedErrorMessage
    ensures m == "" ==> Classify(e) == ClientError && e.DataMessage().Arr?
  {
    match Classify(e)
    case CreditsExhausted => CreditsExhaustedMessage
    case AuthenticationFailed => AuthenticationFailedMessage
    case ServerError => ServerErrorMessage
    case ClientError =>
      var dataMessage := e.DataMessage();
      if Truthy(dataMessage) then
        TruthyTextEmptyOnlyForArrays(dataMessage);
        ToJsString(dataMessage)
      else StatusFailurePrefix + IntToString(e.response.value.status)
    case NetworkError => NetworkErrorMessage
    case RequestError => if e.message != "" then e.message else UnexpectedErrorMessage
  }

  /** The value the interceptor rejects with: `new Error(message)`. */
  function Rejection(e: AxiosError): (v: Value)
    ensures IsErrorInstance(v) && Get(v, "message") == Str(RejectionMessage(e))
    ensures !HasProperty(v, "response") && !HasProperty(v, "status")
  {
    NewError(RejectionMessage(e))
  }

  /** The response interceptor. Successes pass through unchanged; every
      failure rejects with exactly one fresh `Error` (nothing is retried), and
      only a 401 touches the store, removing the token and nothing else. */
  method InterceptResponse(storage: LocalStorage, result: AxiosResult) returns (outcome: Settled<HttpResponse>)
    modifies storage
    ensures result.Received? ==> outcome == Resolved(result.response)
    ensures result.Errored? ==> outcome == Rejected(Rejection(result.error))
    ensures storage.items ==
      if result.Errored? && Classify(result.error) == AuthenticationFailed then old(storage.items) - {TokenKey}
      else old(storage.items)
  {
    match result
    case Received(response) =>
      outcome := Resolved(response);
    case Errored(e) =>
      if Classify(e) == AuthenticationFailed {
        storage.RemoveItem(TokenKey);
      }
      outcome := Rejected(Rejection(e));
  }
}
