# mento.ai relay and client error handling, modelled in Dafny

mento.ai is an education web app. A React client shows an AI avatar teacher
served by the Tavus video-conversation API. A small Express relay holds the
Tavus API key and forwards two operations to the provider: fetching the
configured replica and creating a conversation. This project models the
decision logic underneath the UI and the HTTP plumbing:

- **the relay** (`server/server.js`): the CORS origin decision, the
  configuration echo, which persona goes into the conversation payload, and how
  provider failures become `{status, message, details}` replies;
- **the client HTTP layer** (`client/src/utils/api.ts`): attaching the bearer
  token, and sorting every failed call into exactly one message, which also
  clears the stored token on 401;
- **the two client services** (`client/src/services/api/tavus.ts` and
  `client/src/services/tavusService.ts`): their persona payloads and the
  `ApiError` records they throw;
- **the "current replica" holder** (`client/src/contexts/TavusContext.tsx`):
  a class with the slots `replica`, `loading` and `error`, and one method per
  callback. Each asynchronous callback is split into the step before its
  `await` and the step after the call settles. The settled outcome is a
  parameter.

JavaScript values are the datatype `Js.Value`. Its `ErrorObj` case is an
instance of `Error`. Truthiness, `?.` property access, `'key' in`, `typeof`,
`String(v)` and `trim()` are written out in modules `Js` and `JsText`. The
rule for choosing a persona is stated once, in `Persona.PreferredPersona`,
without `trim`: an explicit id that has a visible (non-white-space) character
wins; otherwise a visible default wins; otherwise there is no persona.
`JsText.TrimNonEmptyIff` connects this rule to the source's
`x && x.trim() !== ''` test.

Notes on the code's behaviour:

- the relay ignores a white-space-only persona as well as a missing one;
- the client sorts failures into six classes: credits, authentication, server
  error and client error for a received status, plus no response, and a
  failure before any request;
- after a failed replica fetch the holder shows `Failed to load AI companion`,
  never the network message, because the wrapper throws plain objects
  (`TavusContext.ApiErrorsYieldFallbackText`);
- `resetState` sets `loading` to false, while the initial state has it true.

## Model

| member | source | states |
|---|---|---|
| `JsText.TrimStart` | client/src/services/tavusService.ts:55 | the result is the suffix of the input that starts at its first non-white-space character; every character dropped is white space |
| `JsText.TrimEnd` | client/src/services/tavusService.ts:55 | the result is the prefix of the input that ends at its last non-white-space character; every character dropped is white space |
| `JsText.TrimNonEmptyIff` | server/server.js:182 | `s.trim() !== ''` holds exactly when `s` has a non-white-space character |
| `JsText.TrimmedNonEmptyIff` | server/server.js:182-184 | `x && x.trim() !== ''` holds exactly when `x` is present and has a visible character |
| `JsText.IndexOf` | server/server.js:31 | `indexOf` returns -1 exactly when the origin is not in the list; otherwise it returns the first position that holds it |
| `JsText.Prefix` | server/server.js:109 | `substring(0, n)` is the prefix of length `min(n, length)` |
| `Js.NatToString` | client/src/utils/api.ts:57 | the status renders as a non-empty string of digits with no leading zero |
| `Js.ParseNatToString` | client/src/utils/api.ts:57 | the rendered status parses back to the same number, so the rendering loses nothing |
| `Js.IntToString` | client/src/utils/api.ts:57 | the status renders as a signed decimal numeral, with a minus sign exactly when it is negative |
| `Js.ParseIntToString` | client/src/utils/api.ts:57 | every integer, negative ones included, parses back from its rendering |
| `Js.TruthyTextEmptyOnlyForArrays` | client/src/utils/api.ts:57-58 | only a truthy array can turn into an empty `Error` message under `String()` |
| `Js.Or` | server/server.js:169 | the JavaScript "or" operator gives one of its operands; the result is truthy exactly when either operand is, and a truthy left operand wins |
| `Js.Get` | server/server.js:169 | `v?.key` is `undefined` when `v` lacks the property, and the field's value on an object that has it |
| `Js.NewError` | client/src/utils/api.ts:40 | `new Error(text)` is an `Error` instance whose message is `text`, with no `response` and no `status` |
| `Axios.AxiosError.DataMessage` | server/server.js:169 | `error.response?.data?.message` is `undefined` without a response |
| `Persona.PreferredPersonaIsCandidate` | server/server.js:181-188 | a chosen persona is never blank and is either the explicit id or the default |
| `Persona.ConversationRequest.Body` | client/src/services/api/tavus.ts:16-20 | the posted body has the single optional key `persona_id`, present exactly when a persona is set |
| `TavusServer.CorsOrigin` | server/server.js:22-35 | allowed exactly when the origin is missing or empty, the environment is production, or the origin is in the allow-list; a rejection carries the policy message followed by the origin |
| `TavusServer.CorsCallback` | server/server.js:10-35 | over the fixed four-origin allow-list: allowed exactly when the origin is missing or empty, the environment is production, or the origin is listed; the local dev origin is allowed and an unlisted one denied outside production |
| `TavusServer.KeyPreview` | server/server.js:109 | the preview is the key's first 8 characters (fewer for a shorter key) followed by "..." |
| `TavusServer.DebugConfig` | server/server.js:101-112 | key length is the key's length; a preview is present exactly for a non-empty key; `hasValidConfig` holds exactly when key and replica id are both non-empty; other fields echo the configuration |
| `TavusServer.Reply.Body` | server/server.js:168-171 | an error reply's JSON body carries its `message` |
| `TavusServer.ReplicaRoute` | server/server.js:162-173 | success returns the provider body unchanged; failure uses the provider status (500 when there is no status or it is 0), the provider's `data.message` when truthy (else `Failed to fetch replica`), and the provider data as details |
| `TavusServer.ConversationFailureDebug` | server/server.js:227-233 | the debug block reports the replica id, whether a key is set, its source, its length and its preview (the text `None` when there is no key) |
| `TavusServer.RequestPersonaId` | server/server.js:178 | the relay takes the persona from the body's `personaId` key, only when it holds a string, and then it is exactly that string |
| `TavusServer.RequestPersonaIdAsSent` | client/src/services/api/tavus.ts:16-20 | the corrected reading takes the persona from the `persona_id` key the clients post, and falls back to `personaId` only when `persona_id` holds no string |
| `TavusServer.CreateConversationRoute` | server/server.js:176-236 | the payload always has `replica_id` from the configuration, and its `persona_id` follows `PreferredPersona`, verbatim and untrimmed; success passes the provider body through; failure uses the provider status (else 500), the provider's `data.message` (else `Failed to create conversation`), the provider data (else `error.message`) as details, and the debug block |
| `TavusServer.NoPersonaUnderDefaultConfig` | server/config.js:9 | with the shipped empty default, a request without a usable persona puts no `persona_id` in the payload |
| `HttpClient.LocalStorage.RemoveItem` | client/src/utils/api.ts:46 | removing the token deletes that key and leaves every other entry |
| `HttpClient.AttachAuthorization` | client/src/utils/api.ts:13-24 | an `Authorization: Bearer <token>` header is added exactly when a non-empty token is stored; otherwise the headers are unchanged |
| `HttpClient.Classify` | client/src/utils/api.ts:31-68 | each failure takes exactly one branch: 402 or 429 means credits, 401 means authentication, 500 or more means server error, any other status means client error, no response means network error, and no request means a setup error |
| `HttpClient.RejectionMessage` | client/src/utils/api.ts:37-66 | each class gets its fixed message; a client error uses `data.message` (as text) or `Request failed with status <status>`; a setup error uses `error.message` or `An unexpected error occurred.`; the message is empty only for a client error whose `data.message` is an array |
| `HttpClient.Rejection` | client/src/utils/api.ts:40-66 | the rejection is a fresh `Error` carrying that message, with no `response` and no `status` |
| `HttpClient.InterceptResponse` | client/src/utils/api.ts:27-68 | a success passes through unchanged; every failure rejects once with `Rejection`; only a 401 changes storage, and it removes exactly the token |
| `TavusService.ApiError.AsValue` | client/src/services/tavusService.ts:19-23 | a thrown `ApiError` is a plain object, never an `Error`, and carries its message, details and status |
| `TavusService.CreateApiError` | client/src/services/tavusService.ts:26-38 | an object with a `message` keeps that message, plus its `status` only if it has one; anything else gets the default message and no status; details are always the original value |
| `TavusService.ConversationPayload` | client/src/services/tavusService.ts:50-60 | the payload's persona is `PreferredPersona(personaId, DEFAULT_PERSONA_ID)`, so this choice agrees with the relay's for equal inputs |
| `TavusService.Settle` | client/src/services/tavusService.ts:42-47 | the shared try/catch: success returns the response data; failure throws the `createApiError` record for the given default message |
| `TavusService.GetReplica` | client/src/services/tavusService.ts:41-48 | success returns the replica body; a failure throws a plain object that keeps the original error as details, and whose message is `Failed to fetch replica` with no status unless the error carried a `message` of its own |
| `TavusService.CreateConversation` | client/src/services/tavusService.ts:50-71 | the posted persona follows `PreferredPersona`; success returns the response body; a failure throws a plain object that keeps the original error as details, and whose message is `Failed to create conversation` with no status unless the error carried a `message` of its own |
| `TavusService.CreateApiErrorOnInterceptorRejection` | client/src/services/tavusService.ts:27-32 | on the interceptor's `Error`, the record copies its message unconditionally, has no status, and keeps the `Error` as details |
| `TavusApi.ConversationPayload` | client/src/services/api/tavus.ts:16-20 | `persona_id` is set exactly when the id is a non-empty string, with no trimming and no default; an absent or empty id gives `{}` |
| `TavusApi.HandleError` | client/src/services/api/tavus.ts:29-41 | with a truthy response: its `data.message` (else `An error occurred`), its status and its data; without one: the error's message (else `An unknown error occurred`), no status, and the error itself; the message is never falsy |
| `TavusApi.Settle` | client/src/services/api/tavus.ts:5-27 | `getReplica` and `createConversation` return `response.data` unchanged, or throw the `handleError` record |
| `TavusApi.HandleInterceptorRejection` | client/src/services/api/tavus.ts:30-40 | on the interceptor's `Error`, the no-response branch always applies: no status, the `Error` as details, and the interceptor's message whenever it is non-empty |
| `TavusContext.FailureText` | client/src/contexts/TavusContext.tsx:60 | an `Error` contributes its message; anything else gives the fallback |
| `TavusContext.TavusProvider.constructor` | client/src/contexts/TavusContext.tsx:18-20 | initially there is no replica, `loading` is true and there is no error |
| `TavusContext.TavusProvider.ClearError` | client/src/contexts/TavusContext.tsx:42-44 | the error becomes null and nothing else changes |
| `TavusContext.TavusProvider.ResetState` | client/src/contexts/TavusContext.tsx:46-50 | no replica, not loading, no error |
| `TavusContext.TavusProvider.BeginFetchReplica` | client/src/contexts/TavusContext.tsx:54-55 | before awaiting: loading is on, the error is cleared, the replica is kept |
| `TavusContext.TavusProvider.FinishFetchReplica` | client/src/contexts/TavusContext.tsx:56-67 | success stores and returns the data; failure keeps the previous replica, records the `Error`'s message (else `Failed to load AI companion`) and returns null without throwing; loading ends false either way |
| `TavusContext.TavusProvider.FetchReplica` | client/src/contexts/TavusContext.tsx:52-68 | the whole fetch: on success the error stays null |
| `TavusContext.TavusProvider.RefreshReplica` | client/src/contexts/TavusContext.tsx:101-103 | a refresh re-runs the fetch and has the same effect on the state |
| `TavusContext.TavusProvider.BeginCreateConversation` | client/src/contexts/TavusContext.tsx:87-88 | before awaiting: loading is on, the error is cleared, the replica is kept |
| `TavusContext.TavusProvider.FinishCreateConversation` | client/src/contexts/TavusContext.tsx:89-98 | the response is returned unchanged, or the same value is thrown again after recording the message (else `Failed to create conversation`); the replica is never touched; loading ends false |
| `TavusContext.TavusProvider.CreateConversation` | client/src/contexts/TavusContext.tsx:85-99 | the whole creation: on success the error stays null |
| `TavusContext.UseTavus` | client/src/contexts/TavusContext.tsx:158-174 | inside a provider the provider's state comes back; outside one: no replica, not loading, error `Context not available` |
| `TavusContext.ApiErrorsYieldFallbackText` | client/src/contexts/TavusContext.tsx:60 | the wrapper's thrown records are never `Error` instances, so the holder always records the fallback text |
| `Scenarios.BodyLacksCamelCaseKey` | server/server.js:178 | a client body never has the `personaId` key the relay reads |
| `Scenarios.ClientPersonaNeverReachesServer` | server/server.js:178 | whatever persona either client posts, the relay reads none |
| `Scenarios.ExplicitPersonaDroppedExample` | server/server.js:178-188 | a conversation requested for persona `p-teacher`, with the shipped empty default, is created with no persona at all |
| `Scenarios.ClientChoiceHonouredWhenReadAsSent` | client/src/services/tavusService.ts:55-59 | read under the key that is sent, the relay forwards the service's chosen persona, and applies its own default only when the service chose none |
| `Scenarios.UnauthorizedProviderMeansAuthFailure` | server/server.js:168 | a provider 401 leaves the relay as 401, and the client classifies it as an authentication failure with that exact message |
| `Scenarios.ProviderMessageReachesServices` | client/src/utils/api.ts:57-58 | a provider client error's message survives the relay, the interceptor and both services, while the holder still shows its fallback |
| `Scenarios.NetworkFailureThenReset` | client/src/contexts/TavusContext.tsx:46-66 | after a fetch with no response: no replica, not loading, error `Failed to load AI companion`; after a reset all three slots are clear |

## Findings

| source | as written | input that shows it | evidently intended | confidence | as-written member | corrected member |
|---|---|---|---|---|---|---|
| server/server.js:178 | the relay reads `personaId` from the request body, but both clients post `persona_id` (client/src/services/api/tavus.ts:16-20, client/src/services/tavusService.ts:55-59) | `createConversation("p-teacher")` through either client's public API, with the shipped empty default: the provider payload has no `persona_id`. The shipped pages cannot show it today: the only caller, client/src/pages/Landing.tsx:100, passes no persona, and no page imports `tavusService` | the relay reads the key the clients send, so an explicit persona reaches the provider | high; not executed | `Scenarios.ExplicitPersonaDroppedExample` (over `TavusServer.RequestPersonaId`) | `TavusServer.RequestPersonaIdAsSent`, proved in `Scenarios.ClientChoiceHonouredWhenReadAsSent` |

`TavusServer.CreateConversationRoute` takes the request's persona id as its
input, so it applies to both readings. The cross-module persona property is
proved over the corrected reading.

## Left out

- Transport and I/O: the axios instances, their 30-second timeout, Express middleware wiring, `app.listen` and all `console.*` output. Each provider or relay call is abstracted to the outcome it settles with, which the operations take as a parameter.
- The `/api/health` and `/api/tavus/health` routes, the Express error middleware (server/server.js:239-245) and the no-op `authenticate` middleware. They are diagnostics or placeholders outside the modelled logic.
- Configuration loading (server/config.js, client/src/config/tavus.ts). Its values are parameters (`TavusServer.ServerConfig` and the default-persona arguments). The hard-coded key values are not modelled.
- React mechanics: memoisation, the `useEffect` that starts the first fetch, the `providerError` fallback rendering, the try/catch around the context value and the JSX, and `TavusErrorBoundary`.
- Interleaving: a fetch and a conversation creation in flight together share the `loading` slot. The model runs the callbacks' steps in sequence only.
- Numbers: JavaScript numbers are modelled as integers. Floating point and NaN are left out.
- Property access only covers the names the core reads. Built-in properties such as `length` on strings and arrays are not modelled.
- `TavusServer.RequestPersonaId`: a truthy `personaId` that is not a string makes the source's `.trim` throw, which leads to a 500 reply. The reader treats every non-string as absent. `CreateConversationRoute` takes the id as `Option<string>`.
- `TavusApi.HandleError`: requires a non-nullish error, because the source throws a `TypeError` when it reads `response` of `undefined` or `null`.
- `TavusService.ApiError.AsValue`: a `status` key that is present but `undefined` is not told apart from an absent one, since they serialise alike.
- `TavusServer.KeyPreview`, `TavusServer.DebugConfig`, `TavusServer.ConversationFailureDebug` and `JsText.Prefix`: a Dafny string counts Unicode code points, while JavaScript's `length` and `substring` count UTF-16 code units. For a key holding characters outside the Basic Multilingual Plane, the modelled length and preview differ from the source's.
- A replica body of JSON `null` is stored as `Some(Null)`, not as "no replica".
- Pages and components (dashboard, library, landing, navigation, routing), and the command-line probes. They are rendering and network probes.
