/** Properties that span the client and the relay. */
module Scenarios {
  import opened Wrappers
  import opened Js
  import opened JsText
  import opened Axios
  import Persona
  import TavusServer
  import HttpClient
  import TavusApi
  import TavusService
  import TavusContext

  /** How the client's axios sees a relay reply that is not a success. */
  function AsClientError(reply: TavusServer.Reply, clientMessage: string): AxiosError {
    AxiosError(Some(HttpResponse(reply.Status(), reply.Body())), true, clientMessage)
  }

  // ---------------------------------------------------------------------------
  // The persona key mismatch between the clients and the relay.

  /** A client body has no `personaId` property. */
  lemma BodyLacksCamelCaseKey(request: Persona.ConversationRequest)
    ensures TavusServer.RequestPersonaId(request.Body()) == None
  {
  }

  /** As written, the relay reads `personaId` while both clients post
      `persona_id`: whatever persona a client chooses, the relay sees none. */
  lemma ClientPersonaNeverReachesServer(personaId: Option<string>, clientDefault: string)
    ensures TavusServer.RequestPersonaId(TavusApi.ConversationPayload(personaId).Body()) == None
    ensures TavusServer.RequestPersonaId(TavusService.ConversationPayload(personaId, clientDefault).Body()) == None
  {
  }

  /** A concrete case: with the shipped empty server default, a conversation
      requested for persona "p-teacher" is created with no persona at all. */
  lemma ExplicitPersonaDroppedExample()
    ensures var body := TavusApi.ConversationPayload(Some("p-teacher")).Body();
      Persona.PreferredPersona(TavusServer.RequestPersonaId(body), "") == None
    ensures Persona.PreferredPersona(Some("p-teacher"), "") == Some("p-teacher")
  {
    ClientPersonaNeverReachesServer(Some("p-teacher"), "");
    assert !IsWhiteSpace("p-teacher"[0]);
  }

  /** Read under the key the clients send, the persona the service chose is the
      one the relay forwards; only when the service chose none does the relay's
      own default apply. */
  lemma ClientChoiceHonouredWhenReadAsSent(personaId: Option<string>, clientDefault: string, serverDefault: string)
    ensures var sent := TavusService.ConversationPayload(personaId, clientDefault);
      Persona.PreferredPersona(TavusServer.RequestPersonaIdAsSent(sent.Body()), serverDefault)
        == if sent.personaId.Some? then sent.personaId else Persona.PreferredPersona(None, serverDefault)
  {
  }

  // ---------------------------------------------------------------------------
  // Error propagation from the provider to the user.

  /** A provider 401 reaches the client as a 401, which the interceptor reports
      as an authentication failure. */
  lemma UnauthorizedProviderMeansAuthFailure(e: AxiosError, clientMessage: string)
    requires e.response.Some? && e.response.value.status == 401
    ensures var reply := TavusServer.ReplicaRoute(TavusServer.Threw(e));
      && reply.Status() == 401
      && HttpClient.Classify(AsClientError(reply, clientMessage)) == HttpClient.AuthenticationFailed
      && HttpClient.RejectionMessage(AsClientError(reply, clientMessage)) == HttpClient.AuthenticationFailedMessage
  {
  }

  /** A provider client error with a message: the relay forwards status and
      message, the interceptor rejects with that text, both client services
      keep it, and the state holder still shows its fallback. */
  lemma ProviderMessageReachesServices(status: int, message: string, data: map<string, Value>,
                                       serverMessage: string, clientMessage: string)
    requires 0 < status < 500 && status !in {401, 402, 429}
    requires message != "" && "message" in data && data["message"] == Str(message)
    ensures var e := AxiosError(Some(HttpResponse(status, Obj(data))), true, serverMessage);
      var reply := TavusServer.ReplicaRoute(TavusServer.Threw(e));
      var rejection := HttpClient.Rejection(AsClientError(reply, clientMessage));
      && reply.Status() == status
      && HttpClient.RejectionMessage(AsClientError(reply, clientMessage)) == message
      && TavusService.CreateApiError(rejection, TavusService.GetReplicaFailed).message == Str(message)
      && TavusApi.HandleError(rejection).message == Str(message)
      && TavusContext.FailureText(TavusApi.HandleError(rejection).AsValue(), TavusContext.LoadFailedMessage)
           == TavusContext.LoadFailedMessage
  {
  }

  /** The holder after a replica fetch that failed for lack of a network, and
      after a reset. */
  method NetworkFailureThenReset(clientMessage: string) returns (failed: TavusContext.ContextView, reset: TavusContext.ContextView)
    ensures failed == TavusContext.ContextView(None, false, Some(TavusContext.LoadFailedMessage))
    ensures reset == TavusContext.ContextView(None, false, None)
  {
    var holder := new TavusContext.TavusProvider();
    var rejection := HttpClient.Rejection(AxiosError(None, true, clientMessage));
    var _ := holder.FetchReplica(TavusApi.Settle(Rejected(rejection)));
    failed := holder.View();
    holder.ResetState();
    reset := holder.View();
  }
}
