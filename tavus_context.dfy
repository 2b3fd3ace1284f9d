/** The "current replica" holder (client/src/contexts/TavusContext.tsx): three
    slots, `replica`, `loading` and `error`, updated by the provider's
    callbacks. Each asynchronous callback is split into the step it takes
    before awaiting the wrapper and the step it takes once the call has
    settled; the settled outcome is a parameter. */
module TavusContext {
  import opened Wrappers
  import opened Js
  import TavusService

  const LoadFailedMessage := "Failed to load AI companion"
  const CreateFailedMessage := "Failed to create conversation"
  const NoContextMessage := "Context not available"

  /** `err instanceof Error ? err.message : fallback` */
  function FailureText(err: Value, fallback: string): (t: string)
    ensures IsErrorInstance(err) ==> Str(t) == Get(err, "message")
    ensures !IsErrorInstance(err) ==> t == fallback
  {
    if IsErrorInstance(err) then err.message else fallback
  }

  /** What `useTavus` exposes of the state. */
  datatype ContextView = ContextView(replica: Option<Value>, loading: bool, error: Option<string>)

  class TavusProvider {
    var replica: Option<Value>
    var loading: bool
    var error: Option<string>

    /** The initial state: no replica, loading, no error. */
    constructor ()
      ensures replica == None && loading && error == None
    {
      replica := None;
      loading := true;
      error := None;
    }

    function View(): (v: ContextView)
      reads this
      ensures v.replica == replica && v.loading == loading && v.error == error
    {
      ContextView(replica, loading, error)
    }

    /** `clearError`: only the error slot changes. */
    method ClearError()
      modifies this
      ensures error == None
      ensures replica == old(replica) && loading == old(loading)
    {
      error := None;
    }

    /** `resetState`: no replica, not loading, no error. */
    method ResetState()
      modifies this
      ensures replica == None && !loading && error == None
    {
      replica := None;
      loading := false;
      error := None;
    }

    /** `fetchReplica` up to its `await`: loading, error cleared. */
    method BeginFetchReplica()
      modifies this
      ensures loading && error == None
      ensures replica == old(replica)
    {
      loading := true;
      error := None;
    }

    /** `fetchReplica` once the wrapper has settled. Success stores and returns
        the data; failure records a message, keeps the previous replica and
        returns null instead of throwing. Loading ends either way. */
    method FinishFetchReplica(outcome: Settled<Value>) returns (result: Option<Value>)
      modifies this
      ensures !loading
      ensures outcome.Resolved? ==>
        replica == Some(outcome.value) && result == Some(outcome.value) && error == old(error)
      ensures outcome.Rejected? ==>
        replica == old(replica) && result == None && error == Some(FailureText(outcome.reason, LoadFailedMessage))
    {
      if outcome.Resolved? {
        replica := Some(outcome.value);
        result := Some(outcome.value);
      } else {
        error := Some(FailureText(outcome.reason, LoadFailedMessage));
        result := None;
      }
      loading := false;
    }

    /** The whole of `fetchReplica`, for one settled outcome. */
    method FetchReplica(outcome: Settled<Value>) returns (result: Option<Value>)
      modifies this
      ensures !loading
      ensures outcome.Resolved? ==>
        replica == Some(outcome.value) && result == Some(outcome.value) && error == None
      ensures outcome.Rejected? ==>
        replica == old(replica) && result == None && error == Some(FailureText(outcome.reason, LoadFailedMessage))
    {
      BeginFetchReplica();
      result := FinishFetchReplica(outcome);
    }

    /** `refreshReplica`: re-issues the fetch and discards its result. */
    method RefreshReplica(outcome: Settled<Value>)
      modifies this
      ensures !loading
      ensures outcome.Resolved? ==> replica == Some(outcome.value) && error == None
      ensures outcome.Rejected? ==>
        replica == old(replica) && error == Some(FailureText(outcome.reason, LoadFailedMessage))
    {
      var _ := FetchReplica(outcome);
    }

    /** `createConversation` up to its `await`: loading, error cleared. */
    method BeginCreateConversation()
      modifies this
      ensures loading && error == None
      ensures replica == old(replica)
    {
      loading := true;
      error := None;
    }

    /** `createConversation` once the wrapper has settled: the response is
        returned unchanged, or the error is recorded and the same value is
        thrown again. The replica is never touched; loading ends either way. */
    method FinishCreateConversation(outcome: Settled<Value>) returns (result: Settled<Value>)
      modifies this
      ensures result == outcome
      ensures !loading && replica == old(replica)
      ensures outcome.Resolved? ==> error == old(error)
      ensures outcome.Rejected? ==> error == Some(FailureText(outcome.reason, CreateFailedMessage))
    {
      if outcome.Rejected? {
        error := Some(FailureText(outcome.reason, CreateFailedMessage));
      }
      result := outcome;
      loading := false;
    }

    /** The whole of `createConversation`, for one settled outcome. */
    method CreateConversation(outcome: Settled<Value>) returns (result: Settled<Value>)
      modifies this
      ensures result == outcome
      ensures !loading && replica == old(replica)
      ensures outcome.Resolved? ==> error == None
      ensures outcome.Rejected? ==> error == Some(FailureText(outcome.reason, CreateFailedMessage))
    {
      BeginCreateConversation();
      result := FinishCreateConversation(outcome);
    }
  }

  /** `useTavus`: the provider's state, or a fixed fallback outside a provider. */
  function UseTavus(context: Option<ContextView>): (v: ContextView)
    ensures context.Some? ==> v == context.value
    ensures context.None? ==> v.replica == None && !v.loading && v.error == Some(NoContextMessage)
  {
    if context.Some? then context.value else ContextView(None, false, Some(NoContextMessage))
  }

  /** The wrapper throws plain `ApiError` objects, never `Error` instances, so a
      failure recorded by the holder is always the fallback text. */
  lemma ApiErrorsYieldFallbackText(e: TavusService.ApiError, fallback: string)
    ensures FailureText(e.AsValue(), fallback) == fallback
  {
  }
}
