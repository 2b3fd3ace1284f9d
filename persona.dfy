/** The persona rule the relay and its clients implement: an explicit persona
    identifier is used when it has a visible character, otherwise a configured
    default when that has one, otherwise no persona is named and the provider
    applies the replica's own default. */
module Persona {
  import opened Wrappers
  import opened Js
  import opened JsText

  /** The reference rule, stated without `trim`. */
  function PreferredPersona(personaId: Option<string>, defaultPersonaId: string): Option<string> {
    if personaId.Some? && HasVisibleChar(personaId.value) then personaId
    else if HasVisibleChar(defaultPersonaId) then Some(defaultPersonaId)
    else None
  }

  /** A persona chosen by the rule is one of the two candidates, and is never
      blank. */
  lemma PreferredPersonaIsCandidate(personaId: Option<string>, defaultPersonaId: string)
    ensures var r := PreferredPersona(personaId, defaultPersonaId);
      r.Some? ==> HasVisibleChar(r.value) && (r == personaId || r.value == defaultPersonaId)
  {
  }

  /** The body a client posts to create a conversation: `{ persona_id?: string }`. */
  datatype ConversationRequest = ConversationRequest(personaId: Option<string>) {

    /** The JSON body; the key is absent when no persona is set. */
    function Body(): (v: Value)
      ensures v.Obj?
      ensures "persona_id" in v.fields <==> personaId.Some?
      ensures personaId.Some? ==> v.fields["persona_id"] == Str(personaId.value)
      ensures forall k :: k in v.fields ==> k == "persona_id"
    {
      if personaId.Some? then Obj(map["persona_id" := Str(personaId.value)]) else Obj(map[])
    }
  }
}
