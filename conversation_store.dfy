/** The in-memory conversation store: one map from conversation id to state, shared by all requests. */
module Store {
  import opened Wrappers
  import opened ChatTypes

  class ConversationStore {
    var conversations: map<string, ConversationState>

    /** A new store holds no conversation. */
    constructor ()
      ensures conversations == map[]
    {
      conversations := map[];
    }

    /** `get`: the stored state, or nothing for an unknown id. */
    function Get(conversationId: string): (r: Option<ConversationState>)
      reads this
      ensures r.Some? <==> conversationId in conversations
      ensures r.Some? ==> r.value == conversations[conversationId]
    {
      if conversationId in conversations then Some(conversations[conversationId]) else None
    }

    /** `save`: the last write wins; every other id keeps its state. */
    method Save(conversationId: string, state: ConversationState)
      modifies this
      ensures conversations == old(conversations)[conversationId := state]
      ensures Get(conversationId) == Some(state)
      ensures forall id :: id != conversationId ==> Get(id) == old(Get(id))
    {
      conversations := conversations[conversationId := state];
    }

    /** `delete`: reports whether the id was present; afterwards it is not, and the other ids are untouched. */
    method Delete(conversationId: string) returns (existed: bool)
      modifies this
      ensures existed == (conversationId in old(conversations))
      ensures conversations == old(conversations) - {conversationId}
      ensures Get(conversationId) == None
      ensures forall id :: id != conversationId ==> Get(id) == old(Get(id))
    {
      existed := conversationId in conversations;
      conversations := conversations - {conversationId};
    }

    /** `clear`: every id is forgotten. */
    method Clear()
      modifies this
      ensures conversations == map[]
      ensures forall id :: Get(id) == None
    {
      conversations := map[];
    }
  }
}
