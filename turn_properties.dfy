/**
 * What a chat turn promises, stated over `ChatRoute.Turn`: the empty first
 * message, the tripwire branch, the completed branch with its handoff, the
 * failure branch, and the store-wide invariants every turn keeps.
 */
module TurnProperties {
  import opened Wrappers
  import opened JsText
  import opened ChatTypes
  import opened Agents
  import opened ContextAdapter
  import opened ChatRoute

  /**
   * A missing or unknown id with a whitespace-only message: the fresh
   * triage state is saved and returned with no messages, guardrails or
   * events, whatever the engine would have done.
   */
  lemma BlankFirstMessageShortCircuits(conversations: map<string, ConversationState>, request: ChatRequest,
                                       env: TurnEnv, engine: Engine, otherEngine: Engine)
    requires !Names(conversations, request) && IsBlank(request.message)
    ensures Turn(conversations, request, env, engine) == Turn(conversations, request, env, otherEngine)
    ensures var out := Turn(conversations, request, env, engine);
      && out.conversations == conversations[env.newConversationId := FreshState(env)]
      && out.response == Ok(ChatResponse(env.newConversationId, TriageAgentName, [], InitialContext(env.accountDraw), None, None))
  {
    TrimEmptyIffBlank(request.message);
  }

  /**
   * An existing conversation, or a new one with a non-blank message, always
   * reaches the engine: the response is the server error exactly when the
   * engine failed, and otherwise carries two messages and the guardrails.
   */
  lemma EngineRunsUnlessBlankFirstMessage(conversations: map<string, ConversationState>, request: ChatRequest,
                                          env: TurnEnv, engine: Engine)
    requires Names(conversations, request) || !IsBlank(request.message)
    ensures var out := Turn(conversations, request, env, engine);
      var result := EngineRun(Loaded(conversations, request, env), request.message, env, engine);
      && (out.response.ServerError? <==> result.Failed?)
      && (out.response.Ok? ==> |out.response.body.messages| == 2 && out.response.body.guardrails.Some?)
  {
    TrimEmptyIffBlank(request.message);
    assert !ShortCircuits(conversations, request);
    var s := Loaded(conversations, request, env);
    var result := EngineRun(s, request.message, env, engine);
    if result.Tripwire? {
      TurnWhenTripped(conversations, request, env, engine);
      TripwireAnswers(conversations, s, request.message, result.guardrail, env);
    } else if result.Completed? {
      TurnWhenCompleted(conversations, request, env, engine);
      CompletedAnswers(conversations, s, request.message, result, env);
    } else {
      FailedTurn(conversations, request, env, engine);
    }
  }

  /** The tripwire branch answers with two messages and a guardrail list. */
  lemma TripwireAnswers(conversations: map<string, ConversationState>, s: ConversationState, message: string,
                        guardrail: GuardrailRunResult, env: TurnEnv)
    ensures var r := TripwireOutcome(conversations, s, message, guardrail, env).response;
      r.Ok? && |r.body.messages| == 2 && r.body.guardrails.Some?
  {
  }

  /** The completed branch answers with two messages and a guardrail list. */
  lemma CompletedAnswers(conversations: map<string, ConversationState>, s: ConversationState, message: string,
                         result: EngineResult, env: TurnEnv)
    requires result.Completed?
    ensures var r := CompletedOutcome(conversations, s, message, result, env).response;
      r.Ok? && |r.body.messages| == 2 && r.body.guardrails.Some?
  {
  }

  /**
   * An input-guardrail tripwire: the history grows by the user message and
   * the fixed refusal from the resolved agent; agent and context stay; the
   * response holds one failing guardrail entry, the two new messages
   * restamped, and no events.
   */
  lemma TripwireTurn(conversations: map<string, ConversationState>, request: ChatRequest, env: TurnEnv, engine: Engine)
    requires !ShortCircuits(conversations, request)
    requires EngineRun(Loaded(conversations, request, env), request.message, env, engine).Tripwire?
    ensures var s := Loaded(conversations, request, env);
      var g := EngineRun(s, request.message, env, engine).guardrail;
      var out := Turn(conversations, request, env, engine);
      && s.conversationId in out.conversations
      && var saved := out.conversations[s.conversationId];
      && |saved.messages| == |s.messages| + 2
      && saved.messages[..|s.messages|] == s.messages
      && saved.messages[|s.messages|] == ChatMessage(User, request.message, None, None, env.userStamp)
      && saved.messages[|s.messages| + 1].role == Assistant
      && saved.messages[|s.messages| + 1].content == RefusalText
      && saved.messages[|s.messages| + 1].agent == Some(AgentName(RunAgent(s)))
      && saved.currentAgent == s.currentAgent && saved.context == s.context
      && out.response.Ok?
      && var body := out.response.body;
      && body.messages == [saved.messages[|s.messages|].(timestamp := env.responseStamp),
                           saved.messages[|s.messages| + 1].(timestamp := env.responseStamp)]
      && body.events.None? && body.guardrails.Some? && |body.guardrails.value| == 1
      && !body.guardrails.value[0].passed
      && body.guardrails.value[0].name == g.name && body.guardrails.value[0].id == GuardrailId(g.name)
      && body.currentAgent == s.currentAgent && body.context == s.context
  {
    TurnWhenTripped(conversations, request, env, engine);
  }

  /**
   * A completed run: a non-empty last handoff target becomes the agent and
   * the stored context is re-adapted for it, otherwise both stay; the
   * history grows by the user message and the reply from the post-handoff
   * agent carrying the turn id; the response returns them with the turn id
   * on the reply only, with one event per recognised item.
   */
  lemma CompletedTurn(conversations: map<string, ConversationState>, request: ChatRequest, env: TurnEnv, engine: Engine)
    requires !ShortCircuits(conversations, request)
    requires EngineRun(Loaded(conversations, request, env), request.message, env, engine).Completed?
    ensures var s := Loaded(conversations, request, env);
      var result := EngineRun(s, request.message, env, engine);
      var target := LastHandoffTarget(result.newItems);
      var out := Turn(conversations, request, env, engine);
      && s.conversationId in out.conversations
      && var saved := out.conversations[s.conversationId];
      && (target.Some? && target.value != "" ==>
            saved.currentAgent == target.value && saved.context == ContextFor(target.value, s.context))
      && (!(target.Some? && target.value != "") ==> saved.currentAgent == s.currentAgent && saved.context == s.context)
      && |saved.messages| == |s.messages| + 2
      && saved.messages[..|s.messages|] == s.messages
      && saved.messages[|s.messages|] == ChatMessage(User, request.message, None, None, env.userStamp)
      && saved.messages[|s.messages| + 1]
         == ChatMessage(Assistant, result.finalOutput.GetOr(""), Some(saved.currentAgent), Some(env.turnId), env.assistantStamp)
      && out.response.Ok?
      && var body := out.response.body;
      && |body.messages| == 2
      && body.messages[0].role == User && body.messages[0].content == request.message && body.messages[0].turnId.None?
      && body.messages[1].role == Assistant && body.messages[1].content == result.finalOutput.GetOr("")
      && body.messages[1].turnId == Some(env.turnId)
      && body.currentAgent == saved.currentAgent && body.context == saved.context
      && body.events.Some? && |body.events.value| == RecognisedCount(result.newItems)
      && (forall k :: 0 <= k < |body.events.value| ==> body.events.value[k].turnId == env.turnId)
      && body.guardrails == Some(GuardrailInfos(result.inputResults, result.outputResults, request.message, env.guardrailTime))
  {
    TurnWhenCompleted(conversations, request, env, engine);
  }

  /** An engine failure other than a tripwire: nothing is saved and the response is the internal error. */
  lemma FailedTurn(conversations: map<string, ConversationState>, request: ChatRequest, env: TurnEnv, engine: Engine)
    requires !ShortCircuits(conversations, request)
    requires EngineRun(Loaded(conversations, request, env), request.message, env, engine).Failed?
    ensures Turn(conversations, request, env, engine) == TurnOutcome(conversations, ServerError(InternalErrorText))
  {
  }

  /**
   * A turn writes at most the conversation it worked on: every other id is
   * present afterwards exactly when it was before, with the same state.
   */
  lemma OtherConversationsUntouched(conversations: map<string, ConversationState>, request: ChatRequest,
                                    env: TurnEnv, engine: Engine, id: string)
    requires id != Loaded(conversations, request, env).conversationId
    ensures var out := Turn(conversations, request, env, engine).conversations;
      && (id in out <==> id in conversations)
      && (id in conversations ==> out[id] == conversations[id])
  {
    var s := Loaded(conversations, request, env);
    if !ShortCircuits(conversations, request) {
      var result := EngineRun(s, request.message, env, engine);
      if result.Tripwire? {
        TurnWhenTripped(conversations, request, env, engine);
      } else if result.Completed? {
        TurnWhenCompleted(conversations, request, env, engine);
      }
    }
  }

  /** A state is baggage-shaped exactly when its agent is the baggage agent, and well shaped. */
  predicate ShapeMatchesAgent(s: ConversationState) {
    WellShaped(s.context) && (s.context.Baggage? <==> s.currentAgent == BaggageAgentName)
  }

  /** The store invariant the route keeps: each state is stored under its own id and its shape matches its agent. */
  predicate Consistent(conversations: map<string, ConversationState>) {
    forall id :: id in conversations ==> conversations[id].conversationId == id && ShapeMatchesAgent(conversations[id])
  }

  /** Saving a state whose shape matches its agent, under its own id, keeps the store consistent. */
  lemma SaveKeepsConsistent(conversations: map<string, ConversationState>, s: ConversationState)
    requires Consistent(conversations) && ShapeMatchesAgent(s)
    ensures Consistent(conversations[s.conversationId := s])
  {
  }

  /** A completed run leaves an agent and a context whose shapes match, whatever the handoff. */
  lemma AfterHandoffShapeMatches(s: ConversationState, items: seq<RunItem>)
    requires ShapeMatchesAgent(s)
    ensures WellShaped(ContextAfter(s, items))
    ensures ContextAfter(s, items).Baggage? <==> AgentAfter(s, items) == BaggageAgentName
  {
  }

  /** The tripwire branch saves a state whose shape matches its agent. */
  lemma TripwireKeepsConsistent(conversations: map<string, ConversationState>, s: ConversationState, message: string,
                                guardrail: GuardrailRunResult, env: TurnEnv)
    requires Consistent(conversations) && ShapeMatchesAgent(s)
    ensures Consistent(TripwireOutcome(conversations, s, message, guardrail, env).conversations)
  {
    var saved := s.(messages := s.messages + [UserMessage(message, env.userStamp),
      ChatMessage(Assistant, RefusalText, Some(AgentName(RunAgent(s))), None, env.assistantStamp)]);
    SaveKeepsConsistent(conversations, saved);
  }

  /** The completed branch saves a state whose shape matches its agent. */
  lemma CompletedKeepsConsistent(conversations: map<string, ConversationState>, s: ConversationState, message: string,
                                 result: EngineResult, env: TurnEnv)
    requires result.Completed?
    requires Consistent(conversations) && ShapeMatchesAgent(s)
    ensures Consistent(CompletedOutcome(conversations, s, message, result, env).conversations)
  {
    var agent := AgentAfter(s, result.newItems);
    var saved := ConversationState(s.conversationId, s.messages + [UserMessage(message, env.userStamp),
      ChatMessage(Assistant, result.finalOutput.GetOr(""), Some(agent), Some(env.turnId), env.assistantStamp)],
      agent, ContextAfter(s, result.newItems));
    AfterHandoffShapeMatches(s, result.newItems);
    SaveKeepsConsistent(conversations, saved);
  }

  /** Every turn keeps the store consistent. */
  lemma TurnKeepsStoreConsistent(conversations: map<string, ConversationState>, request: ChatRequest,
                                 env: TurnEnv, engine: Engine)
    requires Consistent(conversations)
    ensures Consistent(Turn(conversations, request, env, engine).conversations)
  {
    var s := Loaded(conversations, request, env);
    InitialContextShape(env.accountDraw);
    assert ShapeMatchesAgent(s);
    if ShortCircuits(conversations, request) {
      SaveKeepsConsistent(conversations, s);
    } else {
      var result := EngineRun(s, request.message, env, engine);
      if result.Tripwire? {
        TurnWhenTripped(conversations, request, env, engine);
        TripwireKeepsConsistent(conversations, s, request.message, result.guardrail, env);
      } else if result.Completed? {
        TurnWhenCompleted(conversations, request, env, engine);
        CompletedKeepsConsistent(conversations, s, request.message, result, env);
      }
    }
  }

  /**
   * In a consistent store the adaptation before the run changes nothing:
   * the stored context already has the shape the resolved agent expects,
   * including when an unregistered agent name falls back to triage.
   */
  lemma RunContextIsStoredContext(conversations: map<string, ConversationState>, request: ChatRequest, env: TurnEnv)
    requires Consistent(conversations)
    ensures var s := Loaded(conversations, request, env);
      RunContextOf(s) == s.context
  {
    var s := Loaded(conversations, request, env);
    InitialContextShape(env.accountDraw);
    assert s.context.Baggage? <==> s.currentAgent == BaggageAgentName;
    var a := RunAgent(s);
    ContextForAgentShape(a, s.context);
    if s.currentAgent == BaggageAgentName {
      assert AgentName(BaggageAgent) == s.currentAgent;
    }
  }

  /**
   * In a consistent store, a turn on an existing conversation keeps its
   * history as a prefix: the failure branch leaves it, every other branch
   * appends exactly two messages.
   */
  lemma HistoryOnlyGrows(conversations: map<string, ConversationState>, request: ChatRequest, env: TurnEnv, engine: Engine)
    requires Consistent(conversations) && Names(conversations, request)
    ensures var id := request.conversationId.value;
      var out := Turn(conversations, request, env, engine).conversations;
      && id in out
      && out[id].messages[..|conversations[id].messages|] == conversations[id].messages
      && (|out[id].messages| == |conversations[id].messages| || |out[id].messages| == |conversations[id].messages| + 2)
  {
    var s := Loaded(conversations, request, env);
    var result := EngineRun(s, request.message, env, engine);
    if result.Tripwire? {
      TripwireTurn(conversations, request, env, engine);
    } else if result.Completed? {
      CompletedTurn(conversations, request, env, engine);
    }
  }
}
