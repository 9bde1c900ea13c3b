/**
 * The chat turn: create or load the conversation, short-circuit an empty
 * first message, adapt the context to the current agent, run the engine,
 * and then either record the guardrail refusal or translate the engine's
 * items into events, apply the last handoff and append the exchange.
 *
 * The LLM engine is a parameter: given the resolved agent, the transcript
 * and the adapted context it either trips an input guardrail, completes
 * with items and guardrail results, or fails with some other error.
 */
module ChatRoute {
  import opened Wrappers
  import opened JsText
  import opened ChatTypes
  import opened Agents
  import opened Guardrails
  import opened ContextAdapter
  import opened Store

  /** A guardrail's `outputInfo`: absent, a plain string, or an object (with its `reasoning` and its JSON text). */
  datatype OutputInfo = NoInfo | TextInfo(text: string) | ObjectInfo(reasoning: Option<string>, json: string)

  datatype GuardrailRunResult = GuardrailRunResult(name: string, tripwireTriggered: bool, outputInfo: OutputInfo)

  /** The engine's new items; `OtherItem` stands for every item type the route does not recognise. */
  datatype RunItem =
    | MessageOutput(agentName: Option<string>, content: string)
    | HandoffOutput(sourceAgent: string, targetAgent: string)
    | ToolCall(toolName: Option<string>, arguments: Option<ToolArgs>)
    | ToolCallOutput(output: string)
    | OtherItem(kind: string)

  datatype EngineResult =
    | Tripwire(guardrail: GuardrailRunResult)
    | Completed(finalOutput: Option<string>, newItems: seq<RunItem>,
                inputResults: seq<GuardrailRunResult>, outputResults: seq<GuardrailRunResult>)
    | Failed

  /** `runner.run(agent, transcript, { context })`. */
  type Engine = (AgentId, string, Context) -> EngineResult

  /** `JSON.parse` on tool arguments: `None` when it throws. */
  type ArgsParser = string -> Option<ToolArgs>

  /**
   * Everything the turn takes from the clock and the random generator:
   * the id a new conversation would get, the draw behind its account
   * number, the turn id, the k-th event id, the time at the i-th item,
   * the guardrail timestamps and the ISO stamps of the messages.
   */
  datatype TurnEnv = TurnEnv(
    newConversationId: string,
    accountDraw: UnitDraw,
    turnId: string,
    eventId: nat -> string,
    itemTime: nat -> int,
    guardrailTime: int,
    userStamp: string,
    assistantStamp: string,
    responseStamp: string,
    parse: ArgsParser)

  const TriageAgentName := "Triage Agent"
  const RefusalText := "I'm sorry, but I can only help with airline-related questions. Please ask me about flights, bookings, seat changes, baggage, or other airline services."
  const InternalErrorText := "Internal server error"
  const DefaultRelevanceReasoning := "Message is relevant to airline customer service topics"
  const DefaultLengthReasoning := "Response length is within acceptable range"

  // ---------------------------------------------------------------- guardrail info

  /** A guardrail's id: its name lower-cased, each whitespace run replaced by "_". */
  function GuardrailId(name: string): string {
    ReplaceWhitespaceRuns(ToLower(name), '_')
  }

  /** An id has no whitespace and no upper-case letter, so mapping it again leaves it as it is. */
  lemma GuardrailIdFacts(name: string)
    ensures var id := GuardrailId(name);
      && (forall i :: 0 <= i < |id| ==> !IsJsWhitespace(id[i]) && !IsUpperAscii(id[i]))
      && GuardrailId(id) == id
  {
    var lower := ToLower(name);
    var id := GuardrailId(name);
    ToLowerFacts(name);
    ReplaceWhitespaceRunsNoSpace(lower, '_');
    ReplaceWhitespaceRunsChars(lower, '_');
    forall i | 0 <= i < |id|
      ensures !IsUpperAscii(id[i])
    {
      if id[i] != '_' {
        assert id[i] in lower;
      }
    }
    assert ToLower(id) == id;
    ReplaceWhitespaceRunsNoop(id, '_');
  }

  /** A word, one space and the rest of a name: the id is the lower-cased word, "_", and the rest's id. */
  lemma GuardrailIdOfWords(word: string, rest: string)
    requires forall i :: 0 <= i < |word| ==> !IsJsWhitespace(word[i])
    requires rest == [] || !IsJsWhitespace(rest[0])
    ensures GuardrailId(word + " " + rest) == ToLower(word) + "_" + GuardrailId(rest)
  {
    ToLowerFacts(word);
    ToLowerFacts(rest);
    assert ToLower(word + " " + rest) == ToLower(word) + " " + ToLower(rest);
    ReplaceWhitespaceRunsJoin(ToLower(word), " ", ToLower(rest), '_');
  }

  /** A name without whitespace: the id is the name lower-cased. */
  lemma GuardrailIdOfWord(word: string)
    requires forall i :: 0 <= i < |word| ==> !IsJsWhitespace(word[i])
    ensures GuardrailId(word) == ToLower(word)
  {
    ToLowerFacts(word);
    ReplaceWhitespaceRunsNoop(ToLower(word), '_');
  }

  lemma LowerCaseWords()
    ensures ToLower("Relevance") == "relevance" && ToLower("Content") == "content"
    ensures ToLower("Length") == "length" && ToLower("Guardrail") == "guardrail"
  {
  }

  /** The fixed id of the default relevance entry is the id the mapping gives its name. */
  lemma RelevanceGuardrailId()
    ensures GuardrailId(RelevanceGuardrailName) == "relevance_guardrail"
  {
    var relevance, guardrail := "Relevance", "Guardrail";
    assert relevance + " " + guardrail == RelevanceGuardrailName;
    assert "relevance" + "_" + "guardrail" == "relevance_guardrail";
    assert forall i :: 0 <= i < |guardrail| ==> !IsJsWhitespace(guardrail[i]);
    assert forall i :: 0 <= i < |relevance| ==> !IsJsWhitespace(relevance[i]);
    LowerCaseWords();
    GuardrailIdOfWord(guardrail);
    GuardrailIdOfWords(relevance, guardrail);
  }

  /** The last two words of the content-length guardrail's name map to "length_guardrail". */
  lemma LengthGuardrailId()
    ensures GuardrailId("Length Guardrail") == "length_guardrail"
  {
    var length, guardrail := "Length", "Guardrail";
    assert length + " " + guardrail == "Length Guardrail";
    assert "length" + "_" + "guardrail" == "length_guardrail";
    assert forall i :: 0 <= i < |guardrail| ==> !IsJsWhitespace(guardrail[i]);
    assert forall i :: 0 <= i < |length| ==> !IsJsWhitespace(length[i]);
    LowerCaseWords();
    GuardrailIdOfWord(guardrail);
    GuardrailIdOfWords(length, guardrail);
  }

  /** The fixed id of the default content-length entry is the id the mapping gives its name. */
  lemma ContentLengthGuardrailId()
    ensures GuardrailId(ContentLengthGuardrailName) == "content_length_guardrail"
  {
    var content, rest := "Content", "Length Guardrail";
    assert content + " " + rest == ContentLengthGuardrailName;
    assert "content" + "_" + "length_guardrail" == "content_length_guardrail";
    assert forall i :: 0 <= i < |content| ==> !IsJsWhitespace(content[i]);
    assert !IsJsWhitespace(rest[0]);
    LowerCaseWords();
    LengthGuardrailId();
    GuardrailIdOfWords(content, rest);
  }

  /** The reasoning shown for an engine guardrail result: its `reasoning` if truthy, else the string itself, else its JSON. */
  function ReasoningOf(info: OutputInfo): string {
    match info
    case NoInfo => "{}"
    case TextInfo(text) => text
    case ObjectInfo(reasoning, json) => if reasoning.Some? && reasoning.value != "" then reasoning.value else json
  }

  /** The reasoning shown for a tripped guardrail: its `reasoning` if truthy, else a fixed text. */
  function TripwireReasoning(info: OutputInfo): string {
    if info.ObjectInfo? && info.reasoning.Some? && info.reasoning.value != "" then info.reasoning.value
    else "Guardrail triggered"
  }

  /** A tripped guardrail reports its own reasoning when it has one, and the fixed text otherwise; never an empty one. */
  lemma TripwireReasoningFacts(info: OutputInfo)
    ensures TripwireReasoning(info) != ""
    ensures info.ObjectInfo? && info.reasoning.Some? && info.reasoning.value != "" ==>
              TripwireReasoning(info) == ReasoningOf(info)
    ensures !(info.ObjectInfo? && info.reasoning.Some? && info.reasoning.value != "") ==>
              TripwireReasoning(info) == "Guardrail triggered"
  {
  }

  function InfoOf(r: GuardrailRunResult, message: string, millis: int): GuardrailInfo {
    GuardrailInfo(GuardrailId(r.name), r.name, message, ReasoningOf(r.outputInfo), !r.tripwireTriggered, millis)
  }

  function DefaultGuardrailInfos(message: string, millis: int): seq<GuardrailInfo> {
    [GuardrailInfo("relevance_guardrail", RelevanceGuardrailName, message, DefaultRelevanceReasoning, true, millis),
     GuardrailInfo("content_length_guardrail", ContentLengthGuardrailName, message, DefaultLengthReasoning, true, millis)]
  }

  /**
   * The guardrail list of a completed turn: input results, then output
   * results, one entry each, passing exactly when not tripped; with no
   * results at all, the two default passing entries.
   */
  function GuardrailInfos(inputResults: seq<GuardrailRunResult>, outputResults: seq<GuardrailRunResult>,
                          message: string, millis: int): (infos: seq<GuardrailInfo>)
    ensures inputResults + outputResults == [] ==>
      && |infos| == 2 && infos[0].name == RelevanceGuardrailName && infos[1].name == ContentLengthGuardrailName
      && infos[0].passed && infos[1].passed
    ensures inputResults + outputResults != [] ==>
      && |infos| == |inputResults| + |outputResults|
      && (forall k :: 0 <= k < |inputResults| ==> infos[k] == InfoOf(inputResults[k], message, millis))
      && (forall k :: 0 <= k < |outputResults| ==> infos[|inputResults| + k] == InfoOf(outputResults[k], message, millis))
    ensures forall k :: 0 <= k < |infos| ==> infos[k].input == message && GuardrailId(infos[k].name) == infos[k].id
  {
    RelevanceGuardrailId();
    ContentLengthGuardrailId();
    var all := inputResults + outputResults;
    if all == [] then DefaultGuardrailInfos(message, millis)
    else seq(|all|, k requires 0 <= k < |all| => InfoOf(all[k], message, millis))
  }

  /** An engine result passes exactly when it did not trip. */
  lemma InfoPassedIffNotTripped(r: GuardrailRunResult, message: string, millis: int)
    ensures InfoOf(r, message, millis).passed <==> !r.tripwireTriggered
    ensures InfoOf(r, message, millis).name == r.name && InfoOf(r, message, millis).input == message
  {
  }

  // ---------------------------------------------------------------- items to events

  predicate Recognised(item: RunItem) {
    !item.OtherItem?
  }

  /** Tool-call arguments as the event shows them: a string parsed when it parses, kept raw when it does not. */
  function ParsedArgs(arguments: Option<ToolArgs>, parse: ArgsParser): Option<ToolArgs> {
    match arguments
    case Some(ArgsText(text)) => if parse(text).Some? then parse(text) else arguments
    case _ => arguments
  }

  /** The `||` fallback on an optional name: the name when it is present and non-empty, else the fallback. */
  function NameOr(name: Option<string>, fallback: string): string {
    if name.Some? && name.value != "" then name.value else fallback
  }

  /** The event one item yields, with the id and time it is given; none for an unrecognised item. */
  function EventOf(item: RunItem, turnId: string, id: string, time: int, parse: ArgsParser): (e: Option<AgentEvent>)
    ensures e.Some? <==> Recognised(item)
    ensures e.Some? ==> e.value.id == id && e.value.turnId == turnId && e.value.timestamp == time
    ensures item.MessageOutput? ==>
              && e.value.eventType == MessageEvent && e.value.content == item.content
              && e.value.metadata == MessageMeta(NameOr(item.agentName, "Agent"))
    ensures item.HandoffOutput? ==>
              && e.value.eventType == HandoffEvent
              && e.value.content == item.sourceAgent + " -> " + item.targetAgent
              && e.value.metadata == HandoffMeta(item.sourceAgent, item.targetAgent)
    ensures item.ToolCall? ==>
              && e.value.eventType == ToolCallEvent && e.value.content == NameOr(item.toolName, "Unknown Tool")
              && e.value.metadata == ToolCallMeta(ParsedArgs(item.arguments, parse))
    ensures item.ToolCallOutput? ==>
              e.value.eventType == ToolOutputEvent && e.value.content == item.output
              && e.value.metadata == ToolOutputMeta(item.output)
  {
    match item
    case MessageOutput(agentName, content) =>
      Some(AgentEvent(id, MessageEvent, turnId, content, MessageMeta(NameOr(agentName, "Agent")), time))
    case HandoffOutput(source, target) =>
      Some(AgentEvent(id, HandoffEvent, turnId, source + " -> " + target, HandoffMeta(source, target), time))
    case ToolCall(toolName, arguments) =>
      Some(AgentEvent(id, ToolCallEvent, turnId, NameOr(toolName, "Unknown Tool"), ToolCallMeta(ParsedArgs(arguments, parse)), time))
    case ToolCallOutput(output) =>
      Some(AgentEvent(id, ToolOutputEvent, turnId, output, ToolOutputMeta(output), time))
    case OtherItem(_) => None
  }

  /** A handoff event names both agents: its content holds the source and the target, and its metadata records them. */
  lemma HandoffEventNamesBothAgents(source: string, target: string, turnId: string, id: string, time: int,
                                    parse: ArgsParser)
    ensures var e := EventOf(HandoffOutput(source, target), turnId, id, time, parse).value;
      && StartsWith(e.content, source) && Contains(e.content, target)
      && e.content[|source|..] == " -> " + target
  {
    var e := EventOf(HandoffOutput(source, target), turnId, id, time, parse).value;
    ContainsMiddle(source + " -> ", target, "");
    assert source + " -> " + target + "" == e.content;
  }

  /** Messages and tool calls never show an empty name: a missing or empty one falls back to a fixed label. */
  lemma EventNamesNeverEmpty(item: RunItem, turnId: string, id: string, time: int, parse: ArgsParser)
    requires item.MessageOutput? || item.ToolCall?
    ensures var e := EventOf(item, turnId, id, time, parse).value;
      && (item.MessageOutput? ==>
            && e.metadata.agent != ""
            && (e.metadata.agent == "Agent" <==> item.agentName.None? || item.agentName.value in {"", "Agent"}))
      && (item.ToolCall? ==>
            && e.content != ""
            && (e.content == "Unknown Tool" <==> item.toolName.None? || item.toolName.value in {"", "Unknown Tool"}))
  {
  }

  /** How many items of a list are recognised. */
  function RecognisedCount(items: seq<RunItem>): (n: nat)
    ensures n <= |items|
  {
    if items == [] then 0
    else RecognisedCount(items[..|items| - 1]) + (if Recognised(items[|items| - 1]) then 1 else 0)
  }

  /**
   * The events of a turn: the items' events in item order; the k-th event
   * gets the k-th event id and the time taken at its own item.
   */
  function Events(items: seq<RunItem>, turnId: string, eventId: nat -> string, itemTime: nat -> int, parse: ArgsParser)
    : (events: seq<AgentEvent>)
    ensures |events| == RecognisedCount(items)
    ensures forall k :: 0 <= k < |events| ==> events[k].turnId == turnId && events[k].id == eventId(k)
  {
    if items == [] then []
    else
      var prior := Events(items[..|items| - 1], turnId, eventId, itemTime, parse);
      match EventOf(items[|items| - 1], turnId, eventId(|prior|), itemTime(|items| - 1), parse)
      case None => prior
      case Some(e) => prior + [e]
  }

  /** The events of a prefix of the items are a prefix of the events. */
  lemma {:induction false} EventsOfPrefix(items: seq<RunItem>, j: nat, turnId: string, eventId: nat -> string,
                                          itemTime: nat -> int, parse: ArgsParser)
    requires j <= |items|
    ensures Events(items[..j], turnId, eventId, itemTime, parse) <= Events(items, turnId, eventId, itemTime, parse)
    decreases |items|
  {
    if j < |items| {
      var shorter := items[..|items| - 1];
      EventsOfPrefix(shorter, j, turnId, eventId, itemTime, parse);
      assert shorter[..j] == items[..j];
    } else {
      assert items[..j] == items;
    }
  }

  /**
   * Each recognised item yields exactly one event, at the position given by
   * the recognised items before it, with that position's id and its own time.
   */
  lemma EventOfEachItem(items: seq<RunItem>, i: nat, turnId: string, eventId: nat -> string,
                        itemTime: nat -> int, parse: ArgsParser)
    requires i < |items| && Recognised(items[i])
    ensures var k := RecognisedCount(items[..i]);
      && k < RecognisedCount(items)
      && Events(items, turnId, eventId, itemTime, parse)[k] == EventOf(items[i], turnId, eventId(k), itemTime(i), parse).value
  {
    var upto := items[..i + 1];
    assert upto[..i] == items[..i];
    EventsOfPrefix(items, i + 1, turnId, eventId, itemTime, parse);
  }

  /** Every handoff item of a turn shows up in its events as "source -> target", at its recognised position. */
  lemma HandoffEventInTurn(items: seq<RunItem>, i: nat, turnId: string, eventId: nat -> string,
                           itemTime: nat -> int, parse: ArgsParser)
    requires i < |items| && items[i].HandoffOutput?
    ensures var k := RecognisedCount(items[..i]);
      var events := Events(items, turnId, eventId, itemTime, parse);
      && k < |events|
      && events[k].eventType == HandoffEvent
      && events[k].content == items[i].sourceAgent + " -> " + items[i].targetAgent
      && events[k].metadata == HandoffMeta(items[i].sourceAgent, items[i].targetAgent)
  {
    EventOfEachItem(items, i, turnId, eventId, itemTime, parse);
  }

  /** An unrecognised item yields no event. */
  lemma UnrecognisedItemsAreSkipped(items: seq<RunItem>, kind: string, turnId: string, eventId: nat -> string,
                                    itemTime: nat -> int, parse: ArgsParser)
    ensures Events(items + [OtherItem(kind)], turnId, eventId, itemTime, parse)
         == Events(items, turnId, eventId, itemTime, parse)
  {
    assert (items + [OtherItem(kind)])[..|items|] == items;
  }

  /** The target of the last handoff item, if there is one. */
  function LastHandoffTarget(items: seq<RunItem>): Option<string> {
    if items == [] then None
    else if items[|items| - 1].HandoffOutput? then Some(items[|items| - 1].targetAgent)
    else LastHandoffTarget(items[..|items| - 1])
  }

  /** `LastHandoffTarget` finds the handoff item after which there is no other, and nothing when there is none. */
  lemma {:induction false} LastHandoffTargetSpec(items: seq<RunItem>)
    ensures LastHandoffTarget(items).None? <==> forall i :: 0 <= i < |items| ==> !items[i].HandoffOutput?
    ensures LastHandoffTarget(items).Some? ==>
      exists i :: 0 <= i < |items| && items[i].HandoffOutput? && items[i].targetAgent == LastHandoffTarget(items).value
                  && forall j :: i < j < |items| ==> !items[j].HandoffOutput?
    decreases |items|
  {
    if items != [] {
      var n := |items|;
      var shorter := items[..n - 1];
      LastHandoffTargetSpec(shorter);
      if items[n - 1].HandoffOutput? {
        assert items[n - 1].HandoffOutput? && items[n - 1].targetAgent == LastHandoffTarget(items).value;
      } else if LastHandoffTarget(shorter).Some? {
        var i :| 0 <= i < |shorter| && shorter[i].HandoffOutput? && shorter[i].targetAgent == LastHandoffTarget(shorter).value
                 && forall j :: i < j < |shorter| ==> !shorter[j].HandoffOutput?;
        assert items[i] == shorter[i];
        assert forall j :: i < j < n ==> !items[j].HandoffOutput? by {
          forall j | i < j < n ensures !items[j].HandoffOutput? {
            if j < n - 1 { assert items[j] == shorter[j]; }
          }
        }
      } else {
        assert forall i :: 0 <= i < n ==> !items[i].HandoffOutput? by {
          forall i | 0 <= i < n ensures !items[i].HandoffOutput? {
            if i < n - 1 { assert items[i] == shorter[i]; }
          }
        }
      }
    }
  }

  /** Taking one more item adds that item's event, numbered after those before it, and updates the last handoff. */
  lemma EventsStep(items: seq<RunItem>, i: nat, turnId: string, eventId: nat -> string, itemTime: nat -> int,
                   parse: ArgsParser)
    requires i < |items|
    ensures var prior := Events(items[..i], turnId, eventId, itemTime, parse);
      var e := EventOf(items[i], turnId, eventId(|prior|), itemTime(i), parse);
      Events(items[..i + 1], turnId, eventId, itemTime, parse) == prior + (if e.Some? then [e.value] else [])
    ensures LastHandoffTarget(items[..i + 1])
         == if items[i].HandoffOutput? then Some(items[i].targetAgent) else LastHandoffTarget(items[..i])
  {
    assert items[..i + 1][..i] == items[..i];
  }

  /**
   * One pass of the route's item loop: the item's event is appended with the
   * next event id, and a handoff item overwrites the handoff target.
   */
  method RecordItem(item: RunItem, events: seq<AgentEvent>, handoffTarget: Option<string>, turnId: string,
                    eventId: nat -> string, time: int, parse: ArgsParser)
    returns (events': seq<AgentEvent>, handoffTarget': Option<string>)
    ensures var e := EventOf(item, turnId, eventId(|events|), time, parse);
      events' == events + (if e.Some? then [e.value] else [])
    ensures handoffTarget' == if item.HandoffOutput? then Some(item.targetAgent) else handoffTarget
  {
    events', handoffTarget' := events, handoffTarget;
    match item {
      case MessageOutput(agentName, content) =>
        var name := if agentName.Some? && agentName.value != "" then agentName.value else "Agent";
        events' := events + [AgentEvent(eventId(|events|), MessageEvent, turnId, content, MessageMeta(name), time)];
      case HandoffOutput(source, target) =>
        handoffTarget' := Some(target);
        events' := events + [AgentEvent(eventId(|events|), HandoffEvent, turnId, source + " -> " + target,
                                        HandoffMeta(source, target), time)];
      case ToolCall(toolName, arguments) =>
        var name := if toolName.Some? && toolName.value != "" then toolName.value else "Unknown Tool";
        var parsed := arguments;
        if arguments.Some? && arguments.value.ArgsText? {
          var attempt := parse(arguments.value.text);
          if attempt.Some? {
            parsed := attempt;
          }
        }
        events' := events + [AgentEvent(eventId(|events|), ToolCallEvent, turnId, name, ToolCallMeta(parsed), time)];
      case ToolCallOutput(output) =>
        events' := events + [AgentEvent(eventId(|events|), ToolOutputEvent, turnId, output, ToolOutputMeta(output), time)];
      case OtherItem(_) =>
    }
  }

  /**
   * The item loop of the route: one event per recognised item, and the
   * handoff target overwritten by each handoff item.
   */
  method RecordEvents(items: seq<RunItem>, turnId: string, eventId: nat -> string, itemTime: nat -> int, parse: ArgsParser)
    returns (events: seq<AgentEvent>, handoffTarget: Option<string>)
    ensures events == Events(items, turnId, eventId, itemTime, parse)
    ensures handoffTarget == LastHandoffTarget(items)
  {
    events := [];
    handoffTarget := None;
    var i := 0;
    while i < |items|
      invariant 0 <= i <= |items|
      invariant events == Events(items[..i], turnId, eventId, itemTime, parse)
      invariant handoffTarget == LastHandoffTarget(items[..i])
    {
      EventsStep(items, i, turnId, eventId, itemTime, parse);
      events, handoffTarget := RecordItem(items[i], events, handoffTarget, turnId, eventId, itemTime(i), parse);
      i := i + 1;
    }
    assert items[..i] == items;
  }

  // ---------------------------------------------------------------- the turn

  datatype PostResponse = Ok(body: ChatResponse) | ServerError(error: string)

  datatype TurnOutcome = TurnOutcome(conversations: map<string, ConversationState>, response: PostResponse)

  /** `!body.conversationId || !conversationStore.get(body.conversationId)` is false: a stored conversation is named. */
  predicate Names(conversations: map<string, ConversationState>, request: ChatRequest) {
    request.conversationId.Some? && request.conversationId.value != "" && request.conversationId.value in conversations
  }

  /** The state a new conversation starts from. */
  function FreshState(env: TurnEnv): (s: ConversationState)
    ensures s.messages == [] && s.currentAgent == TriageAgentName && s.context.General?
  {
    ConversationState(env.newConversationId, [], TriageAgentName, InitialContext(env.accountDraw))
  }

  /** The state the turn works on: the stored one, or a fresh one. */
  function Loaded(conversations: map<string, ConversationState>, request: ChatRequest, env: TurnEnv): ConversationState {
    if Names(conversations, request) then conversations[request.conversationId.value] else FreshState(env)
  }

  /** A first message that trims to nothing gets the fresh state back without running the engine. */
  predicate ShortCircuits(conversations: map<string, ConversationState>, request: ChatRequest) {
    !Names(conversations, request) && Trim(request.message) == ""
  }

  /** The agent a turn runs: the stored agent name, resolved with the fallback to triage. */
  function RunAgent(state: ConversationState): AgentId {
    GetAgentByName(state.currentAgent)
  }

  /** The context the engine sees: the stored one adapted to the resolved agent. */
  function RunContextOf(state: ConversationState): Context {
    ContextFor(AgentName(RunAgent(state)), state.context)
  }

  function UserMessage(message: string, stamp: string): ChatMessage {
    ChatMessage(User, message, None, None, stamp)
  }

  /** The transcript the engine sees: the history and the new user message. */
  function Transcript(state: ConversationState, message: string, env: TurnEnv): string {
    FormatMessagesForAgent(state.messages + [UserMessage(message, env.userStamp)])
  }

  function EngineRun(state: ConversationState, message: string, env: TurnEnv, engine: Engine): EngineResult {
    engine(RunAgent(state), Transcript(state, message, env), RunContextOf(state))
  }

  /** The tripwire branch: refusal appended and saved; agent and context untouched; one failing guardrail entry. */
  function TripwireOutcome(conversations: map<string, ConversationState>, state: ConversationState, message: string,
                           guardrail: GuardrailRunResult, env: TurnEnv): TurnOutcome {
    var user := UserMessage(message, env.userStamp);
    var refusal := ChatMessage(Assistant, RefusalText, Some(AgentName(RunAgent(state))), None, env.assistantStamp);
    var saved := state.(messages := state.messages + [user, refusal]);
    var info := GuardrailInfo(GuardrailId(guardrail.name), guardrail.name, message,
                              TripwireReasoning(guardrail.outputInfo), false, env.guardrailTime);
    TurnOutcome(
      conversations[saved.conversationId := saved],
      Ok(ChatResponse(saved.conversationId, saved.currentAgent,
                      [user.(timestamp := env.responseStamp), refusal.(timestamp := env.responseStamp)],
                      saved.context, Some([info]), None)))
  }

  /** The agent after a completed turn: the last handoff's target when truthy, otherwise the stored one. */
  function AgentAfter(state: ConversationState, items: seq<RunItem>): string {
    var target := LastHandoffTarget(items);
    if target.Some? && target.value != "" then target.value else state.currentAgent
  }

  /** The context after a completed turn: re-adapted from the stored one for a new agent, otherwise the stored one. */
  function ContextAfter(state: ConversationState, items: seq<RunItem>): Context {
    var target := LastHandoffTarget(items);
    if target.Some? && target.value != "" then ContextFor(target.value, state.context) else state.context
  }

  /** The completed branch: events recorded, handoff applied, exchange appended and saved. */
  function CompletedOutcome(conversations: map<string, ConversationState>, state: ConversationState, message: string,
                            result: EngineResult, env: TurnEnv): TurnOutcome
    requires result.Completed?
  {
    var agent := AgentAfter(state, result.newItems);
    var user := UserMessage(message, env.userStamp);
    var reply := ChatMessage(Assistant, result.finalOutput.GetOr(""), Some(agent), Some(env.turnId), env.assistantStamp);
    var saved := ConversationState(state.conversationId, state.messages + [user, reply], agent,
                                   ContextAfter(state, result.newItems));
    TurnOutcome(
      conversations[saved.conversationId := saved],
      Ok(ChatResponse(saved.conversationId, saved.currentAgent,
                      [user.(timestamp := env.responseStamp, turnId := None),
                       reply.(timestamp := env.responseStamp, turnId := Some(env.turnId))],
                      saved.context,
                      Some(GuardrailInfos(result.inputResults, result.outputResults, message, env.guardrailTime)),
                      Some(Events(result.newItems, env.turnId, env.eventId, env.itemTime, env.parse)))))
  }

  /** The whole `POST` turn over the store's map. */
  function Turn(conversations: map<string, ConversationState>, request: ChatRequest, env: TurnEnv, engine: Engine)
    : TurnOutcome
  {
    var state := Loaded(conversations, request, env);
    if ShortCircuits(conversations, request) then
      TurnOutcome(conversations[state.conversationId := state],
                  Ok(ChatResponse(state.conversationId, state.currentAgent, [], state.context, None, None)))
    else
      var result := EngineRun(state, request.message, env, engine);
      match result
      case Tripwire(guardrail) => TripwireOutcome(conversations, state, request.message, guardrail, env)
      case Completed(_, _, _, _) => CompletedOutcome(conversations, state, request.message, result, env)
      case Failed => TurnOutcome(conversations, ServerError(InternalErrorText))
  }

  /** A turn that reaches the engine and trips a guardrail is the tripwire branch on the loaded state. */
  lemma TurnWhenTripped(conversations: map<string, ConversationState>, request: ChatRequest, env: TurnEnv, engine: Engine)
    requires !ShortCircuits(conversations, request)
    requires EngineRun(Loaded(conversations, request, env), request.message, env, engine).Tripwire?
    ensures Turn(conversations, request, env, engine)
         == TripwireOutcome(conversations, Loaded(conversations, request, env), request.message,
                            EngineRun(Loaded(conversations, request, env), request.message, env, engine).guardrail, env)
  {
  }

  /** A turn that reaches the engine and completes is the completed branch on the loaded state. */
  lemma TurnWhenCompleted(conversations: map<string, ConversationState>, request: ChatRequest, env: TurnEnv, engine: Engine)
    requires !ShortCircuits(conversations, request)
    requires EngineRun(Loaded(conversations, request, env), request.message, env, engine).Completed?
    ensures Turn(conversations, request, env, engine)
         == CompletedOutcome(conversations, Loaded(conversations, request, env), request.message,
                             EngineRun(Loaded(conversations, request, env), request.message, env, engine), env)
  {
  }

  /** The tripwire branch of the route, on the store: the refusal is appended and the state saved. */
  method CommitTripwire(store: ConversationStore, state: ConversationState, message: string,
                        guardrail: GuardrailRunResult, env: TurnEnv) returns (response: PostResponse)
    modifies store
    ensures TurnOutcome(store.conversations, response)
         == TripwireOutcome(old(store.conversations), state, message, guardrail, env)
  {
    var agent := GetAgentByName(state.currentAgent);
    var info := GuardrailInfo(GuardrailId(guardrail.name), guardrail.name, message,
                              TripwireReasoning(guardrail.outputInfo), false, env.guardrailTime);
    var user := UserMessage(message, env.userStamp);
    var refusal := ChatMessage(Assistant, RefusalText, Some(AgentName(agent)), None, env.assistantStamp);
    var saved := state.(messages := state.messages + [user, refusal]);
    store.Save(saved.conversationId, saved);
    response := Ok(ChatResponse(saved.conversationId, saved.currentAgent,
                                [user.(timestamp := env.responseStamp), refusal.(timestamp := env.responseStamp)],
                                saved.context, Some([info]), None));
  }

  /** The completed branch of the route, on the store: events, handoff, the exchange appended and saved. */
  method CommitCompleted(store: ConversationStore, state: ConversationState, message: string,
                         result: EngineResult, env: TurnEnv) returns (response: PostResponse)
    requires result.Completed?
    modifies store
    ensures TurnOutcome(store.conversations, response)
         == CompletedOutcome(old(store.conversations), state, message, result, env)
  {
    var infos := GuardrailInfos(result.inputResults, result.outputResults, message, env.guardrailTime);
    var events, handoffTarget := RecordEvents(result.newItems, env.turnId, env.eventId, env.itemTime, env.parse);
    var s := state;
    if handoffTarget.Some? && handoffTarget.value != "" {
      s := s.(currentAgent := handoffTarget.value);
      s := s.(context := ContextFor(handoffTarget.value, s.context));
    }
    var user := UserMessage(message, env.userStamp);
    var reply := ChatMessage(Assistant, result.finalOutput.GetOr(""), Some(s.currentAgent), Some(env.turnId),
                             env.assistantStamp);
    s := s.(messages := s.messages + [user, reply]);
    store.Save(s.conversationId, s);
    response := Ok(ChatResponse(s.conversationId, s.currentAgent,
                                [user.(timestamp := env.responseStamp, turnId := None),
                                 reply.(timestamp := env.responseStamp, turnId := Some(env.turnId))],
                                s.context, Some(infos), Some(events)));
  }

  /** The route's lookup: the named stored conversation, or a fresh state when the id is missing or unknown. */
  method LoadState(store: ConversationStore, request: ChatRequest, env: TurnEnv) returns (state: ConversationState, isNew: bool)
    ensures isNew == !Names(store.conversations, request)
    ensures state == Loaded(store.conversations, request, env)
  {
    if request.conversationId.None? || request.conversationId.value == "" || store.Get(request.conversationId.value).None? {
      state := ConversationState(env.newConversationId, [], TriageAgentName, InitialContext(env.accountDraw));
      isNew := true;
    } else {
      state := store.Get(request.conversationId.value).value;
      isNew := false;
    }
  }

  /**
   * `POST /api/chat` over the shared store, step by step as the route does
   * it; the outcome is the one `Turn` describes.
   */
  method Post(store: ConversationStore, request: ChatRequest, env: TurnEnv, engine: Engine) returns (response: PostResponse)
    modifies store
    ensures store.conversations == Turn(old(store.conversations), request, env, engine).conversations
    ensures response == Turn(old(store.conversations), request, env, engine).response
  {
    ghost var before := store.conversations;
    var state, isNew := LoadState(store, request, env);
    if isNew && Trim(request.message) == "" {
      store.Save(state.conversationId, state);
      response := Ok(ChatResponse(state.conversationId, state.currentAgent, [], state.context, None, None));
      return;
    }

    var agent := GetAgentByName(state.currentAgent);
    var context := ContextFor(AgentName(agent), state.context);
    var transcript := FormatMessagesForAgent(state.messages + [UserMessage(request.message, env.userStamp)]);
    var result := engine(agent, transcript, context);
    assert result == EngineRun(state, request.message, env, engine);

    match result {
      case Failed =>
        response := ServerError(InternalErrorText);
      case Tripwire(guardrail) =>
        TurnWhenTripped(before, request, env, engine);
        response := CommitTripwire(store, state, request.message, guardrail, env);
      case Completed(_, _, _, _) =>
        TurnWhenCompleted(before, request, env, engine);
        response := CommitCompleted(store, state, request.message, result, env);
    }
  }
}
