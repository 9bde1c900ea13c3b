/**
 * The records exchanged by the airline customer-service core: the two
 * context shapes, chat messages, conversation state, guardrail reports,
 * events, requests and responses.
 */
module ChatTypes {
  import opened Wrappers

  /** The five fields every context shape carries. */
  datatype SharedFields = SharedFields(
    seatNumber: Option<string>,
    flightNumber: Option<string>,
    accountNumber: Option<string>,
    passengerName: Option<string>,
    confirmationNumber: Option<string>)

  const NoSharedFields := SharedFields(None, None, None, None, None)

  datatype BaggageType = CarryOn | Checked | Oversized | Special

  datatype BaggageStatus = StatusChecked | StatusLost | StatusDelayed | StatusDelivered

  /** The baggage-only fields; `None` is an unset (or absent) value. */
  datatype BaggageFields = BaggageFields(
    baggageType: Option<BaggageType>,
    baggageWeight: Option<int>,
    baggageCount: Option<int>,
    baggageDimensions: Option<string>,
    baggageStatus: Option<BaggageStatus>,
    baggageClaimNumber: Option<string>,
    baggageLostClaimNumber: Option<string>,
    specialRequests: Option<seq<string>>)

  const NoBaggage := BaggageFields(None, None, None, None, None, None, None, None)

  /**
   * A context is baggage-shaped when it carries the key `baggageType` or
   * `baggageClaimNumber`, whatever their values (a converted context has both
   * keys, unset). A general-shaped context has neither key, but a tool may
   * still have written other baggage fields into it; those sit in `bag`.
   */
  datatype Context =
    | General(shared: SharedFields, bag: BaggageFields)
    | Baggage(shared: SharedFields, bag: BaggageFields)

  /** A general-shaped context has no value for the two keys that decide the shape. */
  predicate WellShaped(c: Context) {
    c.General? ==> c.bag.baggageType.None? && c.bag.baggageClaimNumber.None?
  }

  /** JavaScript falsiness of an optional string field: unset or empty. */
  predicate Missing(o: Option<string>) {
    o.None? || o.value == ""
  }

  /** Replace the shared fields, keeping the shape. */
  function WithShared(c: Context, s: SharedFields): (r: Context)
    ensures r.shared == s && r.bag == c.bag && r.Baggage? == c.Baggage?
  {
    c.(shared := s)
  }

  /** Replace the baggage fields; writing a value under a shape key makes the context baggage-shaped. */
  function WithBaggage(c: Context, b: BaggageFields): (r: Context)
    ensures r.shared == c.shared && r.bag == b
    ensures r.Baggage? <==> c.Baggage? || b.baggageType.Some? || b.baggageClaimNumber.Some?
    ensures WellShaped(c) ==> WellShaped(r)
  {
    if b.baggageType.Some? || b.baggageClaimNumber.Some? then Baggage(c.shared, b) else c.(bag := b)
  }

  datatype Role = User | Assistant

  datatype ChatMessage = ChatMessage(
    role: Role,
    content: string,
    agent: Option<string>,
    turnId: Option<string>,
    timestamp: string)

  datatype ConversationState = ConversationState(
    conversationId: string,
    messages: seq<ChatMessage>,
    currentAgent: string,
    context: Context)

  datatype GuardrailInfo = GuardrailInfo(
    id: string,
    name: string,
    input: string,
    reasoning: string,
    passed: bool,
    timestamp: int)

  datatype EventType = MessageEvent | HandoffEvent | ToolCallEvent | ToolOutputEvent

  /** Tool-call arguments: text that did not parse, or a decoded object. */
  datatype ToolArgs = ArgsText(text: string) | ArgsObject(fields: map<string, string>)

  datatype EventMetadata =
    | MessageMeta(agent: string)
    | HandoffMeta(sourceAgent: string, targetAgent: string)
    | ToolCallMeta(toolArgs: Option<ToolArgs>)
    | ToolOutputMeta(toolResult: string)

  datatype AgentEvent = AgentEvent(
    id: string,
    eventType: EventType,
    turnId: string,
    content: string,
    metadata: EventMetadata,
    timestamp: int)

  datatype ChatRequest = ChatRequest(conversationId: Option<string>, message: string)

  datatype ChatResponse = ChatResponse(
    conversationId: string,
    currentAgent: string,
    messages: seq<ChatMessage>,
    context: Context,
    guardrails: Option<seq<GuardrailInfo>>,
    events: Option<seq<AgentEvent>>)

  /** The mutable holder through which handoff initializers and tools see the context. */
  class RunContext {
    var context: Context

    constructor (c: Context)
      ensures context == c
    {
      context := c;
    }
  }
}
