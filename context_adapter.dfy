/**
 * The pure helpers of the chat route: adapting the stored context to the
 * shape the current agent expects, and flattening the history into the
 * transcript handed to the engine.
 */
module ContextAdapter {
  import opened Wrappers
  import opened JsText
  import opened ChatTypes
  import opened Agents

  const BaggageAgentName := "Baggage Agent"

  /**
   * `airlineContextToBaggageContext`: the five shared fields are copied and
   * every baggage key is present but unset.
   */
  function ToBaggageContext(c: Context): (r: Context)
    ensures r.Baggage? && r.shared == c.shared && r.bag == NoBaggage
  {
    Baggage(c.shared, NoBaggage)
  }

  /**
   * `getContextForAgent`. A context already in the shape the agent expects
   * comes back unchanged; otherwise it is rebuilt from the five shared
   * fields with no baggage data, baggage-shaped exactly for the baggage agent.
   */
  function ContextFor(agentName: string, c: Context): (r: Context)
    ensures r.Baggage? <==> agentName == BaggageAgentName
    ensures r.shared == c.shared
    ensures r.Baggage? == c.Baggage? ==> r == c
    ensures r.Baggage? != c.Baggage? ==> r.bag == NoBaggage
    ensures WellShaped(c) ==> WellShaped(r)
  {
    if agentName == BaggageAgentName then
      if c.Baggage? then c else ToBaggageContext(c)
    else if c.Baggage? then
      General(c.shared, NoBaggage)
    else
      c
  }

  /** Adapting twice to the same agent is adapting once. */
  lemma ContextForIdempotent(agentName: string, c: Context)
    ensures ContextFor(agentName, ContextFor(agentName, c)) == ContextFor(agentName, c)
  {
  }

  /**
   * Each baggage field of an adapted context is either unset or the value
   * the input already had: adaptation invents no baggage data.
   */
  lemma ContextForInventsNothing(agentName: string, c: Context)
    ensures var r := ContextFor(agentName, c);
      && (r.bag.baggageType.None? || r.bag.baggageType == c.bag.baggageType)
      && (r.bag.baggageWeight.None? || r.bag.baggageWeight == c.bag.baggageWeight)
      && (r.bag.baggageCount.None? || r.bag.baggageCount == c.bag.baggageCount)
      && (r.bag.baggageDimensions.None? || r.bag.baggageDimensions == c.bag.baggageDimensions)
      && (r.bag.baggageStatus.None? || r.bag.baggageStatus == c.bag.baggageStatus)
      && (r.bag.baggageClaimNumber.None? || r.bag.baggageClaimNumber == c.bag.baggageClaimNumber)
      && (r.bag.baggageLostClaimNumber.None? || r.bag.baggageLostClaimNumber == c.bag.baggageLostClaimNumber)
      && (r.bag.specialRequests.None? || r.bag.specialRequests == c.bag.specialRequests)
  {
  }

  /** The shape an agent receives is decided by the agent alone: baggage-shaped for the baggage agent only. */
  lemma ContextForAgentShape(a: AgentId, c: Context)
    ensures ContextFor(AgentName(a), c).Baggage? <==> a == BaggageAgent
  {
  }

  /**
   * A general context without baggage data, such as a fresh conversation's,
   * survives a trip through the baggage agent and back unchanged.
   */
  lemma ContextForRoundTrip(otherAgent: string, c: Context)
    requires otherAgent != BaggageAgentName
    requires c.General? && c.bag == NoBaggage
    ensures ContextFor(otherAgent, ContextFor(BaggageAgentName, c)) == c
  {
  }

  /**
   * Baggage data a baggage-shaped context carries is dropped by any trip
   * through another agent, so it does not come back with the baggage agent.
   */
  lemma ContextForLeavingBaggageDropsData(otherAgent: string, c: Context)
    requires otherAgent != BaggageAgentName
    requires c.Baggage?
    ensures ContextFor(BaggageAgentName, ContextFor(otherAgent, c)) == Baggage(c.shared, NoBaggage)
  {
  }

  /** What the baggage initializer fills in is kept when the context is adapted for the baggage agent. */
  lemma BaggageBackfillSurvivesAdapter(c: Context, flight: string, confirmation: string, claim: string)
    requires flight != "" && claim != ""
    ensures var b := BaggageBackfill(c, flight, confirmation, claim);
      ContextFor(BaggageAgentName, b) == b
  {
  }

  /** The speaker label of a transcript line: "User", or "Assistant" with the agent in parentheses when it has one. */
  function RolePrefix(m: ChatMessage): (p: string)
    ensures m.role == User ==> p == "User"
    ensures m.role == Assistant ==> StartsWith(p, "Assistant")
    ensures m.role == Assistant && m.agent.Some? && m.agent.value != "" ==> Contains(p, m.agent.value)
    ensures m.role == Assistant && (m.agent.None? || m.agent.value == "") ==> p == "Assistant"
  {
    match m.role
    case User => "User"
    case Assistant =>
      if m.agent.Some? && m.agent.value != "" then
        ContainsMiddle("Assistant (", m.agent.value, ")");
        "Assistant (" + m.agent.value + ")"
      else "Assistant"
  }

  /** One transcript line: the speaker label, a colon, and the message content at the end. */
  function TranscriptLine(m: ChatMessage): (line: string)
    ensures StartsWith(line, RolePrefix(m) + ": ")
    ensures |line| == |RolePrefix(m)| + 2 + |m.content| && line[|line| - |m.content|..] == m.content
  {
    RolePrefix(m) + ": " + m.content
  }

  /** `formatMessagesForAgent`: the lines of the history, in order, separated by blank lines. */
  function FormatMessagesForAgent(messages: seq<ChatMessage>): (transcript: string)
    ensures messages == [] ==> transcript == ""
    ensures |messages| == 1 ==> transcript == TranscriptLine(messages[0])
  {
    if |messages| == 0 then ""
    else if |messages| == 1 then TranscriptLine(messages[0])
    else FormatMessagesForAgent(messages[..|messages| - 1]) + "\n\n" + TranscriptLine(messages[|messages| - 1])
  }

  /** Appending a message to the history appends its line, after a blank line, to the transcript. */
  lemma FormatAppend(messages: seq<ChatMessage>, m: ChatMessage)
    requires messages != []
    ensures FormatMessagesForAgent(messages + [m]) == FormatMessagesForAgent(messages) + "\n\n" + TranscriptLine(m)
  {
    assert (messages + [m])[..|messages|] == messages;
  }

  /** Every message of the history appears, as its line, in the transcript. */
  lemma {:induction false} FormatContainsEveryLine(messages: seq<ChatMessage>, i: nat)
    requires i < |messages|
    ensures Contains(FormatMessagesForAgent(messages), TranscriptLine(messages[i]))
    decreases |messages|
  {
    var n := |messages|;
    if n == 1 {
      ContainsMiddle([], TranscriptLine(messages[0]), []);
      assert [] + TranscriptLine(messages[0]) + [] == TranscriptLine(messages[0]);
    } else if i == n - 1 {
      ContainsMiddle(FormatMessagesForAgent(messages[..n - 1]) + "\n\n", TranscriptLine(messages[i]), []);
      assert FormatMessagesForAgent(messages[..n - 1]) + "\n\n" + TranscriptLine(messages[i]) + []
          == FormatMessagesForAgent(messages);
    } else {
      FormatContainsEveryLine(messages[..n - 1], i);
      ContainsAppend(FormatMessagesForAgent(messages[..n - 1]), TranscriptLine(messages[i]), "\n\n" + TranscriptLine(messages[n - 1]));
      assert FormatMessagesForAgent(messages[..n - 1]) + ("\n\n" + TranscriptLine(messages[n - 1]))
          == FormatMessagesForAgent(messages);
    }
  }
}
