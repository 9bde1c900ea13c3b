/**
 * The two guardrail functions: the content-length check on agent output,
 * a pure bounds check, and the decision part of the relevance check on
 * user input, whose verdict comes from a classifier agent.
 */
module Guardrails {
  import opened JsText

  const RelevanceGuardrailName := "Relevance Guardrail"
  const ContentLengthGuardrailName := "Content Length Guardrail"

  /** The agent output the length check receives: a string, or any other value, measured through its serialization. */
  datatype AgentOutput = TextOutput(text: string) | SerializedOutput(json: string)

  function MeasuredText(output: AgentOutput): string {
    match output
    case TextOutput(t) => t
    case SerializedOutput(j) => j
  }

  const MinLength: nat := 10
  const MaxLength: nat := 2000

  const LengthOkReasoning := "Response length is appropriate"

  datatype LengthInfo = LengthInfo(length: nat, isAppropriateLength: bool, reasoning: string)

  datatype LengthDecision = LengthDecision(outputInfo: LengthInfo, tripwireTriggered: bool)

  /** `contentLengthGuardrail.execute`: the text is measured in UTF-16 code units, as `length` does in JavaScript. */
  function ContentLengthCheck(output: AgentOutput): (r: LengthDecision)
    ensures r.outputInfo.length == Utf16Length(MeasuredText(output))
    ensures r.outputInfo.isAppropriateLength <==> MinLength <= Utf16Length(MeasuredText(output)) <= MaxLength
    ensures r.tripwireTriggered <==> !r.outputInfo.isAppropriateLength
  {
    var text := MeasuredText(output);
    var length := Utf16Length(text);
    var ok := length >= 10 && length <= 2000;
    var reasoning :=
      if ok then LengthOkReasoning
      else "Response length (" + NatToString(length) + ") is outside acceptable range (10-2000 characters)";
    LengthDecision(LengthInfo(length, ok, reasoning), !ok)
  }

  /** On a pass the reasoning is the fixed text; on a trip it states the measured length and the 10-2000 range. */
  lemma ContentLengthReasoning(output: AgentOutput)
    ensures var r := ContentLengthCheck(output);
      && (r.outputInfo.isAppropriateLength ==> r.outputInfo.reasoning == LengthOkReasoning)
      && (!r.outputInfo.isAppropriateLength ==>
            Contains(r.outputInfo.reasoning, NatToString(Utf16Length(MeasuredText(output))))
            && Contains(r.outputInfo.reasoning, "10-2000"))
  {
    var n := NatToString(Utf16Length(MeasuredText(output)));
    var head, tail := "Response length (", ") is outside acceptable range (10-2000 characters)";
    ContainsMiddle(head, n, tail);
    var before, range, after := ") is outside acceptable range (", "10-2000", " characters)";
    assert tail == before + range + after;
    ContainsMiddle(head + n + before, range, after);
    assert head + n + tail == head + n + before + range + after;
  }

  /**
   * Characters above U+FFFF (emoji, say) count twice: a reply made only of
   * them passes exactly when it has between 5 and 1000 of them.
   */
  lemma AstralTextCountsTwice(text: string)
    requires forall i :: 0 <= i < |text| ==> text[i] as int > 0xFFFF
    ensures ContentLengthCheck(TextOutput(text)).outputInfo.length == 2 * |text|
    ensures !ContentLengthCheck(TextOutput(text)).tripwireTriggered <==> 5 <= |text| <= 1000
  {
    Utf16LengthAstral(text);
  }

  /** For text without characters above U+FFFF the measured length is the character count. */
  lemma BmpTextCountsCharacters(output: AgentOutput)
    requires forall i :: 0 <= i < |MeasuredText(output)| ==> MeasuredText(output)[i] as int <= 0xFFFF
    ensures ContentLengthCheck(output).outputInfo.length == |MeasuredText(output)|
    ensures !ContentLengthCheck(output).tripwireTriggered <==> MinLength <= |MeasuredText(output)| <= MaxLength
  {
    Utf16LengthBmp(MeasuredText(output));
  }

  /** What the relevance classifier answers. */
  datatype RelevanceOutput = RelevanceOutput(reasoning: string, isRelevant: bool)

  datatype RelevanceDecision = RelevanceDecision(outputInfo: RelevanceOutput, tripwireTriggered: bool)

  /** The decision part of `relevanceGuardrail.execute`: report the verdict, trip when it says irrelevant. */
  function RelevanceCheck(verdict: RelevanceOutput): (r: RelevanceDecision)
    ensures r.tripwireTriggered <==> !verdict.isRelevant
    ensures r.outputInfo == verdict
  {
    RelevanceDecision(verdict, !verdict.isRelevant)
  }
}
