# Airline customer-service agent router — a Dafny model

The system is a chat back end for an airline help desk. A single
`POST /api/chat` route keeps conversations in an in-memory store, resolves
the agent that currently owns a conversation (triage, FAQ, seat booking,
flight status, cancellation, baggage), adapts the conversation's context to
the shape that agent expects, runs the agent engine on the transcript,
turns the engine's guardrail results and run items into guardrail entries
and events, applies the last handoff, and saves the conversation. Around it
sit the agent registry and its handoff graph, the handoff initializers that
back-fill booking and baggage data, the tool handlers that write into the
run context, the two guardrails, and the events panel that groups events
by turn for display.

Modules, one per source file (the route is split in two):

- `Wrappers` — `Option`.
- `JsText` — the JavaScript string primitives the code relies on: the `\s`
  whitespace set, `trim`, ASCII `toLowerCase`, `includes`, number to
  decimal text, `padStart`, the `/\s+/g` replacement, `length` in UTF-16
  code units, and `Math.random()`
  as a draw in [0, 1) with `Math.floor(draw * n)` as `PickIndex`.
- `ChatTypes` — the context (`General` or `Baggage` shape, shared fields
  and baggage fields), messages, conversation state, guardrail entries,
  events, request and response, and the mutable `RunContext` holder.
- `Agents` (`lib/agents.ts`) — registry and lookup with triage fallback,
  the handoff graph, the number generators, the initial context, the four
  handoff initializers as methods that update a `RunContext` in place.
- `Guardrails` (`lib/guardrails.ts`) — the content-length check and the
  decision part of the relevance check.
- `Tools` (`lib/tools.ts`) — the seven tool handlers.
- `Store` (`lib/conversation-store.ts`) — the conversation store as a class
  over a map.
- `ContextAdapter` (`app/api/chat/route.ts`) — context adaptation and
  transcript formatting.
- `ChatRoute` (`app/api/chat/route.ts`) — guardrail mapping, the item loop,
  and the whole turn: `Turn` specifies it over the store's map and `Post`
  performs it step by step on a `ConversationStore`, proved equal.
- `TurnProperties` — what a turn promises, stated over `Turn`.
- `EventsPanel` (`components/events-panel.tsx`) — grouping by turn,
  newest-first ordering of turns, and the per-turn summary.

The agent engine is a function parameter
`(agent, transcript, context) -> EngineResult` whose result is a
tripwire, a completed run (final output, run items, guardrail results) or
any other failure. Ids, clock readings and random draws are values in a
`TurnEnv` record or `UnitDraw` parameters.

## Model

| member | source | states |
|---|---|---|
| Agents.GetAgentByName | lib/agents.ts:240-250 | a registered name resolves to its agent, anything else to triage |
| Agents.GetAgentByNameRoundTrip | lib/agents.ts:240-250 | looking an agent up by its own name returns that agent |
| Agents.AgentLookupAsWritten | lib/agents.ts:240-250 | the object-literal lookup: registered names give their agent, inherited prototype names give a non-agent value, other names give triage |
| Agents.InheritedNameSkipsFallback | lib/agents.ts:249 | for "toString" the written lookup returns an inherited member while the intended lookup returns triage |
| Agents.LinkHandoffs | lib/agents.ts:205-232 | after load-time wiring every agent's handoff list is the declared list plus, for specialists, one return edge to triage |
| Agents.TriageOutbound | lib/agents.ts:205-223 | triage has five handoffs, to exactly the five specialists, each once |
| Agents.SpecialistsReturnToTriage | lib/agents.ts:228-232 | each specialist's only handoff is a plain return to triage, so triage and every specialist reach each other |
| Agents.OnlyFaqEdgeIsPlain | lib/agents.ts:206-222 | among triage's edges exactly the FAQ edge has no initializer |
| Agents.RandomNumber | lib/agents.ts:30-32 | the generated integer lies in [min, max] |
| Agents.ConfirmationNumberShape | lib/agents.ts:34-41 | a confirmation number is six upper-case letters or digits |
| Agents.GenerateConfirmationNumber | lib/agents.ts:34-41 | the character-appending loop yields the confirmation number the six draws select |
| Agents.FlightNumberShape | lib/agents.ts:43-45 | "FLT-" then three digits reading as 100..999 |
| Agents.ClaimNumberShape | lib/agents.ts:55 | "BAG-" then six digits reading as 100000..999999 |
| Agents.InitialContextShape | lib/agents.ts:234-238 | the initial context is general-shaped with only an eight-digit account number in range |
| Agents.BaggageBackfillFacts | lib/agents.ts:47-60 | truthy fields are kept, falsy ones filled with generated data, no other field touched, the result baggage-shaped with all four fields non-empty |
| Agents.BookingBackfillFacts | lib/agents.ts:62-87 | flight and confirmation numbers kept when truthy, filled when falsy; shape and all other fields unchanged |
| Agents.OnBaggageHandoff | lib/agents.ts:47-60 | the four guarded in-place writes leave the back-filled baggage context |
| Agents.OnFlightStatusHandoff | lib/agents.ts:62-69 | the two guarded writes leave the back-filled booking context |
| Agents.OnSeatBookingHandoff | lib/agents.ts:71-78 | the two guarded writes leave the back-filled booking context |
| Agents.OnCancellationHandoff | lib/agents.ts:80-87 | writing confirmation before flight gives the same back-filled booking context |
| ChatTypes.WithBaggage | types/chat.ts:15-26 | writing baggage fields makes the context baggage-shaped exactly when a shape-deciding key gets a value; well-shapedness is kept |
| ChatTypes.WithShared | types/chat.ts:1-13 | writing shared fields keeps the baggage fields and the shape |
| Store.ConversationStore.constructor | lib/conversation-store.ts:3-4 | a new store is empty |
| Store.ConversationStore.Get | lib/conversation-store.ts:6-8 | the stored state for a present id, nothing for an absent one |
| Store.ConversationStore.Save | lib/conversation-store.ts:10-12 | the id now maps to the state; every other id is unchanged |
| Store.ConversationStore.Delete | lib/conversation-store.ts:14-16 | reports whether the id was present, removes it, leaves every other id |
| Store.ConversationStore.Clear | lib/conversation-store.ts:18-20 | afterwards no id is present |
| Guardrails.ContentLengthCheck | lib/guardrails.ts:54-71 | the length reported is the text's JavaScript `length` in UTF-16 code units; appropriate exactly when 10 <= length <= 2000; tripped exactly when not appropriate |
| Guardrails.AstralTextCountsTwice | lib/guardrails.ts:57-58 | characters above U+FFFF count two units each, so a reply made only of them passes exactly with 5 to 1000 of them |
| Guardrails.BmpTextCountsCharacters | lib/guardrails.ts:57-58 | for text without characters above U+FFFF the length is the character count and the bounds apply to it |
| JsText.Utf16LengthBmp | lib/guardrails.ts:57-58 | `length` equals the character count exactly when no character lies above U+FFFF |
| JsText.Utf16LengthAppend | lib/guardrails.ts:57-58 | `length` of a concatenation is the sum of the lengths |
| JsText.Utf16LengthAstral | lib/guardrails.ts:57-58 | text only of characters above U+FFFF has twice as many code units as characters |
| Guardrails.ContentLengthReasoning | lib/guardrails.ts:64-66 | a pass gives the fixed reasoning; a trip names the measured length and the 10-2000 range |
| Guardrails.RelevanceCheck | lib/guardrails.ts:44-50 | the classifier's verdict is reported and trips exactly when it says irrelevant |
| Tools.FaqPriority | lib/tools.ts:11-21 | each of the four answers is given exactly when its keyword matches and no earlier keyword does ("baggage" never matters beyond "bag") |
| Tools.FaqLookupIgnoresCase | lib/tools.ts:12 | lower-casing the question first changes no answer |
| Tools.UpdateSeat | lib/tools.ts:31-37 | only the seat number changes, to the requested seat; the message names seat and confirmation |
| Tools.FlightStatusMessage | lib/tools.ts:46-48 | the message is the fixed on-time text with the flight number between its prefix and suffix, so the flight can be read back out of it |
| Tools.MessagesNameTheirArgument | lib/tools.ts:46-48 | distinct flight numbers or confirmation numbers never share a status or cancellation message |
| Tools.BaggageStatusTool | lib/tools.ts:57-68 | the drawn status and the claim number are written, the context becomes baggage-shaped, the message reports the status |
| Tools.LostClaimNumberShape | lib/tools.ts:80-82 | "BAG-" then exactly six digits reading as the drawn number, at most 999998 |
| Tools.ReportLostBaggage | lib/tools.ts:79-91 | confirmation number, lost claim number and status "lost" are written; the shape is kept; the message carries the claim number |
| Tools.BaggageFeeValues | lib/tools.ts:103-112 | the fee is 0, 75 or 275, each exactly for its type and weight band |
| Tools.BaggageFees | lib/tools.ts:100-126 | with no fee the context is untouched and the message says so; with a fee type and weight are recorded and the total and breakdown reported |
| Tools.AccumulateFees | lib/tools.ts:101-113 | the accumulated fee and breakdown are the fee schedule's total and lines for that type and weight |
| Tools.CancelFlightMessage | lib/tools.ts:135-137 | the message is the fixed cancellation text ending in "successfully cancelled", with the confirmation number recoverable between prefix and suffix |
| JsText.TrimEmptyIffBlank | app/api/chat/route.ts:102 | a message trims to nothing exactly when it is all whitespace |
| ContextAdapter.ToBaggageContext | app/api/chat/route.ts:28-44 | baggage-shaped, shared fields copied, every baggage field unset |
| ContextAdapter.ContextFor | app/api/chat/route.ts:46-69 | baggage-shaped exactly for the baggage agent; shared fields kept; a context already in the right shape is unchanged; a reshaped one has no baggage data |
| ContextAdapter.ContextForIdempotent | app/api/chat/route.ts:46-69 | adapting twice for the same agent is adapting once |
| ContextAdapter.ContextForInventsNothing | app/api/chat/route.ts:46-69 | each baggage field afterwards is unset or the value it had before |
| ContextAdapter.ContextForAgentShape | app/api/chat/route.ts:121-122 | the resolved agent alone decides the shape the engine receives |
| ContextAdapter.ContextForRoundTrip | app/api/chat/route.ts:46-69 | a general context without baggage data survives a trip through the baggage agent and back |
| ContextAdapter.ContextForLeavingBaggageDropsData | app/api/chat/route.ts:57-66 | baggage data is lost on a trip through any other agent |
| ContextAdapter.BaggageBackfillSurvivesAdapter | app/api/chat/route.ts:50-53 | what the baggage initializer fills in is kept when adapting for the baggage agent |
| ContextAdapter.RolePrefix | app/api/chat/route.ts:73 | "User" for user messages; "Assistant", with the agent named when it has a truthy one |
| ContextAdapter.TranscriptLine | app/api/chat/route.ts:74 | the label, ": ", and the message content at the end |
| ContextAdapter.FormatAppend | app/api/chat/route.ts:71-76 | a further message appends a blank line and its line |
| ContextAdapter.FormatContainsEveryLine | app/api/chat/route.ts:71-76 | every message's line occurs in the transcript |
| ChatRoute.GuardrailIdFacts | app/api/chat/route.ts:158 | an id has no whitespace and no upper-case letter, and mapping it again leaves it unchanged |
| ChatRoute.RelevanceGuardrailId | app/api/chat/route.ts:170-190 | the fixed default id "relevance_guardrail" is the one the mapping gives its name |
| ChatRoute.ContentLengthGuardrailId | app/api/chat/route.ts:170-190 | the fixed default id "content_length_guardrail" is the one the mapping gives its name |
| ChatRoute.TripwireReasoningFacts | app/api/chat/route.ts:203 | a tripped entry carries its own truthy reasoning, otherwise "Guardrail triggered"; never empty |
| ChatRoute.GuardrailInfos | app/api/chat/route.ts:155-190 | input then output results, one entry each with the mapped id; with none, the two default passing entries |
| ChatRoute.InfoPassedIffNotTripped | app/api/chat/route.ts:157-168 | an entry passes exactly when its guardrail did not trip |
| ChatRoute.EventOf | app/api/chat/route.ts:244-294 | an event exactly for the four recognised item kinds, with the given id, turn and time; a message shows its content with the agent name or "Agent"; a handoff shows "source -> target" with both names in its metadata; a tool call shows the tool name or "Unknown Tool" with the parsed arguments; a tool output shows the output as content and result |
| ChatRoute.HandoffEventNamesBothAgents | app/api/chat/route.ts:262-263 | a handoff event's content starts with the source agent and continues with " -> " and the target agent |
| ChatRoute.EventNamesNeverEmpty | app/api/chat/route.ts:244-283 | message agents and tool names shown are never empty; the fixed label appears exactly when the name is missing, empty or that label |
| ChatRoute.HandoffEventInTurn | app/api/chat/route.ts:255-265 | every handoff item of a turn appears among its events, at its recognised position, as "source -> target" |
| ChatRoute.Events | app/api/chat/route.ts:239-295 | one event per recognised item, all tagged with the turn id, numbered consecutively |
| ChatRoute.EventOfEachItem | app/api/chat/route.ts:239-295 | each recognised item's event sits at the position counted by the recognised items before it |
| ChatRoute.UnrecognisedItemsAreSkipped | app/api/chat/route.ts:239-295 | an unrecognised item adds no event |
| ChatRoute.LastHandoffTargetSpec | app/api/chat/route.ts:255-265 | the target is that of a handoff item with no later handoff, and absent exactly when there is no handoff item |
| ChatRoute.RecordEvents | app/api/chat/route.ts:239-295 | the loop yields the turn's events and the last handoff target |
| ChatRoute.RecordItem | app/api/chat/route.ts:244-294 | one pass appends exactly the item's event under the next event id, and only a handoff item replaces the handoff target |
| ChatRoute.EventsStep | app/api/chat/route.ts:241-295 | the events of one more item are those before plus that item's event; the last handoff target moves only on a handoff item |
| ChatRoute.FreshState | app/api/chat/route.ts:89-96 | a new conversation starts empty, with triage, in a general context |
| ChatRoute.LoadState | app/api/chat/route.ts:89-119 | the stored state when a stored id is named, a fresh one otherwise, and which case it was |
| ChatRoute.CommitTripwire | app/api/chat/route.ts:193-229 | the store and response are those of the tripwire branch |
| ChatRoute.CommitCompleted | app/api/chat/route.ts:239-341 | the store and response are those of the completed branch |
| ChatRoute.Post | app/api/chat/route.ts:78-360 | the stepwise route leaves the store and answers exactly as the turn specification says |
| TurnProperties.BlankFirstMessageShortCircuits | app/api/chat/route.ts:89-110 | a blank first message saves and returns the fresh triage state with no messages, whatever the engine |
| TurnProperties.EngineRunsUnlessBlankFirstMessage | app/api/chat/route.ts:121-153 | otherwise the engine runs; the answer is the server error exactly when it failed, else two messages and guardrails |
| TurnProperties.TripwireTurn | app/api/chat/route.ts:193-229 | refusal from the resolved agent appended and saved, agent and context kept, one failing guardrail entry, no events |
| TurnProperties.CompletedTurn | app/api/chat/route.ts:300-341 | the last truthy handoff target becomes the agent with the context re-adapted; the exchange is appended with the turn id on the reply only; one event per recognised item |
| TurnProperties.FailedTurn | app/api/chat/route.ts:230-232 | any other engine failure saves nothing and answers "Internal server error" |
| TurnProperties.OtherConversationsUntouched | app/api/chat/route.ts:78-360 | a turn leaves every other conversation as it was |
| TurnProperties.SaveKeepsConsistent | lib/conversation-store.ts:10-12 | saving a state whose shape matches its agent under its own id keeps the store consistent |
| TurnProperties.AfterHandoffShapeMatches | app/api/chat/route.ts:299-305 | after any run the adapted context is well shaped and baggage-shaped exactly when the resulting agent is the baggage agent |
| TurnProperties.TripwireKeepsConsistent | app/api/chat/route.ts:193-229 | the refusal branch saves a state consistent with the store's invariant |
| TurnProperties.CompletedKeepsConsistent | app/api/chat/route.ts:300-341 | the completed branch saves a state consistent with the store's invariant |
| TurnProperties.TurnKeepsStoreConsistent | app/api/chat/route.ts:78-360 | every turn keeps each stored state under its own id, with a baggage shape exactly for the baggage agent; this holds for the model, which carries no engine-side writes into the stored context (see Left out) |
| TurnProperties.RunContextIsStoredContext | app/api/chat/route.ts:121-122 | in a consistent store the adaptation before the run changes nothing, also when an unknown agent name falls back to triage |
| TurnProperties.HistoryOnlyGrows | app/api/chat/route.ts:216-219 | an existing conversation's history stays a prefix and grows by zero or two messages |
| EventsPanel.OfTurnMembers | components/events-panel.tsx:95-105 | a turn's group holds exactly the events with that turn id |
| EventsPanel.OfTurnAppend | components/events-panel.tsx:95-105 | grouping distributes over concatenation, keeping arrival order |
| EventsPanel.TurnIds | components/events-panel.tsx:95-105 | the group keys are distinct |
| EventsPanel.TurnIdsMembers | components/events-panel.tsx:95-105 | a key exists exactly for each turn id some event carries |
| EventsPanel.GroupByTurn | components/events-panel.tsx:95-105 | the reduce builds one group per turn id, in first-appearance order, holding that turn's events in order |
| EventsPanel.GroupSizesSumToCount | components/events-panel.tsx:95-105 | the group sizes add up to the number of events |
| EventsPanel.Latest | components/events-panel.tsx:108-109 | the latest timestamp of a group belongs to one of its events and bounds all of them |
| EventsPanel.SortedTurnIds | components/events-panel.tsx:107-111 | turn ids ordered by latest timestamp, newest first, and a permutation of the keys |
| EventsPanel.SortedTurnIdsMembers | components/events-panel.tsx:107-111 | the ordered ids are distinct and each names a turn with events |
| EventsPanel.DistinctTypes | components/events-panel.tsx:114 | the summary's types are distinct and are exactly the types occurring in the group |
| EventsPanel.Earliest | components/events-panel.tsx:115-117 | the earliest timestamp belongs to one of the events and bounds all of them |
| EventsPanel.SortByTimestamp | components/events-panel.tsx:115 | the array is sorted in place by ascending timestamp and is a permutation of what it held |
| EventsPanel.FirstOfAscendingIsEarliest | components/events-panel.tsx:115-117 | the first of the sorted events has the earliest timestamp |
| EventsPanel.GetTurnSummary | components/events-panel.tsx:113-121 | the summary's types, earliest timestamp and count, with the group left sorted as a side effect |
| EventsPanel.ListedTurnHasEvents | components/events-panel.tsx:137-141 | every listed turn has a non-empty group |
| EventsPanel.View | components/events-panel.tsx:137-177 | one view per ordered turn id, each with its summary and its events sorted by time |

## Left out

- The agent engine (model calls, tool selection, handoff decisions) and the relevance classifier are parameters; their behaviour is not modelled.
- Engine-side context writes through aliasing are not carried back: the route saves the context it loaded (adapted only on handoff), and the handoff initializers and tools are modelled separately on a `RunContext`.
- Agent instructions, model names, tool lists and the zod output types of the agents are left out; they do not change the route's control flow.
- `Math.random()` is a draw in [0, 1); the conversation, turn and event ids (base-36 text of two draws) are opaque strings supplied by the caller.
- Clock readings (`Date.now()`, ISO timestamps, the two-hours-ahead locale time in the baggage-status message) are opaque values; the two restamped response messages share one reading and all guardrail entries of a turn share one.
- `JSON.parse`/`JSON.stringify` are opaque: tool-call argument parsing is an `ArgsParser` parameter and serialized guardrail info is a string.
- `toLowerCase` is modelled for ASCII letters only; other characters are left as they are.
- Baggage weights are integers; `number` floats are not modelled.
- Request bodies without a `message` string and the request-parsing failure path are not modelled; the 500 answer is modelled for engine failures only.
- Logging, HTTP framing and status codes other than the route's two outcomes are left out.
- Concurrency between requests sharing the store is not modelled; each turn is atomic.
- The agents and guardrails directory routes and the UI components other than the events panel are not part of this model.
- TurnProperties.TurnKeepsStoreConsistent: holds only because the model has no aliasing. In the route, the context handed to the engine for triage on a general context is the stored object itself (app/api/chat/route.ts:66-68, 112, 122). A triage-to-baggage handoff then writes `baggageType` and `baggageClaimNumber` into it (lib/agents.ts:47-60). If the baggage agent's reply then trips its content-length output guardrail (lib/agents.ts:126, any reply under 10 code units), the error is rethrown (app/api/chat/route.ts:230-232). The store is then left holding "Triage Agent" with a baggage-shaped context, which the model cannot produce.
- Tools.BaggageFees: requires a type other than "special", because the tool's parameter schema admits only carry-on, checked and oversized.
- EventsPanel.GroupByTurn: groups in first-appearance order; the ordering JavaScript gives integer-like object keys and turn ids that collide with `Object.prototype` members are not modelled.
- EventsPanel.SortedTurnIds: states the order and permutation but not the stability of the JavaScript sort for equal latest timestamps.
- EventsPanel.SortByTimestamp: states order and permutation but not stability for equal timestamps.

## Findings

| source | as written | input that shows it | evidently intended | confidence | as-written member | corrected member |
|---|---|---|---|---|---|---|
| lib/agents.ts:240-250 | `agents[name] \|\| triageAgent` on a plain object literal also answers for inherited `Object.prototype` members, which are truthy, so the triage fallback is skipped | the agent-directory request `GET /api/agents/toString/guardrails`, whose decoded name goes straight to the lookup (app/api/agents/[agentName]/guardrails/route.ts:17-18); the chat route cannot reach it, since stored names are only "Triage Agent" or a handoff target | any name that is not a registered agent resolves to the triage agent | not executed | Agents.AgentLookupAsWritten | Agents.GetAgentByName |
