/**
 * The agent registry of the airline service: the six agents, the lookup by
 * name with its fallback to triage, the handoff graph (a star around triage
 * plus a return edge from every specialist), the handoff initializers that
 * back-fill missing booking data, the initial context, and the shapes of the
 * identifiers generated for them.
 */
module Agents {
  import opened Wrappers
  import opened JsText
  import opened ChatTypes

  datatype AgentId =
    | TriageAgent
    | FaqAgent
    | SeatBookingAgent
    | FlightStatusAgent
    | CancellationAgent
    | BaggageAgent

  function AgentName(a: AgentId): string {
    match a
    case TriageAgent => "Triage Agent"
    case FaqAgent => "FAQ Agent"
    case SeatBookingAgent => "Seat Booking Agent"
    case FlightStatusAgent => "Flight Status Agent"
    case CancellationAgent => "Cancellation Agent"
    case BaggageAgent => "Baggage Agent"
  }

  /** The name-keyed table the lookup reads. */
  const Registry: map<string, AgentId> := map[
    "Triage Agent" := TriageAgent,
    "FAQ Agent" := FaqAgent,
    "Seat Booking Agent" := SeatBookingAgent,
    "Flight Status Agent" := FlightStatusAgent,
    "Cancellation Agent" := CancellationAgent,
    "Baggage Agent" := BaggageAgent]

  /** The table holds every agent under its own name and nothing else. */
  lemma RegistryIsByName()
    ensures forall a :: AgentName(a) in Registry && Registry[AgentName(a)] == a
    ensures forall name :: name in Registry ==> AgentName(Registry[name]) == name
  {
  }

  /**
   * Resolution of an agent name: the agent registered under exactly that
   * name, and the triage agent for every other string. It never fails.
   */
  function GetAgentByName(name: string): (a: AgentId)
    ensures (exists b :: AgentName(b) == name) ==> AgentName(a) == name
    ensures (forall b :: AgentName(b) != name) ==> a == TriageAgent
  {
    RegistryIsByName();
    if name in Registry then Registry[name] else TriageAgent
  }

  /** Looking an agent up by its own name gives that agent back. */
  lemma GetAgentByNameRoundTrip(a: AgentId)
    ensures GetAgentByName(AgentName(a)) == a
  {
    RegistryIsByName();
  }

  /** The members every plain JavaScript object inherits from `Object.prototype`; all are truthy. */
  const ObjectPrototypeMembers: set<string> := {
    "constructor", "__proto__", "hasOwnProperty", "isPrototypeOf", "propertyIsEnumerable",
    "toLocaleString", "toString", "valueOf", "__defineGetter__", "__defineSetter__",
    "__lookupGetter__", "__lookupSetter__"}

  /** What `agents[name] || triageAgent` yields on a plain object literal. */
  datatype Lookup = Registered(agent: AgentId) | Inherited(member: string)

  /**
   * The lookup as written: the object literal also answers for inherited
   * prototype members, and since those are truthy the fallback to triage is
   * skipped and a non-agent value comes back.
   */
  function AgentLookupAsWritten(name: string): (r: Lookup)
    ensures name in Registry ==> r == Registered(GetAgentByName(name))
    ensures name !in Registry && name !in ObjectPrototypeMembers ==> r == Registered(TriageAgent)
    ensures name !in Registry && name in ObjectPrototypeMembers ==> r.Inherited?
  {
    if name in Registry then Registered(Registry[name])
    else if name in ObjectPrototypeMembers then Inherited(name)
    else Registered(TriageAgent)
  }

  /** The name "toString" shows the difference: the written lookup returns an inherited function, not triage. */
  lemma InheritedNameSkipsFallback()
    ensures AgentLookupAsWritten("toString") == Inherited("toString")
    ensures GetAgentByName("toString") == TriageAgent
  {
    assert "toString" !in Registry;
    assert "toString" in ObjectPrototypeMembers;
  }

  /** The context initializer an edge runs when the handoff is taken. */
  datatype Initializer = SeatBookingInit | FlightStatusInit | CancellationInit | BaggageInit

  datatype HandoffEdge = HandoffEdge(target: AgentId, onHandoff: Option<Initializer>)

  const ReturnToTriage := HandoffEdge(TriageAgent, None)

  /** The handoffs each agent is constructed with: only triage declares any. */
  function DeclaredHandoffs(a: AgentId): seq<HandoffEdge> {
    if a == TriageAgent then
      [ HandoffEdge(FaqAgent, None),
        HandoffEdge(SeatBookingAgent, Some(SeatBookingInit)),
        HandoffEdge(FlightStatusAgent, Some(FlightStatusInit)),
        HandoffEdge(CancellationAgent, Some(CancellationInit)),
        HandoffEdge(BaggageAgent, Some(BaggageInit)) ]
    else []
  }

  /** The handoff graph once loaded: declared edges, then the return edge pushed onto every specialist. */
  function Handoffs(a: AgentId): seq<HandoffEdge> {
    if a == TriageAgent then DeclaredHandoffs(a) else DeclaredHandoffs(a) + [ReturnToTriage]
  }

  /** The load-time wiring: start from the declared edges and push a return edge onto each specialist. */
  method LinkHandoffs() returns (graph: map<AgentId, seq<HandoffEdge>>)
    ensures forall a :: a in graph && graph[a] == Handoffs(a)
  {
    graph := map[
      TriageAgent := DeclaredHandoffs(TriageAgent),
      FaqAgent := DeclaredHandoffs(FaqAgent),
      SeatBookingAgent := DeclaredHandoffs(SeatBookingAgent),
      FlightStatusAgent := DeclaredHandoffs(FlightStatusAgent),
      CancellationAgent := DeclaredHandoffs(CancellationAgent),
      BaggageAgent := DeclaredHandoffs(BaggageAgent)];
    graph := graph[FaqAgent := graph[FaqAgent] + [ReturnToTriage]];
    graph := graph[SeatBookingAgent := graph[SeatBookingAgent] + [ReturnToTriage]];
    graph := graph[FlightStatusAgent := graph[FlightStatusAgent] + [ReturnToTriage]];
    graph := graph[CancellationAgent := graph[CancellationAgent] + [ReturnToTriage]];
    graph := graph[BaggageAgent := graph[BaggageAgent] + [ReturnToTriage]];
    forall a: AgentId ensures a in graph && graph[a] == Handoffs(a) {
      match a
      case TriageAgent =>
      case FaqAgent =>
      case SeatBookingAgent =>
      case FlightStatusAgent =>
      case CancellationAgent =>
      case BaggageAgent =>
    }
  }

  predicate HasEdge(from: AgentId, to: AgentId) {
    exists i :: 0 <= i < |Handoffs(from)| && Handoffs(from)[i].target == to
  }

  /** Triage hands off to exactly the five specialists, once each. */
  lemma TriageOutbound()
    ensures |Handoffs(TriageAgent)| == 5
    ensures forall a :: HasEdge(TriageAgent, a) <==> a != TriageAgent
    ensures forall i, j :: 0 <= i < j < 5 ==> Handoffs(TriageAgent)[i].target != Handoffs(TriageAgent)[j].target
  {
    var h := Handoffs(TriageAgent);
    assert h[0].target == FaqAgent && h[1].target == SeatBookingAgent && h[2].target == FlightStatusAgent;
    assert h[3].target == CancellationAgent && h[4].target == BaggageAgent;
  }

  /** Every specialist has exactly one outbound edge, a plain one back to triage, so the graph has cycles. */
  lemma SpecialistsReturnToTriage(a: AgentId)
    requires a != TriageAgent
    ensures Handoffs(a) == [ReturnToTriage]
    ensures HasEdge(TriageAgent, a) && HasEdge(a, TriageAgent)
  {
    assert Handoffs(a)[0].target == TriageAgent;
    TriageOutbound();
  }

  /** Of triage's edges only the FAQ edge has no initializer. */
  lemma OnlyFaqEdgeIsPlain()
    ensures forall e :: e in Handoffs(TriageAgent) ==> (e.onHandoff.None? <==> e.target == FaqAgent)
  {
  }

  /** `generateRandomNumber(min, max)`: `Math.floor(Math.random() * (max - min + 1)) + min`. */
  function RandomNumber(min: int, max: int, draw: UnitDraw): (n: int)
    requires min <= max
    ensures min <= n <= max
  {
    PickIndex(draw, max - min + 1) + min
  }

  /** The confirmation-number alphabet "ABCDEFGHIJKLMNOPQRSTUVWXYZ0123456789". */
  const ConfirmationChars: string :=
    seq(36, i requires 0 <= i < 36 => if i < 26 then ('A' as int + i) as char else ('0' as int + i - 26) as char)

  /** The confirmation number the six draws select, one alphabet character per draw. */
  function ConfirmationNumber(draws: seq<UnitDraw>): (r: string)
    requires |draws| == 6
  {
    seq(6, i requires 0 <= i < 6 => ConfirmationChars[PickIndex(draws[i], |ConfirmationChars|)])
  }

  /** A confirmation number is six characters, each an upper-case letter or a digit. */
  lemma ConfirmationNumberShape(draws: seq<UnitDraw>)
    requires |draws| == 6
    ensures |ConfirmationNumber(draws)| == 6
    ensures forall i :: 0 <= i < 6 ==> IsUpperAscii(ConfirmationNumber(draws)[i]) || IsDigit(ConfirmationNumber(draws)[i])
  {
  }

  /** `generateConfirmationNumber`: append one picked character per draw. */
  method GenerateConfirmationNumber(draws: seq<UnitDraw>) returns (result: string)
    requires |draws| == 6
    ensures result == ConfirmationNumber(draws)
  {
    result := "";
    var i := 0;
    while i < 6
      invariant 0 <= i <= 6
      invariant result == ConfirmationNumber(draws)[..i]
    {
      result := result + [ConfirmationChars[PickIndex(draws[i], |ConfirmationChars|)]];
      i := i + 1;
    }
  }

  /** `generateFlightNumber`: "FLT-" and a number from 100 to 999. */
  function FlightNumber(draw: UnitDraw): string {
    "FLT-" + NatToString(RandomNumber(100, 999, draw))
  }

  /** A generated flight number is "FLT-" followed by three digits that read as 100..999. */
  lemma FlightNumberShape(draw: UnitDraw)
    ensures |FlightNumber(draw)| == 7 && FlightNumber(draw)[..4] == "FLT-"
    ensures AllDigits(FlightNumber(draw)[4..]) && 100 <= ParseNat(FlightNumber(draw)[4..]) <= 999
  {
    var n := RandomNumber(100, 999, draw);
    NatToStringLength(n, 3);
    ParseNatToString(n);
    assert FlightNumber(draw)[4..] == NatToString(n);
  }

  /** The claim number seeded by the baggage handoff: "BAG-" and a number from 100000 to 999999. */
  function ClaimNumber(draw: UnitDraw): string {
    "BAG-" + NatToString(RandomNumber(100000, 999999, draw))
  }

  /** A seeded claim number is "BAG-" followed by six digits that read as 100000..999999. */
  lemma ClaimNumberShape(draw: UnitDraw)
    ensures |ClaimNumber(draw)| == 10 && ClaimNumber(draw)[..4] == "BAG-"
    ensures AllDigits(ClaimNumber(draw)[4..]) && 100000 <= ParseNat(ClaimNumber(draw)[4..]) <= 999999
  {
    var n := RandomNumber(100000, 999999, draw);
    Pow10Values();
    NatToStringLength(n, 6);
    ParseNatToString(n);
    assert ClaimNumber(draw)[4..] == NatToString(n);
  }

  /** `createInitialContext`: a general-shaped context holding only an eight-digit account number. */
  function InitialContext(draw: UnitDraw): Context {
    General(NoSharedFields.(accountNumber := Some(NatToString(RandomNumber(10000000, 99999999, draw)))), NoBaggage)
  }

  /** The initial context is general-shaped, has no baggage data, and its account number is 8 digits in range. */
  lemma InitialContextShape(draw: UnitDraw)
    ensures InitialContext(draw).General? && WellShaped(InitialContext(draw))
    ensures InitialContext(draw).bag == NoBaggage
    ensures InitialContext(draw).shared.(accountNumber := None) == NoSharedFields
    ensures InitialContext(draw).shared.accountNumber.Some?
    ensures |InitialContext(draw).shared.accountNumber.value| == 8
    ensures 10000000 <= ParseNat(InitialContext(draw).shared.accountNumber.value) <= 99999999
  {
    var n := RandomNumber(10000000, 99999999, draw);
    Pow10Values();
    NatToStringLength(n, 8);
    ParseNatToString(n);
  }

  /** What `onBaggageHandoff` leaves: the four fields filled where falsy, nothing else touched. */
  function BaggageBackfill(c: Context, flight: string, confirmation: string, claim: string): Context {
    var s := c.shared;
    var b := c.bag;
    var s' := s.(flightNumber := if Missing(s.flightNumber) then Some(flight) else s.flightNumber,
                 confirmationNumber := if Missing(s.confirmationNumber) then Some(confirmation) else s.confirmationNumber);
    var b' := b.(baggageClaimNumber := if Missing(b.baggageClaimNumber) then Some(claim) else b.baggageClaimNumber,
                 baggageType := if b.baggageType.None? then Some(Checked) else b.baggageType);
    WithBaggage(WithShared(c, s'), b')
  }

  /**
   * The baggage initializer keeps every truthy value, fills the falsy ones
   * with the generated data, touches no other field, and leaves the four
   * fields non-empty and the context baggage-shaped.
   */
  lemma BaggageBackfillFacts(c: Context, flightDraw: UnitDraw, confirmationDraws: seq<UnitDraw>, claimDraw: UnitDraw)
    requires |confirmationDraws| == 6
    ensures var r := BaggageBackfill(c, FlightNumber(flightDraw), ConfirmationNumber(confirmationDraws), ClaimNumber(claimDraw));
      && r.Baggage? && WellShaped(r)
      && (!Missing(c.shared.flightNumber) ==> r.shared.flightNumber == c.shared.flightNumber)
      && (Missing(c.shared.flightNumber) ==> r.shared.flightNumber == Some(FlightNumber(flightDraw)))
      && (!Missing(c.shared.confirmationNumber) ==> r.shared.confirmationNumber == c.shared.confirmationNumber)
      && (Missing(c.shared.confirmationNumber) ==> r.shared.confirmationNumber == Some(ConfirmationNumber(confirmationDraws)))
      && (!Missing(c.bag.baggageClaimNumber) ==> r.bag.baggageClaimNumber == c.bag.baggageClaimNumber)
      && (Missing(c.bag.baggageClaimNumber) ==> r.bag.baggageClaimNumber == Some(ClaimNumber(claimDraw)))
      && (c.bag.baggageType.Some? ==> r.bag.baggageType == c.bag.baggageType)
      && (c.bag.baggageType.None? ==> r.bag.baggageType == Some(Checked))
      && r.shared.(flightNumber := None, confirmationNumber := None) == c.shared.(flightNumber := None, confirmationNumber := None)
      && r.bag.(baggageClaimNumber := None, baggageType := None) == c.bag.(baggageClaimNumber := None, baggageType := None)
      && !Missing(r.shared.flightNumber) && !Missing(r.shared.confirmationNumber)
      && !Missing(r.bag.baggageClaimNumber) && r.bag.baggageType.Some?
  {
    ConfirmationNumberShape(confirmationDraws);
  }

  /** What the flight-status, seat-booking and cancellation initializers leave: flight and confirmation filled where falsy. */
  function BookingBackfill(c: Context, flight: string, confirmation: string): Context {
    var s := c.shared;
    WithShared(c, s.(flightNumber := if Missing(s.flightNumber) then Some(flight) else s.flightNumber,
                     confirmationNumber := if Missing(s.confirmationNumber) then Some(confirmation) else s.confirmationNumber))
  }

  /** The booking initializers keep truthy values, fill falsy ones, and touch nothing else (shape included). */
  lemma BookingBackfillFacts(c: Context, flightDraw: UnitDraw, confirmationDraws: seq<UnitDraw>)
    requires |confirmationDraws| == 6
    ensures var r := BookingBackfill(c, FlightNumber(flightDraw), ConfirmationNumber(confirmationDraws));
      && r.Baggage? == c.Baggage? && r.bag == c.bag
      && (!Missing(c.shared.flightNumber) ==> r.shared.flightNumber == c.shared.flightNumber)
      && (Missing(c.shared.flightNumber) ==> r.shared.flightNumber == Some(FlightNumber(flightDraw)))
      && (!Missing(c.shared.confirmationNumber) ==> r.shared.confirmationNumber == c.shared.confirmationNumber)
      && (Missing(c.shared.confirmationNumber) ==> r.shared.confirmationNumber == Some(ConfirmationNumber(confirmationDraws)))
      && r.shared.(flightNumber := None, confirmationNumber := None) == c.shared.(flightNumber := None, confirmationNumber := None)
      && !Missing(r.shared.flightNumber) && !Missing(r.shared.confirmationNumber)
  {
    ConfirmationNumberShape(confirmationDraws);
  }

  /** `onBaggageHandoff`: four guarded in-place writes, generating only what is missing. */
  method OnBaggageHandoff(rc: RunContext, flightDraw: UnitDraw, confirmationDraws: seq<UnitDraw>, claimDraw: UnitDraw)
    requires |confirmationDraws| == 6
    requires WellShaped(rc.context)
    modifies rc
    ensures rc.context == BaggageBackfill(old(rc.context), FlightNumber(flightDraw), ConfirmationNumber(confirmationDraws), ClaimNumber(claimDraw))
  {
    if Missing(rc.context.shared.flightNumber) {
      rc.context := WithShared(rc.context, rc.context.shared.(flightNumber := Some(FlightNumber(flightDraw))));
    }
    if Missing(rc.context.shared.confirmationNumber) {
      var confirmation := GenerateConfirmationNumber(confirmationDraws);
      rc.context := WithShared(rc.context, rc.context.shared.(confirmationNumber := Some(confirmation)));
    }
    if Missing(rc.context.bag.baggageClaimNumber) {
      rc.context := WithBaggage(rc.context, rc.context.bag.(baggageClaimNumber := Some(ClaimNumber(claimDraw))));
    }
    if rc.context.bag.baggageType.None? {
      rc.context := WithBaggage(rc.context, rc.context.bag.(baggageType := Some(Checked)));
    }
  }

  /** `onFlightStatusHandoff`: flight number first, then confirmation number. */
  method OnFlightStatusHandoff(rc: RunContext, flightDraw: UnitDraw, confirmationDraws: seq<UnitDraw>)
    requires |confirmationDraws| == 6
    modifies rc
    ensures rc.context == BookingBackfill(old(rc.context), FlightNumber(flightDraw), ConfirmationNumber(confirmationDraws))
  {
    if Missing(rc.context.shared.flightNumber) {
      rc.context := WithShared(rc.context, rc.context.shared.(flightNumber := Some(FlightNumber(flightDraw))));
    }
    if Missing(rc.context.shared.confirmationNumber) {
      var confirmation := GenerateConfirmationNumber(confirmationDraws);
      rc.context := WithShared(rc.context, rc.context.shared.(confirmationNumber := Some(confirmation)));
    }
  }

  /** `onSeatBookingHandoff`: flight number first, then confirmation number. */
  method OnSeatBookingHandoff(rc: RunContext, flightDraw: UnitDraw, confirmationDraws: seq<UnitDraw>)
    requires |confirmationDraws| == 6
    modifies rc
    ensures rc.context == BookingBackfill(old(rc.context), FlightNumber(flightDraw), ConfirmationNumber(confirmationDraws))
  {
    if Missing(rc.context.shared.flightNumber) {
      rc.context := WithShared(rc.context, rc.context.shared.(flightNumber := Some(FlightNumber(flightDraw))));
    }
    if Missing(rc.context.shared.confirmationNumber) {
      var confirmation := GenerateConfirmationNumber(confirmationDraws);
      rc.context := WithShared(rc.context, rc.context.shared.(confirmationNumber := Some(confirmation)));
    }
  }

  /** `onCancellationHandoff`: confirmation number first, then flight number; the result is the same. */
  method OnCancellationHandoff(rc: RunContext, flightDraw: UnitDraw, confirmationDraws: seq<UnitDraw>)
    requires |confirmationDraws| == 6
    modifies rc
    ensures rc.context == BookingBackfill(old(rc.context), FlightNumber(flightDraw), ConfirmationNumber(confirmationDraws))
  {
    if Missing(rc.context.shared.confirmationNumber) {
      var confirmation := GenerateConfirmationNumber(confirmationDraws);
      rc.context := WithShared(rc.context, rc.context.shared.(confirmationNumber := Some(confirmation)));
    }
    if Missing(rc.context.shared.flightNumber) {
      rc.context := WithShared(rc.context, rc.context.shared.(flightNumber := Some(FlightNumber(flightDraw))));
    }
  }
}
