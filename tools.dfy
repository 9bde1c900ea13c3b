/**
 * The tool handlers the agents call: the FAQ lookup, the flight-status and
 * cancellation messages, and the four tools that write into the run
 * context (seat update, baggage status, lost-baggage report, baggage fees).
 */
module Tools {
  import opened Wrappers
  import opened JsText
  import opened ChatTypes

  const BagAnswer := "You are allowed to bring one bag on the plane. It must be under 50 pounds and 22 inches x 14 inches x 9 inches."
  const SeatsAnswer := "There are 120 seats on the plane. There are 22 business class seats and 98 economy seats. Exit rows are rows 4 and 16. Rows 5-8 are Economy Plus, with extra legroom."
  const WifiAnswer := "We have free wifi on the plane, join Airline-Wifi"
  const UnknownAnswer := "I'm sorry, I don't know the answer to that question."

  /** `faqLookupTool.execute`: keyword match on the lower-cased question. */
  function FaqLookup(question: string): string {
    var q := ToLower(question);
    if Contains(q, "bag") || Contains(q, "baggage") then BagAnswer
    else if Contains(q, "seats") || Contains(q, "plane") then SeatsAnswer
    else if Contains(q, "wifi") then WifiAnswer
    else UnknownAnswer
  }

  /**
   * The answers in priority order: "bag" (which "baggage" contains anyway),
   * then "seats" or "plane", then "wifi", then the fixed "don't know".
   */
  lemma FaqPriority(question: string)
    ensures var q := ToLower(question);
      && (FaqLookup(question) == BagAnswer <==> Contains(q, "bag"))
      && (FaqLookup(question) == SeatsAnswer <==> !Contains(q, "bag") && (Contains(q, "seats") || Contains(q, "plane")))
      && (FaqLookup(question) == WifiAnswer <==>
            !Contains(q, "bag") && !Contains(q, "seats") && !Contains(q, "plane") && Contains(q, "wifi"))
      && (FaqLookup(question) == UnknownAnswer <==>
            !Contains(q, "bag") && !Contains(q, "seats") && !Contains(q, "plane") && !Contains(q, "wifi"))
  {
    var q := ToLower(question);
    if Contains(q, "baggage") {
      ContainsPrefixOf(q, "baggage", "bag");
    }
    assert BagAnswer != SeatsAnswer && BagAnswer != WifiAnswer && BagAnswer != UnknownAnswer;
    assert SeatsAnswer != WifiAnswer && SeatsAnswer != UnknownAnswer && WifiAnswer != UnknownAnswer;
  }

  /** The lookup ignores letter case. */
  lemma FaqLookupIgnoresCase(question: string)
    ensures FaqLookup(ToLower(question)) == FaqLookup(question)
  {
    ToLowerFacts(question);
  }

  const FlightStatusPrefix := "Flight "
  const FlightStatusSuffix := " is on time and scheduled to depart at gate A10."

  /** `flightStatusTool.execute`: a fixed message about the flight asked for; no context is touched. */
  function FlightStatusMessage(flightNumber: string): (message: string)
    ensures StartsWith(message, FlightStatusPrefix) && Contains(message, flightNumber)
    ensures |message| == |FlightStatusPrefix| + |flightNumber| + |FlightStatusSuffix|
    ensures message[|FlightStatusPrefix|..|message| - |FlightStatusSuffix|] == flightNumber
  {
    ContainsMiddle(FlightStatusPrefix, flightNumber, FlightStatusSuffix);
    FlightStatusPrefix + flightNumber + FlightStatusSuffix
  }

  const CancelPrefix := "Flight with confirmation "
  const CancelSuffix := " successfully cancelled"

  /** `cancelFlightTool.execute`: a fixed message about the confirmation number; no context is touched. */
  function CancelFlightMessage(confirmationNumber: string): (message: string)
    ensures StartsWith(message, CancelPrefix) && Contains(message, confirmationNumber)
    ensures |message| == |CancelPrefix| + |confirmationNumber| + |CancelSuffix|
    ensures message[|message| - |CancelSuffix|..] == CancelSuffix
    ensures message[|CancelPrefix|..|message| - |CancelSuffix|] == confirmationNumber
  {
    ContainsMiddle(CancelPrefix, confirmationNumber, CancelSuffix);
    CancelPrefix + confirmationNumber + CancelSuffix
  }

  /** Distinct flight numbers give distinct status messages, and distinct confirmation numbers distinct cancellations. */
  lemma MessagesNameTheirArgument(a: string, b: string)
    ensures FlightStatusMessage(a) == FlightStatusMessage(b) ==> a == b
    ensures CancelFlightMessage(a) == CancelFlightMessage(b) ==> a == b
  {
  }

  /** `updateSeatTool.execute`: only the seat number changes, to the requested seat. */
  method UpdateSeat(confirmationNumber: string, seatNumber: string, rc: RunContext?) returns (message: string)
    modifies rc
    ensures rc != null ==> rc.context == WithShared(old(rc.context), old(rc.context).shared.(seatNumber := Some(seatNumber)))
    ensures message == "Updated seat to " + seatNumber + " for confirmation number " + confirmationNumber
  {
    if rc != null {
      rc.context := WithShared(rc.context, rc.context.shared.(seatNumber := Some(seatNumber)));
    }
    message := "Updated seat to " + seatNumber + " for confirmation number " + confirmationNumber;
  }

  /** The status list the baggage-status tool draws from, in the source's order. */
  const Statuses: seq<BaggageStatus> := [StatusChecked, StatusLost, StatusDelayed, StatusDelivered]

  function StatusText(s: BaggageStatus): string {
    match s
    case StatusChecked => "checked"
    case StatusLost => "lost"
    case StatusDelayed => "delayed"
    case StatusDelivered => "delivered"
  }

  /**
   * `baggageStatusTool.execute`: a drawn status; the claim number and status
   * are written, which makes the context baggage-shaped.
   */
  method BaggageStatusTool(claimNumber: string, rc: RunContext?, draw: UnitDraw, deliveryTime: string) returns (message: string)
    modifies rc
    ensures var status := Statuses[PickIndex(draw, |Statuses|)];
      && (rc != null ==>
            && rc.context == WithBaggage(old(rc.context), old(rc.context).bag.(baggageClaimNumber := Some(claimNumber), baggageStatus := Some(status)))
            && rc.context.Baggage?)
      && message == "Baggage with claim number " + claimNumber + " is currently " + StatusText(status)
                    + ". Expected delivery time: " + deliveryTime + "."
  {
    var status := Statuses[PickIndex(draw, |Statuses|)];
    if rc != null {
      rc.context := WithBaggage(rc.context, rc.context.bag.(baggageClaimNumber := Some(claimNumber), baggageStatus := Some(status)));
    }
    message := "Baggage with claim number " + claimNumber + " is currently " + StatusText(status)
               + ". Expected delivery time: " + deliveryTime + ".";
  }

  /** The lost-baggage claim number: "BAG-" and `Math.floor(Math.random() * 999999)` padded to six digits. */
  function LostClaimNumber(draw: UnitDraw): string {
    "BAG-" + PadStart(NatToString(PickIndex(draw, 999999)), 6, '0')
  }

  /** A lost-baggage claim number is "BAG-" followed by exactly six digits reading as the drawn number, 0..999998. */
  lemma LostClaimNumberShape(draw: UnitDraw)
    ensures var s := LostClaimNumber(draw);
      && |s| == 10 && s[..4] == "BAG-" && AllDigits(s[4..])
      && ParseNat(s[4..]) == PickIndex(draw, 999999) && ParseNat(s[4..]) <= 999998
  {
    var n := PickIndex(draw, 999999);
    var digits := NatToString(n);
    Pow10Values();
    NatToStringLengthAtMost(n, 6);
    var padded := PadStart(digits, 6, '0');
    var zeros := padded[..|padded| - |digits|];
    assert padded == zeros + digits;
    ParseNatLeadingZeros(zeros, digits);
    ParseNatToString(n);
    assert LostClaimNumber(draw)[4..] == padded;
  }

  /**
   * `reportLostBaggageTool.execute`: writes the confirmation number, a new
   * lost-baggage claim number and the status "lost"; none of these decides
   * the shape, so the shape is kept.
   */
  method ReportLostBaggage(confirmationNumber: string, baggageDescription: string, contactInfo: string,
                           rc: RunContext?, draw: UnitDraw) returns (message: string)
    modifies rc
    ensures rc != null ==>
      var c := old(rc.context);
      && rc.context == WithBaggage(WithShared(c, c.shared.(confirmationNumber := Some(confirmationNumber))),
                                   c.bag.(baggageLostClaimNumber := Some(LostClaimNumber(draw)), baggageStatus := Some(StatusLost)))
      && (WellShaped(c) ==> WellShaped(rc.context) && (rc.context.Baggage? <==> c.Baggage?))
    ensures message == "ConfirmationNumber " + confirmationNumber + " Lost baggage report filed successfully. Your claim number is "
                       + LostClaimNumber(draw) + ". We will contact you at " + contactInfo
                       + " with updates. Expected resolution time: 24-48 hours."
  {
    var claim := LostClaimNumber(draw);
    if rc != null {
      rc.context := WithShared(rc.context, rc.context.shared.(confirmationNumber := Some(confirmationNumber)));
      rc.context := WithBaggage(rc.context, rc.context.bag.(baggageLostClaimNumber := Some(claim)));
      rc.context := WithBaggage(rc.context, rc.context.bag.(baggageStatus := Some(StatusLost)));
    }
    message := "ConfirmationNumber " + confirmationNumber + " Lost baggage report filed successfully. Your claim number is "
               + claim + ". We will contact you at " + contactInfo
               + " with updates. Expected resolution time: 24-48 hours.";
  }

  function BaggageTypeText(t: BaggageType): string {
    match t
    case CarryOn => "carry-on"
    case Checked => "checked"
    case Oversized => "oversized"
    case Special => "special"
  }

  /** Checked and oversized bags are the ones that can be charged. */
  predicate Chargeable(t: BaggageType) {
    t == Checked || t == Oversized
  }

  /** The fee the calculator arrives at: 75 over 50, a further 200 over 70, chargeable types only. */
  function BaggageFee(weight: int, t: BaggageType): nat {
    (if Chargeable(t) && weight > 50 then 75 else 0) + (if Chargeable(t) && weight > 70 then 200 else 0)
  }

  /** The fee is always 0, 75 or 275, and which one is decided by the type and the weight band. */
  lemma BaggageFeeValues(weight: int, t: BaggageType)
    ensures BaggageFee(weight, t) in {0, 75, 275}
    ensures BaggageFee(weight, t) == 0 <==> !Chargeable(t) || weight <= 50
    ensures BaggageFee(weight, t) == 75 <==> Chargeable(t) && 50 < weight <= 70
    ensures BaggageFee(weight, t) == 275 <==> Chargeable(t) && weight > 70
  {
  }

  /** The breakdown lines for the fees charged. */
  function FeeBreakdown(weight: int, t: BaggageType): string {
    var w := IntToString(weight);
    (if Chargeable(t) && weight > 50 then "Overweight fee (" + w + " lbs): $75. " else "")
    + (if Chargeable(t) && weight > 70 then "Heavy bag fee (" + w + " lbs): $200. " else "")
  }

  /** The accumulation at the head of the fee calculator: both fees and their breakdown lines, in order. */
  method AccumulateFees(weight: int, baggageType: BaggageType) returns (fee: nat, breakdown: string)
    ensures fee == BaggageFee(weight, baggageType)
    ensures breakdown == FeeBreakdown(weight, baggageType)
  {
    fee := 0;
    breakdown := "";
    var w := IntToString(weight);
    if baggageType == Checked || baggageType == Oversized {
      if weight > 50 {
        fee := fee + 75;
        breakdown := breakdown + ("Overweight fee (" + w + " lbs): $75. ");
      }
      if weight > 70 {
        fee := fee + 200;
        breakdown := breakdown + ("Heavy bag fee (" + w + " lbs): $200. ");
      }
    }
  }

  /**
   * `baggageFeesTool.execute`: accumulates the fee and its breakdown; with no
   * fee it answers "No additional fees" and leaves the context alone, and
   * only with a fee does it record the baggage type and weight.
   */
  method BaggageFees(weight: int, baggageType: BaggageType, rc: RunContext?) returns (message: string)
    requires baggageType != Special
    modifies rc
    ensures BaggageFee(weight, baggageType) == 0 ==>
      && message == "No additional fees for your " + BaggageTypeText(baggageType) + " baggage."
      && (rc != null ==> rc.context == old(rc.context))
    ensures BaggageFee(weight, baggageType) > 0 ==>
      && message == "Total baggage fees: $" + NatToString(BaggageFee(weight, baggageType)) + ". " + FeeBreakdown(weight, baggageType)
      && (rc != null ==>
            && rc.context == WithBaggage(old(rc.context), old(rc.context).bag.(baggageType := Some(baggageType), baggageWeight := Some(weight)))
            && rc.context.Baggage?)
  {
    var fee, breakdown := AccumulateFees(weight, baggageType);
    if fee == 0 {
      message := "No additional fees for your " + BaggageTypeText(baggageType) + " baggage.";
      return;
    }
    if rc != null {
      rc.context := WithBaggage(rc.context, rc.context.bag.(baggageType := Some(baggageType), baggageWeight := Some(weight)));
    }
    message := "Total baggage fees: $" + NatToString(fee) + ". " + breakdown;
  }
}
