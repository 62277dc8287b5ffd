/**
 * The deterministic correction of the extractor's intent from the session
 * state and the caller's bookings.
 */
module Intent {
  import opened Wrappers
  import opened Text
  import opened Records
  import opened Store

  const RescheduleIntent := "booking_reschedule"

  /** The verbs that turn a change request into a reschedule, tried as substrings. */
  const RescheduleVerbs: seq<string> := ["reschedule", "change", "modify", "move", "update", "shift"]

  predicate InReschedule(state: BookingState) {
    state == RescheduleCollecting || state == RescheduleConfirm
  }

  /**
   * `normalize_intent` for the session of phone number `phone` in state
   * `state`. "" stands for a missing intent.
   */
  function NormalizeIntent(raw: string, text: string, state: BookingState, rows: seq<Booking>, phone: string): (r: string)
    ensures InReschedule(state) ==> r == RescheduleIntent
    ensures ((raw == "booking_modify" || raw == "booking_request") && ContainsAny(Strip(Lower(text)), RescheduleVerbs)
             && HasConfirmed(rows, phone)) ==> r == RescheduleIntent
    ensures raw == "booking_modify" && state == Idle && HasConfirmed(rows, phone) ==> r == RescheduleIntent
    ensures r == raw || r == RescheduleIntent
    ensures !InReschedule(state) && !HasConfirmed(rows, phone) ==> r == raw
    ensures !InReschedule(state) && raw != "booking_modify" && raw != "booking_request" ==> r == raw
  {
    var t := Strip(Lower(text));
    if InReschedule(state) then RescheduleIntent
    else if (raw == "booking_modify" || raw == "booking_request") && ContainsAny(t, RescheduleVerbs)
            && FindConfirmedAny(rows, phone).Some? then RescheduleIntent
    else if raw == "booking_modify" && state == Idle && FindConfirmedAny(rows, phone).Some? then RescheduleIntent
    else raw
  }

  /** The first CONFIRMED booking of this phone number (`.first()` of the query). */
  function FindConfirmedAny(rows: seq<Booking>, phone: string): (r: Option<nat>)
    ensures r.Some? <==> HasConfirmed(rows, phone)
  {
    FirstWhere(rows, (b: Booking) => b.phone == phone && b.status == Confirmed, 0)
  }

  /** A booking request outside a reschedule is never rewritten without a reschedule verb. */
  lemma RequestNeedsVerb(text: string, state: BookingState, rows: seq<Booking>, phone: string)
    requires !InReschedule(state)
    requires !ContainsAny(Strip(Lower(text)), RescheduleVerbs)
    ensures NormalizeIntent("booking_request", text, state, rows, phone) == "booking_request"
  {
  }
}
