/**
 * The session lifecycle around each turn: expiry by state, the reset, the
 * one-shot "your session expired" reply, the text-encoded failure and
 * handoff counters, payment-window expiry, and the prompts that keep a
 * booking conversation going.
 */
module Lifecycle {
  import opened Wrappers
  import opened Text
  import opened TimeUtils
  import opened DateUtils
  import opened Records
  import opened Store

  // ---------------------------------------------------------------------
  // Expiry
  // ---------------------------------------------------------------------

  const CollectingTimeoutMinutes := 30
  const ConfirmingTimeoutMinutes := 10
  const RescheduleTimeoutMinutes := 30
  const CancelTimeoutMinutes := 10

  /** The idle time after which a session in `state` expires, in seconds; `None` for states that never expire. */
  function TimeoutSeconds(state: BookingState): (r: Option<int>)
    ensures r.Some? <==> state != Idle && state != PaymentPending
  {
    match state
    case Collecting => Some(CollectingTimeoutMinutes * MinuteSeconds)
    case Confirming => Some(ConfirmingTimeoutMinutes * MinuteSeconds)
    case RescheduleCollecting => Some(RescheduleTimeoutMinutes * MinuteSeconds)
    case RescheduleConfirm => Some(RescheduleTimeoutMinutes * MinuteSeconds)
    case CancelConfirm => Some(CancelTimeoutMinutes * MinuteSeconds)
    case _ => None
  }

  /** `is_session_expired`: more time than the state allows has passed since the last update. */
  function IsSessionExpired(v: SessionView, now: int): (r: bool)
    ensures v.updatedAt.None? ==> !r
    ensures v.state == Idle || v.state == PaymentPending ==> !r
    ensures v.updatedAt.Some? && v.state in {Collecting, RescheduleCollecting, RescheduleConfirm} ==>
      (r <==> now - v.updatedAt.value > 30 * 60)
    ensures v.updatedAt.Some? && v.state in {Confirming, CancelConfirm} ==>
      (r <==> now - v.updatedAt.value > 10 * 60)
  {
    match (v.updatedAt, TimeoutSeconds(v.state))
    case (Some(last), Some(limit)) => now - last > limit
    case _ => false
  }

  /** The session fields `reset_session` writes; `fail_count` is not among them. */
  function ResetView(v: SessionView, now: int): SessionView {
    v.(state := Idle, lastQuestion := None,
       pendingService := "", pendingDate := None, pendingTime := "",
       pendingBookingId := "",
       rescheduleTargetId := "", rescheduleNewDate := None, rescheduleNewTime := "",
       updatedAt := Some(now), failureCount := Num(0), handoffOffered := Flag(false))
  }

  /** `reset_session` */
  method ResetSession(s: Session, now: int)
    modifies s
    ensures s.View() == ResetView(old(s.View()), now)
  {
    ClearBooking(s);
    ClearReschedule(s, now);
  }

  /** The first half of the reset: the booking in progress is forgotten. */
  method ClearBooking(s: Session)
    modifies s
    ensures s.View() == old(s.View()).(state := Idle, lastQuestion := None, pendingService := "",
                                       pendingDate := None, pendingTime := "", pendingBookingId := "")
  {
    s.state := Idle;
    s.lastQuestion := None;
    s.pendingService := "";
    s.pendingDate := None;
    s.pendingTime := "";
    s.pendingBookingId := "";
  }

  /** The second half: the reschedule proposal is forgotten and the counters written. */
  method ClearReschedule(s: Session, now: int)
    modifies s
    ensures s.View() == old(s.View()).(rescheduleTargetId := "", rescheduleNewDate := None, rescheduleNewTime := "",
                                       updatedAt := Some(now), failureCount := Num(0), handoffOffered := Flag(false))
  {
    s.rescheduleTargetId := "";
    s.rescheduleNewDate := None;
    s.rescheduleNewTime := "";
    s.updatedAt := Some(now);
    s.failureCount := Num(0);
    s.handoffOffered := Flag(false);
  }

  /**
   * `apply_session_timeout_reset`: an expired session is reset and remembers,
   * for the next reply, that it expired and from which state.
   */
  method ApplySessionTimeoutReset(s: Session, now: int) returns (expired: bool, prev: Option<BookingState>)
    modifies s
    ensures expired == IsSessionExpired(old(s.View()), now)
    ensures !expired ==> prev.None? && s.View() == old(s.View())
    ensures expired ==> prev == Some(old(s.state))
                        && s.View() == ResetView(old(s.View()), now).(expiredLastTurn := true, expiredFromState := Some(old(s.state)))
  {
    if IsSessionExpired(s.View(), now) {
      var prevState := s.state;
      ResetSession(s, now);
      s.expiredLastTurn := true;
      s.expiredFromState := Some(prevState);
      return true, Some(prevState);
    }
    return false, None;
  }

  /** `clear_expired_flags` */
  method ClearExpiredFlags(s: Session)
    modifies s
    ensures old(s.expiredLastTurn) ==> s.View() == old(s.View()).(expiredLastTurn := false, expiredFromState := None)
    ensures !old(s.expiredLastTurn) ==> s.View() == old(s.View())
  {
    if s.expiredLastTurn {
      s.expiredLastTurn := false;
      s.expiredFromState := None;
    }
  }

  const ExpiredConfirmReply := "Welcome back 🙂 Your previous booking session expired, so I couldn’t confirm it.\nPlease send the service + date + time again (example: 'Facial tomorrow at 6:30pm')."
  const ExpiredUnclearReply := "Welcome back 🙂 Our previous booking session expired.\nWhat would you like to book today?"

  /**
   * The reply `handle_expired_session_ux` gives once after an expiry, from the
   * state the session expired in: only a session that was mid-booking hears
   * about it, and only when the user answers yes/no or is unclear.
   */
  function ExpiredUx(prev: Option<BookingState>, intent: string, text: string): (r: Option<Reply>)
    ensures r.Some? <==> prev in {Some(Collecting), Some(Confirming)}
                         && (intent in {"booking_confirm", "booking_cancel", "fallback", "inquiry"}
                             || Lower(Strip(text)) in {"yes", "no"})
    ensures r.Some? ==> r.value.intent == "session_expired"
  {
    if prev !in {Some(Collecting), Some(Confirming)} then None
    else if intent in {"booking_confirm", "booking_cancel"} || Lower(Strip(text)) in {"yes", "no"} then
      Some(Say("session_expired", ExpiredConfirmReply))
    else if intent in {"faq_hours", "faq_address", "faq_services", "faq_pricing", "booking_status", "talk_to_human"} then None
    else if intent in {"booking_request", "booking_modify"} then None
    else if intent in {"fallback", "inquiry"} then Some(Say("session_expired", ExpiredUnclearReply))
    else None
  }

  /** `handle_expired_session_ux`: the flags are cleared on every path once they were set. */
  method HandleExpiredSessionUx(s: Session, intent: string, text: string) returns (r: Option<Reply>)
    modifies s
    ensures !old(s.expiredLastTurn) ==> r.None? && s.View() == old(s.View())
    ensures old(s.expiredLastTurn) ==> r == ExpiredUx(old(s.expiredFromState), intent, text)
                                       && s.View() == old(s.View()).(expiredLastTurn := false, expiredFromState := None)
  {
    if !s.expiredLastTurn {
      return None;
    }
    r := ExpiredUx(s.expiredFromState, intent, text);
    ClearExpiredFlags(s);
  }

  // ---------------------------------------------------------------------
  // Failure and handoff counters
  // ---------------------------------------------------------------------

  /** `get_int`: the column read with `int(...)`, or `default` where that raises. */
  function GetInt(v: Stored, default: int): (r: int)
    ensures v.Unset? ==> r == default
    ensures v.Flag? ==> r == (if v.b then 1 else 0)
    ensures v.Num? ==> r == v.n
    ensures v.Text? && PyInt(v.s).None? ==> r == default
    ensures v.Text? && PyInt(v.s).Some? ==> r == PyInt(v.s).value
  {
    match v
    case Unset => default
    case Text(t) => PyInt(t).GetOr(default)
    case Flag(b) => if b then 1 else 0
    case Num(n) => n
  }

  /** `set_int`: the number is stored as its decimal text. */
  function SetInt(n: int): Stored {
    Text(IntToString(n))
  }

  /** What `set_int` stores, `get_int` reads back. */
  lemma SetThenGet(n: int, default: int)
    ensures GetInt(SetInt(n), default) == n
  {
    PyIntRoundTrip(n);
  }

  /** `should_handoff`: three failures or more, and no handoff offered yet. */
  predicate ShouldHandoff(v: SessionView) {
    GetInt(v.failCount, 0) >= 3 && GetInt(v.handoffOffered, 0) == 0
  }

  const HandoffThreshold := 3

  /** `reset_failures` */
  method ResetFailures(s: Session)
    modifies s
    ensures s.View() == old(s.View()).(failCount := SetInt(0), handoffOffered := SetInt(0))
  {
    s.failCount := SetInt(0);
    s.handoffOffered := SetInt(0);
  }

  /** `increment_failure` */
  method IncrementFailure(s: Session, now: int)
    modifies s
    ensures s.View() == old(s.View()).(failCount := SetInt(GetInt(old(s.failCount), 0) + 1), updatedAt := Some(now))
    ensures GetInt(s.failCount, 0) == GetInt(old(s.failCount), 0) + 1
  {
    var current := GetInt(s.failCount, 0);
    SetThenGet(current + 1, 0);
    s.failCount := SetInt(current + 1);
    s.updatedAt := Some(now);
  }

  /** `offer_handoff` */
  method OfferHandoff(s: Session, now: int)
    modifies s
    ensures s.View() == old(s.View()).(handoffOffered := SetInt(1), updatedAt := Some(now))
  {
    s.handoffOffered := SetInt(1);
    s.updatedAt := Some(now);
  }

  /** A counter that does not read as a number counts from zero. */
  lemma UnparsableCountsFromZero(t: string)
    requires PyInt(t).None?
    ensures GetInt(SetInt(GetInt(Text(t), 0) + 1), 0) == 1
  {
    SetThenGet(1, 0);
  }

  /** After `reset_failures` no handoff is due. */
  lemma ResetFailuresNoHandoff(v: SessionView)
    ensures !ShouldHandoff(v.(failCount := SetInt(0), handoffOffered := SetInt(0)))
  {
    SetThenGet(0, 0);
  }

  /** After a handoff is offered it is not due again until the counters are reset. */
  lemma OfferedNoHandoff(v: SessionView, now: int)
    ensures !ShouldHandoff(v.(handoffOffered := SetInt(1), updatedAt := Some(now)))
  {
    SetThenGet(1, 0);
  }

  // ---------------------------------------------------------------------
  // Properties of the reset
  // ---------------------------------------------------------------------

  /**
   * The reset leaves `fail_count` as it was and writes `handoff_offered` as
   * false, so three earlier failures make a handoff due again right after it.
   */
  lemma ResetKeepsFailCount(v: SessionView, now: int)
    ensures ResetView(v, now).failCount == v.failCount
    ensures ShouldHandoff(ResetView(v, now)) <==> GetInt(v.failCount, 0) >= 3
  {
  }

  /** A reset session is IDLE and cannot expire. */
  lemma ResetNeverExpires(v: SessionView, now: int, later: int)
    ensures !IsSessionExpired(ResetView(v, now), later)
  {
  }

  /** The reset keeps the session invariant. */
  lemma ResetValid(v: SessionView, now: int)
    requires ViewValid(v)
    ensures ViewValid(ResetView(v, now))
  {
  }

  /** An expired session that is reset and flagged shows the expiry reply at most once. */
  lemma ExpiryShownOnce(v: SessionView, now: int, intent: string, text: string)
    requires IsSessionExpired(v, now)
    ensures ResetView(v, now).state == Idle
    ensures ExpiredUx(Some(v.state), intent, text).Some? ==> v.state == Collecting || v.state == Confirming
  {
  }

  // ---------------------------------------------------------------------
  // Payment window
  // ---------------------------------------------------------------------

  /** A PENDING booking awaiting payment whose payment window has closed. */
  predicate PaymentDue(b: Booking, now: int) {
    b.status == Pending && b.paymentStatus in {RequiresPayment, CheckoutCreated}
    && b.paymentExpiresAt.Some? && b.paymentExpiresAt.value <= now
  }

  /**
   * The booking after its payment window closed: cancelled and expired, or
   * refunded when a payment intent exists and the refund went through.
   */
  function ExpiredBooking(b: Booking, refundSucceeds: bool): Booking {
    b.(paymentStatus := if b.paymentIntentId != "" && refundSucceeds then Refunded else PaymentExpired,
       status := Cancelled)
  }

  /** `expire_payment_if_needed` on row `i`; the refund's outcome comes in as `refundSucceeds`. */
  method ExpirePaymentIfNeeded(table: BookingTable, i: nat, now: int, refundSucceeds: bool) returns (expired: bool)
    requires i < |table.rows|
    modifies table
    ensures expired == PaymentDue(old(table.rows[i]), now)
    ensures expired ==> table.rows == old(table.rows)[i := ExpiredBooking(old(table.rows[i]), refundSucceeds)]
    ensures !expired ==> table.rows == old(table.rows)
  {
    var b := table.rows[i];
    if b.status != Pending {
      return false;
    }
    if b.paymentStatus !in {RequiresPayment, CheckoutCreated} {
      return false;
    }
    if b.paymentExpiresAt.None? {
      return false;
    }
    if b.paymentExpiresAt.value > now {
      return false;
    }
    b := b.(paymentStatus := PaymentExpired, status := Cancelled);
    if b.paymentIntentId != "" && refundSucceeds {
      b := b.(paymentStatus := Refunded);
    }
    table.rows := table.rows[i := b];
    return true;
  }

  /** Expiring a payment is final: the booking is no longer due, and id and time stay as they were. */
  lemma ExpiryIsFinal(b: Booking, refundSucceeds: bool, now: int, later: int)
    ensures !PaymentDue(ExpiredBooking(b, refundSucceeds), later)
    ensures ExpiredBooking(b, refundSucceeds).status == Cancelled
    ensures ExpiredBooking(b, refundSucceeds).id == b.id && ExpiredBooking(b, refundSucceeds).time == b.time
  {
  }

  // ---------------------------------------------------------------------
  // Prompts
  // ---------------------------------------------------------------------

  const TimeQuestions: seq<string> := ["What time works best for you?", "Any preferred time?", "Morning, afternoon, or evening?"]
  const DateQuestions: seq<string> := ["What date would you like?", "Which day should I book it for?"]
  const ServiceQuestions: seq<string> := ["Which service would you like to book?", "What service are you looking for?"]

  const AllSetPrompt := "Great — please reply YES to confirm, or tell me what you’d like to change."
  const ShareAllPrompt := "To continue, please share the service, date, and time."

  /** `random.choice`, with the random draw passed in as `pick`. */
  function Choose(xs: seq<string>, pick: nat): (r: string)
    requires |xs| > 0
    ensures r in xs
  {
    xs[pick % |xs|]
  }

  /** How many of service, date and time are still missing. */
  function MissingCount(v: SessionView): int {
    (if v.pendingService == "" then 1 else 0) + (if v.pendingDate.None? then 1 else 0) + (if v.pendingTime == "" then 1 else 0)
  }

  /** `booking_continue_prompt`: a question for the only missing field, or a fixed text. */
  function ContinuePrompt(v: SessionView, pick: nat): (r: string)
    ensures v.pendingService != "" && v.pendingDate.Some? && v.pendingTime != "" ==> r == AllSetPrompt
    ensures v.pendingService == "" && v.pendingDate.Some? && v.pendingTime != "" ==> r in ServiceQuestions
    ensures v.pendingService != "" && v.pendingDate.None? && v.pendingTime != "" ==> r in DateQuestions
    ensures v.pendingService != "" && v.pendingDate.Some? && v.pendingTime == "" ==> r in TimeQuestions
    ensures MissingCount(v) >= 2 ==> r == ShareAllPrompt
  {
    // The list of missing fields equals a one-element list exactly when one field is missing.
    if MissingCount(v) == 0 then AllSetPrompt
    else if MissingCount(v) >= 2 then ShareAllPrompt
    else if v.pendingService == "" then Choose(ServiceQuestions, pick)
    else if v.pendingDate.None? then Choose(DateQuestions, pick)
    else Choose(TimeQuestions, pick)
  }

  /** The whole replies, lower-cased, that count as a yes in the cancel, reschedule and reminder flows. */
  const YesWords: set<string> := {"yes", "y", "yeah", "yep", "sure", "confirm", "ok", "okay", "please", "do it"}

  /** The whole replies, lower-cased, that count as a no there. */
  const NoWords: set<string> := {"no", "n", "nope", "keep", "dont", "don't", "stop"}

  const ModifyKeywords: seq<string> := ["actually", "instead", "change", "make it", "update", "tomorrow", "today", "next"]

  /** `user_wants_to_modify_booking` */
  predicate WantsToModify(intent: string, text: string) {
    intent == "booking_modify"
    || (ContainsAny(Lower(text), ModifyKeywords) && (UserMentionedDate(text) || UserMentionedTime(text)))
  }

  /** "tomorrow" is both a change keyword and a date word: a text with it always asks for a change. */
  lemma TomorrowAsksChange(intent: string, text: string)
    requires Contains(Lower(text), "tomorrow")
    ensures WantsToModify(intent, text)
  {
    ContainsListed(Lower(text), ModifyKeywords, "tomorrow");
    DateWordMentionsDate(text, "tomorrow");
  }

  /**
   * A change keyword with nothing to change to is no change request: without
   * a digit, a date word or a time-of-day word only the `booking_modify`
   * intent asks for a change.
   */
  lemma KeywordAloneIsNoChange(intent: string, text: string)
    requires forall i :: 0 <= i < |text| ==> !IsDigit(text[i])
    requires !ContainsAny(Lower(text), Weekdays + RelativeWords + QualifierPrefixes + MonthWords + Buckets)
    ensures WantsToModify(intent, text) <==> intent == "booking_modify"
  {
    var words := Weekdays + RelativeWords + QualifierPrefixes + MonthWords;
    forall w | w in words ensures !Contains(Lower(text), w) {
      assert w in words + Buckets;
    }
    forall w | w in Buckets ensures !Contains(Lower(text), w) {
      assert w in words + Buckets;
    }
    NoDateMention(text);
    NoTimeMention(text);
  }
}
