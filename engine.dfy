/**
 * One turn of the conversation: `handle_message` after the language-model
 * call. The extractor's output comes in as `Extracted`; the session and the
 * bookings table are updated in place, and the `{intent, reply}` result is
 * returned. The handlers are tried in a fixed order, each either answering
 * or passing the message on:
 *
 *   empty session id, timeout reset, idempotency, unparsable output,
 *   expiry notice, fallback counting, FAQ / human / status, reminder reply,
 *   CANCEL_CONFIRM, payment expiry, CONFIRMING, cancel start, reschedule
 *   start, RESCHEDULE_*, smart start, cancel while collecting, COLLECTING,
 *   the extractor's own reply.
 */
module Engine {
  import opened Wrappers
  import opened Text
  import opened Clock
  import opened Records
  import opened Store
  import opened BusinessRules
  import opened Lifecycle
  import opened Intent
  import opened Faq
  import opened BookingService
  import opened Collecting
  import Confirming
  import Cancelling
  import Rescheduling
  import Reminders
  import Messages

  const ErrorReply := "Something went wrong. Please try again."
  const UnparsedHandoffReply := "Sorry — I’m having trouble understanding 😅 Would you like to speak to a human? Please call +1-XXX-XXX-XXXX 📞"
  const UnparsedReply := "Sorry, I didn’t quite catch that. Could you rephrase?"
  const FallbackHandoffReply := "Sorry — I’m still not getting that 😅 Would you like to speak to a human? Please call +1-XXX-XXX-XXXX 📞"
  const HumanReply := "Sure — please call the salon at +1-XXX-XXX-XXXX 📞 (or reply with your name and we’ll have someone contact you)."
  const NoBookingsReply := "I don’t see any bookings yet. Would you like to make one?"
  const LateReply := "That appointment time has already passed. Would you like to book a new slot?"
  const SeeYouReply := "Perfect 👍 We’ll see you then!"
  const PaymentExpiredReply := "⏳ Your payment window expired, so the booking was released.\nWould you like to try booking again?"
  const NoCancelTargetReply := "I couldn’t find a confirmed appointment to cancel. If you have a reference ID, please share it."
  const NoRescheduleTargetReply := "I couldn’t find a confirmed appointment to reschedule. If you have a reference ID, please share it."
  const RequestCancelledReply := "Got it 👍 I’ve cancelled this booking request. Would you like to book something else?"

  // ---------------------------------------------------------------------
  // Opening the turn: channel, timeout reset, idempotency
  // ---------------------------------------------------------------------

  /** The session once the channel is recorded and an expired session is reset. */
  function Opened(v: SessionView, channel: string, now: int): (o: SessionView)
    ensures o.processedIds == v.processedIds && o.sessionId == v.sessionId && o.channel == channel
    ensures !IsSessionExpired(v, now) ==> o == v.(channel := channel)
    ensures IsSessionExpired(v, now) ==> o.state == Idle && o.expiredLastTurn && o.expiredFromState == Some(v.state)
  {
    var c := v.(channel := channel);
    if IsSessionExpired(c, now) then ResetView(c, now).(expiredLastTurn := true, expiredFromState := Some(c.state))
    else c
  }

  /** A message id is a duplicate when it is given and already remembered. */
  predicate Duplicate(ids: seq<string>, id: string) {
    id != "" && id in ids
  }

  /** The remembered ids after `id` is processed: appended, and only the newest twenty kept. */
  function Remember(ids: seq<string>, id: string): (r: seq<string>)
    ensures |r| == if |ids| + 1 <= MaxProcessedIds then |ids| + 1 else MaxProcessedIds
    ensures r[|r| - 1] == id
    ensures r == (ids + [id])[|ids| + 1 - |r|..]
  {
    var all := ids + [id];
    if |all| <= MaxProcessedIds then all else all[|all| - MaxProcessedIds..]
  }

  /** The session after the id of a new message is recorded. */
  function Recorded(v: SessionView, id: string): SessionView {
    if id == "" then v else v.(processedIds := Remember(v.processedIds, id))
  }

  /** `processed_message_ids`: a duplicate changes nothing; a new id is remembered. */
  method RecordMessage(s: Session, id: string) returns (duplicate: bool)
    modifies s
    ensures duplicate == Duplicate(old(s.processedIds), id)
    ensures duplicate ==> s.View() == old(s.View())
    ensures !duplicate ==> s.View() == Recorded(old(s.View()), id)
  {
    if id != "" && id in s.processedIds {
      return true;
    }
    if id != "" {
      s.processedIds := Remember(s.processedIds, id);
    }
    return false;
  }

  /** Record the channel, apply the timeout reset, then check and record the message id. */
  method OpenTurn(s: Session, id: string, channel: string, now: int) returns (duplicate: bool)
    requires s.Valid()
    modifies s
    ensures s.Valid()
    ensures duplicate == Duplicate(old(s.processedIds), id)
    ensures duplicate ==> s.View() == Opened(old(s.View()), channel, now)
    ensures !duplicate ==> s.View() == Recorded(Opened(old(s.View()), channel, now), id)
  {
    ghost var v := s.View();
    s.channel := channel;
    assert s.View() == v.(channel := channel);
    var expired, prev := ApplySessionTimeoutReset(s, now);
    ResetValid(v.(channel := channel), now);
    assert s.View() == Opened(v, channel, now);
    duplicate := RecordMessage(s, id);
  }

  /** A message id just recorded is recognised when the same message arrives again. */
  lemma RetryIsIgnored(v: SessionView, id: string, channel: string, now: int, later: int, channel2: string)
    requires id != ""
    ensures Duplicate(Opened(Recorded(Opened(v, channel, now), id), channel2, later).processedIds, id)
  {
    var r := Remember(Opened(v, channel, now).processedIds, id);
    assert r[|r| - 1] == id;
  }

  /** Remembering forgets only the oldest ids: every one of the 19 newest stays. */
  lemma RememberKeepsRecent(ids: seq<string>, id: string, j: int)
    requires 0 <= j < |ids| && |ids| - j < MaxProcessedIds
    ensures ids[j] in Remember(ids, id)
  {
    var r := Remember(ids, id);
    var start := |ids| + 1 - |r|;
    assert r[j - start] == (ids + [id])[j] == ids[j];
  }

  // ---------------------------------------------------------------------
  // A turn that was not understood
  // ---------------------------------------------------------------------

  /**
   * The session after a turn counted as a failure: the count goes up by
   * one and, at the threshold, the handoff is offered and the session
   * reset. The reset writes the offer back to false and keeps the count, so
   * the next miss is handed off again.
   */
  function Missed(v: SessionView, now: int): SessionView {
    var f := Failed(v, now);
    if ShouldHandoff(f) then ResetView(f.(handoffOffered := SetInt(1), updatedAt := Some(now)), now) else f
  }

  /** `increment_failure`, then the handoff when it is due. */
  method CountMiss(s: Session, now: int) returns (handoff: bool)
    requires s.Valid()
    modifies s
    ensures s.Valid()
    ensures handoff == ShouldHandoff(Failed(old(s.View()), now))
    ensures s.View() == Missed(old(s.View()), now)
  {
    IncrementFailure(s, now);
    if ShouldHandoff(s.View()) {
      OfferHandoff(s, now);
      ghost var w := s.View();
      ResetSession(s, now);
      ResetValid(w, now);
      return true;
    }
    return false;
  }

  /** The reply to output that is not valid JSON. */
  function UnparsedTurn(v: SessionView, now: int): Reply {
    if ShouldHandoff(Failed(v, now)) then Say("handoff", UnparsedHandoffReply) else Say("fallback", UnparsedReply)
  }

  /**
   * A counted failure raises the count by exactly one, and the count
   * survives the handoff reset; the handoff leaves the session IDLE and,
   * because the reset clears the offer, due for a handoff again.
   */
  lemma MissedCounts(v: SessionView, now: int)
    ensures GetInt(Missed(v, now).failCount, 0) == GetInt(v.failCount, 0) + 1
    ensures ShouldHandoff(Failed(v, now)) ==> Missed(v, now).state == Idle && ShouldHandoff(Missed(v, now))
    ensures !ShouldHandoff(Failed(v, now)) ==> Missed(v, now).state == v.state
  {
    SetThenGet(GetInt(v.failCount, 0) + 1, 0);
  }

  /** The handoff is offered on the third consecutive miss when none was offered before. */
  lemma ThirdMissHandsOff(v: SessionView, now: int)
    requires GetInt(v.failCount, 0) == 2 && GetInt(v.handoffOffered, 0) == 0
    ensures UnparsedTurn(v, now) == Say("handoff", UnparsedHandoffReply)
  {
    SetThenGet(3, 0);
  }

  // ---------------------------------------------------------------------
  // FAQ, human handoff and booking status
  // ---------------------------------------------------------------------

  /** An "inquiry" becomes the FAQ intent its keywords suggest, when there is one. */
  function RefineInquiry(intent: string, text: string): (r: string)
    ensures intent != "inquiry" ==> r == intent
    ensures intent == "inquiry" && InferFaqIntent(text).None? ==> r == "inquiry"
    ensures intent == "inquiry" && InferFaqIntent(text).Some? ==> r == InferFaqIntent(text).value && r in FaqIntents
  {
    if intent == "inquiry" then
      match InferFaqIntent(text)
      case Some(guess) => guess
      case None => intent
    else intent
  }

  /** The intents answered whatever the booking state. */
  predicate IsGlobal(intent: string) {
    intent in FaqIntents || intent == "talk_to_human" || intent == "booking_status"
  }

  function ClearFailures(v: SessionView): SessionView {
    v.(failCount := SetInt(0), handoffOffered := SetInt(0))
  }

  predicate MidBooking(v: SessionView) {
    v.state == Collecting || v.state == Confirming
  }

  /** The session after an FAQ, human or status intent. */
  function GlobalSession(v: SessionView, intent: string, now: int): SessionView {
    if intent in FaqIntents then
      if MidBooking(v) then ClearFailures(v).(updatedAt := Some(now)) else ClearFailures(v)
    else if intent == "talk_to_human" then ClearFailures(ResetView(v, now))
    else if intent == "booking_status" then ClearFailures(v)
    else v
  }

  /** The reply to an FAQ, human or status intent; `None` for any other intent. */
  function GlobalReply(v: SessionView, rows: seq<Booking>, intent: string, cfg: Config, pick: nat): (r: Option<Reply>)
    ensures r.Some? <==> IsGlobal(intent)
  {
    if intent in FaqIntents then
      var answer := HandleFaqReply(intent, cfg).value;
      if MidBooking(v) then Some(Reply(intent, Some(WithPrompt(answer, ContinuePrompt(v, pick)))))
      else Some(Say(intent, answer))
    else if intent == "talk_to_human" then Some(Say("talk_to_human", HumanReply))
    else if intent == "booking_status" then
      match LatestBooking(rows, v.sessionId)
      case None => Some(Say("booking_status", NoBookingsReply))
      case Some(i) =>
        var b := rows[i];
        Some(Reply("booking_status", Some(StatusNote(b.service, b.date, b.time, b.status, b.id))))
    else None
  }

  /** FAQ, then human handoff, then booking status. */
  method AnswerGlobal(s: Session, table: BookingTable, intent: string, cfg: Config, now: int, pick: nat)
    returns (r: Option<Reply>)
    requires s.Valid()
    modifies s
    ensures s.Valid()
    ensures s.View() == GlobalSession(old(s.View()), intent, now)
    ensures r == GlobalReply(old(s.View()), table.rows, intent, cfg, pick)
  {
    var v := s.View();
    r := GlobalReply(v, table.rows, intent, cfg, pick);
    if intent in FaqIntents {
      ResetFailures(s);
      if MidBooking(v) {
        s.updatedAt := Some(now);
      }
    } else if intent == "talk_to_human" {
      ResetSession(s, now);
      ResetValid(v, now);
      ResetFailures(s);
    } else if intent == "booking_status" {
      ResetFailures(s);
    }
  }

  /**
   * An FAQ answer does not disturb the booking in progress: only the
   * counters and, mid-booking, the timestamp change, and mid-booking the
   * answer is followed by the prompt to continue.
   */
  lemma FaqKeepsBooking(v: SessionView, rows: seq<Booking>, intent: string, cfg: Config, now: int, pick: nat)
    requires intent in FaqIntents
    ensures GlobalSession(v, intent, now).(failCount := v.failCount, handoffOffered := v.handoffOffered,
                                           updatedAt := v.updatedAt) == v
    ensures MidBooking(v) ==>
              GlobalReply(v, rows, intent, cfg, pick)
              == Some(Reply(intent, Some(WithPrompt(HandleFaqReply(intent, cfg).value, ContinuePrompt(v, pick)))))
    ensures !MidBooking(v) ==> GlobalReply(v, rows, intent, cfg, pick) == Some(Say(intent, HandleFaqReply(intent, cfg).value))
    ensures MidBooking(v) ==>
              Messages.Render(GlobalReply(v, rows, intent, cfg, pick).value.reply.value)
              == HandleFaqReply(intent, cfg).value + "\n\n" + ContinuePrompt(v, pick)
  {
  }

  /** Asking for a human resets the session and clears the counters. */
  lemma HumanResets(v: SessionView, now: int)
    ensures GlobalSession(v, "talk_to_human", now).state == Idle
    ensures !ShouldHandoff(GlobalSession(v, "talk_to_human", now))
    ensures GlobalSession(v, "talk_to_human", now).pendingBookingId == ""
  {
    ResetFailuresNoHandoff(ResetView(v, now));
  }

  /** The status reply shows the newest booking of the caller, or says there is none. */
  lemma StatusShowsNewest(v: SessionView, rows: seq<Booking>, cfg: Config, pick: nat)
    ensures (forall j :: 0 <= j < |rows| ==> rows[j].phone != v.sessionId) ==>
              GlobalReply(v, rows, "booking_status", cfg, pick) == Some(Say("booking_status", NoBookingsReply))
    ensures (exists j :: 0 <= j < |rows| && rows[j].phone == v.sessionId) ==>
              exists i :: 0 <= i < |rows| && rows[i].phone == v.sessionId
                && (forall j :: 0 <= j < |rows| && rows[j].phone == v.sessionId ==> rows[j].createdAt <= rows[i].createdAt)
                && GlobalReply(v, rows, "booking_status", cfg, pick)
                   == Some(Reply("booking_status", Some(StatusNote(rows[i].service, rows[i].date, rows[i].time,
                                                                    rows[i].status, rows[i].id))))
  {
    if exists j :: 0 <= j < |rows| && rows[j].phone == v.sessionId {
      var i := LatestBooking(rows, v.sessionId).value;
      assert rows[i].phone == v.sessionId;
    }
  }

  // ---------------------------------------------------------------------
  // The reply to a reminder
  // ---------------------------------------------------------------------

  /** What the reminder interceptor makes of the message. */
  datatype ReminderStep =
    | NoReminder            // no reminder awaits an answer
    | StaleReminder         // the reminded booking is no longer CONFIRMED for this caller
    | LateYes               // a yes after the appointment time
    | SeenYes(i: nat)       // a yes in time, for row `i`
    | CancelInstead(i: nat) // the caller wants to cancel row `i`
    | PassOn                // anything else

  function ReminderStepOf(v: SessionView, rows: seq<Booking>, intent: string, text: string, cfg: Config, now: int)
    : (step: ReminderStep)
    requires RowsValid(rows)
    ensures (step.SeenYes? || step.CancelInstead?) ==>
              step.i < |rows| && rows[step.i].id == v.lastReminderBookingId
              && rows[step.i].phone == v.sessionId && rows[step.i].status == Confirmed
  {
    if v.lastReminderBookingId == "" then NoReminder
    else match FindConfirmed(rows, v.sessionId, v.lastReminderBookingId)
      case None => StaleReminder
      case Some(i) =>
        var low := Strip(Lower(text));
        if intent == "booking_confirm" || low in YesWords then
          if now > Reminders.AppointmentInstant(rows[i], cfg.utcOffset) then LateYes else SeenYes(i)
        else if intent == "booking_cancel" || low == "cancel" then CancelInstead(i)
        else PassOn
  }

  /** A reminder acknowledged in time; the no-show flag is lifted only after the second reminder. */
  function Acknowledged(b: Booking): Booking {
    b.(reminderConfirmed := true, noShowRisk := if b.reminder2hSent then false else b.noShowRisk)
  }

  function ReminderSession(v: SessionView, rows: seq<Booking>, step: ReminderStep, now: int): SessionView
    requires (step.SeenYes? || step.CancelInstead?) ==> step.i < |rows|
  {
    match step
    case NoReminder => v
    case SeenYes(_) => ClearFailures(v.(lastReminderBookingId := "", updatedAt := Some(now)))
    case CancelInstead(i) =>
      v.(lastReminderBookingId := "", state := CancelConfirm, pendingBookingId := rows[i].id, updatedAt := Some(now))
    case _ => v.(lastReminderBookingId := "")
  }

  function ReminderRows(rows: seq<Booking>, step: ReminderStep): seq<Booking>
    requires step.SeenYes? ==> step.i < |rows|
  {
    if step.SeenYes? then rows[step.i := Acknowledged(rows[step.i])] else rows
  }

  function ReminderReply(rows: seq<Booking>, step: ReminderStep): Option<Reply>
    requires step.CancelInstead? ==> step.i < |rows|
  {
    match step
    case LateYes => Some(Say("late_confirmation", LateReply))
    case SeenYes(_) => Some(Say("reminder_confirmed", SeeYouReply))
    case CancelInstead(i) =>
      Some(Reply("cancel_confirmation", Some(CancelPrompt(rows[i].service, rows[i].date, rows[i].time))))
    case _ => None
  }

  /** The reminder reply interceptor. */
  method HandleReminderReply(s: Session, table: BookingTable, intent: string, text: string, cfg: Config, now: int)
    returns (r: Option<Reply>)
    requires s.Valid() && table.Valid()
    modifies s, table
    ensures s.Valid() && table.Valid()
    ensures var step := ReminderStepOf(old(s.View()), old(table.rows), intent, text, cfg, now);
            s.View() == ReminderSession(old(s.View()), old(table.rows), step, now)
            && table.rows == ReminderRows(old(table.rows), step)
            && r == ReminderReply(old(table.rows), step)
  {
    var step := ReminderStepOf(s.View(), table.rows, intent, text, cfg, now);
    r := ReminderReply(table.rows, step);
    match step
    case NoReminder =>
    case SeenYes(i) =>
      AcknowledgeReminder(s, table, i, now);
    case CancelInstead(i) =>
      CancelFromReminder(s, table.rows[i].id, now);
    case _ =>
      s.lastReminderBookingId := "";
  }

  /** A yes in time: the booking notes the confirmation and the reminder context is closed. */
  method AcknowledgeReminder(s: Session, table: BookingTable, i: nat, now: int)
    requires table.Valid() && i < |table.rows|
    modifies s, table
    ensures table.Valid()
    ensures table.rows == old(table.rows)[i := Acknowledged(old(table.rows)[i])]
    ensures s.View() == ClearFailures(old(s.View()).(lastReminderBookingId := "", updatedAt := Some(now)))
  {
    UpdateKeepsValid(table.rows, i, Acknowledged(table.rows[i]));
    table.rows := table.rows[i := Acknowledged(table.rows[i])];
    s.lastReminderBookingId := "";
    s.updatedAt := Some(now);
    ResetFailures(s);
  }

  /** "cancel" in answer to a reminder moves into the cancel confirmation for booking `id`. */
  method CancelFromReminder(s: Session, id: string, now: int)
    modifies s
    ensures s.View() == old(s.View()).(lastReminderBookingId := "", state := CancelConfirm, pendingBookingId := id,
                                       updatedAt := Some(now))
  {
    s.lastReminderBookingId := "";
    s.state := CancelConfirm;
    s.pendingBookingId := id;
    s.updatedAt := Some(now);
  }

  /** Whatever the answer, the reminder context is gone after the interceptor. */
  lemma ReminderContextCleared(v: SessionView, rows: seq<Booking>, intent: string, text: string, cfg: Config, now: int)
    requires RowsValid(rows)
    ensures ReminderSession(v, rows, ReminderStepOf(v, rows, intent, text, cfg, now), now).lastReminderBookingId == ""
  {
  }

  /** A late yes changes no booking; a yes in time only acknowledges the reminded booking. */
  lemma YesAcknowledgesOnlyInTime(v: SessionView, rows: seq<Booking>, intent: string, text: string, cfg: Config, now: int)
    requires RowsValid(rows)
    ensures var step := ReminderStepOf(v, rows, intent, text, cfg, now);
            step.LateYes? ==> ReminderRows(rows, step) == rows
    ensures var step := ReminderStepOf(v, rows, intent, text, cfg, now);
            step.SeenYes? ==>
              now <= Reminders.AppointmentInstant(rows[step.i], cfg.utcOffset)
              && SameRowsExcept(rows, ReminderRows(rows, step), {step.i})
              && ReminderRows(rows, step)[step.i].reminderConfirmed
              && ReminderRows(rows, step)[step.i].status == Confirmed
              && (ReminderRows(rows, step)[step.i].noShowRisk <==> rows[step.i].noShowRisk && !rows[step.i].reminder2hSent)
  {
  }

  /** "cancel" in answer to a reminder asks to cancel exactly the reminded booking. */
  lemma CancelTargetsReminded(v: SessionView, rows: seq<Booking>, text: string, cfg: Config, now: int)
    requires RowsValid(rows) && v.lastReminderBookingId != ""
    requires FindConfirmed(rows, v.sessionId, v.lastReminderBookingId).Some?
    requires Strip(Lower(text)) !in YesWords
    ensures var step := ReminderStepOf(v, rows, "booking_cancel", text, cfg, now);
            step.CancelInstead?
            && ReminderSession(v, rows, step, now).state == CancelConfirm
            && ReminderSession(v, rows, step, now).pendingBookingId == v.lastReminderBookingId
            && ReminderRows(rows, step) == rows
  {
  }

  // ---------------------------------------------------------------------
  // Payment window of the pending booking
  // ---------------------------------------------------------------------

  /**
   * The caller's first PENDING booking, released when its payment window
   * has closed; the session then returns to IDLE.
   */
  method ReleaseExpiredPayment(s: Session, table: BookingTable, now: int, refundSucceeds: bool)
    returns (pending: Option<nat>, r: Option<Reply>)
    requires s.Valid() && table.Valid()
    modifies s, table
    ensures s.Valid() && table.Valid()
    ensures pending == FindPending(old(table.rows), old(s.sessionId))
    ensures pending.Some? ==> pending.value < |table.rows|
    ensures pending.Some? && PaymentDue(old(table.rows)[pending.value], now) ==>
              table.rows == old(table.rows)[pending.value := ExpiredBooking(old(table.rows)[pending.value], refundSucceeds)]
              && s.View() == old(s.View()).(state := Idle, updatedAt := Some(now))
              && r == Some(Say("payment_expired", PaymentExpiredReply))
    ensures !(pending.Some? && PaymentDue(old(table.rows)[pending.value], now)) ==>
              table.rows == old(table.rows) && s.View() == old(s.View()) && r.None?
  {
    pending := FindPending(table.rows, s.sessionId);
    r := None;
    if pending.Some? {
      var i := pending.value;
      ExpiryIsFinal(table.rows[i], refundSucceeds, now, now);
      UpdateKeepsValid(table.rows, i, ExpiredBooking(table.rows[i], refundSucceeds));
      var expired := ExpirePaymentIfNeeded(table, i, now, refundSucceeds);
      if expired {
        s.state := Idle;
        s.updatedAt := Some(now);
        r := Some(Say("payment_expired", PaymentExpiredReply));
      }
    }
  }

  // ---------------------------------------------------------------------
  // Starting a cancellation or a reschedule from IDLE
  // ---------------------------------------------------------------------

  /**
   * The CONFIRMED booking of the caller that a cancel or reschedule request
   * means: the one with the reference id the text carries, or else the
   * newest one.
   */
  function TargetOf(rows: seq<Booking>, phone: string, text: string): (r: Option<nat>)
    ensures r.Some? ==> r.value < |rows| && rows[r.value].phone == phone && rows[r.value].status == Confirmed
    ensures r.Some? && ExtractBookingRefId(text).Some? ==> rows[r.value].id == ExtractBookingRefId(text).value
    ensures r.None? && ExtractBookingRefId(text).None? ==> !HasConfirmed(rows, phone)
    ensures ExtractBookingRefId(text).None? && HasConfirmed(rows, phone) ==>
              r.Some? && forall j :: 0 <= j < |rows| && rows[j].phone == phone && rows[j].status == Confirmed ==>
                                     rows[j].createdAt <= rows[r.value].createdAt
  {
    match ExtractBookingRefId(text)
    case Some(ref) => FindConfirmed(rows, phone, ref)
    case None => LatestConfirmed(rows, phone)
  }

  /** The collected service, date and time and the last question are dropped. */
  function Uncollected(v: SessionView): SessionView {
    v.(pendingService := "", pendingDate := None, pendingTime := "", lastQuestion := None)
  }

  method ForgetCollected(s: Session)
    modifies s
    ensures s.View() == Uncollected(old(s.View()))
  {
    s.pendingService := "";
    s.pendingDate := None;
    s.pendingTime := "";
    s.lastQuestion := None;
  }

  predicate StartsCancel(v: SessionView, intent: string) {
    intent == "booking_cancel" && v.state == Idle
  }

  function CancelStartSession(v: SessionView, rows: seq<Booking>, target: Option<nat>, now: int): SessionView
    requires target.Some? ==> target.value < |rows|
  {
    match target
    case None => Uncollected(v)
    case Some(i) => ClearFailures(Uncollected(v).(state := CancelConfirm, pendingBookingId := rows[i].id, updatedAt := Some(now)))
  }

  function CancelStartReply(rows: seq<Booking>, target: Option<nat>): Reply
    requires target.Some? ==> target.value < |rows|
  {
    match target
    case None => Say("booking_cancel", NoCancelTargetReply)
    case Some(i) => Reply("cancel_confirmation", Some(CancelPrompt(rows[i].service, rows[i].date, rows[i].time)))
  }

  /** A cancel request from IDLE: find the booking and ask the user to confirm. */
  method StartCancel(s: Session, table: BookingTable, intent: string, text: string, now: int)
    returns (r: Option<Reply>)
    requires s.Valid()
    modifies s
    ensures s.Valid()
    ensures !StartsCancel(old(s.View()), intent) ==> r.None? && s.View() == old(s.View())
    ensures StartsCancel(old(s.View()), intent) ==>
              var target := TargetOf(table.rows, old(s.sessionId), text);
              s.View() == CancelStartSession(old(s.View()), table.rows, target, now)
              && r == Some(CancelStartReply(table.rows, target))
  {
    if !StartsCancel(s.View(), intent) {
      return None;
    }
    ForgetCollected(s);
    var target := TargetOf(table.rows, s.sessionId, text);
    r := Some(CancelStartReply(table.rows, target));
    if target.Some? {
      AwaitCancel(s, table.rows[target.value].id, now);
    }
  }

  /** The cancellation of booking `id` awaits the user's yes. */
  method AwaitCancel(s: Session, id: string, now: int)
    modifies s
    ensures s.View() == ClearFailures(old(s.View()).(state := CancelConfirm, pendingBookingId := id, updatedAt := Some(now)))
  {
    s.state := CancelConfirm;
    s.pendingBookingId := id;
    s.updatedAt := Some(now);
    ResetFailures(s);
  }

  predicate StartsReschedule(v: SessionView, intent: string) {
    intent == RescheduleIntent && v.state == Idle
  }

  function RescheduleStartSession(v: SessionView, rows: seq<Booking>, target: Option<nat>, now: int): SessionView
    requires target.Some? ==> target.value < |rows|
  {
    match target
    case None => Uncollected(v)
    case Some(i) =>
      ClearFailures(Uncollected(v).(state := RescheduleCollecting, rescheduleTargetId := rows[i].id,
                                    rescheduleNewDate := Some(rows[i].date), rescheduleNewTime := rows[i].time,
                                    updatedAt := Some(now)))
  }

  /**
   * A reschedule request from IDLE: the proposal starts as the booking's own
   * date and time and the message goes on to the reschedule handler; only a
   * request with no booking to move is answered here.
   */
  method StartReschedule(s: Session, table: BookingTable, intent: string, text: string, now: int)
    returns (r: Option<Reply>)
    requires s.Valid() && table.Valid()
    modifies s
    ensures s.Valid()
    ensures !StartsReschedule(old(s.View()), intent) ==> r.None? && s.View() == old(s.View())
    ensures StartsReschedule(old(s.View()), intent) ==>
              var target := TargetOf(table.rows, old(s.sessionId), text);
              s.View() == RescheduleStartSession(old(s.View()), table.rows, target, now)
              && r == (if target.None? then Some(Say(RescheduleIntent, NoRescheduleTargetReply)) else None)
  {
    if !StartsReschedule(s.View(), intent) {
      return None;
    }
    ForgetCollected(s);
    var target := TargetOf(table.rows, s.sessionId, text);
    if target.None? {
      return Some(Say(RescheduleIntent, NoRescheduleTargetReply));
    }
    var b := table.rows[target.value];
    ValidClockIsTimeText(b.time);
    SeedProposal(s, b, now);
    ResetFailures(s);
    r := None;
  }

  /** The reschedule target and its proposal, seeded from the booking. */
  method SeedProposal(s: Session, b: Booking, now: int)
    modifies s
    ensures s.View() == old(s.View()).(state := RescheduleCollecting, rescheduleTargetId := b.id,
                                       rescheduleNewDate := Some(b.date), rescheduleNewTime := b.time,
                                       updatedAt := Some(now))
  {
    s.state := RescheduleCollecting;
    s.rescheduleTargetId := b.id;
    s.rescheduleNewDate := Some(b.date);
    s.rescheduleNewTime := b.time;
    s.updatedAt := Some(now);
  }

  /**
   * Starting either flow picks a CONFIRMED booking of the caller (the
   * referenced one when the text carries a reference); with none, the
   * session stays IDLE. A started reschedule proposes the booking's own
   * slot, so the first answer only needs what changes.
   */
  lemma StartPicksOwnConfirmed(v: SessionView, rows: seq<Booking>, text: string, now: int)
    requires v.state == Idle
    ensures var t := TargetOf(rows, v.sessionId, text);
            t.None? ==> CancelStartSession(v, rows, t, now).state == Idle
                        && RescheduleStartSession(v, rows, t, now).state == Idle
    ensures var t := TargetOf(rows, v.sessionId, text);
            t.Some? ==>
              var b := rows[t.value];
              var c := CancelStartSession(v, rows, t, now);
              var m := RescheduleStartSession(v, rows, t, now);
              b.phone == v.sessionId && b.status == Confirmed
              && c.state == CancelConfirm && c.pendingBookingId == b.id
              && m.state == RescheduleCollecting && m.rescheduleTargetId == b.id
              && m.rescheduleNewDate == Some(b.date) && m.rescheduleNewTime == b.time
  {
  }

  // ---------------------------------------------------------------------
  // IDLE smart start and cancelling a request in progress
  // ---------------------------------------------------------------------

  predicate StartsBooking(v: SessionView, intent: string) {
    intent == "booking_request" && v.state == Idle
  }

  /** A booking request from IDLE takes over whatever the message already provides. */
  function StartedSession(v: SessionView, data: Extracted, d: Option<Day>, t: Option<string>, now: int): SessionView
    requires data.Parsed?
  {
    ClearFailures(Merged(v, data, d, t, now).(state := Collecting))
  }

  method SmartStart(s: Session, intent: string, data: Extracted, d: Option<Day>, t: Option<string>, now: int)
    requires data.Parsed? && s.Valid() && (t.Some? ==> TimeText(t.value))
    modifies s
    ensures s.Valid()
    ensures !StartsBooking(old(s.View()), intent) ==> s.View() == old(s.View())
    ensures StartsBooking(old(s.View()), intent) ==> s.View() == StartedSession(old(s.View()), data, d, t, now)
  {
    if StartsBooking(s.View(), intent) {
      MergedValid(s.View(), data, d, t, now);
      MergeTurn(s, data, d, t, now);
      s.state := Collecting;
      ResetFailures(s);
    }
  }

  /**
   * The collecting step that follows a smart start merges the same values
   * again, so it sees exactly what the start took over.
   */
  lemma StartThenCollectAgrees(v: SessionView, data: Extracted, d: Option<Day>, t: Option<string>, now: int)
    requires data.Parsed?
    ensures var m := Merged(StartedSession(v, data, d, t, now), data, d, t, now);
            m.state == Collecting
            && m.pendingService == StartedSession(v, data, d, t, now).pendingService
            && m.pendingDate == StartedSession(v, data, d, t, now).pendingDate
            && m.pendingTime == StartedSession(v, data, d, t, now).pendingTime
            && !ShouldHandoff(m)
  {
    SetThenGet(0, 0);
  }

  predicate CancelsRequest(v: SessionView, intent: string) {
    intent == "booking_cancel" && v.state == Collecting
  }

  /** A cancel while collecting drops the request; the reset rewrites every field it clears first. */
  method CancelRequest(s: Session, intent: string, now: int) returns (r: Option<Reply>)
    requires s.Valid()
    modifies s
    ensures s.Valid()
    ensures !CancelsRequest(old(s.View()), intent) ==> r.None? && s.View() == old(s.View())
    ensures CancelsRequest(old(s.View()), intent) ==>
              s.View() == ClearFailures(ResetView(old(s.View()), now))
              && r == Some(Say("booking_cancelled", RequestCancelledReply))
  {
    if !CancelsRequest(s.View(), intent) {
      return None;
    }
    ResetValid(s.View(), now);
    ResetSession(s, now);
    ResetFailures(s);
    r := Some(Say("booking_cancelled", RequestCancelledReply));
  }

  /** The reply when no handler answered: the extractor's intent and reply, with defaults. */
  function FinalReply(intent: string, data: Extracted, cfg: Config): (r: Reply)
    requires data.Parsed?
    ensures r.intent == (if intent == "" then "fallback" else intent)
    ensures data.reply != "" ==> r.reply == Some(Plain(data.reply))
    ensures data.reply == "" ==> r.reply == Some(Welcome(cfg.name))
  {
    Reply(if intent == "" then "fallback" else intent,
          Some(if data.reply != "" then Plain(data.reply) else Welcome(cfg.name)))
  }

  // ---------------------------------------------------------------------
  // The turn as a function of the stored state
  // ---------------------------------------------------------------------

  /** What a turn leaves behind: the session, the bookings table and the reply. */
  datatype Outcome = Outcome(session: SessionView, rows: seq<Booking>, reply: Reply)

  /** A proposal awaiting its yes has a date (part of the session invariant). */
  predicate ProposalReady(v: SessionView) {
    v.state == RescheduleConfirm ==> v.rescheduleNewDate.Some?
  }

  /** The smart start from IDLE, then a cancel while collecting, then COLLECTING, then the extractor's reply. */
  function CollectingTurn(v: SessionView, rows: seq<Booking>, intent: string, text: string, data: Extracted,
                          cfg: Config, now: int, pick: nat, token: string, fallback: string -> Option<Day>): Outcome
    requires data.Parsed? && ValidConfig(cfg) && |token| >= 8
  {
    var d := TurnDate(data, text, cfg, now, fallback);
    var t := TurnTime(data, text);
    var w := if StartsBooking(v, intent) then StartedSession(v, data, d, t, now) else v;
    if CancelsRequest(w, intent) then
      Outcome(ClearFailures(ResetView(w, now)), rows, Say("booking_cancelled", RequestCancelledReply))
    else if w.state == Collecting then
      var m := Merged(w, data, d, t, now);
      var step := StepOf(m, rows, cfg, now, pick, token);
      Outcome(NextSession(m, step, now), NextRows(rows, step), NextReply(m, rows, step, cfg, now))
    else Outcome(w, rows, FinalReply(intent, data, cfg))
  }

  /** The two reschedule states; a reopened proposal passes the message on. */
  function RescheduleTurn(v: SessionView, rows: seq<Booking>, intent: string, text: string, data: Extracted,
                          cfg: Config, now: int, pick: nat, token: string, fallback: string -> Option<Day>): Outcome
    requires data.Parsed? && ValidConfig(cfg) && |token| >= 8 && ProposalReady(v)
  {
    var d := TurnDate(data, text, cfg, now, fallback);
    var t := TurnTime(data, text);
    if v.state == RescheduleCollecting then
      var step := Rescheduling.ProposalStepOf(v, rows, d, t, cfg, now);
      Outcome(Rescheduling.ProposalSession(v, step, d, t, now), rows, Rescheduling.ProposalReply(v, step, d, t, now))
    else if v.state == RescheduleConfirm then
      var dec := Rescheduling.DecisionOf(intent, text, d, t);
      var w := Rescheduling.DecisionSession(v, dec, now);
      var moved := Rescheduling.DecisionRows(rows, v, dec);
      match Rescheduling.DecisionReply(rows, v, dec)
      case Some(reply) => Outcome(w, moved, reply)
      case None => CollectingTurn(w, moved, intent, text, data, cfg, now, pick, token, fallback)
    else CollectingTurn(v, rows, intent, text, data, cfg, now, pick, token, fallback)
  }

  /** The cancel start, the reschedule start (which passes on once it has a target), then the reschedule states. */
  function IdleTurn(v: SessionView, rows: seq<Booking>, intent: string, text: string, data: Extracted,
                    cfg: Config, now: int, pick: nat, token: string, fallback: string -> Option<Day>): Outcome
    requires data.Parsed? && ValidConfig(cfg) && |token| >= 8 && ProposalReady(v)
  {
    var target := TargetOf(rows, v.sessionId, text);
    if StartsCancel(v, intent) then
      Outcome(CancelStartSession(v, rows, target, now), rows, CancelStartReply(rows, target))
    else if StartsReschedule(v, intent) then
      var w := RescheduleStartSession(v, rows, target, now);
      if target.None? then Outcome(w, rows, Say(RescheduleIntent, NoRescheduleTargetReply))
      else RescheduleTurn(w, rows, intent, text, data, cfg, now, pick, token, fallback)
    else RescheduleTurn(v, rows, intent, text, data, cfg, now, pick, token, fallback)
  }

  /** The payment window of the caller's pending booking, then CONFIRMING; a complete change request passes on. */
  function ConfirmingTurn(v: SessionView, rows: seq<Booking>, intent: string, text: string, data: Extracted,
                          cfg: Config, now: int, pick: nat, token: string, fallback: string -> Option<Day>,
                          refundSucceeds: bool): Outcome
    requires data.Parsed? && ValidConfig(cfg) && |token| >= 8 && ProposalReady(v) && RowsValid(rows)
  {
    var pending := FindPending(rows, v.sessionId);
    if pending.Some? && PaymentDue(rows[pending.value], now) then
      Outcome(v.(state := Idle, updatedAt := Some(now)),
              rows[pending.value := ExpiredBooking(rows[pending.value], refundSucceeds)],
              Say("payment_expired", PaymentExpiredReply))
    else if pending.Some? && v.state == Confirming then
      var b := rows[pending.value];
      var c := Confirming.ChoiceOf(b, intent, data, text, cfg, now, fallback);
      var w := Confirming.ChoiceSession(v, c, now);
      var changed := Confirming.ChoiceRows(rows, pending.value, c, now);
      match Confirming.ChoiceReply(v, b, c, now)
      case Some(reply) => Outcome(w, changed, reply)
      case None => IdleTurn(w, changed, intent, text, data, cfg, now, pick, token, fallback)
    else IdleTurn(v, rows, intent, text, data, cfg, now, pick, token, fallback)
  }

  /** The reminder interceptor, then CANCEL_CONFIRM, then the rest of the state handlers. */
  function StatesTurn(v: SessionView, rows: seq<Booking>, intent: string, text: string, data: Extracted,
                      cfg: Config, now: int, pick: nat, token: string, fallback: string -> Option<Day>,
                      refundSucceeds: bool): Outcome
    requires data.Parsed? && ValidConfig(cfg) && |token| >= 8 && ProposalReady(v) && RowsValid(rows)
  {
    var step := ReminderStepOf(v, rows, intent, text, cfg, now);
    var w := ReminderSession(v, rows, step, now);
    match ReminderReply(rows, step)
    case Some(reply) => Outcome(w, ReminderRows(rows, step), reply)
    case None =>
      if w.state == CancelConfirm then
        var a := Cancelling.AnswerOf(intent, text);
        Outcome(Cancelling.CancelSession(w, a, now), Cancelling.CancelRows(rows, w, a), Cancelling.CancelReply(a))
      else ConfirmingTurn(w, rows, intent, text, data, cfg, now, pick, token, fallback, refundSucceeds)
  }

  /** FAQ, human and status intents are answered whatever the state; the rest go to the state handlers. */
  function GlobalTurn(v: SessionView, rows: seq<Booking>, intent: string, text: string, data: Extracted,
                      cfg: Config, now: int, pick: nat, token: string, fallback: string -> Option<Day>,
                      refundSucceeds: bool): Outcome
    requires data.Parsed? && ValidConfig(cfg) && |token| >= 8 && ProposalReady(v) && RowsValid(rows)
  {
    if IsGlobal(intent) then Outcome(GlobalSession(v, intent, now), rows, GlobalReply(v, rows, intent, cfg, pick).value)
    else StatesTurn(v, rows, intent, text, data, cfg, now, pick, token, fallback, refundSucceeds)
  }

  /** Intent correction, the expiry notice, fallback counting, then the global intents. */
  function IntentTurn(v: SessionView, rows: seq<Booking>, text: string, data: Extracted,
                      cfg: Config, now: int, pick: nat, token: string, fallback: string -> Option<Day>,
                      refundSucceeds: bool): Outcome
    requires data.Parsed? && ValidConfig(cfg) && |token| >= 8 && ProposalReady(v) && RowsValid(rows)
  {
    var intent := NormalizeIntent(data.intent, text, v.state, rows, v.sessionId);
    var ux := if v.expiredLastTurn then ExpiredUx(v.expiredFromState, intent, text) else None;
    var w := if v.expiredLastTurn then v.(expiredLastTurn := false, expiredFromState := None) else v;
    if ux.Some? then Outcome(w, rows, ux.value)
    else if intent == "fallback" && ShouldHandoff(Failed(w, now)) then
      Outcome(Missed(w, now), rows, Say("handoff", FallbackHandoffReply))
    else
      var counted := if intent == "fallback" then Missed(w, now) else w;
      GlobalTurn(counted, rows, RefineInquiry(intent, text), text, data, cfg, now, pick, token, fallback, refundSucceeds)
  }

  /**
   * The whole turn of `handle_message` for the stored session `v` and the
   * table `rows`, after the extractor produced `data` for `rawText`.
   */
  function TurnOf(v: SessionView, rows: seq<Booking>, rawText: string, messageId: string, channel: string,
                  data: Extracted, cfg: Config, now: int, pick: nat, token: string,
                  fallback: string -> Option<Day>, refundSucceeds: bool): Outcome
    requires ValidConfig(cfg) && |token| >= 8 && ProposalReady(v) && RowsValid(rows)
  {
    if v.sessionId == "" then Outcome(v, rows, Say("error", ErrorReply))
    else if Duplicate(v.processedIds, messageId) then Outcome(Opened(v, channel, now), rows, Reply("ignored", None))
    else
      var o := Recorded(Opened(v, channel, now), messageId);
      if data.ParseFailure? then Outcome(Missed(o, now), rows, UnparsedTurn(o, now))
      else IntentTurn(o, rows, Strip(rawText), data, cfg, now, pick, token, fallback, refundSucceeds)
  }

  /**
   * FAQ, human and status intents are answered in every state, ahead of
   * every state handler, when no expiry notice is due: the session only
   * loses its failure counters and the table is untouched.
   */
  lemma GlobalAnsweredInAnyState(v: SessionView, rows: seq<Booking>, rawText: string, messageId: string,
                                 channel: string, data: Extracted, cfg: Config, now: int, pick: nat, token: string,
                                 fallback: string -> Option<Day>, refundSucceeds: bool)
    requires ValidConfig(cfg) && |token| >= 8 && ProposalReady(v) && RowsValid(rows)
    requires v.sessionId != "" && !Duplicate(v.processedIds, messageId) && data.Parsed?
    requires var o := Recorded(Opened(v, channel, now), messageId);
             var text := Strip(rawText);
             !o.expiredLastTurn && IsGlobal(RefineInquiry(NormalizeIntent(data.intent, text, o.state, rows, o.sessionId), text))
    ensures var o := Recorded(Opened(v, channel, now), messageId);
            var text := Strip(rawText);
            var intent := RefineInquiry(NormalizeIntent(data.intent, text, o.state, rows, o.sessionId), text);
            TurnOf(v, rows, rawText, messageId, channel, data, cfg, now, pick, token, fallback, refundSucceeds)
            == Outcome(GlobalSession(o, intent, now), rows, GlobalReply(o, rows, intent, cfg, pick).value)
  {
    var o := Recorded(Opened(v, channel, now), messageId);
    var text := Strip(rawText);
    var intent := NormalizeIntent(data.intent, text, o.state, rows, o.sessionId);
    assert intent != "fallback" by {
      assert RefineInquiry("fallback", text) == "fallback";
    }
  }

  // ---------------------------------------------------------------------
  // The dispatcher
  // ---------------------------------------------------------------------

  /**
   * `handle_message` for the session `s` of the caller (the one stored, or
   * a new IDLE one) after the extractor produced `data` for `rawText`.
   * `pick`, `token`, `fallback` and `refundSucceeds` stand for the random
   * draw, the fresh uuid text, the free-form date parser and the refund's
   * outcome.
   */
  method HandleMessage(s: Session, table: BookingTable, rawText: string, messageId: string, channel: string,
                       data: Extracted, cfg: Config, now: int, pick: nat, token: string,
                       fallback: string -> Option<Day>, refundSucceeds: bool)
    returns (r: Reply)
    requires s.Valid() && table.Valid() && ValidConfig(cfg) && |token| >= 8
    modifies s, table
    ensures s.Valid() && table.Valid()
    ensures var o := TurnOf(old(s.View()), old(table.rows), rawText, messageId, channel, data, cfg, now, pick, token,
                            fallback, refundSucceeds);
            s.View() == o.session && table.rows == o.rows && r == o.reply
    ensures old(s.sessionId) == "" ==>
              r == Say("error", ErrorReply) && s.View() == old(s.View()) && table.rows == old(table.rows)
    ensures old(s.sessionId) != "" && Duplicate(old(s.processedIds), messageId) ==>
              r == Reply("ignored", None) && s.View() == Opened(old(s.View()), channel, now)
              && table.rows == old(table.rows)
    ensures old(s.sessionId) != "" && !Duplicate(old(s.processedIds), messageId) && data.ParseFailure? ==>
              var o := Recorded(Opened(old(s.View()), channel, now), messageId);
              r == UnparsedTurn(o, now) && s.View() == Missed(o, now) && table.rows == old(table.rows)
  {
    var text := Strip(rawText);
    if s.sessionId == "" {
      return Say("error", ErrorReply);
    }
    var duplicate := OpenTurn(s, messageId, channel, now);
    if duplicate {
      return Reply("ignored", None);
    }
    if data.ParseFailure? {
      r := UnparsedTurn(s.View(), now);
      var handoff := CountMiss(s, now);
      return r;
    }
    r := RouteIntent(s, table, text, data, cfg, now, pick, token, fallback, refundSucceeds);
  }

  /** Intent correction, the expiry notice, fallback counting and the global intents. */
  method RouteIntent(s: Session, table: BookingTable, text: string, data: Extracted, cfg: Config, now: int,
                     pick: nat, token: string, fallback: string -> Option<Day>, refundSucceeds: bool)
    returns (r: Reply)
    requires data.Parsed? && s.Valid() && table.Valid() && ValidConfig(cfg) && |token| >= 8
    modifies s, table
    ensures s.Valid() && table.Valid()
    ensures var o := IntentTurn(old(s.View()), old(table.rows), text, data, cfg, now, pick, token, fallback,
                                refundSucceeds);
            s.View() == o.session && table.rows == o.rows && r == o.reply
    ensures old(s.expiredLastTurn) ==>
              var intent := NormalizeIntent(data.intent, text, old(s.state), old(table.rows), old(s.sessionId));
              var ux := ExpiredUx(old(s.expiredFromState), intent, text);
              ux.Some? ==> r == ux.value && table.rows == old(table.rows)
                           && s.View() == old(s.View()).(expiredLastTurn := false, expiredFromState := None)
    ensures !old(s.expiredLastTurn) ==>
              var intent := RefineInquiry(NormalizeIntent(data.intent, text, old(s.state), old(table.rows), old(s.sessionId)), text);
              IsGlobal(intent) ==>
                r == GlobalReply(old(s.View()), old(table.rows), intent, cfg, pick).value
                && s.View() == GlobalSession(old(s.View()), intent, now) && table.rows == old(table.rows)
  {
    var intent := NormalizeIntent(data.intent, text, s.state, table.rows, s.sessionId);
    var expiry := HandleExpiredSessionUx(s, intent, text);
    if expiry.Some? {
      return expiry.value;
    }
    if intent == "fallback" {
      assert !IsGlobal(RefineInquiry(intent, text));
      var handoff := CountMiss(s, now);
      if handoff {
        return Say("handoff", FallbackHandoffReply);
      }
    } else if !old(s.expiredLastTurn) {
      assert s.View() == old(s.View());
    }
    r := RouteGlobal(s, table, RefineInquiry(intent, text), text, data, cfg, now, pick, token, fallback, refundSucceeds);
  }

  /** The global intents first, then the state handlers. */
  method RouteGlobal(s: Session, table: BookingTable, intent: string, text: string, data: Extracted, cfg: Config,
                     now: int, pick: nat, token: string, fallback: string -> Option<Day>, refundSucceeds: bool)
    returns (r: Reply)
    requires data.Parsed? && s.Valid() && table.Valid() && ValidConfig(cfg) && |token| >= 8
    modifies s, table
    ensures s.Valid() && table.Valid()
    ensures var o := GlobalTurn(old(s.View()), old(table.rows), intent, text, data, cfg, now, pick, token, fallback,
                                refundSucceeds);
            s.View() == o.session && table.rows == o.rows && r == o.reply
    ensures IsGlobal(intent) ==>
              r == GlobalReply(old(s.View()), old(table.rows), intent, cfg, pick).value
              && s.View() == GlobalSession(old(s.View()), intent, now) && table.rows == old(table.rows)
  {
    var global := AnswerGlobal(s, table, intent, cfg, now, pick);
    if global.Some? {
      return global.value;
    }
    r := RouteStates(s, table, intent, text, data, cfg, now, pick, token, fallback, refundSucceeds);
  }

  /** The reminder interceptor, CANCEL_CONFIRM, the payment window and CONFIRMING. */
  method RouteStates(s: Session, table: BookingTable, intent: string, text: string, data: Extracted, cfg: Config,
                     now: int, pick: nat, token: string, fallback: string -> Option<Day>, refundSucceeds: bool)
    returns (r: Reply)
    requires data.Parsed? && s.Valid() && table.Valid() && ValidConfig(cfg) && |token| >= 8
    modifies s, table
    ensures s.Valid() && table.Valid()
    ensures var o := StatesTurn(old(s.View()), old(table.rows), intent, text, data, cfg, now, pick, token, fallback,
                                refundSucceeds);
            s.View() == o.session && table.rows == o.rows && r == o.reply
    ensures var step := ReminderStepOf(old(s.View()), old(table.rows), intent, text, cfg, now);
            ReminderReply(old(table.rows), step).Some? ==>
              r == ReminderReply(old(table.rows), step).value
              && s.View() == ReminderSession(old(s.View()), old(table.rows), step, now)
              && table.rows == ReminderRows(old(table.rows), step)
  {
    var reminder := HandleReminderReply(s, table, intent, text, cfg, now);
    if reminder.Some? {
      return reminder.value;
    }
    var cancel := Cancelling.HandleCancelConfirm(s, table, intent, text, now);
    if cancel.Some? {
      return cancel.value;
    }
    r := RoutePayment(s, table, intent, text, data, cfg, now, pick, token, fallback, refundSucceeds);
  }

  /** The payment window of the caller's pending booking, then CONFIRMING, then the IDLE starts. */
  method RoutePayment(s: Session, table: BookingTable, intent: string, text: string, data: Extracted, cfg: Config,
                      now: int, pick: nat, token: string, fallback: string -> Option<Day>, refundSucceeds: bool)
    returns (r: Reply)
    requires data.Parsed? && s.Valid() && table.Valid() && ValidConfig(cfg) && |token| >= 8
    modifies s, table
    ensures s.Valid() && table.Valid()
    ensures var o := ConfirmingTurn(old(s.View()), old(table.rows), intent, text, data, cfg, now, pick, token, fallback,
                                    refundSucceeds);
            s.View() == o.session && table.rows == o.rows && r == o.reply
  {
    var pending, released := ReleaseExpiredPayment(s, table, now, refundSucceeds);
    if released.Some? {
      return released.value;
    }
    var confirming := Confirming.HandleConfirming(s, table, pending, intent, data, text, cfg, now, fallback);
    if confirming.Some? {
      return confirming.value;
    }
    r := RouteIdle(s, table, intent, text, data, cfg, now, pick, token, fallback);
  }

  /** Cancel and reschedule starts and the reschedule states. */
  method RouteIdle(s: Session, table: BookingTable, intent: string, text: string, data: Extracted, cfg: Config,
                   now: int, pick: nat, token: string, fallback: string -> Option<Day>)
    returns (r: Reply)
    requires data.Parsed? && s.Valid() && table.Valid() && ValidConfig(cfg) && |token| >= 8
    modifies s, table
    ensures s.Valid() && table.Valid()
    ensures var o := IdleTurn(old(s.View()), old(table.rows), intent, text, data, cfg, now, pick, token, fallback);
            s.View() == o.session && table.rows == o.rows && r == o.reply
  {
    var cancelStart := StartCancel(s, table, intent, text, now);
    if cancelStart.Some? {
      return cancelStart.value;
    }
    var rescheduleStart := StartReschedule(s, table, intent, text, now);
    if rescheduleStart.Some? {
      return rescheduleStart.value;
    }
    var rescheduling := Rescheduling.HandleReschedule(s, table, intent, data, text, cfg, now, fallback);
    if rescheduling.Some? {
      return rescheduling.value;
    }
    r := RouteCollecting(s, table, intent, text, data, cfg, now, pick, token, fallback);
  }

  /** The smart start from IDLE, a cancel while collecting, COLLECTING and the default reply. */
  method RouteCollecting(s: Session, table: BookingTable, intent: string, text: string, data: Extracted, cfg: Config,
                         now: int, pick: nat, token: string, fallback: string -> Option<Day>)
    returns (r: Reply)
    requires data.Parsed? && s.Valid() && table.Valid() && ValidConfig(cfg) && |token| >= 8
    modifies s, table
    ensures s.Valid() && table.Valid()
    ensures var o := CollectingTurn(old(s.View()), old(table.rows), intent, text, data, cfg, now, pick, token, fallback);
            s.View() == o.session && table.rows == o.rows && r == o.reply
  {
    SmartStart(s, intent, data, TurnDate(data, text, cfg, now, fallback), TurnTime(data, text), now);
    var cancelled := CancelRequest(s, intent, now);
    if cancelled.Some? {
      return cancelled.value;
    }
    var collecting := HandleCollecting(s, table, data, text, cfg, now, pick, token, fallback);
    if collecting.Some? {
      return collecting.value;
    }
    r := FinalReply(intent, data, cfg);
  }
}
