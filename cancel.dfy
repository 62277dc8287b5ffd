/**
 * The CANCEL_CONFIRM state: the user was asked whether to cancel one of
 * their confirmed appointments (`pendingBookingId`) and answers.
 */
module Cancelling {
  import opened Wrappers
  import opened Text
  import opened Records
  import opened Store
  import opened Lifecycle

  const CancelledReply := "Done — your appointment has been cancelled."
  const KeptReply := "No worries — your appointment is still confirmed."
  const RepeatReply := "Please reply YES to cancel or NO to keep your appointment."

  /** The answer: a yes first, then a no; anything else repeats the question. */
  datatype Answer = Yes | No | Unclear

  function AnswerOf(intent: string, text: string): (a: Answer)
    ensures a == Yes <==> intent == "booking_confirm" || Lower(text) in YesWords
    ensures a == No <==> !(intent == "booking_confirm" || Lower(text) in YesWords)
                         && (intent == "booking_cancel" || Lower(text) in NoWords)
  {
    if intent == "booking_confirm" || Lower(text) in YesWords then Yes
    else if intent == "booking_cancel" || Lower(text) in NoWords then No
    else Unclear
  }

  /** The session once answered: IDLE, no booking under question, the failure counters reset. */
  function AnsweredSession(v: SessionView, now: int): SessionView {
    v.(state := Idle, pendingBookingId := "", updatedAt := Some(now), failCount := SetInt(0), handoffOffered := SetInt(0))
  }

  function CancelSession(v: SessionView, a: Answer, now: int): SessionView {
    if a == Unclear then v else AnsweredSession(v, now)
  }

  /** A yes cancels this phone number's CONFIRMED booking with the id under question, if it is still there. */
  function CancelRows(rows: seq<Booking>, v: SessionView, a: Answer): seq<Booking> {
    if a != Yes then rows
    else match FindConfirmed(rows, v.sessionId, v.pendingBookingId)
      case None => rows
      case Some(i) => rows[i := rows[i].(status := Cancelled)]
  }

  function CancelReply(a: Answer): Reply {
    match a
    case Yes => Say("booking_cancelled", CancelledReply)
    case No => Say("cancel_aborted", KeptReply)
    case Unclear => Say("cancel_confirmation", RepeatReply)
  }

  /** `handle_cancel_confirm_state`; the calendar event is not modelled. */
  method HandleCancelConfirm(s: Session, table: BookingTable, intent: string, text: string, now: int)
    returns (r: Option<Reply>)
    requires s.Valid() && table.Valid()
    modifies s, table
    ensures s.Valid() && table.Valid()
    ensures old(s.state) != CancelConfirm ==> r.None? && s.View() == old(s.View()) && table.rows == old(table.rows)
    ensures old(s.state) == CancelConfirm ==>
              var a := AnswerOf(intent, text);
              s.View() == CancelSession(old(s.View()), a, now)
              && table.rows == CancelRows(old(table.rows), old(s.View()), a)
              && r == Some(CancelReply(a))
  {
    if s.state != CancelConfirm {
      return None;
    }
    var a := AnswerOf(intent, text);
    CancelKeepsValid(s.View(), table.rows, a, now);
    if a == Yes {
      var hit := FindConfirmed(table.rows, s.sessionId, s.pendingBookingId);
      if hit.Some? {
        table.rows := table.rows[hit.value := table.rows[hit.value].(status := Cancelled)];
      }
    }
    if a != Unclear {
      CloseQuestion(s, now);
    }
    return Some(CancelReply(a));
  }

  method CloseQuestion(s: Session, now: int)
    modifies s
    ensures s.View() == AnsweredSession(old(s.View()), now)
  {
    s.state := Idle;
    s.pendingBookingId := "";
    s.updatedAt := Some(now);
    ResetFailures(s);
  }

  // ---------------------------------------------------------------------
  // Properties
  // ---------------------------------------------------------------------

  lemma CancelKeepsValid(v: SessionView, rows: seq<Booking>, a: Answer, now: int)
    requires ViewValid(v) && RowsValid(rows)
    ensures ViewValid(CancelSession(v, a, now)) && RowsValid(CancelRows(rows, v, a))
  {
    var hit := FindConfirmed(rows, v.sessionId, v.pendingBookingId);
    if a == Yes && hit.Some? {
      UpdateKeepsValid(rows, hit.value, rows[hit.value].(status := Cancelled));
    }
  }

  /**
   * At most one row changes, and only the booking under question: it is
   * this phone number's, has that id, was CONFIRMED and is now CANCELLED.
   */
  lemma CancelsOnlyTarget(rows: seq<Booking>, v: SessionView, a: Answer)
    ensures var after := CancelRows(rows, v, a);
            |after| == |rows|
            && forall j :: 0 <= j < |rows| && after[j] != rows[j] ==>
                 a == Yes && rows[j].phone == v.sessionId && rows[j].id == v.pendingBookingId
                 && rows[j].status == Confirmed && after[j] == rows[j].(status := Cancelled)
  {
  }

  /** A yes leaves no CONFIRMED booking of this phone number with that id. */
  lemma YesCancels(rows: seq<Booking>, v: SessionView)
    requires UniqueIds(rows)
    ensures var after := CancelRows(rows, v, Yes);
            forall j :: 0 <= j < |after| ==>
              !(after[j].phone == v.sessionId && after[j].id == v.pendingBookingId && after[j].status == Confirmed)
  {
  }

  /**
   * The intent to cancel answers no here, whatever the text says unless it is
   * a yes-word: the appointment is kept and the question closed. "cancel"
   * itself is such a text.
   */
  lemma CancelIntentKeepsAppointment(rows: seq<Booking>, v: SessionView, text: string, now: int)
    requires Lower(text) !in YesWords
    ensures AnswerOf("booking_cancel", text) == No
    ensures CancelRows(rows, v, AnswerOf("booking_cancel", text)) == rows
    ensures CancelSession(v, AnswerOf("booking_cancel", text), now).state == Idle
    ensures CancelReply(AnswerOf("booking_cancel", text)) == Say("cancel_aborted", KeptReply)
  {
  }

  /** Only a yes cancels: without the confirm intent or a yes-word every booking stays as it was. */
  lemma OnlyYesCancels(rows: seq<Booking>, v: SessionView, intent: string, text: string)
    requires intent != "booking_confirm" && Lower(text) !in YesWords
    ensures CancelRows(rows, v, AnswerOf(intent, text)) == rows
  {
  }

  /** "cancel" is no yes-word. */
  lemma CancelIsNoYes()
    ensures Lower("cancel") !in YesWords
  {
    assert Lower("cancel") == "cancel";
  }

  /** An answer ends the question with no handoff due; an unclear one changes nothing. */
  lemma AnswerClosesOrKeeps(v: SessionView, rows: seq<Booking>, a: Answer, now: int)
    ensures a != Unclear ==> CancelSession(v, a, now).state == Idle && CancelSession(v, a, now).pendingBookingId == ""
                             && !ShouldHandoff(CancelSession(v, a, now))
    ensures a == Unclear ==> CancelSession(v, a, now) == v && CancelRows(rows, v, a) == rows
  {
    ResetFailuresNoHandoff(v.(state := Idle, pendingBookingId := "", updatedAt := Some(now)));
  }
}
