/**
 * The CONFIRMING state: the PENDING booking waits for a yes (with a
 * deposit, or confirmed straight away), a no, or a change request.
 *
 * `ChoiceOf` picks the way a turn goes; `ChoiceSession`, `ChoiceRows` and
 * `ChoiceReply` give its outcome; `HandleConfirming` performs it on the
 * session object and the table and is proved equal to them.
 */
module Confirming {
  import opened Wrappers
  import opened Text
  import opened Clock
  import opened Records
  import opened Store
  import opened Deposit
  import opened Lifecycle
  import opened Collecting

  /** The whole texts, lower-cased, that confirm here (a different set from the engine's yes-words). */
  const ConfirmWords: set<string> := {"yes", "confirm", "ok", "sure"}

  /** The whole texts, lower-cased, that decline. */
  const DeclineWords: set<string> := {"no", "cancel"}

  const ModifyReply := "Got it — updating your booking. 👍"
  const DeclinedReply := "No problem — the booking has been cancelled."
  const AwaitReply := "Please reply YES to confirm, or tell me what you’d like to change (service/date/time)."

  /** Which way a CONFIRMING turn goes. */
  datatype Choice =
    | Modify(service: string, date: Option<Day>, time: Option<string>)   // change request: back to COLLECTING
    | PayDeposit(cents: int)                                             // yes, and a deposit is due
    | Confirm                                                            // yes, nothing to pay
    | Decline                                                            // no
    | Await                                                              // anything else

  predicate Confirms(intent: string, text: string) {
    intent == "booking_confirm" || Lower(text) in ConfirmWords
  }

  predicate Declines(intent: string, text: string) {
    intent == "booking_cancel" || Lower(text) in DeclineWords
  }

  /** The branch for pending booking `b`: a change request first, then yes, then no. */
  function ChoiceOf(b: Booking, intent: string, data: Extracted, text: string, cfg: Config, now: int,
                    fallback: string -> Option<Day>): (c: Choice)
    requires data.Parsed? && IsHhMm(b.time)
  {
    if WantsToModify(intent, text) then
      Modify(data.service, TurnDate(data, text, cfg, now, fallback), TurnTime(data, text))
    else if Confirms(intent, text) then
      var cents := ComputeDeposit(b.service, b.date, b.time);
      if cents > 0 then PayDeposit(cents) else Confirm
    else if Declines(intent, text) then Decline
    else Await
  }

  /** The session after a change request: the values given overwrite the pending ones, and the state is COLLECTING. */
  function ModifiedSession(v: SessionView, service: string, d: Option<Day>, t: Option<string>, now: int): SessionView {
    v.(pendingService := if service != "" then service else v.pendingService,
       pendingDate := if d.Some? then d else v.pendingDate,
       pendingTime := if t.Some? then t.value else v.pendingTime,
       state := Collecting, updatedAt := Some(now))
  }

  /** The session once the request is settled (confirmed or declined): IDLE, the request forgotten, the counters reset. */
  function ClosedSession(v: SessionView, now: int): SessionView {
    v.(state := Idle, pendingService := "", pendingDate := None, pendingTime := "", lastQuestion := None,
       updatedAt := Some(now), failCount := SetInt(0), handoffOffered := SetInt(0))
  }

  function ChoiceSession(v: SessionView, c: Choice, now: int): SessionView {
    match c
    case Modify(service, d, t) => ModifiedSession(v, service, d, t, now)
    case PayDeposit(_) => v.(state := PaymentPending, updatedAt := Some(now))
    case Confirm => ClosedSession(v, now)
    case Decline => ClosedSession(v, now)
    case Await => v
  }

  /** The booking marked for payment of a deposit of `cents` (in US cents). */
  function DepositRow(b: Booking, cents: int): Booking {
    b.(paymentRequired := true, paymentStatus := RequiresPayment, depositCents := cents, currency := "usd")
  }

  function ConfirmedRow(b: Booking, now: int): Booking {
    b.(status := Confirmed, confirmedAt := Some(now))
  }

  /** The pending booking after the turn. */
  function ChoiceRow(b: Booking, c: Choice, now: int): Booking {
    match c
    case Modify(_, _, _) => b.(status := Cancelled)
    case PayDeposit(cents) => DepositRow(b, cents)
    case Confirm => ConfirmedRow(b, now)
    case Decline => b.(status := Cancelled)
    case Await => b
  }

  function ChoiceRows(rows: seq<Booking>, i: nat, c: Choice, now: int): seq<Booking>
    requires i < |rows|
  {
    rows[i := ChoiceRow(rows[i], c, now)]
  }

  /** The reply; a change request that leaves all three fields filled passes the message on (`None`). */
  function ChoiceReply(v: SessionView, b: Booking, c: Choice, now: int): Option<Reply> {
    match c
    case Modify(service, d, t) =>
      var m := ModifiedSession(v, service, d, t, now);
      if m.pendingService != "" && m.pendingDate.Some? && m.pendingTime != "" then None
      else Some(Say("booking_modify", ModifyReply))
    case PayDeposit(_) => Some(Reply("payment_required", Some(DepositDue(b.service, b.date, b.time))))
    case Confirm => Some(Reply("booking_confirmed", Some(ConfirmedNote(b.id, b.date, b.time))))
    case Decline => Some(Say("booking_cancelled", DeclinedReply))
    case Await => Some(Say("awaiting_confirmation", AwaitReply))
  }

  // ---------------------------------------------------------------------
  // The handler
  // ---------------------------------------------------------------------

  /**
   * `handle_confirming_state`, where `pending` is the index of the pending
   * booking the engine found (`None` when there is none).
   */
  method HandleConfirming(s: Session, table: BookingTable, pending: Option<nat>, intent: string, data: Extracted,
                          text: string, cfg: Config, now: int, fallback: string -> Option<Day>)
    returns (r: Option<Reply>)
    requires data.Parsed? && (pending.Some? ==> pending.value < |table.rows|)
    requires s.Valid() && table.Valid()
    modifies s, table
    ensures s.Valid() && table.Valid()
    ensures pending.None? || old(s.state) != Confirming ==>
              r.None? && s.View() == old(s.View()) && table.rows == old(table.rows)
    ensures pending.Some? && old(s.state) == Confirming ==>
              var b := old(table.rows)[pending.value];
              var c := ChoiceOf(b, intent, data, text, cfg, now, fallback);
              s.View() == ChoiceSession(old(s.View()), c, now)
              && table.rows == ChoiceRows(old(table.rows), pending.value, c, now)
              && r == ChoiceReply(old(s.View()), b, c, now)
  {
    if pending.None? || s.state != Confirming {
      return None;
    }
    var i := pending.value;
    var b := table.rows[i];
    var c := ChoiceOf(b, intent, data, text, cfg, now, fallback);
    ChoiceKeepsValid(s.View(), table.rows, i, c, now);
    match c
    case Modify(service, d, t) =>
      r := ApplyModify(s, table, i, service, d, t, now);
    case PayDeposit(cents) =>
      r := RequireDeposit(s, table, i, cents, now);
    case Confirm =>
      r := ConfirmBooking(s, table, i, now);
    case Decline =>
      r := DeclineBooking(s, table, i, now);
    case Await =>
      r := Some(Say("awaiting_confirmation", AwaitReply));
  }

  /** The change request: merge, cancel the stale pending booking, go back to COLLECTING. */
  method ApplyModify(s: Session, table: BookingTable, i: nat, service: string, d: Option<Day>, t: Option<string>, now: int)
    returns (r: Option<Reply>)
    requires i < |table.rows|
    modifies s, table
    ensures s.View() == ModifiedSession(old(s.View()), service, d, t, now)
    ensures table.rows == old(table.rows)[i := old(table.rows)[i].(status := Cancelled)]
    ensures r == ChoiceReply(old(s.View()), old(table.rows)[i], Modify(service, d, t), now)
  {
    ghost var v := s.View();
    MergeChange(s, service, d, t);
    table.rows := table.rows[i := table.rows[i].(status := Cancelled)];
    s.state := Collecting;
    s.updatedAt := Some(now);
    assert s.View() == ModifiedSession(v, service, d, t, now);
    if !(s.pendingService != "" && s.pendingDate.Some? && s.pendingTime != "") {
      return Some(Say("booking_modify", ModifyReply));
    }
    return None;
  }

  /** The values given this turn overwrite the pending ones. */
  method MergeChange(s: Session, service: string, d: Option<Day>, t: Option<string>)
    modifies s
    ensures s.View() == old(s.View()).(pendingService := if service != "" then service else old(s.pendingService),
                                       pendingDate := if d.Some? then d else old(s.pendingDate),
                                       pendingTime := if t.Some? then t.value else old(s.pendingTime))
  {
    if service != "" {
      s.pendingService := service;
    }
    if d.Some? {
      s.pendingDate := d;
    }
    if t.Some? {
      s.pendingTime := t.value;
    }
  }

  /** Yes, with a deposit due: the booking stays PENDING and waits for the payment. */
  method RequireDeposit(s: Session, table: BookingTable, i: nat, cents: int, now: int) returns (r: Option<Reply>)
    requires i < |table.rows|
    modifies s, table
    ensures s.View() == old(s.View()).(state := PaymentPending, updatedAt := Some(now))
    ensures table.rows == old(table.rows)[i := DepositRow(old(table.rows)[i], cents)]
    ensures r == Some(Reply("payment_required", Some(DepositDue(old(table.rows)[i].service, old(table.rows)[i].date, old(table.rows)[i].time))))
  {
    var b := table.rows[i];
    table.rows := table.rows[i := DepositRow(b, cents)];
    s.state := PaymentPending;
    s.updatedAt := Some(now);
    return Some(Reply("payment_required", Some(DepositDue(b.service, b.date, b.time))));
  }

  /** Yes, nothing to pay: the booking is CONFIRMED and the request closed. The calendar entry is not modelled. */
  method ConfirmBooking(s: Session, table: BookingTable, i: nat, now: int) returns (r: Option<Reply>)
    requires i < |table.rows|
    modifies s, table
    ensures s.View() == ClosedSession(old(s.View()), now)
    ensures table.rows == old(table.rows)[i := ConfirmedRow(old(table.rows)[i], now)]
    ensures r == Some(Reply("booking_confirmed", Some(ConfirmedNote(old(table.rows)[i].id, old(table.rows)[i].date, old(table.rows)[i].time))))
  {
    var b := table.rows[i];
    table.rows := table.rows[i := ConfirmedRow(b, now)];
    CloseRequest(s, now);
    return Some(Reply("booking_confirmed", Some(ConfirmedNote(b.id, b.date, b.time))));
  }

  /** No: the booking is CANCELLED and the request closed. */
  method DeclineBooking(s: Session, table: BookingTable, i: nat, now: int) returns (r: Option<Reply>)
    requires i < |table.rows|
    modifies s, table
    ensures s.View() == ClosedSession(old(s.View()), now)
    ensures table.rows == old(table.rows)[i := old(table.rows)[i].(status := Cancelled)]
    ensures r == Some(Say("booking_cancelled", DeclinedReply))
  {
    table.rows := table.rows[i := table.rows[i].(status := Cancelled)];
    CloseRequest(s, now);
    return Some(Say("booking_cancelled", DeclinedReply));
  }

  /** Back to IDLE with the request forgotten and the failure counters reset. */
  method CloseRequest(s: Session, now: int)
    modifies s
    ensures s.View() == ClosedSession(old(s.View()), now)
  {
    ForgetRequest(s);
    s.state := Idle;
    s.updatedAt := Some(now);
    ResetFailures(s);
  }

  /** The collected service, date and time and the open question are dropped. */
  method ForgetRequest(s: Session)
    modifies s
    ensures s.View() == old(s.View()).(pendingService := "", pendingDate := None, pendingTime := "", lastQuestion := None)
  {
    s.pendingService := "";
    s.pendingDate := None;
    s.pendingTime := "";
    s.lastQuestion := None;
  }

  // ---------------------------------------------------------------------
  // Properties of the turn
  // ---------------------------------------------------------------------

  /** Every branch keeps both invariants: only status and payment columns of the booking change. */
  lemma ChoiceKeepsValid(v: SessionView, rows: seq<Booking>, i: nat, c: Choice, now: int)
    requires i < |rows| && ViewValid(v) && RowsValid(rows)
    requires c.Modify? ==> (c.time.Some? ==> TimeText(c.time.value))
    ensures ViewValid(ChoiceSession(v, c, now)) && RowsValid(ChoiceRows(rows, i, c, now))
  {
    UpdateKeepsValid(rows, i, ChoiceRow(rows[i], c, now));
  }

  /** A change request is recognised before a yes or a no. */
  lemma ModifyFirst(b: Booking, intent: string, data: Extracted, text: string, cfg: Config, now: int,
                    fallback: string -> Option<Day>)
    requires data.Parsed? && IsHhMm(b.time) && WantsToModify(intent, text)
    ensures ChoiceOf(b, intent, data, text, cfg, now, fallback).Modify?
  {
  }

  /**
   * A change request cancels the pending booking and goes back to COLLECTING;
   * it passes the message on exactly when the three fields are all filled.
   */
  lemma ModifyFallsThrough(v: SessionView, b: Booking, service: string, d: Option<Day>, t: Option<string>, now: int)
    ensures ChoiceRow(b, Modify(service, d, t), now).status == Cancelled
    ensures ChoiceSession(v, Modify(service, d, t), now).state == Collecting
    ensures var m := ChoiceSession(v, Modify(service, d, t), now);
            ChoiceReply(v, b, Modify(service, d, t), now).None?
            <==> (m.pendingService != "" && m.pendingDate.Some? && m.pendingTime != "")
  {
  }

  /** Yes with a deposit: the booking stays PENDING, requires payment of the computed deposit, and the session waits for it. */
  lemma DepositKeepsPending(v: SessionView, b: Booking, intent: string, data: Extracted, text: string, cfg: Config,
                            now: int, fallback: string -> Option<Day>)
    requires data.Parsed? && IsHhMm(b.time) && b.status == Pending
    requires !WantsToModify(intent, text) && Confirms(intent, text)
    requires ComputeDeposit(b.service, b.date, b.time) > 0
    ensures var c := ChoiceOf(b, intent, data, text, cfg, now, fallback);
            var b2 := ChoiceRow(b, c, now);
            b2.status == Pending && b2.paymentRequired && b2.paymentStatus == RequiresPayment
            && b2.depositCents == ComputeDeposit(b.service, b.date, b.time) && b2.currency == "usd"
            && ChoiceSession(v, c, now).state == PaymentPending
  {
  }

  /** Yes without a deposit: CONFIRMED now; the session is IDLE with the request cleared and no handoff due. */
  lemma ConfirmWithoutDeposit(v: SessionView, b: Booking, intent: string, data: Extracted, text: string, cfg: Config,
                              now: int, fallback: string -> Option<Day>)
    requires data.Parsed? && IsHhMm(b.time)
    requires !WantsToModify(intent, text) && Confirms(intent, text)
    requires ComputeDeposit(b.service, b.date, b.time) == 0
    ensures var c := ChoiceOf(b, intent, data, text, cfg, now, fallback);
            var m := ChoiceSession(v, c, now);
            ChoiceRow(b, c, now) == b.(status := Confirmed, confirmedAt := Some(now))
            && m.state == Idle && m.pendingService == "" && m.pendingDate.None? && m.pendingTime == ""
            && m.lastQuestion.None? && !ShouldHandoff(m)
  {
    ResetFailuresNoHandoff(ClosedSession(v, now));
  }

  /** A no cancels the booking and closes the request; anything else changes nothing. */
  lemma DeclineOrWait(v: SessionView, b: Booking, intent: string, data: Extracted, text: string, cfg: Config,
                      now: int, fallback: string -> Option<Day>)
    requires data.Parsed? && IsHhMm(b.time)
    requires !WantsToModify(intent, text) && !Confirms(intent, text)
    ensures var c := ChoiceOf(b, intent, data, text, cfg, now, fallback);
            (Declines(intent, text) ==> ChoiceRow(b, c, now) == b.(status := Cancelled) && ChoiceSession(v, c, now).state == Idle)
            && (!Declines(intent, text) ==> ChoiceRow(b, c, now) == b && ChoiceSession(v, c, now) == v
                                            && ChoiceReply(v, b, c, now) == Some(Say("awaiting_confirmation", AwaitReply)))
  {
  }

  /** No branch creates a PENDING booking: every PENDING row afterwards was PENDING before. */
  lemma NoNewPending(rows: seq<Booking>, i: nat, c: Choice, now: int)
    requires i < |rows|
    ensures forall j :: 0 <= j < |rows| && ChoiceRows(rows, i, c, now)[j].status == Pending ==> rows[j].status == Pending
  {
  }

  /**
   * The engine's other yes-words ("y", "yeah", "yep", "okay", "please",
   * "do it") confirm nothing here: unless the intent asks for a change, a yes
   * or a no, the booking keeps waiting.
   */
  lemma YepDoesNotConfirm(b: Booking, intent: string, data: Extracted, text: string, cfg: Config, now: int,
                          fallback: string -> Option<Day>)
    requires data.Parsed? && IsHhMm(b.time)
    requires intent != "booking_modify" && intent != "booking_confirm" && intent != "booking_cancel"
    requires Lower(text) in YesWords - ConfirmWords
    ensures ChoiceOf(b, intent, data, text, cfg, now, fallback) == Await
  {
    NoModifyKeyword(Lower(text));
  }

  /** None of the change keywords occurs in a yes-word that CONFIRMING does not know. */
  lemma NoModifyKeyword(t: string)
    requires t in YesWords - ConfirmWords
    ensures !ContainsAny(t, ModifyKeywords)
  {
    assert t == "y" || t == "yeah" || t == "yep" || t == "okay" || t == "please" || t == "do it";
    assert 'c' !in t && 'u' !in t && 'x' !in t && 'm' !in t && 'w' !in t && 'n' !in t;
    assert |t| < 5 || 'y' !in t;
    forall k | 0 <= k < |ModifyKeywords| ensures !Contains(t, ModifyKeywords[k]) {
      var w := ModifyKeywords[k];
      var c := if k == 0 || k == 2 then 'c' else if k == 1 then 'n' else if k == 3 then 'm' else if k == 4 then 'u'
               else if k == 5 then 'w' else if k == 6 then 'y' else 'x';
      if |w| <= |t| {
        MissingCharNotContained(t, w, c);
      }
    }
  }
}
