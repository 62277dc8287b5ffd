/**
 * The COLLECTING state: gather service, date and time, validate the slot,
 * check availability and create the PENDING booking.
 *
 * `StepOf` picks the way a turn goes, and `NextSession`, `NextRows` and
 * `NextReply` give its outcome; `HandleCollecting` performs it on the session
 * object and the table and is proved equal to them.
 */
module Collecting {
  import opened Wrappers
  import opened Text
  import opened Clock
  import opened TimeUtils
  import opened DateUtils
  import opened Extraction
  import opened Records
  import opened Store
  import opened BusinessRules
  import opened BookingService
  import opened Lifecycle

  // ---------------------------------------------------------------------
  // Merging what this turn extracted
  // ---------------------------------------------------------------------

  /** The date this turn yields: from the model's date or the user's words, in the business's local calendar. */
  function TurnDate(data: Extracted, text: string, cfg: Config, now: int, fallback: string -> Option<Day>): Option<Day>
    requires data.Parsed?
  {
    SafeExtractDate(data.date, text, TodayLocal(cfg, now), fallback)
  }

  /** The time this turn yields, already normalised. */
  function TurnTime(data: Extracted, text: string): (r: Option<string>)
    requires data.Parsed?
    ensures r.Some? ==> TimeText(r.value)
  {
    SafeExtractTime(data.time, text)
  }

  /** Something was provided this turn: a service, a date or a time. */
  predicate Provided(data: Extracted, d: Option<Day>, t: Option<string>)
    requires data.Parsed?
  {
    data.service != "" || d.Some? || t.Some?
  }

  /**
   * The session after the merge: every value this turn provides overwrites
   * the pending one, the others stay; the counters are reset when anything
   * was provided.
   */
  function Merged(v: SessionView, data: Extracted, d: Option<Day>, t: Option<string>, now: int): (m: SessionView)
    requires data.Parsed?
    ensures m.pendingService == (if data.service != "" then data.service else v.pendingService)
    ensures m.pendingDate == (if d.Some? then d else v.pendingDate)
    ensures m.pendingTime == (if t.Some? then t.value else v.pendingTime)
    ensures m.updatedAt == Some(now)
    ensures Provided(data, d, t) ==> m.failCount == SetInt(0) && m.handoffOffered == SetInt(0)
    ensures !Provided(data, d, t) ==> m.failCount == v.failCount && m.handoffOffered == v.handoffOffered
  {
    var provided := Provided(data, d, t);
    v.(pendingService := if data.service != "" then data.service else v.pendingService,
       pendingDate := if d.Some? then d else v.pendingDate,
       pendingTime := if t.Some? then t.value else v.pendingTime,
       updatedAt := Some(now),
       failCount := if provided then SetInt(0) else v.failCount,
       handoffOffered := if provided then SetInt(0) else v.handoffOffered)
  }

  /** The merge changes nothing but the three pending fields, the timestamp and the two counters. */
  lemma MergedKeepsRest(v: SessionView, data: Extracted, d: Option<Day>, t: Option<string>, now: int)
    requires data.Parsed?
    ensures var m := Merged(v, data, d, t, now);
            m.(pendingService := v.pendingService, pendingDate := v.pendingDate, pendingTime := v.pendingTime,
               updatedAt := v.updatedAt, failCount := v.failCount, handoffOffered := v.handoffOffered) == v
  {
  }

  /** The merge keeps the session invariant: a merged time comes from the normaliser. */
  lemma MergedValid(v: SessionView, data: Extracted, d: Option<Day>, t: Option<string>, now: int)
    requires data.Parsed? && ViewValid(v)
    requires t.Some? ==> TimeText(t.value)
    ensures ViewValid(Merged(v, data, d, t, now))
  {
  }

  // ---------------------------------------------------------------------
  // Replies
  // ---------------------------------------------------------------------

  const CollectHandoffReply := "Sorry — I’m having trouble booking that 😅 Please call +1-XXX-XXX-XXXX 📞 and we’ll book it for you."

  /** The anchor for suggestions after a rejected time: near closing. */
  const InvalidTimeAnchor := "19:00"

  /** The suggestion count the handlers ask for. */
  const SuggestionCount := 5

  /** The booking reference: "SALON-" and the first 8 characters of a fresh uuid text `token`, upper-cased. */
  function NewBookingId(token: string): (id: string)
    requires |token| >= 8
    ensures |id| == 14 && id[..6] == "SALON-" && id[6..] == Upper(token[..8])
  {
    "SALON-" + Upper(token[..8])
  }

  // ---------------------------------------------------------------------
  // Cancelling earlier PENDING bookings, adding the new one
  // ---------------------------------------------------------------------

  /** The rows after every PENDING booking of `phone` became CANCELLED. */
  function CancelPending(rows: seq<Booking>, phone: string): (r: seq<Booking>)
    ensures |r| == |rows|
    ensures forall i :: 0 <= i < |rows| ==>
      r[i] == (if rows[i].phone == phone && rows[i].status == Pending then rows[i].(status := Cancelled) else rows[i])
  {
    seq(|rows|, i requires 0 <= i < |rows| =>
      if rows[i].phone == phone && rows[i].status == Pending then rows[i].(status := Cancelled) else rows[i])
  }

  /** The loop over the caller's PENDING bookings, cancelling each. */
  method CancelOldPending(table: BookingTable, phone: string)
    modifies table
    ensures table.rows == CancelPending(old(table.rows), phone)
  {
    var i := 0;
    ghost var original := table.rows;
    while i < |table.rows|
      invariant |table.rows| == |original| && 0 <= i <= |original|
      invariant forall k :: 0 <= k < i ==> table.rows[k] == CancelPending(original, phone)[k]
      invariant forall k :: i <= k < |original| ==> table.rows[k] == original[k]
    {
      var b := table.rows[i];
      if b.phone == phone && b.status == Pending {
        table.rows := table.rows[i := b.(status := Cancelled)];
      }
      i := i + 1;
    }
  }

  /** Cancelling keeps ids and times, so it keeps the table invariant, and leaves no PENDING booking of `phone`. */
  lemma CancelPendingFacts(rows: seq<Booking>, phone: string)
    requires RowsValid(rows)
    ensures RowsValid(CancelPending(rows, phone))
    ensures forall i :: 0 <= i < |rows| ==> !(CancelPending(rows, phone)[i].phone == phone && CancelPending(rows, phone)[i].status == Pending)
  {
    var r := CancelPending(rows, phone);
    assert forall i :: 0 <= i < |rows| ==> r[i].id == rows[i].id && r[i].time == rows[i].time;
  }

  /** An id already in the table: the insert fails and is rolled back. */
  predicate IdTaken(rows: seq<Booking>, id: string) {
    exists i :: 0 <= i < |rows| && rows[i].id == id
  }

  /** The rows after a successful request: earlier PENDING bookings cancelled, then the new one added unless its id exists. */
  function CreatedRows(rows: seq<Booking>, b: Booking): seq<Booking> {
    var c := CancelPending(rows, b.phone);
    if IdTaken(c, b.id) then c else c + [b]
  }

  /** The table invariant survives the creation when the new time is a valid "HH:MM". */
  lemma CreatedValid(rows: seq<Booking>, b: Booking)
    requires RowsValid(rows) && IsHhMm(b.time)
    ensures RowsValid(CreatedRows(rows, b))
  {
    CancelPendingFacts(rows, b.phone);
    var c := CancelPending(rows, b.phone);
    if !IdTaken(c, b.id) {
      AppendKeepsValid(c, b);
    }
  }

  // ---------------------------------------------------------------------
  // The turn, as a function of the session and the table
  // ---------------------------------------------------------------------

  function Questions(f: Field): (qs: seq<string>)
    ensures |qs| > 0
  {
    match f
    case ServiceField => ServiceQuestions
    case DateField => DateQuestions
    case TimeField => TimeQuestions
  }

  /** "19:00" is a valid clock text. */
  lemma AnchorIsClock()
    ensures IsHhMm(InvalidTimeAnchor)
  {
    var x := InvalidTimeAnchor;
    var a := x[..2];
    var b := x[3..];
    assert a == ['1', '9'] && b == ['0', '0'];
    DigitsValue2(a);
    DigitsValue2(b);
  }

  /** ... so it parses. */
  lemma AnchorParses()
    ensures ParseTime(InvalidTimeAnchor).Some?
  {
    AnchorIsClock();
    ParseHhMm(InvalidTimeAnchor);
  }

  /** The search behind the suggestions after a rejected time, anchored at 19:00. */
  function AnchorSearch(rows: seq<Booking>, cfg: Config, date: Day): Search
    requires ValidConfig(cfg)
  {
    AnchorParses();
    SearchFor(rows, cfg, date, InvalidTimeAnchor)
  }

  /** Which way a COLLECTING turn goes once the merge is done. */
  datatype Step =
    | Asking(field: Field, question: string)     // a field is missing
    | Rejected(slot: Field, reason: Refusal)     // validation failed
    | Taken(search: Search)                      // the slot is booked already
    | Created(booking: Booking)                  // the PENDING booking is written

  /** The new PENDING booking for merged session `m`, owned by its phone number. */
  function Requested(m: SessionView, now: int, token: string): (b: Booking)
    requires |token| >= 8 && m.pendingDate.Some?
    ensures b.status == Pending && b.phone == m.sessionId && b.date == m.pendingDate.value && b.time == m.pendingTime
  {
    NewPending(NewBookingId(token), m.sessionId, m.pendingService, m.pendingDate.value, m.pendingTime, now)
  }

  /** All three fields present: validate, check availability, create. */
  function BookStep(m: SessionView, rows: seq<Booking>, cfg: Config, now: int, token: string): (step: Step)
    requires ValidConfig(cfg) && |token| >= 8 && m.pendingDate.Some?
    ensures !step.Asking?
  {
    var val := ValidateBooking(m.pendingDate, m.pendingTime, cfg, TodayUtc(now));
    if val.Invalid? then Rejected(val.slot, val.reason)
    else if IsSlotTaken(rows, m.pendingDate.value, m.pendingTime) then
      Taken(SearchFor(rows, cfg, m.pendingDate.value, m.pendingTime))
    else Created(Requested(m, now, token))
  }

  /** The branch of the turn for merged session `m`: the first missing field in the order service, date, time, else the booking step. */
  function StepOf(m: SessionView, rows: seq<Booking>, cfg: Config, now: int, pick: nat, token: string): Step
    requires ValidConfig(cfg) && |token| >= 8
  {
    if m.pendingService == "" then Asking(ServiceField, Choose(Questions(ServiceField), pick))
    else if m.pendingDate.None? then Asking(DateField, Choose(Questions(DateField), pick))
    else if m.pendingTime == "" then Asking(TimeField, Choose(Questions(TimeField), pick))
    else BookStep(m, rows, cfg, now, token)
  }

  /** The session after a failed validation, with the failure count one higher. */
  function Failed(m: SessionView, now: int): SessionView {
    m.(failCount := SetInt(GetInt(m.failCount, 0) + 1), updatedAt := Some(now))
  }

  /** The field a validation failure clears. */
  function ClearSlot(v: SessionView, slot: Field): SessionView {
    if slot == TimeField then v.(pendingTime := "") else if slot == DateField then v.(pendingDate := None) else v
  }

  /** After a rejected slot: reset at the handoff threshold, otherwise the named field cleared. */
  function RejectedSession(m: SessionView, now: int, slot: Field): SessionView {
    var f := Failed(m, now);
    if ShouldHandoff(f) then ResetView(f.(handoffOffered := SetInt(1)), now) else ClearSlot(f, slot)
  }

  /** The session after the turn. */
  function NextSession(m: SessionView, step: Step, now: int): SessionView {
    match step
    case Asking(f, _) => m.(lastQuestion := Some(f))
    case Rejected(slot, _) => RejectedSession(m, now, slot)
    case Taken(_) => m.(pendingTime := "", updatedAt := Some(now))
    case Created(_) => m.(state := Confirming, lastQuestion := None, updatedAt := Some(now))
  }

  /** The table after the turn: only a created booking changes it. */
  function NextRows(rows: seq<Booking>, step: Step): seq<Booking> {
    if step.Created? then CreatedRows(rows, step.booking) else rows
  }

  /** The reply of the turn. */
  function NextReply(m: SessionView, rows: seq<Booking>, step: Step, cfg: Config, now: int): Reply
    requires ValidConfig(cfg)
  {
    match step
    case Asking(_, question) => Say("booking_in_progress", question)
    case Rejected(slot, reason) => RejectedReply(m, rows, slot, reason, cfg, now)
    case Taken(search) => TakenReply(search)
    case Created(b) => CreatedReply(b)
  }

  /** The reply to a rejected slot: the handoff at the threshold, else the validator's message. */
  function RejectedReply(m: SessionView, rows: seq<Booking>, slot: Field, reason: Refusal, cfg: Config, now: int): Reply
    requires ValidConfig(cfg)
  {
    if ShouldHandoff(Failed(m, now)) then Say("handoff", CollectHandoffReply)
    else InvalidReply(m.pendingDate, rows, slot, reason, cfg)
  }

  /** The validator's message, with suggestions around 19:00 after a rejected time of a known date. */
  function InvalidReply(date: Option<Day>, rows: seq<Booking>, slot: Field, reason: Refusal, cfg: Config): Reply
    requires ValidConfig(cfg)
  {
    if slot == TimeField && date.Some? then
      var search := AnchorSearch(rows, cfg, date.value);
      Reply("booking_invalid", Some(InvalidTime(reason, SameDaySlots(search, SuggestionCount), NextDaySlots(search, SuggestionCount))))
    else Reply("booking_invalid", Some(Refused(reason)))
  }

  /** The reply to a taken slot: the suggestions. */
  function TakenReply(search: Search): Reply {
    Reply("booking_unavailable", Some(Unavailable(SameDaySlots(search, SuggestionCount), NextDaySlots(search, SuggestionCount))))
  }

  /** The reply to a created booking: the request to confirm it. */
  function CreatedReply(b: Booking): Reply {
    Reply("booking_pending", Some(ConfirmPrompt(b.service, b.date, b.time)))
  }

  // ---------------------------------------------------------------------
  // The handler
  // ---------------------------------------------------------------------

  /**
   * `handle_collecting_state` for the session `s` of phone number
   * `s.sessionId`. Validation uses the UTC date; dates in the user's words
   * resolve in the business's local calendar.
   */
  method HandleCollecting(s: Session, table: BookingTable, data: Extracted, text: string, cfg: Config,
                          now: int, pick: nat, token: string, fallback: string -> Option<Day>)
    returns (r: Option<Reply>)
    requires data.Parsed? && ValidConfig(cfg) && |token| >= 8
    requires s.Valid() && table.Valid()
    modifies s, table
    ensures s.Valid() && table.Valid()
    ensures old(s.state) != Collecting ==> r.None? && s.View() == old(s.View()) && table.rows == old(table.rows)
    ensures old(s.state) == Collecting ==>
      var m := Merged(old(s.View()), data, TurnDate(data, text, cfg, now, fallback), TurnTime(data, text), now);
      var step := StepOf(m, old(table.rows), cfg, now, pick, token);
      s.View() == NextSession(m, step, now) && table.rows == NextRows(old(table.rows), step)
      && r == Some(NextReply(m, old(table.rows), step, cfg, now))
  {
    if s.state != Collecting {
      return None;
    }
    var extractedDate := TurnDate(data, text, cfg, now, fallback);
    var extractedTime := TurnTime(data, text);
    MergedValid(s.View(), data, extractedDate, extractedTime, now);
    MergeTurn(s, data, extractedDate, extractedTime, now);
    r := Proceed(s, table, cfg, now, pick, token);
  }

  /** After the merge: ask for the first missing field, or validate and book. */
  method Proceed(s: Session, table: BookingTable, cfg: Config, now: int, pick: nat, token: string)
    returns (r: Option<Reply>)
    requires ValidConfig(cfg) && |token| >= 8
    requires s.Valid() && table.Valid()
    modifies s, table
    ensures s.Valid() && table.Valid()
    ensures var step := StepOf(old(s.View()), old(table.rows), cfg, now, pick, token);
            s.View() == NextSession(old(s.View()), step, now) && table.rows == NextRows(old(table.rows), step)
            && r == Some(NextReply(old(s.View()), old(table.rows), step, cfg, now))
  {
    ghost var m := s.View();
    ghost var step := StepOf(m, table.rows, cfg, now, pick, token);
    StepKeepsValid(m, table.rows, cfg, now, pick, token);
    if s.pendingService == "" {
      assert step == Asking(ServiceField, Choose(Questions(ServiceField), pick));
      r := AskFor(s, ServiceField, pick);
    } else if s.pendingDate.None? {
      assert step == Asking(DateField, Choose(Questions(DateField), pick));
      r := AskFor(s, DateField, pick);
    } else if s.pendingTime == "" {
      assert step == Asking(TimeField, Choose(Questions(TimeField), pick));
      r := AskFor(s, TimeField, pick);
    } else {
      assert step == BookStep(m, table.rows, cfg, now, token);
      r := ValidateAndBook(s, table, cfg, now, token);
    }
  }

  /** Take over what this turn provides. */
  method MergeTurn(s: Session, data: Extracted, d: Option<Day>, t: Option<string>, now: int)
    requires data.Parsed?
    modifies s
    ensures s.View() == Merged(old(s.View()), data, d, t, now)
  {
    var m := Merged(s.View(), data, d, t, now);
    s.pendingService, s.pendingDate, s.pendingTime, s.updatedAt, s.failCount, s.handoffOffered
      := m.pendingService, m.pendingDate, m.pendingTime, m.updatedAt, m.failCount, m.handoffOffered;
    assert s.View() == old(s.View()).(pendingService := m.pendingService, pendingDate := m.pendingDate,
                                      pendingTime := m.pendingTime, updatedAt := m.updatedAt,
                                      failCount := m.failCount, handoffOffered := m.handoffOffered);
  }

  /** Ask for the field `f`. */
  method AskFor(s: Session, f: Field, pick: nat) returns (r: Option<Reply>)
    modifies s
    ensures s.View() == old(s.View()).(lastQuestion := Some(f))
    ensures r == Some(Say("booking_in_progress", Choose(Questions(f), pick)))
  {
    s.lastQuestion := Some(f);
    return Some(Say("booking_in_progress", Choose(Questions(f), pick)));
  }

  /** The part of the handler after all three fields are present. */
  method ValidateAndBook(s: Session, table: BookingTable, cfg: Config, now: int, token: string)
    returns (r: Option<Reply>)
    requires ValidConfig(cfg) && |token| >= 8
    requires s.Valid() && table.Valid()
    requires s.pendingService != "" && s.pendingDate.Some? && s.pendingTime != ""
    modifies s, table
    ensures var step := BookStep(old(s.View()), old(table.rows), cfg, now, token);
            s.View() == NextSession(old(s.View()), step, now) && table.rows == NextRows(old(table.rows), step)
            && r == Some(NextReply(old(s.View()), old(table.rows), step, cfg, now))
  {
    ghost var step := BookStep(s.View(), table.rows, cfg, now, token);
    var val := ValidateBooking(s.pendingDate, s.pendingTime, cfg, TodayUtc(now));
    if val.Invalid? {
      assert step == Rejected(val.slot, val.reason);
      r := RejectSlot(s, table, cfg, now, val.slot, val.reason);
      return;
    }
    ParsedTimeTextIsHhMm(s.pendingTime);
    if IsSlotTaken(table.rows, s.pendingDate.value, s.pendingTime) {
      assert step == Taken(SearchFor(table.rows, cfg, s.pendingDate.value, s.pendingTime));
      r := OfferAlternatives(s, table, cfg, now);
    } else {
      assert step == Created(Requested(s.View(), now, token));
      r := CreatePendingBooking(s, table, cfg, now, token);
    }
  }

  /** The slot was rejected. */
  method RejectSlot(s: Session, table: BookingTable, cfg: Config, now: int, slot: Field, reason: Refusal)
    returns (r: Option<Reply>)
    requires ValidConfig(cfg)
    modifies s
    ensures s.View() == RejectedSession(old(s.View()), now, slot)
    ensures r == Some(RejectedReply(old(s.View()), table.rows, slot, reason, cfg, now))
  {
    ghost var m := s.View();
    IncrementFailure(s, now);
    assert s.View() == Failed(m, now);
    if ShouldHandoff(s.View()) {
      OfferHandoff(s, now);
      ResetSession(s, now);
      return Some(Say("handoff", CollectHandoffReply));
    }
    r := ExplainRejection(s, table, cfg, slot, reason);
  }

  /** Below the threshold: forget the rejected field and say why, with suggestions after a rejected time. */
  method ExplainRejection(s: Session, table: BookingTable, cfg: Config, slot: Field, reason: Refusal)
    returns (r: Option<Reply>)
    requires ValidConfig(cfg)
    modifies s
    ensures s.View() == ClearSlot(old(s.View()), slot)
    ensures r == Some(InvalidReply(old(s.pendingDate), table.rows, slot, reason, cfg))
  {
    ClearField(s, slot);
    if slot == TimeField && s.pendingDate.Some? {
      AnchorParses();
      var sameDay, nextDay := SuggestSlotsAround(table.rows, cfg, s.pendingDate.value, InvalidTimeAnchor, SuggestionCount);
      return Some(Reply("booking_invalid", Some(InvalidTime(reason, sameDay, nextDay))));
    }
    return Some(Reply("booking_invalid", Some(Refused(reason))));
  }

  /** Forget the rejected field. */
  method ClearField(s: Session, slot: Field)
    modifies s
    ensures s.View() == ClearSlot(old(s.View()), slot)
  {
    if slot == TimeField {
      s.pendingTime := "";
    } else if slot == DateField {
      s.pendingDate := None;
    }
  }

  /** The requested slot is taken: suggest others and forget the time. */
  method OfferAlternatives(s: Session, table: BookingTable, cfg: Config, now: int) returns (r: Option<Reply>)
    requires ValidConfig(cfg) && s.pendingDate.Some? && ParseTime(s.pendingTime).Some?
    modifies s
    ensures r == Some(TakenReply(SearchFor(table.rows, cfg, old(s.pendingDate).value, old(s.pendingTime))))
    ensures s.View() == old(s.View()).(pendingTime := "", updatedAt := Some(now))
  {
    var sameDay, nextDay := SuggestSlotsAround(table.rows, cfg, s.pendingDate.value, s.pendingTime, SuggestionCount);
    s.pendingTime := "";
    s.updatedAt := Some(now);
    return Some(Reply("booking_unavailable", Some(Unavailable(sameDay, nextDay))));
  }

  /** The slot is free: cancel earlier PENDING bookings, add the new one, ask for confirmation. */
  method CreatePendingBooking(s: Session, table: BookingTable, cfg: Config, now: int, token: string)
    returns (r: Option<Reply>)
    requires ValidConfig(cfg) && |token| >= 8 && s.Valid() && table.Valid() && s.pendingDate.Some? && IsHhMm(s.pendingTime)
    modifies s, table
    ensures var b := Requested(old(s.View()), now, token);
            r == Some(CreatedReply(b)) && table.rows == CreatedRows(old(table.rows), b)
            && s.View() == old(s.View()).(state := Confirming, lastQuestion := None, updatedAt := Some(now))
  {
    var booking := Requested(s.View(), now, token);
    CreatedValid(table.rows, booking);
    AddPending(table, booking);
    AwaitConfirmation(s, now);
    return Some(Reply("booking_pending", Some(ConfirmPrompt(booking.service, booking.date, booking.time))));
  }

  /** Cancel the caller's PENDING bookings, then insert `b` unless its id exists. */
  method AddPending(table: BookingTable, b: Booking)
    modifies table
    ensures table.rows == CreatedRows(old(table.rows), b)
  {
    CancelOldPending(table, b.phone);
    if !IdTaken(table.rows, b.id) {
      table.rows := table.rows + [b];
    }
  }

  /** The session waits for the confirmation of its new booking. */
  method AwaitConfirmation(s: Session, now: int)
    modifies s
    ensures s.View() == old(s.View()).(state := Confirming, lastQuestion := None, updatedAt := Some(now))
  {
    s.state := Confirming;
    s.lastQuestion := None;
    s.updatedAt := Some(now);
  }

  // ---------------------------------------------------------------------
  // Properties of the turn
  // ---------------------------------------------------------------------

  /** The first missing field is asked for, in the order service, date, time; nothing is booked and the state stays. */
  lemma AsksFirstMissing(m: SessionView, rows: seq<Booking>, cfg: Config, now: int, pick: nat, token: string)
    requires ValidConfig(cfg) && |token| >= 8
    ensures var step := StepOf(m, rows, cfg, now, pick, token);
            (m.pendingService == "" ==> step.Asking? && step.field == ServiceField)
            && (m.pendingService != "" && m.pendingDate.None? ==> step.Asking? && step.field == DateField)
            && (m.pendingService != "" && m.pendingDate.Some? && m.pendingTime == "" ==> step.Asking? && step.field == TimeField)
            && (step.Asking? <==> (m.pendingService == "" || m.pendingDate.None? || m.pendingTime == ""))
            && (step.Asking? ==>
                  step.question in Questions(step.field)
                  && NextRows(rows, step) == rows && NextSession(m, step, now).state == m.state)
  {
  }

  /**
   * A booking is written only when all three fields are there, the slot
   * passes validation and is free; the session then waits for the
   * confirmation.
   */
  lemma BooksOnlyFreeValidSlots(m: SessionView, rows: seq<Booking>, cfg: Config, now: int, pick: nat, token: string)
    requires ValidConfig(cfg) && |token| >= 8
    ensures var step := StepOf(m, rows, cfg, now, pick, token);
            NextRows(rows, step) != rows ==>
              step.Created? && m.pendingService != "" && m.pendingDate.Some? && m.pendingTime != ""
              && Acceptable(m.pendingDate, m.pendingTime, cfg, TodayUtc(now))
              && !IsSlotTaken(rows, m.pendingDate.value, m.pendingTime)
              && step.booking == Requested(m, now, token)
              && NextSession(m, step, now).state == Confirming && NextSession(m, step, now).lastQuestion.None?
  {
  }

  /** A taken slot forgets only the requested time and searches around it. */
  lemma TakenForgetsTime(m: SessionView, rows: seq<Booking>, cfg: Config, now: int, pick: nat, token: string)
    requires ValidConfig(cfg) && |token| >= 8
    requires StepOf(m, rows, cfg, now, pick, token).Taken?
    ensures m.pendingDate.Some? && IsSlotTaken(rows, m.pendingDate.value, m.pendingTime)
    ensures StepOf(m, rows, cfg, now, pick, token).search == SearchFor(rows, cfg, m.pendingDate.value, m.pendingTime)
    ensures NextSession(m, StepOf(m, rows, cfg, now, pick, token), now) == m.(pendingTime := "", updatedAt := Some(now))
  {
  }

  /** After a created booking the caller has exactly one PENDING booking, the new one at the end (or none, if the id existed). */
  lemma AtMostOnePending(rows: seq<Booking>, b: Booking)
    requires b.status == Pending
    ensures forall i :: (0 <= i < |CreatedRows(rows, b)| && CreatedRows(rows, b)[i].phone == b.phone
                         && CreatedRows(rows, b)[i].status == Pending) ==> i == |rows| && CreatedRows(rows, b)[i] == b
  {
    var c := CancelPending(rows, b.phone);
    forall i | 0 <= i < |rows|
      ensures !(CreatedRows(rows, b)[i].phone == b.phone && CreatedRows(rows, b)[i].status == Pending)
    {
      assert CreatedRows(rows, b)[i] == c[i];
    }
  }

  /** The turn keeps both invariants: the session's time shapes and the table's unique ids and valid times. */
  lemma StepKeepsValid(m: SessionView, rows: seq<Booking>, cfg: Config, now: int, pick: nat, token: string)
    requires ValidConfig(cfg) && |token| >= 8
    requires ViewValid(m) && RowsValid(rows)
    ensures ViewValid(NextSession(m, StepOf(m, rows, cfg, now, pick, token), now))
    ensures RowsValid(NextRows(rows, StepOf(m, rows, cfg, now, pick, token)))
  {
    var step := StepOf(m, rows, cfg, now, pick, token);
    SessionStepValid(m, step, now);
    if step.Created? {
      ParsedTimeTextIsHhMm(m.pendingTime);
    }
    RowsStepValid(rows, step);
  }

  /** Whichever way the turn goes, the session invariant is kept. */
  lemma SessionStepValid(m: SessionView, step: Step, now: int)
    requires ViewValid(m)
    ensures ViewValid(NextSession(m, step, now))
  {
    if step.Rejected? {
      RejectedValid(m, now, step.slot);
    }
  }

  /** Only a created booking changes the table; with a valid time it keeps the table invariant. */
  lemma RowsStepValid(rows: seq<Booking>, step: Step)
    requires RowsValid(rows)
    requires step.Created? ==> IsHhMm(step.booking.time)
    ensures RowsValid(NextRows(rows, step))
  {
    if step.Created? {
      CreatedValid(rows, step.booking);
    }
  }

  /** A rejected slot keeps the session invariant, through the reset too. */
  lemma RejectedValid(m: SessionView, now: int, slot: Field)
    requires ViewValid(m)
    ensures ViewValid(RejectedSession(m, now, slot))
  {
    ResetValid(Failed(m, now).(handoffOffered := SetInt(1)), now);
  }

  /**
   * Below the threshold a rejected slot raises the failure count by one
   * and clears only the field it names (the time or the date).
   */
  lemma RejectCountsFailure(m: SessionView, now: int, slot: Field)
    requires !ShouldHandoff(Failed(m, now))
    ensures GetInt(RejectedSession(m, now, slot).failCount, 0) == GetInt(m.failCount, 0) + 1
    ensures slot == TimeField ==> RejectedSession(m, now, slot)
                                  == m.(failCount := Failed(m, now).failCount, updatedAt := Some(now), pendingTime := "")
    ensures slot == DateField ==> RejectedSession(m, now, slot)
                                  == m.(failCount := Failed(m, now).failCount, updatedAt := Some(now), pendingDate := None)
  {
    SetThenGet(GetInt(m.failCount, 0) + 1, 0);
  }

  /**
   * The handoff in this state resets the session, and the reset writes
   * `handoff_offered` as false while keeping the raised `fail_count`: the
   * next rejected slot hands off again.
   */
  lemma HandoffRepeats(m: SessionView, now: int, later: int, slot: Field)
    requires ShouldHandoff(Failed(m, now))
    ensures RejectedSession(m, now, slot).state == Idle
    ensures ShouldHandoff(Failed(RejectedSession(m, now, slot), later))
  {
    var n := GetInt(m.failCount, 0) + 1;
    SetThenGet(n, 0);
    SetThenGet(n + 1, 0);
  }

  /** Nothing provided this turn: the pending fields and the counters stay as they were. */
  lemma NothingProvidedKeeps(v: SessionView, data: Extracted, now: int)
    requires data.Parsed? && data.service == ""
    ensures Merged(v, data, None, None, now) == v.(updatedAt := Some(now))
  {
  }
}
