/**
 * Moving a confirmed appointment. In RESCHEDULE_COLLECTING the user's
 * date and time patch a proposal (`rescheduleNewDate`, `rescheduleNewTime`,
 * started from the booking's own slot); a valid free proposal that differs
 * from the booking moves to RESCHEDULE_CONFIRM, where a yes moves the
 * booking.
 */
module Rescheduling {
  import opened Wrappers
  import opened Text
  import opened Clock
  import opened Records
  import opened Store
  import opened BusinessRules
  import opened BookingService
  import opened Lifecycle
  import opened Collecting

  const GoneReply := "I couldn’t find that appointment anymore. Please try again."
  const AskChangeReply := "What would you like to change — date, time, or both?"
  const RescheduleHandoffReply := "Sorry — I’m having trouble rescheduling 😅 Please call +1-XXX-XXX-XXXX 📞 and we’ll help you."
  const SameSlotReply := "You're already booked for that same slot 🙂 Would you like to keep it as is?"
  const MissingReply := "I couldn’t find that appointment anymore."
  const UnchangedReply := "No problem — I didn’t make any changes."
  const AskYesNoReply := "Please reply YES to confirm the reschedule or NO to cancel."

  // ---------------------------------------------------------------------
  // RESCHEDULE_COLLECTING
  // ---------------------------------------------------------------------

  /** Which way a RESCHEDULE_COLLECTING turn goes. */
  datatype ProposalStep =
    | TargetGone                                     // the booking is no longer CONFIRMED
    | NothingNew                                     // no date and no time this turn
    | BadProposal(reason: Refusal)                   // the patched proposal fails validation
    | SlotBooked(search: Search)                     // its slot is held by some booking
    | SameSlot                                       // it is the booking's own slot
    | Proposal(date: Option<Day>, time: Option<string>)  // the changes to confirm

  /** The proposal patched with this turn's date and time. */
  function Proposed(v: SessionView, d: Option<Day>, t: Option<string>, now: int): SessionView {
    v.(rescheduleNewDate := if d.Some? then d else v.rescheduleNewDate,
       rescheduleNewTime := if t.Some? then t.value else v.rescheduleNewTime,
       updatedAt := Some(now))
  }

  /** The booking under reschedule: this phone number's CONFIRMED booking with the target id. */
  function Target(rows: seq<Booking>, v: SessionView): Option<nat> {
    FindConfirmed(rows, v.sessionId, v.rescheduleTargetId)
  }

  function ProposalStepOf(v: SessionView, rows: seq<Booking>, d: Option<Day>, t: Option<string>, cfg: Config, now: int)
    : ProposalStep
    requires ValidConfig(cfg)
  {
    match Target(rows, v)
    case None => TargetGone
    case Some(i) => if d.None? && t.None? then NothingNew else Judge(Proposed(v, d, t, now), rows[i], rows, cfg, now)
  }

  /** The patched proposal `m` for booking `b`: validation first, then the slot. */
  function Judge(m: SessionView, b: Booking, rows: seq<Booking>, cfg: Config, now: int): (step: ProposalStep)
    requires ValidConfig(cfg)
    ensures !step.TargetGone? && !step.NothingNew?
  {
    var val := ValidateBooking(m.rescheduleNewDate, m.rescheduleNewTime, cfg, TodayUtc(now));
    if val.Invalid? then BadProposal(val.reason) else Placed(m.rescheduleNewDate.value, m.rescheduleNewTime, b, rows, cfg)
  }

  /** A valid proposed slot: taken, the booking's own, or a change to put to the user. */
  function Placed(date: Day, time: string, b: Booking, rows: seq<Booking>, cfg: Config): (step: ProposalStep)
    requires SearchConfig(cfg, time)
    ensures step.SlotBooked? || step.SameSlot? || step.Proposal?
  {
    if IsSlotTaken(rows, date, time) then SlotBooked(SearchFor(rows, cfg, date, time))
    else if b.date == date && b.time == time then SameSlot
    else Proposal(if b.date != date then Some(date) else None, if b.time != time then Some(time) else None)
  }

  /** After a refused proposal: reset at the handoff threshold, otherwise the proposal is kept as it is. */
  function RefusedSession(m: SessionView, now: int): SessionView {
    var f := Failed(m, now);
    if ShouldHandoff(f) then ResetView(f.(handoffOffered := SetInt(1)), now) else f
  }

  function ProposalSession(v: SessionView, step: ProposalStep, d: Option<Day>, t: Option<string>, now: int): SessionView {
    match step
    case TargetGone => ResetView(v, now)
    case NothingNew => v
    case _ => JudgedSession(Proposed(v, d, t, now), step, now)
  }

  /**
   * The stored session after the patched proposal `m` is judged. A proposal
   * put to the user keeps the failure counters: the original resets them
   * after its last commit and the request ends without another, so the
   * reset is never stored.
   */
  function JudgedSession(m: SessionView, step: ProposalStep, now: int): SessionView {
    match step
    case BadProposal(_) => RefusedSession(m, now)
    case Proposal(_, _) => m.(state := RescheduleConfirm)
    case _ => m
  }

  function ProposalReply(v: SessionView, step: ProposalStep, d: Option<Day>, t: Option<string>, now: int): Reply {
    match step
    case TargetGone => Say("reschedule_failed", GoneReply)
    case NothingNew => Say("reschedule_in_progress", AskChangeReply)
    case _ => JudgedReply(Proposed(v, d, t, now), step, now)
  }

  function JudgedReply(m: SessionView, step: ProposalStep, now: int): Reply {
    match step
    case TargetGone => Say("reschedule_failed", GoneReply)
    case NothingNew => Say("reschedule_in_progress", AskChangeReply)
    case BadProposal(reason) =>
      if ShouldHandoff(Failed(m, now)) then Say("handoff", RescheduleHandoffReply)
      else Reply("reschedule_invalid", Some(Refused(reason)))
    case SlotBooked(search) =>
      Reply("reschedule_unavailable", Some(Unavailable(SameDaySlots(search, SuggestionCount), NextDaySlots(search, SuggestionCount))))
    case SameSlot => Say("reschedule_no_change", SameSlotReply)
    case Proposal(date, time) => Reply("reschedule_confirm", Some(ChangeProposal(date, time)))
  }

  /** The RESCHEDULE_COLLECTING half of `handle_reschedule_state`, given this turn's date and time; the table is only read. */
  method CollectProposal(s: Session, table: BookingTable, d: Option<Day>, t: Option<string>, cfg: Config, now: int)
    returns (r: Option<Reply>)
    requires ValidConfig(cfg) && s.Valid() && s.state == RescheduleCollecting && (t.Some? ==> TimeText(t.value))
    modifies s
    ensures s.Valid()
    ensures var step := ProposalStepOf(old(s.View()), table.rows, d, t, cfg, now);
            s.View() == ProposalSession(old(s.View()), step, d, t, now)
            && r == Some(ProposalReply(old(s.View()), step, d, t, now))
  {
    var hit := Target(table.rows, s.View());
    if hit.None? {
      ResetSession(s, now);
      return Some(Say("reschedule_failed", GoneReply));
    }
    if d.None? && t.None? {
      return Some(Say("reschedule_in_progress", AskChangeReply));
    }
    ghost var v := s.View();
    MergeProposal(s, d, t, now);
    r := JudgeProposal(s, table, hit.value, cfg, now);
    assert ProposalStepOf(v, table.rows, d, t, cfg, now) == Judge(Proposed(v, d, t, now), table.rows[hit.value], table.rows, cfg, now);
  }

  /** The patch: a date and a time given this turn replace the proposed ones. */
  method MergeProposal(s: Session, d: Option<Day>, t: Option<string>, now: int)
    requires s.Valid() && s.state != RescheduleConfirm && (t.Some? ==> TimeText(t.value))
    modifies s
    ensures s.View() == Proposed(old(s.View()), d, t, now) && s.Valid()
  {
    if d.Some? {
      s.rescheduleNewDate := d;
    }
    if t.Some? {
      s.rescheduleNewTime := t.value;
    }
    s.updatedAt := Some(now);
  }

  /** Validate the patched proposal, then place it. */
  method JudgeProposal(s: Session, table: BookingTable, i: nat, cfg: Config, now: int) returns (r: Option<Reply>)
    requires ValidConfig(cfg) && i < |table.rows| && s.Valid()
    modifies s
    ensures s.Valid()
    ensures var step := Judge(old(s.View()), table.rows[i], table.rows, cfg, now);
            s.View() == JudgedSession(old(s.View()), step, now) && r == Some(JudgedReply(old(s.View()), step, now))
  {
    var val := ValidateBooking(s.rescheduleNewDate, s.rescheduleNewTime, cfg, TodayUtc(now));
    if val.Invalid? {
      r := RefuseProposal(s, val.reason, now);
      return;
    }
    AcceptedProposalShape(s.View(), cfg, TodayUtc(now));
    r := CheckProposal(s, table, i, cfg, now);
  }

  /** A refused proposal counts a failure; at the threshold the handoff is offered and the session reset. */
  method RefuseProposal(s: Session, reason: Refusal, now: int) returns (r: Option<Reply>)
    requires s.Valid()
    modifies s
    ensures s.View() == RefusedSession(old(s.View()), now) && s.Valid()
    ensures r == Some(JudgedReply(old(s.View()), BadProposal(reason), now))
  {
    ghost var m := s.View();
    IncrementFailure(s, now);
    ghost var f := s.View();
    assert f == Failed(m, now);
    if ShouldHandoff(s.View()) {
      OfferHandoff(s, now);
      ghost var g := s.View();
      ResetSession(s, now);
      assert ResetView(g, now) == ResetView(f.(handoffOffered := SetInt(1)), now);
      ResetValid(g, now);
      return Some(Say("handoff", RescheduleHandoffReply));
    }
    return Some(Reply("reschedule_invalid", Some(Refused(reason))));
  }

  /** A valid proposal: is its slot free, and does it differ from the booking? */
  method CheckProposal(s: Session, table: BookingTable, i: nat, cfg: Config, now: int) returns (r: Option<Reply>)
    requires ValidConfig(cfg) && i < |table.rows| && s.Valid()
    requires s.rescheduleNewDate.Some? && IsHhMm(s.rescheduleNewTime) && ParseTime(s.rescheduleNewTime).Some?
    modifies s
    ensures s.Valid()
    ensures var step := Placed(old(s.rescheduleNewDate).value, old(s.rescheduleNewTime), table.rows[i], table.rows, cfg);
            s.View() == JudgedSession(old(s.View()), step, now) && r == Some(JudgedReply(old(s.View()), step, now))
  {
    var date := s.rescheduleNewDate.value;
    var time := s.rescheduleNewTime;
    if IsSlotTaken(table.rows, date, time) {
      r := SuggestInstead(table, cfg, date, time);
    } else {
      r := PlaceFree(s, table.rows[i], now);
    }
  }

  /** A free proposed slot: the booking's own, or a change to put to the user. */
  method PlaceFree(s: Session, b: Booking, now: int) returns (r: Option<Reply>)
    requires s.Valid() && s.rescheduleNewDate.Some? && IsHhMm(s.rescheduleNewTime)
    modifies s
    ensures s.Valid()
    ensures var date := old(s.rescheduleNewDate).value;
            var time := old(s.rescheduleNewTime);
            var step := if b.date == date && b.time == time then SameSlot
                        else Proposal(if b.date != date then Some(date) else None, if b.time != time then Some(time) else None);
            s.View() == JudgedSession(old(s.View()), step, now) && r == Some(JudgedReply(old(s.View()), step, now))
  {
    var date := s.rescheduleNewDate.value;
    var time := s.rescheduleNewTime;
    if b.date == date && b.time == time {
      return Some(Say("reschedule_no_change", SameSlotReply));
    }
    r := ProposeChange(s, b);
  }

  /** The proposed slot is taken: offer the nearest free ones instead. */
  method SuggestInstead(table: BookingTable, cfg: Config, date: Day, time: string) returns (r: Option<Reply>)
    requires SearchConfig(cfg, time)
    ensures var search := SearchFor(table.rows, cfg, date, time);
            r == Some(Reply("reschedule_unavailable", Some(Unavailable(SameDaySlots(search, SuggestionCount), NextDaySlots(search, SuggestionCount)))))
  {
    var sameDay, nextDay := SuggestSlotsAround(table.rows, cfg, date, time, SuggestionCount);
    return Some(Reply("reschedule_unavailable", Some(Unavailable(sameDay, nextDay))));
  }

  /** Put the changes to the user and wait for the yes; the counter reset after the commit is not stored. */
  method ProposeChange(s: Session, b: Booking) returns (r: Option<Reply>)
    requires s.Valid() && s.rescheduleNewDate.Some? && IsHhMm(s.rescheduleNewTime)
    modifies s
    ensures s.Valid()
    ensures s.View() == old(s.View()).(state := RescheduleConfirm)
    ensures var date := old(s.rescheduleNewDate).value;
            var time := old(s.rescheduleNewTime);
            r == Some(Reply("reschedule_confirm", Some(ChangeProposal(if b.date != date then Some(date) else None,
                                                                      if b.time != time then Some(time) else None))))
  {
    var date := s.rescheduleNewDate.value;
    var time := s.rescheduleNewTime;
    s.state := RescheduleConfirm;
    return Some(Reply("reschedule_confirm", Some(ChangeProposal(if b.date != date then Some(date) else None,
                                                                if b.time != time then Some(time) else None))));
  }

  // ---------------------------------------------------------------------
  // RESCHEDULE_CONFIRM
  // ---------------------------------------------------------------------

  /** The answer to the proposal: a new date or time first, then a yes, then a no. */
  datatype Decision = Reopen | Accept | Reject | AskAgain

  function DecisionOf(intent: string, text: string, d: Option<Day>, t: Option<string>): Decision {
    if d.Some? || t.Some? then Reopen
    else if intent == "booking_confirm" || Lower(text) in YesWords then Accept
    else if intent == "booking_cancel" || Lower(text) in NoWords then Reject
    else AskAgain
  }

  /** The session after the answer. Reopening keeps the proposal as it was. */
  function DecisionSession(v: SessionView, dec: Decision, now: int): SessionView {
    match dec
    case Reopen => v.(state := RescheduleCollecting, updatedAt := Some(now))
    case Accept => ResetView(v, now)
    case Reject => ResetView(v, now)
    case AskAgain => v
  }

  /** The booking moved to the proposed slot; nothing else about it changes. */
  function MovedRow(b: Booking, v: SessionView): Booking
    requires v.rescheduleNewDate.Some?
  {
    b.(date := v.rescheduleNewDate.value, time := v.rescheduleNewTime)
  }

  function DecisionRows(rows: seq<Booking>, v: SessionView, dec: Decision): seq<Booking>
    requires v.rescheduleNewDate.Some?
  {
    if dec != Accept then rows
    else match Target(rows, v)
      case None => rows
      case Some(i) => rows[i := MovedRow(rows[i], v)]
  }

  function DecisionReply(rows: seq<Booking>, v: SessionView, dec: Decision): Option<Reply>
    requires v.rescheduleNewDate.Some?
  {
    match dec
    case Reopen => None
    case Accept =>
      if Target(rows, v).None? then Some(Say("reschedule_failed", MissingReply))
      else Some(Reply("booking_rescheduled", Some(RescheduledNote(v.rescheduleNewDate.value, v.rescheduleNewTime))))
    case Reject => Some(Say("reschedule_cancelled", UnchangedReply))
    case AskAgain => Some(Say("reschedule_confirm", AskYesNoReply))
  }

  /** The RESCHEDULE_CONFIRM half of `handle_reschedule_state`, given this turn's date and time. */
  method DecideProposal(s: Session, table: BookingTable, intent: string, text: string, d: Option<Day>, t: Option<string>,
                        now: int)
    returns (r: Option<Reply>)
    requires s.Valid() && table.Valid() && s.state == RescheduleConfirm
    modifies s, table
    ensures s.Valid() && table.Valid()
    ensures old(s.rescheduleNewDate).Some?
    ensures var dec := DecisionOf(intent, text, d, t);
            s.View() == DecisionSession(old(s.View()), dec, now)
            && table.rows == DecisionRows(old(table.rows), old(s.View()), dec)
            && r == DecisionReply(old(table.rows), old(s.View()), dec)
  {
    var dec := DecisionOf(intent, text, d, t);
    DecisionValid(s.View(), table.rows, dec, now);
    match dec
    case Reopen =>
      s.state := RescheduleCollecting;
      s.updatedAt := Some(now);
      return None;
    case Accept =>
      r := AcceptProposal(s, table, now);
    case Reject =>
      ResetSession(s, now);
      return Some(Say("reschedule_cancelled", UnchangedReply));
    case AskAgain =>
      return Some(Say("reschedule_confirm", AskYesNoReply));
  }

  /** A yes: move the booking, if it is still CONFIRMED, and reset the session. */
  method AcceptProposal(s: Session, table: BookingTable, now: int) returns (r: Option<Reply>)
    requires s.rescheduleNewDate.Some?
    modifies s, table
    ensures s.View() == ResetView(old(s.View()), now)
    ensures table.rows == DecisionRows(old(table.rows), old(s.View()), Accept)
    ensures r == DecisionReply(old(table.rows), old(s.View()), Accept)
  {
    var hit := Target(table.rows, s.View());
    if hit.None? {
      ResetSession(s, now);
      return Some(Say("reschedule_failed", MissingReply));
    }
    var date := s.rescheduleNewDate.value;
    var time := s.rescheduleNewTime;
    table.rows := table.rows[hit.value := MovedRow(table.rows[hit.value], s.View())];
    ResetSession(s, now);
    return Some(Reply("booking_rescheduled", Some(RescheduledNote(date, time))));
  }

  /** `handle_reschedule_state`: nothing happens outside the two reschedule states. */
  method HandleReschedule(s: Session, table: BookingTable, intent: string, data: Extracted, text: string, cfg: Config,
                          now: int, fallback: string -> Option<Day>)
    returns (r: Option<Reply>)
    requires ValidConfig(cfg) && data.Parsed? && s.Valid() && table.Valid()
    modifies s, table
    ensures s.Valid() && table.Valid()
    ensures old(s.state) != RescheduleCollecting && old(s.state) != RescheduleConfirm ==>
              r.None? && s.View() == old(s.View()) && table.rows == old(table.rows)
    ensures old(s.state) == RescheduleCollecting ==>
              var d := TurnDate(data, text, cfg, now, fallback);
              var t := TurnTime(data, text);
              var step := ProposalStepOf(old(s.View()), old(table.rows), d, t, cfg, now);
              s.View() == ProposalSession(old(s.View()), step, d, t, now) && table.rows == old(table.rows)
              && r == Some(ProposalReply(old(s.View()), step, d, t, now))
    ensures old(s.state) == RescheduleConfirm ==>
              old(s.rescheduleNewDate).Some?
              && var dec := DecisionOf(intent, text, TurnDate(data, text, cfg, now, fallback), TurnTime(data, text));
              s.View() == DecisionSession(old(s.View()), dec, now)
              && table.rows == DecisionRows(old(table.rows), old(s.View()), dec)
              && r == DecisionReply(old(table.rows), old(s.View()), dec)
  {
    var d := TurnDate(data, text, cfg, now, fallback);
    var t := TurnTime(data, text);
    if s.state == RescheduleCollecting {
      r := CollectProposal(s, table, d, t, cfg, now);
    } else if s.state == RescheduleConfirm {
      r := DecideProposal(s, table, intent, text, d, t, now);
    } else {
      r := None;
    }
  }

  // ---------------------------------------------------------------------
  // Properties
  // ---------------------------------------------------------------------

  /** A proposal that passes validation has a date and a valid "HH:MM" time. */
  lemma AcceptedProposalShape(m: SessionView, cfg: Config, today: Day)
    requires ValidConfig(cfg) && ViewValid(m)
    requires ValidateBooking(m.rescheduleNewDate, m.rescheduleNewTime, cfg, today).Valid?
    ensures m.rescheduleNewDate.Some? && IsHhMm(m.rescheduleNewTime)
  {
    if m.rescheduleNewTime == "" {
      EmptyTimeFails();
    }
    ParsedTimeTextIsHhMm(m.rescheduleNewTime);
  }

  lemma EmptyTimeFails()
    ensures ParseTime("").None?
  {
  }

  /** Every RESCHEDULE_CONFIRM outcome keeps both invariants: the moved booking keeps its id and gets a valid time. */
  lemma DecisionValid(v: SessionView, rows: seq<Booking>, dec: Decision, now: int)
    requires ViewValid(v) && RowsValid(rows) && v.state == RescheduleConfirm
    ensures ViewValid(DecisionSession(v, dec, now)) && RowsValid(DecisionRows(rows, v, dec))
  {
    var hit := Target(rows, v);
    if dec == Accept && hit.Some? {
      UpdateKeepsValid(rows, hit.value, MovedRow(rows[hit.value], v));
    }
  }

  /**
   * The "already booked for that same slot" answer is never given: a
   * proposal equal to the booking's own slot finds that slot taken, by the
   * booking itself, and is answered with alternatives instead.
   */
  lemma SameSlotNeverReached(v: SessionView, rows: seq<Booking>, d: Option<Day>, t: Option<string>, cfg: Config, now: int)
    requires ValidConfig(cfg)
    ensures ProposalStepOf(v, rows, d, t, cfg, now) != SameSlot
  {
    match Target(rows, v)
    case None =>
    case Some(i) =>
      if !(d.None? && t.None?) {
        var m := Proposed(v, d, t, now);
        if ValidateBooking(m.rescheduleNewDate, m.rescheduleNewTime, cfg, TodayUtc(now)).Valid? {
          OwnSlotIsTaken(m.rescheduleNewDate.value, m.rescheduleNewTime, rows, i, cfg);
        }
      }
  }

  /** A CONFIRMED booking holds its own slot, so that slot is never free for it. */
  lemma OwnSlotIsTaken(date: Day, time: string, rows: seq<Booking>, i: nat, cfg: Config)
    requires SearchConfig(cfg, time) && i < |rows| && rows[i].status == Confirmed
    ensures Placed(date, time, rows[i], rows, cfg) != SameSlot
  {
    if rows[i].date == date && rows[i].time == time {
      assert Occupies(rows[i], date, time);
    }
  }

  /**
   * A proposal put to the user passes validation, its slot is free, and it
   * lists the date exactly when the date changes and the time exactly when
   * the time changes (so at least one).
   */
  lemma ProposalIsSound(v: SessionView, rows: seq<Booking>, d: Option<Day>, t: Option<string>, cfg: Config, now: int)
    requires ValidConfig(cfg)
    requires ProposalStepOf(v, rows, d, t, cfg, now).Proposal?
    ensures var m := Proposed(v, d, t, now);
            var step := ProposalStepOf(v, rows, d, t, cfg, now);
            var i := Target(rows, v).value;
            Target(rows, v).Some? && Acceptable(m.rescheduleNewDate, m.rescheduleNewTime, cfg, TodayUtc(now))
            && !IsSlotTaken(rows, m.rescheduleNewDate.value, m.rescheduleNewTime)
            && (step.date.Some? <==> rows[i].date != m.rescheduleNewDate.value)
            && (step.time.Some? <==> rows[i].time != m.rescheduleNewTime)
            && (step.date.Some? || step.time.Some?)
  {
  }

  /**
   * Below the handoff threshold a refused proposal is kept: the session
   * stays in RESCHEDULE_COLLECTING with the patched values and one more failure.
   */
  lemma RefusedProposalKept(v: SessionView, d: Option<Day>, t: Option<string>, reason: Refusal, now: int)
    requires !ShouldHandoff(Failed(Proposed(v, d, t, now), now))
    ensures var after := ProposalSession(v, BadProposal(reason), d, t, now);
            after.state == v.state
            && after.rescheduleNewDate == Proposed(v, d, t, now).rescheduleNewDate
            && after.rescheduleNewTime == Proposed(v, d, t, now).rescheduleNewTime
            && GetInt(after.failCount, 0) == GetInt(v.failCount, 0) + 1
  {
    SetThenGet(GetInt(v.failCount, 0) + 1, 0);
  }

  /**
   * The unstored reset has an effect: after two refused proposals, a free
   * one is put to the user with the count still at 2, so once a new date or
   * time reopens collecting, the next refused proposal hands off at the
   * third failure.
   */
  lemma CountersSurviveProposal(v: SessionView, d: Option<Day>, t: Option<string>, pd: Option<Day>, pt: Option<string>,
                                now: int, now2: int, d3: Option<Day>, t3: Option<string>, reason: Refusal, now3: int)
    requires GetInt(v.failCount, 0) == 2 && GetInt(v.handoffOffered, 0) == 0
    ensures var c := JudgedSession(Proposed(v, d, t, now), Proposal(pd, pt), now);
            var o := DecisionSession(c, Reopen, now2);
            var m := Proposed(o, d3, t3, now3);
            c.state == RescheduleConfirm && o.state == RescheduleCollecting
            && ShouldHandoff(Failed(m, now3))
            && JudgedReply(m, BadProposal(reason), now3) == Say("handoff", RescheduleHandoffReply)
            && JudgedSession(m, BadProposal(reason), now3).state == Idle
  {
    SetThenGet(3, 0);
  }

  /**
   * A date or time given while the proposal awaits its yes sends the
   * session back to RESCHEDULE_COLLECTING without recording it: the
   * proposal is the one shown before.
   */
  lemma ReopenDropsNewValues(v: SessionView, rows: seq<Booking>, intent: string, text: string,
                             d: Option<Day>, t: Option<string>, now: int)
    requires v.rescheduleNewDate.Some? && (d.Some? || t.Some?)
    ensures var dec := DecisionOf(intent, text, d, t);
            var after := DecisionSession(v, dec, now);
            dec == Reopen && after.state == RescheduleCollecting
            && after.rescheduleNewDate == v.rescheduleNewDate && after.rescheduleNewTime == v.rescheduleNewTime
            && DecisionRows(rows, v, dec) == rows && DecisionReply(rows, v, dec).None?
  {
  }

  /**
   * A yes moves only the booking under reschedule: it is this phone
   * number's CONFIRMED booking with the target id, stays CONFIRMED and now
   * holds the proposed date and time.
   */
  lemma AcceptMovesOnlyTarget(rows: seq<Booking>, v: SessionView)
    requires v.rescheduleNewDate.Some?
    ensures var after := DecisionRows(rows, v, Accept);
            |after| == |rows|
            && forall j :: 0 <= j < |rows| && after[j] != rows[j] ==>
                 rows[j].phone == v.sessionId && rows[j].id == v.rescheduleTargetId && rows[j].status == Confirmed
                 && after[j] == rows[j].(date := v.rescheduleNewDate.value, time := v.rescheduleNewTime)
                 && after[j].status == Confirmed
  {
  }

  /** A no, or an unclear answer, leaves every booking as it was. */
  lemma RejectKeepsBookings(rows: seq<Booking>, v: SessionView, dec: Decision, now: int)
    requires v.rescheduleNewDate.Some? && dec != Accept
    ensures DecisionRows(rows, v, dec) == rows
    ensures dec == Reject ==> DecisionSession(v, dec, now) == ResetView(v, now)
  {
  }
}
