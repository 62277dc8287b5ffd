/**
 * The reminder sweep: every CONFIRMED booking is looked at once; a first
 * reminder goes out within three minutes of the appointment, a second
 * within one minute, and a booking whose appointment passed with a
 * reminder sent but never confirmed is tagged as a no-show risk.
 */
module Reminders {
  import opened Wrappers
  import opened Text
  import opened Clock
  import opened TimeUtils
  import opened Records
  import opened Store

  /** The reminder windows, in seconds before the appointment. */
  const FirstWindow := 3 * 60
  const SecondWindow := 60

  /** How long after the appointment (in seconds) an unconfirmed booking counts as a no-show risk. */
  const NoShowGrace := 10

  /**
   * The UTC instant of a booking's appointment, its stored date and "HH:MM"
   * read in the business's time zone, `utcOffset` seconds east of UTC.
   */
  function AppointmentInstant(b: Booking, utcOffset: int): int
    requires IsHhMm(b.time)
  {
    b.date * DaySeconds + MinutesOf(b.time) * 60 - utcOffset
  }

  /**
   * Read back on the business's clock, the instant falls on the booking's
   * date, at its "HH:MM" with no seconds.
   */
  lemma AppointmentOnLocalClock(b: Booking, utcOffset: int)
    requires IsHhMm(b.time)
    ensures var local := AppointmentInstant(b, utcOffset) + utcOffset;
            local / DaySeconds == b.date && (local % DaySeconds) / 60 == MinutesOf(b.time) && local % 60 == 0
  {
    var second := MinutesOf(b.time) * 60;
    LocalClock(b.date, second);
    assert (b.date * DaySeconds + second) % 60 == 0 by {
      assert b.date * DaySeconds + second == (b.date * 1440 + MinutesOf(b.time)) * 60;
    }
  }

  /** A second of the local day, counted from the day's midnight, falls on that day at that second. */
  lemma LocalClock(date: int, second: int)
    requires 0 <= second < DaySeconds
    ensures (date * DaySeconds + second) / DaySeconds == date
    ensures (date * DaySeconds + second) % DaySeconds == second
  {
    var n := date * DaySeconds + second;
    var q, r := n / DaySeconds, n % DaySeconds;
    assert n == q * DaySeconds + r && 0 <= r < DaySeconds;
    assert (q - date) * DaySeconds == second - r;
  }

  /** What the sweep does with one booking. */
  datatype Action = SendFirst | SendSecond | FlagNoShow | Skip

  /** The branches of the loop body, in their order; only CONFIRMED rows are considered. */
  function ActionOf(b: Booking, now: int, utcOffset: int): Action
    requires IsHhMm(b.time)
  {
    if b.status != Confirmed then Skip
    else
      var diff := AppointmentInstant(b, utcOffset) - now;
      if !b.reminder24hSent && 0 < diff <= FirstWindow then SendFirst
      else if !b.reminder2hSent && 0 < diff <= SecondWindow then SendSecond
      else if diff <= -NoShowGrace && !b.reminderConfirmed && !b.noShowRisk && (b.reminder24hSent || b.reminder2hSent)
      then FlagNoShow
      else Skip
  }

  /** The booking after its action. */
  function Applied(b: Booking, a: Action, now: int): Booking {
    match a
    case SendFirst => b.(reminder24hSent := true, reminderLastSentAt := Some(now))
    case SendSecond => b.(reminder2hSent := true, reminderLastSentAt := Some(now))
    case FlagNoShow => b.(noShowRisk := true)
    case Skip => b
  }

  predicate Sends(a: Action) { a == SendFirst || a == SendSecond }

  /** A message handed to the channel router. */
  datatype Notice = Notice(channel: string, phone: string, text: string)

  /** The reminder text for a booking. */
  function NoticeFor(b: Booking, a: Action): (n: Notice)
    ensures n.channel == b.channel && n.phone == b.phone
  {
    if a == SendFirst then
      Notice(b.channel, b.phone, "Reminder: You have a " + b.service + " appointment on " + IsoDate(b.date) + " at "
                                 + FormatTimeForUser(b.time) + ".\nReply YES to confirm or CANCEL to cancel.")
    else
      Notice(b.channel, b.phone, "⏰ Reminder: Your " + b.service + " appointment is coming up at "
                                 + FormatTimeForUser(b.time) + ".\nReply YES to confirm or CANCEL if needed.")
  }

  // ---------------------------------------------------------------------
  // The sweep as a function of the table
  // ---------------------------------------------------------------------

  /** The table after the sweep: each row with its own action applied. */
  function Swept(rows: seq<Booking>, now: int, utcOffset: int): (r: seq<Booking>)
    requires RowsValid(rows)
    ensures |r| == |rows|
  {
    seq(|rows|, j requires 0 <= j < |rows| => Applied(rows[j], ActionOf(rows[j], now, utcOffset), now))
  }

  /** The notices sent while sweeping the first `k` rows, in table order. */
  function Notices(rows: seq<Booking>, now: int, utcOffset: int, k: nat): seq<Notice>
    requires k <= |rows| && RowsValid(rows)
  {
    if k == 0 then []
    else
      var a := ActionOf(rows[k - 1], now, utcOffset);
      Notices(rows, now, utcOffset, k - 1) + (if Sends(a) then [NoticeFor(rows[k - 1], a)] else [])
  }

  /** `bind_reminder_to_session` on the sessions table, keyed by session id (the phone number). */
  function Bind(sessions: map<string, SessionView>, b: Booking, now: int): map<string, SessionView> {
    if b.phone in sessions then
      sessions[b.phone := sessions[b.phone].(lastReminderBookingId := b.id, updatedAt := Some(now))]
    else sessions
  }

  /** The sessions after sweeping the first `k` rows: each reminder binds the booking's session. */
  function Bound(sessions: map<string, SessionView>, rows: seq<Booking>, now: int, utcOffset: int, k: nat)
    : map<string, SessionView>
    requires k <= |rows| && RowsValid(rows)
  {
    if k == 0 then sessions
    else
      var before := Bound(sessions, rows, now, utcOffset, k - 1);
      if Sends(ActionOf(rows[k - 1], now, utcOffset)) then Bind(before, rows[k - 1], now) else before
  }

  /** Every stored session is valid and filed under its own id. */
  predicate SessionsValid(sessions: map<string, SessionView>) {
    forall k :: k in sessions ==> ViewValid(sessions[k]) && sessions[k].sessionId == k
  }

  /** The sessions table. */
  class SessionTable {
    var sessions: map<string, SessionView>

    predicate Valid()
      reads this
    {
      SessionsValid(sessions)
    }

    constructor (initial: map<string, SessionView>)
      requires SessionsValid(initial)
      ensures sessions == initial && Valid()
    {
      sessions := initial;
    }
  }

  // ---------------------------------------------------------------------
  // The sweep
  // ---------------------------------------------------------------------

  /**
   * `run_reminder_job` at instant `now`; the notices sent are returned in
   * order instead of being handed to a channel.
   */
  method RunReminderJob(table: BookingTable, store: SessionTable, now: int, utcOffset: int)
    returns (sent: seq<Notice>)
    requires table.Valid() && store.Valid()
    modifies table, store
    ensures table.Valid() && store.Valid()
    ensures table.rows == Swept(old(table.rows), now, utcOffset)
    ensures store.sessions == Bound(old(store.sessions), old(table.rows), now, utcOffset, |old(table.rows)|)
    ensures sent == Notices(old(table.rows), now, utcOffset, |old(table.rows)|)
  {
    ghost var rows0 := table.rows;
    ghost var sessions0 := store.sessions;
    var i := 0;
    sent := [];
    while i < |table.rows|
      invariant |table.rows| == |rows0| && 0 <= i <= |rows0| && RowsValid(rows0)
      invariant SweptUpTo(table.rows, rows0, now, utcOffset, i)
      invariant store.sessions == Bound(sessions0, rows0, now, utcOffset, i)
      invariant sent == Notices(rows0, now, utcOffset, i)
      invariant SessionsValid(store.sessions)
    {
      ghost var before := table.rows;
      var notice := SweepOne(table, store, i, now, utcOffset);
      SweptStep(before, table.rows, rows0, now, utcOffset, i);
      sent := sent + notice;
      i := i + 1;
    }
    assert i == |rows0|;
    assert sent == Notices(rows0, now, utcOffset, |rows0|);
    assert store.sessions == Bound(sessions0, rows0, now, utcOffset, |rows0|);
    SweptAll(table.rows, rows0, now, utcOffset);
    SweptKeepsValid(rows0, now, utcOffset);
  }

  /** The first `i` rows of `r` are swept, the rest are still those of `rows`. */
  predicate SweptUpTo(r: seq<Booking>, rows: seq<Booking>, now: int, utcOffset: int, i: nat)
    requires RowsValid(rows) && i <= |rows|
  {
    |r| == |rows|
    && (forall j :: 0 <= j < i ==> r[j] == Applied(rows[j], ActionOf(rows[j], now, utcOffset), now))
    && (forall j :: i <= j < |rows| ==> r[j] == rows[j])
  }

  lemma SweptStep(before: seq<Booking>, after: seq<Booking>, rows: seq<Booking>, now: int, utcOffset: int, i: nat)
    requires RowsValid(rows) && i < |rows| && SweptUpTo(before, rows, now, utcOffset, i)
    requires after == before[i := Applied(before[i], ActionOf(before[i], now, utcOffset), now)]
    ensures SweptUpTo(after, rows, now, utcOffset, i + 1)
  {
  }

  lemma SweptAll(r: seq<Booking>, rows: seq<Booking>, now: int, utcOffset: int)
    requires RowsValid(rows) && SweptUpTo(r, rows, now, utcOffset, |rows|)
    ensures r == Swept(rows, now, utcOffset)
  {
  }

  /** One pass of the loop body: the action on row `i`, with its notice (if any) and the session binding. */
  method SweepOne(table: BookingTable, store: SessionTable, i: nat, now: int, utcOffset: int) returns (notice: seq<Notice>)
    requires i < |table.rows| && IsHhMm(table.rows[i].time) && SessionsValid(store.sessions)
    modifies table, store
    ensures var b := old(table.rows[i]);
            var a := ActionOf(b, now, utcOffset);
            table.rows == old(table.rows)[i := Applied(b, a, now)]
            && store.sessions == (if Sends(a) then Bind(old(store.sessions), b, now) else old(store.sessions))
            && notice == (if Sends(a) then [NoticeFor(b, a)] else [])
    ensures SessionsValid(store.sessions)
  {
    var b := table.rows[i];
    var a := ActionOf(b, now, utcOffset);
    notice := [];
    if Sends(a) {
      notice := [NoticeFor(b, a)];
      BindReminderToSession(store, b, now);
    }
    table.rows := table.rows[i := Applied(b, a, now)];
  }

  /** `bind_reminder_to_session` */
  method BindReminderToSession(store: SessionTable, b: Booking, now: int)
    requires SessionsValid(store.sessions)
    modifies store
    ensures store.sessions == Bind(old(store.sessions), b, now) && SessionsValid(store.sessions)
  {
    if b.phone in store.sessions {
      store.sessions := store.sessions[b.phone := store.sessions[b.phone].(lastReminderBookingId := b.id, updatedAt := Some(now))];
    }
  }

  // ---------------------------------------------------------------------
  // Properties
  // ---------------------------------------------------------------------

  /** The sweep keeps the table invariant: no id and no time changes. */
  lemma SweptKeepsValid(rows: seq<Booking>, now: int, utcOffset: int)
    requires RowsValid(rows)
    ensures RowsValid(Swept(rows, now, utcOffset))
  {
    var r := Swept(rows, now, utcOffset);
    assert forall j :: 0 <= j < |rows| ==> r[j].id == rows[j].id && r[j].time == rows[j].time;
  }

  /**
   * Statuses never change and only CONFIRMED bookings are touched; the
   * reminder and no-show flags only move from false to true.
   */
  lemma SweepOnlyRaisesFlags(rows: seq<Booking>, now: int, utcOffset: int, j: nat)
    requires RowsValid(rows) && j < |rows|
    ensures var b := rows[j];
            var b2 := Swept(rows, now, utcOffset)[j];
            b2.status == b.status && b2.id == b.id && b2.date == b.date && b2.time == b.time
            && (b.status != Confirmed ==> b2 == b)
            && (b.reminder24hSent ==> b2.reminder24hSent) && (b.reminder2hSent ==> b2.reminder2hSent)
            && (b.noShowRisk ==> b2.noShowRisk) && b2.reminderConfirmed == b.reminderConfirmed
  {
  }

  /**
   * The first reminder goes out exactly when it was not sent yet and the
   * appointment is at most three minutes ahead; the second only when the
   * first did not go out in that pass. One action per booking per pass.
   */
  lemma ReminderWindows(b: Booking, now: int, utcOffset: int)
    requires IsHhMm(b.time) && b.status == Confirmed
    ensures var diff := AppointmentInstant(b, utcOffset) - now;
            (ActionOf(b, now, utcOffset) == SendFirst <==> !b.reminder24hSent && 0 < diff <= FirstWindow)
            && (ActionOf(b, now, utcOffset) == SendSecond <==>
                  !(!b.reminder24hSent && 0 < diff <= FirstWindow) && !b.reminder2hSent && 0 < diff <= SecondWindow)
            && (ActionOf(b, now, utcOffset) == SendSecond ==> b.reminder24hSent)
  {
  }

  /**
   * A booking is tagged exactly when its appointment is at least ten
   * seconds past, some reminder went out, and the user neither confirmed
   * it nor was it tagged already.
   */
  lemma NoShowExactly(b: Booking, now: int, utcOffset: int)
    requires IsHhMm(b.time) && b.status == Confirmed
    ensures ActionOf(b, now, utcOffset) == FlagNoShow <==>
              AppointmentInstant(b, utcOffset) - now <= -NoShowGrace && !b.reminderConfirmed && !b.noShowRisk
              && (b.reminder24hSent || b.reminder2hSent)
  {
  }

  /** Each reminder goes out at most once: after it is sent, no later sweep sends it again. */
  lemma SentOnce(b: Booking, now: int, later: int, utcOffset: int)
    requires IsHhMm(b.time)
    ensures var a := ActionOf(b, now, utcOffset);
            var b2 := Applied(b, a, now);
            (a == SendFirst ==> ActionOf(b2, later, utcOffset) != SendFirst)
            && (a == SendSecond ==> ActionOf(b2, later, utcOffset) != SendSecond)
            && (a == FlagNoShow ==> ActionOf(b2, later, utcOffset) != FlagNoShow)
  {
  }

  /** A notice per reminder sent and no more, each to the booking's own channel and phone number. */
  lemma {:induction false} NoticesMatch(rows: seq<Booking>, now: int, utcOffset: int, k: nat)
    requires k <= |rows| && RowsValid(rows)
    ensures |Notices(rows, now, utcOffset, k)| <= k
    ensures forall n :: n in Notices(rows, now, utcOffset, k) ==> SentTo(rows, now, utcOffset, k, n)
  {
    if k > 0 {
      NoticesMatch(rows, now, utcOffset, k - 1);
      var a := ActionOf(rows[k - 1], now, utcOffset);
      forall n | n in Notices(rows, now, utcOffset, k)
        ensures SentTo(rows, now, utcOffset, k, n)
      {
        if n in Notices(rows, now, utcOffset, k - 1) {
          assert SentTo(rows, now, utcOffset, k - 1, n);
        } else {
          assert Sends(a) && n == NoticeFor(rows[k - 1], a);
        }
      }
    }
  }

  /** Some row among the first `k` sent a reminder to the channel and phone number of `n`. */
  predicate SentTo(rows: seq<Booking>, now: int, utcOffset: int, k: nat, n: Notice)
    requires k <= |rows| && RowsValid(rows)
  {
    exists j :: 0 <= j < k && Sends(ActionOf(rows[j], now, utcOffset)) && n.phone == rows[j].phone
                && n.channel == rows[j].channel
  }

  /**
   * Binding touches only the sessions of phone numbers that received a
   * reminder, only their reminder id and update instant, and never adds a
   * session.
   */
  lemma {:induction false} BoundOnlyReminded(sessions: map<string, SessionView>, rows: seq<Booking>, now: int,
                                             utcOffset: int, k: nat)
    requires k <= |rows| && RowsValid(rows)
    ensures var after := Bound(sessions, rows, now, utcOffset, k);
            after.Keys == sessions.Keys
            && forall p :: p in sessions ==>
                 after[p] == sessions[p].(lastReminderBookingId := after[p].lastReminderBookingId, updatedAt := after[p].updatedAt)
                 && (after[p] != sessions[p] ==>
                       exists j :: 0 <= j < k && Sends(ActionOf(rows[j], now, utcOffset)) && rows[j].phone == p)
  {
    if k > 0 {
      BoundOnlyReminded(sessions, rows, now, utcOffset, k - 1);
    }
  }
}
