/**
 * The records the booking bot works on: calendar days, business
 * configuration, booking rows, the extractor's parsed output and the
 * `{intent, reply}` result of a turn.
 *
 * Dates are day numbers (day 0 is 1970-01-01, a Thursday); the ISO text
 * "YYYY-MM-DD" that the bot stores and shows is rendered by `IsoDate`.
 * Instants are whole seconds since the epoch, in UTC.
 */
module Records {
  import opened Wrappers
  import opened Text

  type Day = int

  /** `date.weekday()`: Monday is 0 and Sunday is 6. */
  function Weekday(d: Day): (w: int)
    ensures 0 <= w < 7
  {
    (d + 3) % 7
  }

  /** Moving `k` days ahead moves the weekday `k` places on, cyclically. */
  lemma WeekdayAhead(d: Day, k: int)
    ensures Weekday(d + k) == (Weekday(d) + k) % 7
  {
  }

  /** `date.isoformat()` of a day number (proleptic Gregorian calendar). */
  function IsoDate(d: Day): string {
    var z := d + 719468;
    var era := z / 146097;
    var doe := z - era * 146097;
    var yoe := (doe - doe / 1460 + doe / 36524 - doe / 146096) / 365;
    var doy := doe - (365 * yoe + yoe / 4 - yoe / 100);
    var mp := (5 * doy + 2) / 153;
    var day := doy - (153 * mp + 2) / 5 + 1;
    // `mp` counts months from March (0..11): March..December are 3..12, and
    // January and February (10, 11) are 1, 2 of the following year.
    var month := (mp + 2) % 12 + 1;
    var year := yoe + era * 400 + mp / 10;
    (if year >= 0 then Pad4(year) else IntToString(year)) + "-" + Pad2(month) + "-" + Pad2(day)
  }

  /** Seconds in a day and in a minute. */
  const DaySeconds := 86400
  const MinuteSeconds := 60

  /**
   * The business configuration. Absent keys are `None` (or empty) and take
   * the defaults the code supplies where it reads them.
   */
  datatype Config = Config(
    name: string,
    hoursStart: Option<string>,
    hoursEnd: Option<string>,
    sameDayCutoff: Option<string>,
    slotMinutes: Option<int>,
    services: seq<string>,
    location: Option<string>,
    utcOffset: int)  // seconds east of UTC of the business time zone
  {
    function StartText(): string { hoursStart.GetOr("09:00") }
    function EndText(): string { hoursEnd.GetOr("19:00") }
    function CutoffText(): string { sameDayCutoff.GetOr("17:00") }
    function Slot(): int { slotMinutes.GetOr(30) }
  }

  /** The day in UTC and in the business time zone at instant `now`. */
  function TodayUtc(now: int): Day { now / DaySeconds }
  function TodayLocal(cfg: Config, now: int): Day { (now + cfg.utcOffset) / DaySeconds }

  datatype BookingStatus = Pending | Confirmed | Cancelled

  datatype PaymentStatus = NoPayment | RequiresPayment | CheckoutCreated | Paid | PaymentExpired | Refunded

  /**
   * A row of the bookings table. Text fields use "" for a missing value;
   * `time` is the stored "HH:MM".
   */
  datatype Booking = Booking(
    id: string,
    phone: string,
    service: string,
    date: Day,
    time: string,
    status: BookingStatus,
    createdAt: int,
    confirmedAt: Option<int>,
    channel: string,
    paymentRequired: bool,
    paymentStatus: PaymentStatus,
    depositCents: int,
    currency: string,
    paymentExpiresAt: Option<int>,
    paymentIntentId: string,
    calendarEventId: string,
    reminder24hSent: bool,
    reminder2hSent: bool,
    reminderLastSentAt: Option<int>,
    reminderConfirmed: bool,
    noShowRisk: bool)

  /** A new PENDING row as the collecting step creates it. */
  function NewPending(id: string, phone: string, service: string, date: Day, time: string, now: int): Booking {
    Booking(id, phone, service, date, time, Pending, now, None, "", false, NoPayment, 0, "",
            None, "", "", false, false, None, false, false)
  }

  /** The three pieces of a booking request; also the slot a validation failure names. */
  datatype Field = ServiceField | DateField | TimeField

  /**
   * What the language-model extractor produced for a turn: either output
   * that was not valid JSON, or the fields it filled ("" when absent).
   */
  datatype Extracted =
    | ParseFailure
    | Parsed(intent: string, service: string, date: string, time: string, reply: string)

  /**
   * Why `validate_booking` refused a slot; the minutes are the configured
   * cutoff and opening hours it quotes.
   */
  datatype Refusal = BadDate | BadTime | PastDate | BeforeCutoff(cutoff: int) | OutsideHours(open: int, close: int)

  /**
   * A reply text, kept as the template it comes from and the values it
   * shows; `Messages.Render` spells out the text the user reads.
   */
  datatype Message =
    | Plain(text: string)
    | Refused(reason: Refusal)                                                   // the validator's message
    | InvalidTime(reason: Refusal, sameDay: seq<string>, nextDay: seq<string>)   // a rejected time, with suggestions
    | Unavailable(sameDay: seq<string>, nextDay: seq<string>)                    // a taken slot, with suggestions
    | ConfirmPrompt(service: string, date: Day, time: string)                    // the new PENDING booking
    | DepositDue(service: string, date: Day, time: string)                       // confirmation needs a deposit
    | ConfirmedNote(id: string, date: Day, time: string)                         // the booking is confirmed
    | CancelPrompt(service: string, date: Day, time: string)                     // "cancel this appointment?"
    | StatusNote(service: string, date: Day, time: string, status: BookingStatus, id: string)
    | ChangeProposal(newDate: Option<Day>, newTime: Option<string>)              // the fields a reschedule changes
    | RescheduledNote(date: Day, time: string)
    | WithPrompt(answer: string, prompt: string)                                 // an FAQ answer, then the booking prompt
    | Welcome(name: string)

  /** The `{intent, reply}` result of a turn; `reply` is `None` for an ignored message. */
  datatype Reply = Reply(intent: string, reply: Option<Message>)

  function Say(intent: string, text: string): Reply {
    Reply(intent, Some(Plain(text)))
  }
}
