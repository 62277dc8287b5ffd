/**
 * The texts of the replies: each `Message` template spelled out with its
 * values, dates in ISO form and times as the user reads them ("3:30 PM").
 */
module Messages {
  import opened Wrappers
  import opened Text
  import opened TimeUtils
  import opened Records
  import opened BusinessRules

  /** Suggested times as the user sees them, comma-separated. */
  function FormatTimes(xs: seq<string>): string {
    Join(seq(|xs|, i requires 0 <= i < |xs| => FormatTimeForUser(xs[i])), ", ")
  }

  /** How a booking status is shown ("PENDING", ...). */
  function StatusName(s: BookingStatus): (r: string)
    ensures |r| > 0
  {
    match s
    case Pending => "PENDING"
    case Confirmed => "CONFIRMED"
    case Cancelled => "CANCELLED"
  }

  /** The lines of a rejected-time reply: the validator's message, the suggestions, the question. */
  function InvalidTimeLines(reason: Refusal, sameDay: seq<string>, nextDay: seq<string>): seq<string> {
    [RefusalText(reason)]
    + (if |sameDay| > 0 then ["Available times today: " + FormatTimes(sameDay)] else [])
    + (if |nextDay| > 0 then ["Or tomorrow morning: " + FormatTimes(nextDay)] else [])
    + ["What time would you like?"]
  }

  /** The lines of a taken-slot reply. */
  function UnavailableLines(sameDay: seq<string>, nextDay: seq<string>): seq<string> {
    ["That time is already booked."]
    + (if |sameDay| > 0 then ["Here are some available times on the same day: " + FormatTimes(sameDay) + "."] else [])
    + (if |nextDay| > 0 then ["If you prefer tomorrow, I can do: " + FormatTimes(nextDay) + "."] else [])
    + ["Which time works for you?"]
  }

  /** The changes a reschedule proposal lists: the date first, then the time, each only when it changes. */
  function Changes(newDate: Option<Day>, newTime: Option<string>): (r: seq<string>)
    ensures |r| == (if newDate.Some? then 1 else 0) + (if newTime.Some? then 1 else 0)
    ensures newDate.Some? ==> r[0] == "date → " + IsoDate(newDate.value)
    ensures newTime.Some? ==> r[|r| - 1] == "time → " + FormatTimeForUser(newTime.value)
  {
    (if newDate.Some? then ["date → " + IsoDate(newDate.value)] else [])
    + (if newTime.Some? then ["time → " + FormatTimeForUser(newTime.value)] else [])
  }

  /** The text of a reply. */
  function Render(m: Message): (r: string)
    ensures m.Plain? ==> r == m.text
  {
    match m
    case Plain(text) => text
    case Refused(reason) => RefusalText(reason)
    case InvalidTime(reason, sameDay, nextDay) => Join(InvalidTimeLines(reason, sameDay, nextDay), "\n")
    case Unavailable(sameDay, nextDay) => Join(UnavailableLines(sameDay, nextDay), "\n")
    case ConfirmPrompt(service, date, time) => ConfirmPromptText(service, date, time)
    case DepositDue(service, date, time) => DepositDueText(service, date, time)
    case ConfirmedNote(id, date, time) => ConfirmedText(id, date, time)
    case CancelPrompt(service, date, time) => CancelPromptText(service, date, time)
    case StatusNote(service, date, time, status, id) => StatusText(service, date, time, status, id)
    case ChangeProposal(newDate, newTime) => ProposalText(newDate, newTime)
    case RescheduledNote(date, time) => RescheduledText(date, time)
    case WithPrompt(answer, prompt) => answer + "\n\n" + prompt
    case Welcome(name) => "Welcome to " + name + "! How can I help you today?"
  }

  /** "A date at a time", as the replies write it. */
  function When(date: Day, time: string): string {
    IsoDate(date) + " at " + FormatTimeForUser(time)
  }

  function ConfirmPromptText(service: string, date: Day, time: string): string {
    service + " is available on " + When(date, time) + ".\nWould you like me to confirm the appointment?"
  }

  function DepositDueText(service: string, date: Day, time: string): string {
    "To confirm your " + service + " appointment on " + When(date, time)
    + ", a small deposit is required.\n\nI’ll send you a secure payment link next."
  }

  const ConfirmedHead := "✅ Your appointment is confirmed!\nRef ID: "

  function ConfirmedText(id: string, date: Day, time: string): string {
    ConfirmedHead + id + SeeYou(date, time)
  }

  function SeeYou(date: Day, time: string): string {
    "\nSee you on " + When(date, time) + "."
  }

  function CancelPromptText(service: string, date: Day, time: string): string {
    "Just to confirm — cancel your " + service + " appointment on " + When(date, time)
    + "?\nReply YES to cancel or NO to keep it."
  }

  function StatusText(service: string, date: Day, time: string, status: BookingStatus, id: string): string {
    "Your latest booking:\nService: " + service + "\nDate: " + IsoDate(date) + "\nTime: "
    + FormatTimeForUser(time) + "\nStatus: " + StatusName(status) + "\nRef ID: " + id
  }

  function ProposalText(newDate: Option<Day>, newTime: Option<string>): string {
    "Update appointment: " + Join(Changes(newDate, newTime), ", ") + "?\nReply YES to confirm or NO to cancel."
  }

  function RescheduledText(date: Day, time: string): string {
    "✅ Perfect — you're all set for " + When(date, time) + "."
  }

  /** A text contains each piece it is assembled from. */
  lemma ContainsMiddle(a: string, b: string, c: string)
    ensures Contains(a + b + c, b)
  {
    var r := a + b + c;
    assert r[|a|..|a| + |b|] == b;
    assert LiteralAt(r, |a|, b);
  }

  /** The confirmation shows the booking reference. */
  lemma ConfirmedShowsRef(id: string, date: Day, time: string)
    ensures Contains(Render(ConfirmedNote(id, date, time)), id)
  {
    ConfirmedTextShowsRef(id, date, time);
    RenderConfirmed(id, date, time);
  }

  lemma RenderConfirmed(id: string, date: Day, time: string)
    ensures Render(ConfirmedNote(id, date, time)) == ConfirmedText(id, date, time)
  {
  }

  lemma ConfirmedTextShowsRef(id: string, date: Day, time: string)
    ensures Contains(ConfirmedText(id, date, time), id)
  {
    ContainsMiddle(ConfirmedHead, id, SeeYou(date, time));
  }

  /** The status reply ends with the booking reference. */
  lemma StatusEndsWithRef(service: string, date: Day, time: string, status: BookingStatus, id: string)
    ensures var r := Render(StatusNote(service, date, time, status, id));
            |id| <= |r| && r[|r| - |id|..] == id
  {
    var head := "Your latest booking:\nService: " + service + "\nDate: " + IsoDate(date) + "\nTime: "
      + FormatTimeForUser(time) + "\nStatus: " + StatusName(status) + "\nRef ID: ";
    assert StatusText(service, date, time, status, id) == head + id;
  }

  /** A line-joined reply starts with its first line. */
  lemma JoinStartsWithFirst(xs: seq<string>, sep: string)
    requires |xs| > 0
    ensures |xs[0]| <= |Join(xs, sep)| && Join(xs, sep)[..|xs[0]|] == xs[0]
  {
    if |xs| > 1 {
      var rest := sep + Join(xs[1..], sep);
      assert Join(xs, sep) == xs[0] + rest;
    }
  }

  /** A rejected-time reply opens with the validator's message. */
  lemma InvalidTimeStartsWithMessage(reason: Refusal, sameDay: seq<string>, nextDay: seq<string>)
    ensures var r := Render(InvalidTime(reason, sameDay, nextDay));
            |RefusalText(reason)| <= |r| && r[..|RefusalText(reason)|] == RefusalText(reason)
  {
    JoinStartsWithFirst(InvalidTimeLines(reason, sameDay, nextDay), "\n");
  }
}
