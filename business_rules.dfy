/**
 * Business-rule validation of a requested booking slot: the time parser
 * used for configuration and requests, and the ordered checks (date,
 * time, past date, same-day cutoff, opening hours).
 */
module BusinessRules {
  import opened Wrappers
  import opened Text
  import opened Clock
  import opened TimeUtils
  import opened Records

  /**
   * `parse_time`: the minute of the day a time text stands for, or `None`
   * where the original raises `ValueError`. The text is stripped, lower-cased
   * and its whitespace runs collapsed; then the 12-hour form (with optional
   * blanks before "am"/"pm"), the 24-hour "H:MM"/"HH:MM" form and a bare
   * hour 0-23 are tried in that order. A 12-hour result outside the day
   * (such as "13pm", hour 25) raises when the time is built.
   */
  function ParseTime(t: string): (r: Option<int>)
    ensures r.Some? ==> 0 <= r.value < 1440
    ensures |t| == 0 ==> r.None?
  {
    if |t| == 0 then None
    else
      var u := CollapseSpaces(Lower(Strip(t)));
      match Match12(u, true)
      case Some(c) =>
        var hour := To24(c.hour, c.pm);
        if hour <= 23 && c.minute <= 59 then Some(hour * 60 + c.minute) else None
      case None =>
        match Match24(u)
        case Some(hm) => Some(hm.0 * 60 + hm.1)
        case None =>
          match MatchHourOnly(u)
          case Some(h) => if h <= 23 then Some(h * 60) else None
          case None => None
  }

  /** The three configured times all parse (otherwise validation itself raises). */
  predicate ValidConfig(cfg: Config) {
    ParseTime(cfg.StartText()).Some? && ParseTime(cfg.EndText()).Some? && ParseTime(cfg.CutoffText()).Some?
  }

  function OpenMinute(cfg: Config): (m: int)
    requires ValidConfig(cfg)
    ensures 0 <= m < 1440
  {
    ParseTime(cfg.StartText()).value
  }

  function CloseMinute(cfg: Config): (m: int)
    requires ValidConfig(cfg)
    ensures 0 <= m < 1440
  {
    ParseTime(cfg.EndText()).value
  }

  function CutoffMinute(cfg: Config): (m: int)
    requires ValidConfig(cfg)
    ensures 0 <= m < 1440
  {
    ParseTime(cfg.CutoffText()).value
  }

  /** The outcome of `validate_booking`: valid, or the slot to ask for again and why. */
  datatype Validation = Valid | Invalid(slot: Field, reason: Refusal)

  /** The message `validate_booking` gives for each refusal; times as "HH:MM". */
  function RefusalText(reason: Refusal): string {
    match reason
    case BadDate => "That date doesn’t look valid. Please try again."
    case BadTime => "That time doesn’t look valid. Please share a time like 3 PM or 15:30."
    case PastDate => "That date is in the past. Please choose a future date."
    case BeforeCutoff(cutoff) => "Same-day bookings are available only after " + HhMm(cutoff) + "."
    case OutsideHours(open, close) => "We're open from " + HhMm(open) + " to " + HhMm(close) + "."
  }

  /** The slot is acceptable: a date, a parsable time, not in the past, after the cutoff today, within opening hours. */
  predicate Acceptable(date: Option<Day>, time: string, cfg: Config, today: Day)
    requires ValidConfig(cfg)
  {
    date.Some? && ParseTime(time).Some? && date.value >= today
    && !(date.value == today && ParseTime(time).value < CutoffMinute(cfg))
    && OpenMinute(cfg) <= ParseTime(time).value <= CloseMinute(cfg)
  }

  /**
   * `validate_booking` with `today` the current UTC date. A missing date
   * stands for one that does not parse (every stored date is an ISO date).
   * The first failing check, in the order date, time, past, cutoff, hours,
   * decides the answer.
   */
  function ValidateBooking(date: Option<Day>, time: string, cfg: Config, today: Day): (r: Validation)
    requires ValidConfig(cfg)
    ensures r.Valid? <==> Acceptable(date, time, cfg, today)
    ensures r.Invalid? ==> (r.slot == DateField <==> date.None? || (ParseTime(time).Some? && date.value < today))
    ensures r.Invalid? ==> r.slot != ServiceField
    ensures date.None? ==> r == Invalid(DateField, BadDate)
    ensures date.Some? && ParseTime(time).None? ==> r == Invalid(TimeField, BadTime)
    ensures date.Some? && date.value < today && ParseTime(time).Some? ==> r == Invalid(DateField, PastDate)
  {
    if date.None? then Invalid(DateField, BadDate)
    else
      match ParseTime(time)
      case None => Invalid(TimeField, BadTime)
      case Some(m) =>
        if date.value < today then Invalid(DateField, PastDate)
        else if date.value == today && m < CutoffMinute(cfg) then Invalid(TimeField, BeforeCutoff(CutoffMinute(cfg)))
        else if m < OpenMinute(cfg) || m > CloseMinute(cfg) then
          Invalid(TimeField, OutsideHours(OpenMinute(cfg), CloseMinute(cfg)))
        else Valid
  }

  // ---------------------------------------------------------------------
  // Properties
  // ---------------------------------------------------------------------

  /** The cutoff only matters today: on a later day a time within opening hours is accepted. */
  lemma CutoffOnlyToday(date: Day, time: string, cfg: Config, today: Day)
    requires ValidConfig(cfg)
    requires date > today
    requires ParseTime(time).Some? && OpenMinute(cfg) <= ParseTime(time).value <= CloseMinute(cfg)
    ensures ValidateBooking(Some(date), time, cfg, today) == Valid
  {
  }

  /** A zero-padded "HH:MM" parses to the minute it names. */
  lemma ParseHhMm(x: string)
    requires IsHhMm(x)
    ensures ParseTime(x) == Some(MinutesOf(x))
  {
    var a := x[..2];
    var b := x[3..];
    assert x == a + ":" + b;
    assert x[0] == a[0] && x[1] == a[1] && x[3] == b[0] && x[4] == b[1];
    StripNoop(x);
    LowerNoUpper(x);
    CollapseNoSpace(x);
    DigitsValue2(a);
    DigitsValue2(b);
    assert HourText(a);
    assert MinuteText(b);
    assert x[|x| - 2..] == b;
  }

  lemma CollapseNoSpace(x: string)
    requires IsHhMm(x)
    ensures CollapseSpaces(x) == x
  {
    forall i | 0 <= i < |x| ensures !IsSpace(x[i]) {
      if i < 2 { assert x[i] == x[..2][i]; }
      else if i > 2 { assert x[i] == x[3..][i - 3]; }
    }
    CollapseNoSpaceAt(x);
  }

  lemma {:induction false} CollapseNoSpaceAt(x: string)
    requires forall i :: 0 <= i < |x| ==> !IsSpace(x[i])
    ensures CollapseSpaces(x) == x
    decreases |x|
  {
    if |x| > 0 {
      CollapseNoSpaceAt(x[1..]);
      assert [x[0]] + x[1..] == x;
    }
  }

  /**
   * A time in the normaliser's shape that passes the parser is a valid
   * zero-padded "HH:MM": the shapes "25:00", "18:75" or "100:00" are refused.
   */
  lemma ParsedTimeTextIsHhMm(t: string)
    requires TimeText(t) && ParseTime(t).Some?
    ensures IsHhMm(t)
  {
    TimeTextPlain(t);
    CleanNoop(t);
    TimeTextNot12(t);
    Match24IsHhMm(t);
  }

  /** A time in the normaliser's shape has no blanks and no capitals. */
  lemma TimeTextPlain(t: string)
    requires TimeText(t)
    ensures forall i :: 0 <= i < |t| ==> !IsSpace(t[i]) && !IsUpper(t[i])
  {
    forall i | 0 <= i < |t| ensures !IsSpace(t[i]) && !IsUpper(t[i]) {
      if i < |t| - 3 { assert t[i] == t[..|t| - 3][i]; }
      else if i > |t| - 3 { assert t[i] == t[|t| - 2..][i - (|t| - 2)]; }
    }
  }

  /** It ends in a digit, so it is no 12-hour text. */
  lemma TimeTextNot12(t: string)
    requires TimeText(t)
    ensures Match12(t, true).None?
  {
    assert t[|t| - 2..][1] == t[|t| - 1];
    assert IsDigit(t[|t| - 1]);
    assert "am"[1] == 'm' && "pm"[1] == 'm';
  }

  /** A 24-hour match of a text in the normaliser's shape is a valid "HH:MM". */
  lemma Match24IsHhMm(t: string)
    requires TimeText(t) && Match24(t).Some?
    ensures IsHhMm(t)
  {
    DigitsValue2(t[..2]);
    DigitsValue2(t[3..]);
  }

  /** The parser's clean-up leaves a text without blanks and capitals as it is. */
  lemma CleanNoop(u: string)
    requires forall i :: 0 <= i < |u| ==> !IsSpace(u[i]) && !IsUpper(u[i])
    ensures CollapseSpaces(Lower(Strip(u))) == u
  {
    StripNoop(u);
    LowerNoUpper(u);
    CollapseNoSpaceAt(u);
  }

  /** Digits followed by a two-letter suffix read as the 12-hour form with those digits. */
  lemma SuffixedDigits(ds: string, suffix: string)
    requires 1 <= |ds| <= 2 && AllDigits(ds)
    requires suffix == "am" || suffix == "pm"
    ensures CollapseSpaces(Lower(Strip(ds + suffix))) == ds + suffix
    ensures Match12(ds + suffix, true) == Some(Clock12(DigitsValue(ds), 0, suffix == "pm"))
  {
    var u := ds + suffix;
    forall i | 0 <= i < |u| ensures !IsSpace(u[i]) && !IsUpper(u[i]) {
      if i < |ds| { assert u[i] == ds[i]; } else { assert u[i] == suffix[i - |ds|]; }
    }
    CleanNoop(u);
    assert u[|u| - 2..] == suffix;
    assert u[..|u| - 2] == ds;
    NoSpaceTrimRight(ds);
    assert Clock12Body(ds) == Some((DigitsValue(ds) as int, 0));
  }

  /**
   * The 12-hour rule of the parser: hour 12 becomes 0 and "pm" adds 12, so
   * "12am" is midnight, "12pm" noon, and "6pm" 18:00.
   */
  lemma ParseTwelveHour(ds: string, pm: bool)
    requires 1 <= |ds| <= 2 && AllDigits(ds)
    requires 1 <= DigitsValue(ds) <= 12
    ensures ParseTime(ds + (if pm then "pm" else "am")) == Some(To24(DigitsValue(ds), pm) * 60)
  {
    var suffix := if pm then "pm" else "am";
    SuffixedDigits(ds, suffix);
    assert (suffix == "pm") == pm;
    ParseVia12(ds + suffix, Clock12(DigitsValue(ds), 0, pm));
  }

  /** A text whose cleaned form matches the 12-hour pattern is read by that rule alone. */
  lemma ParseVia12(t: string, c: Clock12)
    requires |t| > 0 && Match12(CollapseSpaces(Lower(Strip(t))), true) == Some(c)
    ensures ParseTime(t) == if To24(c.hour, c.pm) <= 23 && c.minute <= 59 then Some(To24(c.hour, c.pm) * 60 + c.minute) else None
  {
  }

  /** A one- or two-digit hour from 13 up followed by "pm" leaves the day, and the parser raises. */
  lemma ParseRejectsLatePm(ds: string)
    requires 1 <= |ds| <= 2 && AllDigits(ds)
    requires 13 <= DigitsValue(ds)
    ensures ParseTime(ds + "pm").None?
  {
    SuffixedDigits(ds, "pm");
    ParseVia12(ds + "pm", Clock12(DigitsValue(ds), 0, true));
  }
}
