/**
 * Time normalisation for the booking conversation: turning what a customer
 * wrote ("6 pm", "6:30pm", "15:30", "evening", "6") into a 24-hour "HH:MM",
 * deciding whether a message mentions a time at all, and rendering "HH:MM"
 * back as "h:MM AM/PM" for replies.
 *
 * The regular expressions of the original are modelled by deterministic
 * matchers (for anchored matches) and by "a match starts at position i"
 * predicates (for searches); `\b` is `NonWordAt` on both sides.
 */
module TimeUtils {
  import opened Wrappers
  import opened Text
  import opened Clock

  // ---------------------------------------------------------------------
  // Anchored matchers shared with the business-rule time parser
  // ---------------------------------------------------------------------

  /** A 12-hour time as written: hour and minute as typed, and whether it was "pm". */
  datatype Clock12 = Clock12(hour: int, minute: int, pm: bool)

  /** `(\d{1,2})(?::(\d{2}))?` matched against the whole of `body`: (hour, minute). */
  function Clock12Body(body: string): (r: Option<(int, int)>)
    ensures r.Some? ==> 0 <= r.value.0 < 100 && 0 <= r.value.1 < 100
  {
    if 1 <= |body| <= 2 && AllDigits(body) then
      DigitsValueShort(body);
      Some((DigitsValue(body), 0))
    else if 4 <= |body| <= 5 && body[|body| - 3] == ':'
      && AllDigits(body[..|body| - 3]) && AllDigits(body[|body| - 2..]) then
      var h := body[..|body| - 3];
      var m := body[|body| - 2..];
      DigitsValueShort(h);
      DigitsValue2(m);
      Some((DigitsValue(h), DigitsValue(m)))
    else None
  }

  /**
   * `re.match(r"^(\d{1,2})(?::(\d{2}))?(am|pm)$", u)`; when `spaced` holds the
   * pattern also allows `\s*` before the suffix.
   */
  function Match12(u: string, spaced: bool): (r: Option<Clock12>)
    ensures r.Some? ==> 0 <= r.value.hour < 100 && 0 <= r.value.minute < 100
    ensures r.Some? ==> |u| >= 3 && u[|u| - 2..] in {"am", "pm"}
    ensures r.Some? ==> (r.value.pm <==> u[|u| - 2..] == "pm")
  {
    if |u| < 3 then None
    else
      var suffix := u[|u| - 2..];
      if suffix != "am" && suffix != "pm" then None
      else
        var body := if spaced then TrimRight(u[..|u| - 2]) else u[..|u| - 2];
        match Clock12Body(body)
        case Some(hm) => Some(Clock12(hm.0, hm.1, suffix == "pm"))
        case None => None
  }

  /** The 12-hour rule: hour 12 becomes 0, then "pm" adds 12. No range check. */
  function To24(hour: int, pm: bool): int {
    var h := if hour == 12 then 0 else hour;
    if pm then h + 12 else h
  }

  /** `[01]?\d|2[0-3]` matched by two characters. */
  predicate HourText(a: string) {
    |a| == 2 && (('0' <= a[0] <= '1' && IsDigit(a[1])) || (a[0] == '2' && '0' <= a[1] <= '3'))
  }

  /** `[0-5]\d` */
  predicate MinuteText(b: string) {
    |b| == 2 && '0' <= b[0] <= '5' && IsDigit(b[1])
  }

  /** `re.match(r"^([01]?\d|2[0-3]):([0-5]\d)$", u)`: (hour, minute). */
  function Match24(u: string): (r: Option<(int, int)>)
    ensures r.Some? ==> 0 <= r.value.0 <= 23 && 0 <= r.value.1 <= 59
  {
    if |u| == 4 && IsDigit(u[0]) && u[1] == ':' && MinuteText(u[2..]) then
      DigitsValue2(u[2..]);
      Some((DigitValue(u[0]), DigitsValue(u[2..])))
    else if |u| == 5 && HourText(u[..2]) && u[2] == ':' && MinuteText(u[3..]) then
      DigitsValue2(u[..2]);
      DigitsValue2(u[3..]);
      Some((DigitsValue(u[..2]), DigitsValue(u[3..])))
    else None
  }

  /** `re.match(r"^(\d{1,2})$", u)` */
  function MatchHourOnly(u: string): (r: Option<int>)
    ensures r.Some? ==> 0 <= r.value < 100
  {
    if 1 <= |u| <= 2 && AllDigits(u) then
      DigitsValueShort(u);
      Some(DigitsValue(u))
    else None
  }

  // ---------------------------------------------------------------------
  // normalize_time
  // ---------------------------------------------------------------------

  /** The time-of-day words and the times they stand for, in the order they are tried. */
  const Buckets: seq<string> := ["morning", "afternoon", "evening", "night"]
  const BucketTimes: seq<string> := ["10:00", "14:00", "18:00", "19:30"]

  /** The first bucket word contained in `t`, tried in the fixed order. */
  function BucketTime(t: string): (r: Option<string>)
    ensures r.Some? <==> ContainsAny(t, Buckets)
  {
    if Contains(t, "morning") then Some("10:00")
    else if Contains(t, "afternoon") then Some("14:00")
    else if Contains(t, "evening") then Some("18:00")
    else if Contains(t, "night") then Some("19:30")
    else None
  }

  /**
   * `normalize_time`: a bucket word wins; otherwise blanks are removed and the
   * 12-hour, 24-hour and hour-only forms are tried in that order.
   */
  function NormalizeTime(text: string): (r: Option<string>)
    ensures |text| == 0 ==> r.None?
    ensures r.Some? ==> TimeText(r.value)
  {
    if |text| == 0 then None
    else
      var t := Lower(Strip(text));
      match BucketTime(t)
      case Some(b) => BucketShapes(t); Some(b)
      case None => NormalizeClock(RemoveBlanks(t))
  }

  /** The part of `normalize_time` after blanks are removed: 12-hour, 24-hour, then hour only. */
  function NormalizeClock(u: string): (r: Option<string>)
    ensures r.Some? ==> TimeText(r.value)
  {
    match Match12(u, false)
    case Some(c) =>
      PadTimeText(To24(c.hour, c.pm), c.minute);
      Some(Pad2(To24(c.hour, c.pm)) + ":" + Pad2(c.minute))
    case None =>
      match Match24(u)
      case Some(hm) =>
        PadTimeText(hm.0, hm.1);
        Some(Pad2(hm.0) + ":" + Pad2(hm.1))
      case None =>
        match MatchHourOnly(u)
        case Some(h) =>
          if h <= 23 then PadTimeText(h, 0); Some(Pad2(h) + ":00") else None
        case None => None
  }

  lemma PadTimeText(h: int, m: int)
    requires 0 <= h && 0 <= m < 100
    ensures TimeText(Pad2(h) + ":" + Pad2(m))
    ensures Pad2(0) == "00"
  {
    var s := Pad2(h) + ":" + Pad2(m);
    assert s[..|s| - 3] == Pad2(h);
    assert s[|s| - 2..] == Pad2(m);
    assert NatToString(0) == "0";
  }

  // ---------------------------------------------------------------------
  // Searches: "a match of the pattern starts at position i"
  // ---------------------------------------------------------------------

  /** `\s*(am|pm)\b` starting at `p`. */
  predicate AmPmTail(t: string, p: int) {
    0 <= p <= |t| &&
    var e := SpaceEnd(t, p);
    (LiteralAt(t, e, "am") || LiteralAt(t, e, "pm")) && NonWordAt(t, e + 2)
  }

  /** `\b(\d{1,2})(:\d{2})?\s*(am|pm)\b` starting at `i`. */
  predicate AmPmAt(t: string, i: int) {
    NonWordAt(t, i - 1) &&
    exists n :: 1 <= n <= 2 && DigitsAt(t, i, n) &&
      (AmPmTail(t, i + n) || (LiteralAt(t, i + n, ":") && DigitsAt(t, i + n + 1, 2) && AmPmTail(t, i + n + 3)))
  }

  /** `[01]?\d|2[0-3]` matched by the `n` characters at `i`. */
  predicate HourDigitsAt(t: string, i: int, n: int) {
    (n == 1 && DigitsAt(t, i, 1)) || (n == 2 && 0 <= i && i + 2 <= |t| && HourText(t[i..i + 2]))
  }

  /** `\b([01]?\d|2[0-3]):[0-5]\d\b` starting at `i`. */
  predicate ClockAt(t: string, i: int) {
    NonWordAt(t, i - 1) &&
    exists n :: 1 <= n <= 2 && HourDigitsAt(t, i, n) && LiteralAt(t, i + n, ":")
      && i + n + 3 <= |t| && MinuteText(t[i + n + 1..i + n + 3]) && NonWordAt(t, i + n + 3)
  }

  /** `\b\d{1,2}\b` starting at `i`: a whole word of one or two digits. */
  predicate NumberAt(t: string, i: int) {
    NonWordAt(t, i - 1) && exists n :: 1 <= n <= 2 && DigitsAt(t, i, n) && NonWordAt(t, i + n)
  }

  const ContextWords: seq<string> := ["at", "around", "by"]

  /** `\b(at|around|by)\s*\d{1,2}\b` starting at `i`. */
  predicate ContextHourAt(t: string, i: int) {
    NonWordAt(t, i - 1) &&
    exists k :: 0 <= k < |ContextWords| && LiteralAt(t, i, ContextWords[k]) &&
      var e := SpaceEnd(t, i + |ContextWords[k]|);
      exists n :: 1 <= n <= 2 && DigitsAt(t, e, n) && NonWordAt(t, e + n)
  }

  predicate HasAmPm(t: string) { exists i :: 0 <= i <= |t| && AmPmAt(t, i) }
  predicate HasClock(t: string) { exists i :: 0 <= i <= |t| && ClockAt(t, i) }
  predicate HasNumber(t: string) { exists i :: 0 <= i <= |t| && NumberAt(t, i) }
  predicate HasContextHour(t: string) { exists i :: 0 <= i <= |t| && ContextHourAt(t, i) }

  // ---------------------------------------------------------------------
  // infer_time_from_text, user_mentioned_time
  // ---------------------------------------------------------------------

  /**
   * `infer_time_from_text`: a bucket word in the lower-cased text, or else, when
   * an am/pm, clock or bare-number pattern is present, `normalize_time` of the
   * whole original text.
   */
  function InferTimeFromText(text: string): (r: Option<string>)
    ensures r.Some? ==> ContainsAny(Lower(text), Buckets) || HasAmPm(Lower(text))
                        || HasClock(Lower(text)) || HasNumber(Lower(text))
    ensures r.Some? ==> TimeText(r.value)
    ensures |text| > 0 && !ContainsAny(Lower(text), Buckets) && r.Some? ==> r == NormalizeTime(text)
  {
    if |text| == 0 then None
    else
      var t := Lower(text);
      match BucketTime(t)
      case Some(b) => BucketShapes(t); Some(b)
      case None =>
        if HasAmPm(t) || HasClock(t) || HasNumber(t) then NormalizeTime(text) else None
  }

  lemma BucketShapes(t: string)
    ensures BucketTime(t).Some? ==> TimeText(BucketTime(t).value)
  {
    assert TimeText("10:00") && TimeText("14:00") && TimeText("18:00");
    assert "19:30"[..2] == "19" && "19:30"[3..] == "30";
  }

  /**
   * `user_mentioned_time`: a bucket word, an am/pm time, a 24-hour clock time,
   * a number after "at"/"around"/"by", or a text that is only a one- or two-digit number.
   */
  predicate UserMentionedTime(text: string) {
    |text| > 0 &&
    var t := Strip(Lower(text));
    ContainsAny(t, Buckets) || HasAmPm(t) || HasClock(t) || HasContextHour(t)
    || (1 <= |t| <= 2 && AllDigits(t))
  }

  // ---------------------------------------------------------------------
  // format_time_for_user
  // ---------------------------------------------------------------------

  /** " PM" for afternoon and evening hours, " AM" otherwise. */
  function AmPmSuffix(pm: bool): string { if pm then " PM" else " AM" }

  /** The hour shown on a 12-hour clock: hours 0 and 12 show as 12. */
  function DisplayHour(h: int): (d: int)
    ensures 1 <= d <= 12
    ensures d % 12 == h % 12
  {
    if h % 12 == 0 then 12 else h % 12
  }

  /**
   * `format_time_for_user`: "18:00" becomes "6:00 PM". A text that does not
   * split into exactly two integer parts at ":" is returned unchanged.
   */
  function FormatTimeForUser(hhmm: string): (r: string)
    ensures |Split(hhmm, ':')| != 2 ==> r == hhmm
    ensures IsHhMm(hhmm) ==>
      var h := DigitsValue(hhmm[..2]);
      r == IntToString(DisplayHour(h)) + ":" + hhmm[3..] + AmPmSuffix(h >= 12)
  {
    var parts := Split(hhmm, ':');
    FormatValid(hhmm);
    if |parts| != 2 then hhmm
    else
      match (PyInt(parts[0]), PyInt(parts[1]))
      case (Some(h), Some(m)) =>
        IntToString(DisplayHour(h)) + ":" + Pad2(m) + AmPmSuffix(h >= 12)
      case _ => hhmm
  }

  lemma FormatValid(hhmm: string)
    ensures IsHhMm(hhmm) ==>
      Split(hhmm, ':') == [hhmm[..2], hhmm[3..]]
      && PyInt(hhmm[..2]) == Some(DigitsValue(hhmm[..2]) as int)
      && PyInt(hhmm[3..]) == Some(DigitsValue(hhmm[3..]) as int)
      && Pad2(DigitsValue(hhmm[3..])) == hhmm[3..]
  {
    if IsHhMm(hhmm) {
      var a := hhmm[..2];
      var b := hhmm[3..];
      assert hhmm == a + [':'] + b;
      NotInDigits(a, ':');
      NotInDigits(b, ':');
      SplitOnce(a, b, ':');
      PyIntOfDigits(a);
      PyIntOfDigits(b);
      Pad2OfDigits(b);
    }
  }

  // ---------------------------------------------------------------------
  // Properties
  // ---------------------------------------------------------------------

  /** A valid "HH:MM" is already normalised. */
  lemma NormalizeHhMm(x: string)
    requires IsHhMm(x)
    ensures NormalizeTime(x) == Some(x)
  {
    var a := x[..2];
    var b := x[3..];
    assert x == a + ":" + b;
    assert x[0] == a[0] && x[1] == a[1] && x[3] == b[0] && x[4] == b[1];
    StripNoop(x);
    LowerNoUpper(x);
    NoLettersNoBucket(x);
    NotInDigits(a, ' ');
    NotInDigits(b, ' ');
    RemoveBlanksNoBlank(x);
    DigitsValue2(a);
    DigitsValue2(b);
    assert HourText(a);
    assert MinuteText(b);
    Pad2OfDigits(a);
    Pad2OfDigits(b);
  }

  /** A text in which no lower-case letter occurs contains no bucket word. */
  lemma NoLettersNoBucket(t: string)
    requires forall i :: 0 <= i < |t| ==> !IsLower(t[i])
    ensures BucketTime(t).None?
  {
    MissingCharNotContained(t, "morning", 'o');
    MissingCharNotContained(t, "afternoon", 'f');
    MissingCharNotContained(t, "evening", 'e');
    MissingCharNotContained(t, "night", 'n');
  }

  /** Only the four letters of "am"/"pm" and no others: no bucket word either. */
  lemma AmPmLettersNoBucket(t: string)
    requires forall i :: 0 <= i < |t| ==> !IsLower(t[i]) || t[i] in "apm"
    ensures BucketTime(t).None?
  {
    MissingCharNotContained(t, "morning", 'o');
    MissingCharNotContained(t, "afternoon", 'f');
    MissingCharNotContained(t, "evening", 'e');
    MissingCharNotContained(t, "night", 'n');
  }

  /** The 12-hour display of an hour converts back to that hour. */
  lemma To24OfDisplay(h: int)
    requires 0 <= h <= 23
    ensures To24(DisplayHour(h), h >= 12) == h
  {
  }

  /** The two-letter suffix that the 12-hour matcher reads. */
  function LowSuffix(pm: bool): string { if pm then "pm" else "am" }

  lemma DisplayLowered(b: string, pm: bool)
    requires |b| > 0 && IsDigit(b[0])
    requires forall i :: 0 <= i < |b| ==> !IsUpper(b[i])
    ensures Lower(Strip(b + AmPmSuffix(pm))) == b + " " + LowSuffix(pm)
  {
    var s := b + AmPmSuffix(pm);
    assert s[0] == b[0];
    assert s[|s| - 1] == 'M';
    StripNoop(s);
    LowerConcat(b, AmPmSuffix(pm));
    LowerNoUpper(b);
  }

  lemma DisplayNoBucket(b: string, pm: bool)
    requires forall i :: 0 <= i < |b| ==> !IsLower(b[i])
    ensures BucketTime(b + " " + LowSuffix(pm)).None?
  {
    var t := b + " " + LowSuffix(pm);
    forall i | 0 <= i < |t| ensures !IsLower(t[i]) || t[i] in "apm" {
      if i < |b| { assert t[i] == b[i]; }
    }
    AmPmLettersNoBucket(t);
  }

  lemma DisplayBlanks(b: string, pm: bool)
    requires ' ' !in b
    ensures RemoveBlanks(b + " " + LowSuffix(pm)) == b + LowSuffix(pm)
  {
    RemoveBlanksNoBlank(b);
    assert b + " " + LowSuffix(pm) == b + (" " + LowSuffix(pm));
    RemoveBlanksConcat(b, " " + LowSuffix(pm));
    assert (" " + LowSuffix(pm))[1..] == LowSuffix(pm);
    RemoveBlanksNoBlank(LowSuffix(pm));
  }

  lemma DisplayClock(d: int, mm: string, pm: bool)
    requires 1 <= d <= 12
    requires |mm| == 2 && AllDigits(mm)
    ensures NormalizeClock(IntToString(d) + ":" + mm + LowSuffix(pm))
            == Some(Pad2(To24(d, pm)) + ":" + Pad2(DigitsValue(mm)))
  {
    var body := IntToString(d) + ":" + mm;
    var u := body + LowSuffix(pm);
    DisplayBody(d, mm);
    assert u[|u| - 2..] == LowSuffix(pm);
    assert u[..|u| - 2] == body;
    assert Match12(u, false) == Some(Clock12(d, DigitsValue(mm), pm));
  }

  /** The displayed "h:MM" reads back as the hour and the minute. */
  lemma DisplayBody(d: int, mm: string)
    requires 1 <= d <= 12
    requires |mm| == 2 && AllDigits(mm)
    ensures Clock12Body(IntToString(d) + ":" + mm) == Some((d, DigitsValue(mm) as int))
  {
    var ds := IntToString(d);
    assert ds == NatToString(d);
    var body := ds + ":" + mm;
    assert body[..|body| - 3] == ds;
    assert body[|body| - 2..] == mm;
    NatValueRoundTrip(d);
    if d >= 10 { NatLength2(d); }
  }

  /** `normalize_time` reads a displayed "h:MM AM/PM" back as the 24-hour time. */
  lemma NormalizeDisplayed(d: int, mm: string, pm: bool)
    requires 1 <= d <= 12
    requires |mm| == 2 && AllDigits(mm)
    ensures NormalizeTime(IntToString(d) + ":" + mm + AmPmSuffix(pm))
            == Some(Pad2(To24(d, pm)) + ":" + Pad2(DigitsValue(mm)))
  {
    var ds := IntToString(d);
    assert ds == NatToString(d);
    var b := ds + ":" + mm;
    forall i | 0 <= i < |b| ensures IsDigit(b[i]) || b[i] == ':' {
      if i < |ds| { assert b[i] == ds[i]; }
      else if i > |ds| { assert b[i] == mm[i - |ds| - 1]; }
    }
    DisplayLowered(b, pm);
    DisplayNoBucket(b, pm);
    DisplayBlanks(b, pm);
    DisplayClock(d, mm, pm);
  }

  /**
   * Round trip: the text shown to the customer for a valid "HH:MM" normalises
   * back to the same "HH:MM".
   */
  lemma NormalizeFormatRoundTrip(x: string)
    requires IsHhMm(x)
    ensures NormalizeTime(FormatTimeForUser(x)) == Some(x)
  {
    var h, mm := DigitsValue(x[..2]), x[3..];
    assert FormatTimeForUser(x) == IntToString(DisplayHour(h)) + ":" + mm + AmPmSuffix(h >= 12);
    NormalizeDisplayed(DisplayHour(h), mm, h >= 12);
    To24OfDisplay(h);
    Pad2OfDigits(x[..2]);
    Pad2OfDigits(mm);
    HhMmSplit(x);
  }

  /** Normalising twice changes nothing once the result is a valid clock time. */
  lemma NormalizeIdempotent(text: string)
    requires NormalizeTime(text).Some? && IsHhMm(NormalizeTime(text).value)
    ensures NormalizeTime(NormalizeTime(text).value) == NormalizeTime(text)
  {
    NormalizeHhMm(NormalizeTime(text).value);
  }

  /**
   * The 12-hour branch has no range check: a one- or two-digit hour followed by
   * "pm" adds 12 whatever the hour, so "13pm" becomes "25:00".
   */
  lemma TwelveHourNoRangeCheck(ds: string)
    requires 1 <= |ds| <= 2 && AllDigits(ds)
    ensures NormalizeClock(ds + "pm") == Some(Pad2(To24(DigitsValue(ds), true)) + ":00")
  {
    var u := ds + "pm";
    assert u[|u| - 2..] == "pm";
    assert u[..|u| - 2] == ds;
    assert Clock12Body(ds) == Some((DigitsValue(ds), 0));
    assert Match12(u, false) == Some(Clock12(DigitsValue(ds), 0, true));
    var hh := Pad2(To24(DigitsValue(ds), true));
    assert NormalizeClock(u) == Some(hh + ":" + Pad2(0));
    Pad2Zero();
    assert hh + ":" + Pad2(0) == hh + ":00";
  }

  /** "morning", "afternoon", "evening" or "night" anywhere in the text is a time mention. */
  lemma BucketMentionsTime(text: string, w: string)
    requires w in Buckets && Contains(Lower(text), w)
    ensures UserMentionedTime(text)
  {
    StripKeepsFactor(Lower(text), w);
    ContainsListed(Strip(Lower(text)), Buckets, w);
  }

  /** Every time pattern but the bucket words needs a digit: a text with neither is no time mention. */
  lemma NoTimeMention(text: string)
    requires forall i :: 0 <= i < |text| ==> !IsDigit(text[i])
    requires !ContainsAny(Lower(text), Buckets)
    ensures !UserMentionedTime(text)
  {
    var t := Strip(Lower(text));
    DigitFreeStripped(text);
    forall w | w in Buckets ensures !Contains(t, w) {
      if Contains(t, w) {
        StrippedFactor(Lower(text), w);
      }
    }
    DigitFreeNoPattern(t);
  }

  /** The am/pm, clock, context-hour and bare-number patterns each need a digit. */
  lemma DigitFreeNoPattern(t: string)
    requires forall i :: 0 <= i < |t| ==> !IsDigit(t[i])
    ensures !HasAmPm(t) && !HasClock(t) && !HasContextHour(t) && !(1 <= |t| <= 2 && AllDigits(t))
  {
    forall i | 0 <= i <= |t| ensures !AmPmAt(t, i) {
      DigitFreeNoDigitsAt(t, i);
    }
    forall i | 0 <= i <= |t| ensures !ClockAt(t, i) {
      DigitFreeNoClock(t, i);
    }
    forall i | 0 <= i <= |t| ensures !ContextHourAt(t, i) {
      DigitFreeNoContextHour(t, i);
    }
    if 1 <= |t| { assert !IsDigit(t[0]); }
  }

  lemma DigitFreeNoClock(t: string, i: int)
    requires forall j :: 0 <= j < |t| ==> !IsDigit(t[j])
    ensures !ClockAt(t, i)
  {
    DigitFreeNoDigitsAt(t, i);
    if 0 <= i && i + 2 <= |t| { assert t[i..i + 2][0] == t[i]; }
  }

  lemma DigitFreeNoContextHour(t: string, i: int)
    requires forall j :: 0 <= j < |t| ==> !IsDigit(t[j])
    ensures !ContextHourAt(t, i)
  {
    forall k | 0 <= k < |ContextWords| && LiteralAt(t, i, ContextWords[k]) {
      DigitFreeNoDigitsAt(t, SpaceEnd(t, i + |ContextWords[k]|));
    }
  }

  /** No run of one or two digits starts anywhere in a text without digits. */
  lemma DigitFreeNoDigitsAt(t: string, i: int)
    requires forall j :: 0 <= j < |t| ==> !IsDigit(t[j])
    ensures !DigitsAt(t, i, 1) && !DigitsAt(t, i, 2)
  {
    if 0 <= i < |t| {
      assert t[i..i + 1][0] == t[i];
      if i + 2 <= |t| { assert t[i..i + 2][0] == t[i]; }
    }
  }

  /**
   * Without letters or a colon, a text mentions a time exactly when the whole
   * stripped text is a one- or two-digit number.
   */
  lemma BareNumberOnlyAlone(text: string)
    requires forall i :: 0 <= i < |text| ==> !IsAlpha(text[i]) && text[i] != ':'
    ensures UserMentionedTime(text) <==> (var t := Strip(Lower(text)); 1 <= |t| <= 2 && AllDigits(t))
  {
    var t := Strip(Lower(text));
    if |text| > 0 {
      LowerNoUpper(text);
      StripChars(text);
      LetterFree(t);
    }
  }

  /** Every word the time patterns need contains a letter or a colon. */
  lemma LetterFree(t: string)
    requires forall i :: 0 <= i < |t| ==> !IsAlpha(t[i]) && t[i] != ':'
    ensures !ContainsAny(t, Buckets) && !HasAmPm(t) && !HasClock(t) && !HasContextHour(t)
  {
    forall k | 0 <= k < |Buckets| ensures !Contains(t, Buckets[k]) {
      MissingCharNotContained(t, Buckets[k], Buckets[k][0]);
    }
    LetterFreeAmPm(t);
    LetterFreeClock(t);
    LetterFreeContext(t);
  }

  lemma LetterFreeAmPm(t: string)
    requires forall i :: 0 <= i < |t| ==> !IsAlpha(t[i])
    ensures !HasAmPm(t)
  {
    forall p ensures !AmPmTail(t, p) {
      NoAmPmTail(t, p);
    }
  }

  /** "am" and "pm" are letters, so a text without letters has no am/pm tail. */
  lemma NoAmPmTail(t: string, p: int)
    requires forall i :: 0 <= i < |t| ==> !IsAlpha(t[i])
    ensures !AmPmTail(t, p)
  {
    if 0 <= p <= |t| {
      var e := SpaceEnd(t, p);
      MissingCharNoLiteral(t, e, "am", 'a');
      MissingCharNoLiteral(t, e, "pm", 'p');
    }
  }

  lemma LetterFreeClock(t: string)
    requires forall i :: 0 <= i < |t| ==> t[i] != ':'
    ensures !HasClock(t)
  {
    forall p ensures !LiteralAt(t, p, ":") {
      MissingCharNoLiteral(t, p, ":", ':');
    }
  }

  lemma LetterFreeContext(t: string)
    requires forall i :: 0 <= i < |t| ==> !IsAlpha(t[i])
    ensures !HasContextHour(t)
  {
    forall i, k | 0 <= k < |ContextWords| ensures !LiteralAt(t, i, ContextWords[k]) {
      assert IsAlpha(ContextWords[k][0]);
      MissingCharNoLiteral(t, i, ContextWords[k], ContextWords[k][0]);
    }
  }
}
