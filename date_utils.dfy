/**
 * Date phrases in customer messages: resolving "next monday", "coming
 * friday" and "this sunday" against today's date, picking the date phrase
 * out of a longer message, and deciding whether a message mentions a date.
 *
 * Every pattern of the original is a sequence of words, each starting and
 * ending with a letter, so a `\b` around it is `NonWordAt` on both sides.
 */
module DateUtils {
  import opened Wrappers
  import opened Text
  import opened Records

  const Weekdays: seq<string> := ["monday", "tuesday", "wednesday", "thursday", "friday", "saturday", "sunday"]
  const Qualifiers: seq<string> := ["next", "coming", "this"]

  /** The word `w` as a whole word at `i`: `\bw\b`. */
  predicate WordAt(t: string, i: int, w: string) {
    NonWordAt(t, i - 1) && LiteralAt(t, i, w) && NonWordAt(t, i + |w|)
  }

  /** The first word of `ws` (from index `k`) that occurs whole at `i`. */
  function FirstWordAt(t: string, i: int, ws: seq<string>, k: nat): (r: Option<nat>)
    requires k <= |ws|
    ensures r.Some? ==> k <= r.value < |ws| && WordAt(t, i, ws[r.value])
    ensures r.Some? ==> forall j :: k <= j < r.value ==> !WordAt(t, i, ws[j])
    ensures r.None? ==> forall j :: k <= j < |ws| ==> !WordAt(t, i, ws[j])
    decreases |ws| - k
  {
    if k == |ws| then None
    else if WordAt(t, i, ws[k]) then Some(k)
    else FirstWordAt(t, i, ws, k + 1)
  }

  /**
   * `\bq\s+(monday|...|sunday)\b` at `i`: the index of the weekday and the
   * end of the match.
   */
  function QualifiedAt(t: string, i: int, q: string): (r: Option<(nat, nat)>)
    ensures r.Some? ==> r.value.0 < 7 && i + |q| < r.value.1 <= |t|
  {
    if NonWordAt(t, i - 1) && LiteralAt(t, i, q) && i + |q| < |t| && IsSpace(t[i + |q|]) then
      var e := SpaceEnd(t, i + |q|);
      match FirstWordAt(t, e, Weekdays, 0)
      case Some(d) => Some((d, e + |Weekdays[d]|))
      case None => None
    else None
  }

  // ---------------------------------------------------------------------
  // parse_date_us: the weekday branch
  // ---------------------------------------------------------------------

  /** `(next|coming|this)\s+weekday` at `i`: qualifier index, weekday index and end. */
  function WeekdayPhraseAt(t: string, i: int): (r: Option<(nat, nat, nat)>)
    ensures r.Some? ==> r.value.0 < 3 && r.value.1 < 7 && QualifiedAt(t, i, Qualifiers[r.value.0]) == Some((r.value.1, r.value.2))
  {
    match QualifiedAt(t, i, "next")
    case Some(m) => Some((0, m.0, m.1))
    case None =>
      match QualifiedAt(t, i, "coming")
      case Some(m) => Some((1, m.0, m.1))
      case None =>
        match QualifiedAt(t, i, "this")
        case Some(m) => Some((2, m.0, m.1))
        case None => None
  }

  /** `re.search` of the weekday phrase from position `i`: the leftmost match. */
  function FindWeekdayPhrase(t: string, i: nat): (r: Option<(nat, nat, nat, nat)>)
    ensures r.Some? ==> i <= r.value.0 <= |t|
    ensures r.Some? ==> WeekdayPhraseAt(t, r.value.0) == Some((r.value.1, r.value.2, r.value.3))
    ensures r.Some? ==> forall j :: i <= j < r.value.0 ==> WeekdayPhraseAt(t, j).None?
    ensures r.None? ==> forall j :: i <= j <= |t| ==> WeekdayPhraseAt(t, j).None?
    decreases |t| + 1 - i
  {
    if i > |t| then None
    else
      match WeekdayPhraseAt(t, i)
      case Some(m) => Some((i, m.0, m.1, m.2))
      case None => FindWeekdayPhrase(t, i + 1)
  }

  /**
   * The day a weekday phrase names: "this X" is today or the next X within
   * six days; "next X" and "coming X" are the next X strictly after today.
   */
  function ResolveWeekday(qualifier: nat, target: nat, today: Day): (d: Day)
    requires qualifier < 3 && target < 7
    ensures Weekday(d) == target
    ensures qualifier == 2 ==> today <= d <= today + 6
    ensures qualifier != 2 ==> today + 1 <= d <= today + 7
  {
    var ahead := (target - Weekday(today)) % 7;
    WeekdayAfter(today, ahead, target);
    if qualifier == 2 then today + ahead
    else if ahead == 0 then
      WeekdayAfter(today, 7, target);
      today + 7
    else today + ahead
  }

  lemma WeekdayAfter(today: Day, ahead: int, target: nat)
    requires target < 7
    requires ahead % 7 == (target - Weekday(today)) % 7
    ensures Weekday(today + ahead) == target
  {
  }

  /**
   * `parse_date_us` with `today` the business-local date and `fallback` the
   * third-party parser the original falls back to.
   */
  function ParseDateUs(text: string, today: Day, fallback: string -> Option<Day>): (r: Option<Day>)
    ensures |text| == 0 ==> r.None?
    ensures |text| > 0 && FindWeekdayPhrase(Lower(Strip(text)), 0).Some? ==>
      var m := FindWeekdayPhrase(Lower(Strip(text)), 0).value;
      r.Some? && Weekday(r.value) == m.2
      && (m.1 == 2 ==> today <= r.value <= today + 6)
      && (m.1 != 2 ==> today < r.value <= today + 7)
    ensures |text| > 0 && FindWeekdayPhrase(Lower(Strip(text)), 0).None? ==> r == fallback(Lower(Strip(text)))
  {
    if |text| == 0 then None
    else
      var cleaned := Lower(Strip(text));
      match FindWeekdayPhrase(cleaned, 0)
      case Some(m) => Some(ResolveWeekday(m.1, m.2, today))
      case None => fallback(cleaned)
  }

  // ---------------------------------------------------------------------
  // extract_date_phrase
  // ---------------------------------------------------------------------

  /** A search pattern: alternative whole words, or a qualifier, blanks and a weekday. */
  datatype Pattern = Words(ws: seq<string>) | Qualified(q: string)

  const PhrasePatterns: seq<Pattern> := [
    Words(["day after tomorrow", "tomorrow", "today"]),
    Qualified("next"),
    Qualified("coming"),
    Qualified("this"),
    Words(Weekdays),
    Words(["next week"])
  ]

  /** The end of a match of `p` that starts at `i`, if any. */
  function MatchEnd(t: string, i: int, p: Pattern): (r: Option<nat>)
    ensures r.Some? ==> 0 <= i <= r.value <= |t|
  {
    match p
    case Words(ws) =>
      (match FirstWordAt(t, i, ws, 0)
       case Some(k) => Some(i + |ws[k]|)
       case None => None)
    case Qualified(q) =>
      (match QualifiedAt(t, i, q)
       case Some(m) => Some(m.1)
       case None => None)
  }

  /** `re.search(p, t)` from position `i`: the leftmost start and its end. */
  function FirstMatch(t: string, p: Pattern, i: nat): (r: Option<(nat, nat)>)
    ensures r.Some? ==> i <= r.value.0 <= r.value.1 <= |t| && MatchEnd(t, r.value.0, p) == Some(r.value.1)
    ensures r.Some? ==> forall j :: i <= j < r.value.0 ==> MatchEnd(t, j, p).None?
    ensures r.None? ==> forall j :: i <= j <= |t| ==> MatchEnd(t, j, p).None?
    decreases |t| + 1 - i
  {
    if i > |t| then None
    else
      match MatchEnd(t, i, p)
      case Some(e) => Some((i, e))
      case None => FirstMatch(t, p, i + 1)
  }

  /** The first pattern of `ps` (from index `k`) with a match, and the text of its leftmost match. */
  function FirstPatternMatch(t: string, ps: seq<Pattern>, k: nat): (r: Option<(nat, string)>)
    requires k <= |ps|
    ensures r.Some? ==>
      (k <= r.value.0 < |ps|
       && FirstMatch(t, ps[r.value.0], 0).Some?
       && (var m := FirstMatch(t, ps[r.value.0], 0).value; r.value.1 == t[m.0..m.1]))
    ensures r.Some? ==> forall j :: k <= j < r.value.0 ==> FirstMatch(t, ps[j], 0).None?
    ensures r.None? ==> forall j :: k <= j < |ps| ==> FirstMatch(t, ps[j], 0).None?
    decreases |ps| - k
  {
    if k == |ps| then None
    else
      match FirstMatch(t, ps[k], 0)
      case Some(m) => Some((k, t[m.0..m.1]))
      case None => FirstPatternMatch(t, ps, k + 1)
  }

  /**
   * `extract_date_phrase`: the matched text of the first pattern, in
   * priority order, that occurs in the lower-cased message; otherwise the
   * message itself, unchanged.
   */
  function ExtractDatePhrase(text: string): (r: string)
    ensures FirstPatternMatch(Lower(text), PhrasePatterns, 0).None? ==> r == text
    ensures FirstPatternMatch(Lower(text), PhrasePatterns, 0).Some? ==> r == FirstPatternMatch(Lower(text), PhrasePatterns, 0).value.1
  {
    match FirstPatternMatch(Lower(text), PhrasePatterns, 0)
    case Some(m) => m.1
    case None => text
  }

  // ---------------------------------------------------------------------
  // user_mentioned_date
  // ---------------------------------------------------------------------

  const RelativeWords: seq<string> := ["today", "tomorrow", "day after tomorrow", "next week", "this week"]
  const QualifierPrefixes: seq<string> := ["next ", "coming ", "this "]

  /** Every word `jan(uary)?|feb(ruary)?|...|sep(t)?(ember)?|...|dec(ember)?` matches. */
  const MonthWords: seq<string> := [
    "jan", "january", "feb", "february", "mar", "march", "apr", "april", "may",
    "jun", "june", "jul", "july", "aug", "august", "sep", "sept", "sepember", "september",
    "oct", "october", "nov", "november", "dec", "december"
  ]

  predicate IsDateSeparator(c: char) { c == '/' || c == '-' }

  /**
   * `\b\d{1,2}[/-]\d{1,2}([/-]\d{2,4})?\b` at `i`. The optional year never
   * decides whether there is a match: where it matches, the separator in
   * front of it is already a word boundary for the shorter match.
   */
  predicate NumericDateAt(t: string, i: int) {
    NonWordAt(t, i - 1) && exists a, b :: 1 <= a <= 2 && 1 <= b <= 2 && NumericDateShape(t, i, a, b)
  }

  /** `a` digits, a separator, then `b` digits ending at a word boundary. */
  predicate NumericDateShape(t: string, i: int, a: int, b: int) {
    1 <= a <= 2 && 1 <= b <= 2 && DigitsAt(t, i, a) && i + a < |t| && IsDateSeparator(t[i + a])
    && DigitsAt(t, i + a + 1, b) && NonWordAt(t, i + a + 1 + b)
  }

  predicate HasNumericDate(t: string) { exists i :: 0 <= i <= |t| && NumericDateAt(t, i) }

  predicate HasMonthWord(t: string) {
    exists i :: 0 <= i <= |t| && FirstWordAt(t, i, MonthWords, 0).Some?
  }

  /** `user_mentioned_date`, tested on the lower-cased and stripped text. */
  predicate UserMentionedDate(text: string) {
    |text| > 0 &&
    var t := Strip(Lower(text));
    ContainsAny(t, Weekdays) || ContainsAny(t, RelativeWords) || ContainsAny(t, QualifierPrefixes)
    || HasNumericDate(t) || HasMonthWord(t)
  }

  // ---------------------------------------------------------------------
  // Properties
  // ---------------------------------------------------------------------

  /** A weekday name, "today", "tomorrow", "next week" or "this week" anywhere in the text is a date mention. */
  lemma DateWordMentionsDate(text: string, w: string)
    requires w in Weekdays + RelativeWords && Contains(Lower(text), w)
    ensures UserMentionedDate(text)
  {
    StripKeepsFactor(Lower(text), w);
    if w in Weekdays {
      ContainsListed(Strip(Lower(text)), Weekdays, w);
    } else {
      ContainsListed(Strip(Lower(text)), RelativeWords, w);
    }
  }

  /** A month and a day of one or two digits each, joined by "/" or "-", is a date mention. */
  lemma MonthDayMentionsDate(m: string, sep: char, d: string)
    requires 1 <= |m| <= 2 && 1 <= |d| <= 2 && AllDigits(m) && AllDigits(d) && IsDateSeparator(sep)
    ensures UserMentionedDate(m + [sep] + d)
  {
    var t := m + [sep] + d;
    LowerNoUpper(t);
    StripNoop(t);
    assert t[0..|m|] == m && t[|m| + 1..|m| + 1 + |d|] == d;
    assert NumericDateShape(t, 0, |m|, |d|);
    assert NumericDateAt(t, 0);
  }

  /** A text with no digit and none of the date words is no date mention. */
  lemma NoDateMention(text: string)
    requires forall i :: 0 <= i < |text| ==> !IsDigit(text[i])
    requires !ContainsAny(Lower(text), Weekdays + RelativeWords + QualifierPrefixes + MonthWords)
    ensures !UserMentionedDate(text)
  {
    var t := Strip(Lower(text));
    DigitFreeStripped(text);
    forall w | w in Weekdays + RelativeWords + QualifierPrefixes + MonthWords
      ensures !Contains(t, w)
    {
      if Contains(t, w) {
        StrippedFactor(Lower(text), w);
      }
    }
    forall i | 0 <= i <= |t| ensures !NumericDateAt(t, i) {
      if i < |t| { assert !IsDigit(t[i]); }
    }
    forall i | 0 <= i <= |t| ensures FirstWordAt(t, i, MonthWords, 0).None? {
      var r := FirstWordAt(t, i, MonthWords, 0);
      if r.Some? {
        assert LiteralAt(t, i, MonthWords[r.value]);
        assert Contains(t, MonthWords[r.value]);
      }
    }
  }

  /** "this X" is never more than six days ahead, and is today when today is X. */
  lemma ThisWeekday(target: nat, today: Day)
    requires target < 7
    ensures Weekday(today) == target ==> ResolveWeekday(2, target, today) == today
    ensures ResolveWeekday(2, target, today) - today == (target - Weekday(today)) % 7
  {
  }

  /** "next X" on an X is a week ahead, never today. */
  lemma NextWeekdaySameDay(target: nat, today: Day)
    requires target < 7 && Weekday(today) == target
    ensures ResolveWeekday(0, target, today) == today + 7
    ensures ResolveWeekday(1, target, today) == today + 7
  {
  }

  /** "next X" and "coming X" name the same day. */
  lemma NextIsComing(target: nat, today: Day)
    requires target < 7
    ensures ResolveWeekday(0, target, today) == ResolveWeekday(1, target, today)
  {
  }

  /**
   * A message without whitespace ("monday", "tomorrow", "01/20") has no
   * qualified weekday phrase and goes to the fallback parser.
   */
  lemma NoBlankFallsBack(text: string, today: Day, fallback: string -> Option<Day>)
    requires |text| > 0
    requires forall i :: 0 <= i < |text| ==> !IsSpace(text[i])
    ensures ParseDateUs(text, today, fallback) == fallback(Lower(Strip(text)))
  {
    var t := Strip(text);
    StripChars(text);
    var c := Lower(t);
    forall i | 0 <= i <= |c| ensures WeekdayPhraseAt(c, i).None? {
      NoBlankNoPhrase(c, i);
    }
  }

  /** Qualifier and weekday need whitespace between them. */
  lemma NoBlankNoPhrase(c: string, i: int)
    requires forall k :: 0 <= k < |c| ==> !IsSpace(c[k])
    ensures WeekdayPhraseAt(c, i).None?
  {
  }
}
