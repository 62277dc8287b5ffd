/**
 * The precedence rules that combine the language model's structured fields
 * with what the user's own words say.
 */
module Extraction {
  import opened Wrappers
  import opened Text
  import opened Clock
  import opened TimeUtils
  import opened DateUtils
  import opened Records

  /**
   * `safe_extract_date`: the model's date when it parses; otherwise, only
   * when the user's text mentions a date, the date of its date phrase, and
   * failing that the date of the whole text. `llmDate` is "" when absent.
   */
  function SafeExtractDate(llmDate: string, text: string, today: Day, fallback: string -> Option<Day>): (r: Option<Day>)
    ensures ParseDateUs(llmDate, today, fallback).Some? ==> r == ParseDateUs(llmDate, today, fallback)
    ensures ParseDateUs(llmDate, today, fallback).None? && !UserMentionedDate(text) ==> r.None?
    ensures ParseDateUs(llmDate, today, fallback).None? && UserMentionedDate(text) ==>
      r == (if ParseDateUs(ExtractDatePhrase(text), today, fallback).Some?
            then ParseDateUs(ExtractDatePhrase(text), today, fallback)
            else ParseDateUs(text, today, fallback))
  {
    var fromModel := if |llmDate| > 0 then ParseDateUs(llmDate, today, fallback) else None;
    if fromModel.Some? then fromModel
    else if UserMentionedDate(text) then
      var fromPhrase := ParseDateUs(ExtractDatePhrase(text), today, fallback);
      if fromPhrase.Some? then fromPhrase else ParseDateUs(text, today, fallback)
    else None
  }

  /**
   * `safe_extract_time`: a non-empty model time is normalised and decides
   * alone, even when it does not normalise; otherwise a time is inferred from
   * the text only when the text mentions one. `llmTime` is "" when absent.
   */
  function SafeExtractTime(llmTime: string, text: string): (r: Option<string>)
    ensures |llmTime| > 0 ==> r == NormalizeTime(llmTime)
    ensures |llmTime| == 0 && !UserMentionedTime(text) ==> r.None?
    ensures |llmTime| == 0 && UserMentionedTime(text) ==> r == InferTimeFromText(text)
    ensures r.Some? ==> TimeText(r.value)
  {
    if |llmTime| > 0 then NormalizeTime(llmTime)
    else if UserMentionedTime(text) then InferTimeFromText(text)
    else None
  }

  /** A date the model gave and that resolves as a weekday phrase is taken, whatever the text says. */
  lemma ModelWeekdayWins(llmDate: string, text: string, today: Day, fallback: string -> Option<Day>)
    requires |llmDate| > 0 && FindWeekdayPhrase(Lower(Strip(llmDate)), 0).Some?
    ensures SafeExtractDate(llmDate, text, today, fallback).Some?
    ensures Weekday(SafeExtractDate(llmDate, text, today, fallback).value)
            == FindWeekdayPhrase(Lower(Strip(llmDate)), 0).value.2
  {
  }

  /** A model time that does not normalise hides a time the text states. */
  lemma BadModelTimeHidesText(text: string)
    requires UserMentionedTime(text)
    ensures SafeExtractTime("noon", text).None?
  {
    var u := "noon";
    StripNoop(u);
    LowerNoUpper(u);
    RemoveBlanksNoBlank(u);
    NoonNoBucket();
    NoonNoClock();
  }

  /** "noon" names none of the day-part buckets. */
  lemma NoonNoBucket()
    ensures BucketTime("noon").None?
  {
    var u := "noon";
    MissingCharNotContained(u, "morning", 'm');
    MissingCharNotContained(u, "afternoon", 'a');
    MissingCharNotContained(u, "evening", 'e');
    MissingCharNotContained(u, "night", 'i');
  }

  /** "noon" has no digits, so no clock form matches it. */
  lemma NoonNoClock()
    ensures NormalizeClock("noon").None?
  {
    var u := "noon";
    assert u[|u| - 2..] == "on";
    assert !IsDigit(u[0]);
  }
}
