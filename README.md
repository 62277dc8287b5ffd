# Salon booking assistant: the deterministic turn core

This project models the part of the salon booking assistant that decides each turn of a
conversation once the language model has turned a customer's message into structured data.
It covers:

- the session's booking state machine: IDLE, COLLECTING, CONFIRMING, PAYMENT_PENDING,
  CANCEL_CONFIRM, RESCHEDULE_COLLECTING and RESCHEDULE_CONFIRM;
- the failure counters and the human handoff, session timeouts and the message that follows
  an expiry;
- message idempotency, intent correction and the FAQ, status and human-handoff answers;
- the reminder reply interceptor, the payment window and the booking table these change;
- the helpers the flows rely on: time and date parsing and normalisation, business-hour
  validation, slot availability and suggestions, deposits and booking references;
- the reminder sweep, which sends a first reminder within 3 minutes of the appointment and a second within 1 minute of it, and tags no-show risks.

The modules follow the program's structure:

| module | file | models |
|---|---|---|
| `Text`, `Clock`, `Records`, `Wrappers` | text.dfy, clock.dfy, records.dfy, wrappers.dfy | string, integer and date primitives the code uses (`lower`, `strip`, `int(...)`, zero padding, weekdays) |
| `Store` | store.dfy | the `sessions` and `bookings` tables: a `Session` class and a `BookingTable` class over a `seq<Booking>` |
| `TimeUtils`, `DateUtils`, `Extraction` | time_utils.dfy, date_utils.dfy, extraction.dfy | time and date normalisation and extraction |
| `BusinessRules`, `BookingService`, `Deposit`, `Faq`, `Intent` | business_rules.dfy, booking_service.dfy, deposit.dfy, faq.dfy, intent.dfy | validation, availability, suggestions, references, deposits, FAQ answers, intent correction |
| `Lifecycle` | lifecycle.dfy | counters, handoff, timeout, reset, expiry reply, payment expiry |
| `Collecting`, `Confirming`, `Cancelling`, `Rescheduling` | collecting.dfy, confirming.dfy, cancel.dfy, reschedule.dfy | the four state handlers |
| `Reminders` | reminder.dfy | the reminder sweep and the session binding |
| `Messages` | messages.dfy | the replies, as structured values with a renderer |
| `Engine` | engine.dfy | `handle_message` and the turn helpers it inlines |

Methods that update a session or the booking table say exactly what the new state is. They
keep two invariants. The session's invariant (`Session.Valid`) says every pending or proposed
time has the normaliser's shape, and a proposal awaiting its yes has passed validation. The
table's invariant (`BookingTable.Valid`) says booking ids are unique and every stored time is
a zero-padded "HH:MM". Each handler is also described by a pure function of the old state
(`StepOf`, `ChoiceOf`, `DecisionOf`, `ReminderStepOf`, ...). The lemmas state what the
customer and the salon are promised about those functions.

The same holds for the whole turn. `Engine.TurnOf` chains the handler functions in the
order `handle_message` tries them: the reminder interceptor, CANCEL_CONFIRM, the payment
window, CONFIRMING, the cancel start, the reschedule start, the two reschedule states, the
smart start, a cancel while collecting, COLLECTING and the final reply. A handler that
answers ends the chain; one that falls through passes on its changed session and table.
`Engine.HandleMessage` and each `Route...` method it calls leave the session, the table and
the reply that the matching stage of this chain gives.

Three behaviours of the code are modelled as written and pinned down by lemmas:

- `reset_session` writes `failure_count`, not the `fail_count` column the counters use. A reset
  therefore keeps the failure count while clearing `handoff_offered`, and a handoff is due again
  straight after one (`Lifecycle.ResetKeepsFailCount`, `Engine.MissedCounts`,
  `Collecting.HandoffRepeats`).
- In RESCHEDULE_COLLECTING the "already booked for that same slot" answer can never be
  reached. The booking's own CONFIRMED row occupies that slot, so the availability check
  answers first (`Rescheduling.SameSlotNeverReached`).
- A date or time given while a reschedule awaits its yes sends the session back to
  RESCHEDULE_COLLECTING without recording the new value (`Rescheduling.ReopenDropsNewValues`).

## Model

| member | source | states |
|---|---|---|
| Records.Weekday | utils/date_utils.py:44 | a day's weekday lies in 0..6, Monday being 0 |
| Records.WeekdayAhead | utils/date_utils.py:44-59 | moving k days ahead moves the weekday k places on, cyclically |
| Text.PyIntRoundTrip | services/conversation_engine.py:116-124 | `int(str(i)) == i` for every integer, so a stored counter reads back as written |
| Text.Pad2 | utils/time_utils.py:43 | `f"{i:02d}"`: two digits with value i for 0 <= i < 100, at least two digits for i >= 0, a leading minus for i < 0 |
| Text.Pad2OfDigits | utils/time_utils.py:48 | a two-digit text is the zero-padded rendering of its own value |
| Text.Pad2Injective | services/booking_service.py:48-51 | two-digit renderings of distinct numbers below 100 differ |
| Text.Split | utils/time_utils.py:130 | `split(":")` yields at least one piece |
| Text.SplitOnce | utils/time_utils.py:130 | a text with exactly one separator splits into the two parts around it |
| Text.StripNoop | services/intent_normalizer.py:18 | `strip()` leaves a text without surrounding blanks unchanged |
| Text.StripChars | services/intent_normalizer.py:18 | `strip()` only removes characters and never lengthens the text |
| Clock.MinutesOf | services/booking_service.py:45-46 | the minute of the day an "HH:MM" text names lies in 0..1439 |
| Clock.HhMmValid | services/booking_service.py:48-51 | rendering a minute of the day gives a valid "HH:MM" naming the same minute |
| Clock.HhMmOfMinutes | services/booking_service.py:45-51 | a valid "HH:MM" is the rendering of its own minute count |
| Clock.HhMmInjective | services/booking_service.py:48-51 | distinct minutes of the day render differently |
| Clock.HhMmDistinct | services/booking_service.py:48-51 | the contrapositive of `HhMmInjective` |
| Clock.HhMmIsTimeText | services/booking_service.py:48-51 | any non-negative minute count renders in the normaliser's shape |
| Clock.ValidClockIsTimeText | utils/time_utils.py:43-48 | a valid "HH:MM" has the normaliser's shape |
| Store.Session.constructor | services/conversation_engine.py:342-348 | a new session is IDLE with no processed message ids and the `updated_at` column default |
| Store.BookingTable.constructor | models.py:20-29 | the table holds the given rows and its invariant |
| Store.UpdateKeepsValid | models.py:23-27 | replacing a row by one with the same id and a valid time keeps ids unique and times valid |
| Store.AppendKeepsValid | models.py:23-27 | appending a row with a fresh id and a valid time keeps the table valid |
| Store.FirstWhere | services/conversation_engine.py:600-607 | `.first()`: the first row in table order satisfying the filter, and none before it; `None` exactly when no row does |
| Store.FindPending | services/conversation_engine.py:600-607 | the first PENDING booking of the caller, or `None` when the caller has none |
| Store.FindConfirmed | fsm/cancel.py:22-30 | the CONFIRMED booking of this phone number with this id, or `None` when there is none |
| Store.Latest | services/conversation_engine.py:468-473 | `order_by(created_at.desc()).first()`: a satisfying row with the greatest creation instant; `None` exactly when no row satisfies the filter |
| Store.LatestConfirmed | services/conversation_engine.py:653-663 | the caller's CONFIRMED booking with the latest creation instant (no other CONFIRMED booking of the caller is newer); `None` exactly when the caller has none |
| Store.LatestBooking | services/conversation_engine.py:468-473 | the caller's newest booking of any status; `None` exactly when the caller has none |
| TimeUtils.Clock12Body | utils/time_utils.py:32-35 | the hour and optional minute of a 12-hour text are each below 100 |
| TimeUtils.Match12 | utils/time_utils.py:32-36 | a 12-hour match ends in "am" or "pm", and the pm flag is set exactly for "pm" |
| TimeUtils.Match24 | utils/time_utils.py:46-48 | a 24-hour match has hour 0..23 and minute 0..59 |
| TimeUtils.MatchHourOnly | utils/time_utils.py:51-53 | an hour-only match is below 100 |
| TimeUtils.BucketTime | utils/time_utils.py:18-26 | a bucket time is found exactly when the text contains a bucket word |
| TimeUtils.BucketShapes | utils/time_utils.py:18-26 | every bucket time has the normaliser's shape |
| TimeUtils.NormalizeTime | utils/time_utils.py:3-57 | the empty text gives `None`; every result has the normaliser's shape |
| TimeUtils.NormalizeClock | utils/time_utils.py:28-57 | after blank removal the 12-hour, 24-hour and hour-only forms give results in the normaliser's shape |
| TimeUtils.NormalizeHhMm | utils/time_utils.py:45-48 | a valid "HH:MM" is already normalised |
| TimeUtils.NormalizeIdempotent | utils/time_utils.py:3-57 | normalising a valid normalised time again gives the same time |
| TimeUtils.TwelveHourNoRangeCheck | utils/time_utils.py:32-43 | the 12-hour branch has no range check: "13pm" becomes "25:00" |
| TimeUtils.InferTimeFromText | utils/time_utils.py:59-90 | a result comes from a bucket word or an am/pm-style pattern; it has the normaliser's shape and, without a bucket word, equals `normalize_time` of the text |
| TimeUtils.BareNumberOnlyAlone | utils/time_utils.py:92-122 | without letters or a colon, a text mentions a time exactly when the whole stripped text is a one- or two-digit number |
| TimeUtils.LetterFree | utils/time_utils.py:100-116 | the bucket, am/pm, clock and context patterns all need a letter or a colon |
| TimeUtils.UserMentionedTime | utils/time_utils.py:92-122 | a non-empty text, lower-cased and stripped, holding a bucket word, an am/pm time, a 24-hour clock, a context hour, or only a one- or two-digit number |
| TimeUtils.BucketMentionsTime | utils/time_utils.py:102-104 | "morning", "afternoon", "evening" or "night" anywhere in the text is a time mention |
| TimeUtils.NoTimeMention | utils/time_utils.py:92-122 | a text with no digit and no bucket word mentions no time |
| TimeUtils.DisplayHour | utils/time_utils.py:135 | the displayed hour lies in 1..12 and agrees with the hour modulo 12 |
| TimeUtils.FormatTimeForUser | utils/time_utils.py:124-136 | a text that does not split into two parts is returned unchanged; a valid "HH:MM" becomes "h:MM AM/PM" with the 12-hour hour and the suffix for its half of the day |
| TimeUtils.To24OfDisplay | utils/time_utils.py:38-41 | converting a displayed 12-hour hour back gives the original hour |
| TimeUtils.NormalizeDisplayed | utils/time_utils.py:28-43 | `normalize_time` reads a displayed "h:MM AM/PM" back as the 24-hour time |
| TimeUtils.NormalizeFormatRoundTrip | utils/time_utils.py:3-57 | round trip: the text shown to the customer for a valid "HH:MM" normalises back to the same "HH:MM" |
| DateUtils.FirstWordAt | utils/date_utils.py:38 | the first weekday name, in list order, that occurs whole at a position; none before it matches |
| DateUtils.QualifiedAt | utils/date_utils.py:38 | a qualified weekday phrase names a weekday index below 7 and ends after the qualifier |
| DateUtils.WeekdayPhraseAt | utils/date_utils.py:38 | a match names one of the three qualifiers and a weekday |
| DateUtils.FindWeekdayPhrase | utils/date_utils.py:38-41 | `re.search`: the leftmost match, with no match before it; `None` exactly when there is no match anywhere |
| DateUtils.ResolveWeekday | utils/date_utils.py:43-59 | the resolved day has the named weekday; "this X" lies 0..6 days ahead, "next X" and "coming X" 1..7 days ahead |
| DateUtils.ThisWeekday | utils/date_utils.py:46-52 | "this X" is today when today is X, and otherwise the days ahead are the weekday difference mod 7 |
| DateUtils.NextWeekdaySameDay | utils/date_utils.py:54-59 | "next X" and "coming X" said on an X are a week ahead, never today |
| DateUtils.NextIsComing | utils/date_utils.py:56-59 | "next X" and "coming X" name the same day |
| DateUtils.ParseDateUs | utils/date_utils.py:6-78 | the empty text gives `None`; a qualified weekday phrase resolves by the weekday rule; anything else goes to the fallback parser with the stripped lower-cased text |
| DateUtils.NoBlankFallsBack | utils/date_utils.py:38-73 | a message without whitespace ("monday", "01/20") never takes the weekday rule and goes to the fallback parser |
| DateUtils.MatchEnd | utils/date_utils.py:90-97 | a pattern match starting at a position ends within the text |
| DateUtils.FirstMatch | utils/date_utils.py:100 | `re.search`: the leftmost match and its end, with no match starting earlier; `None` exactly when none starts anywhere |
| DateUtils.FirstPatternMatch | utils/date_utils.py:99-102 | the first pattern in priority order with a match, and no earlier pattern matches; `None` when none does |
| DateUtils.ExtractDatePhrase | utils/date_utils.py:80-104 | the matched text of the first matching pattern in the lower-cased message, or the message itself when none matches |
| DateUtils.UserMentionedDate | utils/date_utils.py:106-131 | a non-empty text, lower-cased and stripped, holding a weekday, a relative word, a qualifier prefix, a numeric M/D date or a month name as a whole word |
| DateUtils.DateWordMentionsDate | utils/date_utils.py:112-117 | a weekday name, "today", "tomorrow", "next week" or "this week" anywhere in the text is a date mention |
| DateUtils.MonthDayMentionsDate | utils/date_utils.py:123-125 | one or two digits, "/" or "-", and one or two digits is a date mention |
| DateUtils.NoDateMention | utils/date_utils.py:106-131 | a text with no digit and none of the weekday, relative, qualifier or month words mentions no date |
| Extraction.SafeExtractDate | utils/extraction_utils.py:4-28 | the model's date wins when it parses; otherwise `None` unless the text mentions a date, and then the date of its date phrase, failing that of the whole text |
| Extraction.SafeExtractTime | utils/extraction_utils.py:30-42 | a non-empty model time decides alone through `normalize_time`; otherwise a time is inferred only when the text mentions one; results have the normaliser's shape |
| Extraction.ModelWeekdayWins | utils/extraction_utils.py:12-16 | a model date that resolves as a weekday phrase is taken and has the named weekday |
| Extraction.BadModelTimeHidesText | utils/extraction_utils.py:36-38 | a model time that does not normalise hides a time the text states |
| BusinessRules.ParseTime | business_rules.py:4-48 | a parsed time is a minute of the day; the empty text is refused |
| BusinessRules.ParseHhMm | business_rules.py:34-39 | a zero-padded "HH:MM" parses to the minute it names |
| BusinessRules.ParseTwelveHour | business_rules.py:21-32 | 12-hour rule: hour 12 becomes 0 and "pm" adds 12 ("12am" is midnight, "12pm" noon, "6pm" 18:00) |
| BusinessRules.ParseRejectsLatePm | business_rules.py:21-32 | an hour from 13 up followed by "pm" leaves the day, so the parser raises |
| BusinessRules.SuffixedDigits | business_rules.py:15-25 | digits with an am/pm suffix survive the clean-up and read as that 12-hour time |
| BusinessRules.ParsedTimeTextIsHhMm | business_rules.py:34-48 | a time in the normaliser's shape that the parser accepts is a valid zero-padded "HH:MM" ("25:00" and "18:75" are refused) |
| BusinessRules.OpenMinute | business_rules.py:58-59 | the configured opening time is a minute of the day |
| BusinessRules.CloseMinute | business_rules.py:58-60 | the configured closing time is a minute of the day |
| BusinessRules.CutoffMinute | business_rules.py:61 | the configured same-day cutoff is a minute of the day |
| BusinessRules.ValidateBooking | business_rules.py:51-88 | accepted exactly when the date parses and is not past, the time parses, is not before the cutoff today and is within opening hours; a refusal names the date exactly for a missing or past date, and never the service |
| BusinessRules.CutoffOnlyToday | business_rules.py:81-88 | on a later day any time within opening hours is accepted |
| BookingService.IsSlotTaken | services/booking_service.py:8-18 | taken exactly when some booking of any phone number holds that date and time and is PENDING or CONFIRMED |
| BookingService.CancelledFrees | services/booking_service.py:14 | a cancelled booking does not occupy its slot |
| BookingService.OffsetAt | services/booking_service.py:61-66 | the k-th search step is 0 only for k = 0 and has magnitude (k+1)/2 |
| BookingService.SearchOffsets | services/booking_service.py:61-66 | the loop builds 51 offsets 0, -1, +1, ..., -25, +25, each equal to `OffsetAt` |
| BookingService.Clamp | services/booking_service.py:58 | the anchor lies within opening hours and is unchanged when already inside |
| BookingService.Take | services/booking_service.py:72-73 | taking from a list gives a prefix no longer than the bound |
| BookingService.SearchFor | services/booking_service.py:37-58 | the search parameters are minutes of the day with the anchor clamped into opening hours |
| BookingService.SuggestSlotsAround | services/booking_service.py:20-108 | the same-day and next-day lists equal their specifications |
| BookingService.ScanSameDay | services/booking_service.py:68-87 | the same-day loop yields the specified candidates in search order |
| BookingService.ScanNextDay | services/booking_service.py:91-106 | the next-day loop takes the free probes among 20 from opening time |
| BookingService.SameDayStep | services/booking_service.py:71-87 | one loop step: the seen set grows by an in-hours candidate, and a free unseen one is appended |
| BookingService.SeenText | services/booking_service.py:80-84 | an in-hours candidate's text was seen exactly when its minute was |
| BookingService.SameDayValid | services/booking_service.py:68-87 | same-day suggestions are free valid times within opening hours (both ends included), pairwise distinct, at most `count` of them |
| BookingService.SameDayNearestFirst | services/booking_service.py:60-87 | with a positive slot length suggestions are nearest-first, and at equal distance the earlier time comes first |
| BookingService.CandidateOrder | services/booking_service.py:60-75 | later candidates are no nearer to the anchor |
| BookingService.AnchorFirst | services/booking_service.py:71-87 | a free anchor is suggested first |
| BookingService.NextDayValid | services/booking_service.py:89-106 | next-day suggestions only after closing or when the day had none; at most min(3, count); each a free time on the next day |
| BookingService.NextDayStartsAtOpening | services/booking_service.py:98-106 | when next-day slots are offered and opening time is free, it comes first |
| BookingService.FirstRefFrom | services/booking_service.py:119 | the leftmost reference from a position, with none before it |
| BookingService.ExtractBookingRefId | services/booking_service.py:113-120 | a reference is found exactly when the upper-cased text contains one; it is 14 characters, starts "SALON-", occurs in the upper-cased text and is the leftmost reference there |
| Deposit.ServiceDeposit | services/deposit_service.py:3-36 | 2000 cents for a facial, 0 for every other service |
| Deposit.PrimeDeposit | services/deposit_service.py:18-51 | the prime deposit is 0 or 1500 cents, and 1500 exactly when the day is a Saturday or Sunday or the slot starts at 18:00 (minute 1080) or later |
| Deposit.ComputeDeposit | services/deposit_service.py:26-52 | the larger of the service and prime-time deposits; always 0, 1500 or 2000 |
| Deposit.FacialAlways2000 | services/deposit_service.py:26-52 | a facial costs 2000 even at prime time: the rules never add up |
| Deposit.OtherServiceDeposit | services/deposit_service.py:26-52 | any other service costs 1500 exactly at prime time, otherwise 0 |
| Deposit.DepositIgnoresCase | services/deposit_service.py:30 | the service lookup ignores case and surrounding blanks |
| Deposit.PrimeCostsAtLeast | services/deposit_service.py:38-52 | for a fixed service a prime-time slot costs at least as much as any other |
| Faq.HandleFaqReply | services/faq_service.py:3-20 | an answer exactly for the four FAQ intents, each its own text built from the business info |
| Faq.InferFaqIntent | services/faq_service.py:22-36 | the lower-case keyword tests in the order hours, address, services, pricing: each topic is picked exactly when its words occur and no earlier topic's do |
| Faq.InferredHasReply | services/faq_service.py:3-36 | every recognised question has an answer |
| Faq.HoursFirst | services/faq_service.py:22-36 | hours win over every other topic |
| Intent.NormalizeIntent | services/intent_normalizer.py:7-70 | mid-reschedule everything is a reschedule; a modify or request with a reschedule verb, or a modify from IDLE, becomes a reschedule when the caller has a CONFIRMED booking; nothing else changes |
| Intent.FindConfirmedAny | services/intent_normalizer.py:36-43 | a CONFIRMED booking is found exactly when the caller has one |
| Intent.RequestNeedsVerb | services/intent_normalizer.py:33-46 | a booking request outside a reschedule is never rewritten without a reschedule verb |
| Lifecycle.TimeoutSeconds | services/conversation_engine.py:43-46 | a timeout exists exactly for the states other than IDLE and PAYMENT_PENDING |
| Lifecycle.IsSessionExpired | services/conversation_engine.py:223-244 | never without `updated_at`, never in IDLE or PAYMENT_PENDING; otherwise more than 30 minutes (collecting, rescheduling) or 10 minutes (confirming, cancel confirmation) |
| Lifecycle.ResetSession | services/conversation_engine.py:246-262 | the session becomes the reset view |
| Lifecycle.ClearBooking | services/conversation_engine.py:247-254 | IDLE, with the question, pending fields and pending booking id cleared |
| Lifecycle.ClearReschedule | services/conversation_engine.py:256-262 | the proposal cleared, `updated_at` set, `handoff_offered` false and `fail_count` untouched |
| Lifecycle.ResetKeepsFailCount | services/conversation_engine.py:261-262 | the reset keeps `fail_count`, so three earlier failures make a handoff due again straight after it |
| Lifecycle.ResetNeverExpires | services/conversation_engine.py:246-247 | a reset session is IDLE and cannot expire |
| Lifecycle.ResetValid | services/conversation_engine.py:246-262 | the reset keeps the session invariant |
| Lifecycle.ApplySessionTimeoutReset | services/conversation_engine.py:146-162 | an expired session is reset and flagged with its previous state; any other is left alone |
| Lifecycle.ClearExpiredFlags | services/conversation_engine.py:164-168 | the expiry flags are cleared when set, and nothing else changes |
| Lifecycle.ExpiredUx | services/conversation_engine.py:170-221 | an expiry reply only for a session that expired mid-booking, always with intent "session_expired" |
| Lifecycle.HandleExpiredSessionUx | services/conversation_engine.py:170-221 | nothing without the flag; with it the flags are cleared and the reply is the expiry reply for the previous state |
| Lifecycle.ExpiryShownOnce | services/conversation_engine.py:146-221 | a reset expired session is IDLE, and an expiry reply is given only when it had been COLLECTING or CONFIRMING |
| Lifecycle.GetInt | services/conversation_engine.py:116-121 | `int(...)` of the stored value, or the default where that raises |
| Lifecycle.SetThenGet | services/conversation_engine.py:116-124 | what `set_int` stores, `get_int` reads back |
| Lifecycle.ResetFailures | services/conversation_engine.py:126-128 | both counters become "0" |
| Lifecycle.IncrementFailure | services/conversation_engine.py:130-134 | the failure count grows by exactly one and `updated_at` is set |
| Lifecycle.ShouldHandoff | services/conversation_engine.py:136-139 | the handoff is due from three failures on, once until the counters are reset |
| Lifecycle.WantsToModify | services/conversation_engine.py:82-93 | the `booking_modify` intent, or a change keyword together with a date or time mention |
| Lifecycle.TomorrowAsksChange | services/conversation_engine.py:82-93 | a text containing "tomorrow" always asks for a change, whatever the intent |
| Lifecycle.KeywordAloneIsNoChange | services/conversation_engine.py:82-93 | without a digit, a date word or a time-of-day word, only the `booking_modify` intent asks for a change, whatever keywords the text has |
| Lifecycle.OfferHandoff | services/conversation_engine.py:141-144 | `handoff_offered` becomes "1" and `updated_at` is set |
| Lifecycle.UnparsableCountsFromZero | services/conversation_engine.py:116-132 | a counter that does not read as a number counts from zero |
| Lifecycle.ResetFailuresNoHandoff | services/conversation_engine.py:126-139 | after `reset_failures` no handoff is due |
| Lifecycle.OfferedNoHandoff | services/conversation_engine.py:136-144 | once offered, the handoff is not due again until the counters are reset |
| Lifecycle.ExpirePaymentIfNeeded | services/conversation_engine.py:284-317 | expires exactly a PENDING booking awaiting payment whose window has closed; it becomes CANCELLED with status EXPIRED (REFUNDED after a successful refund); otherwise nothing changes |
| Lifecycle.ExpiryIsFinal | services/conversation_engine.py:284-317 | an expired booking is CANCELLED, no longer due, and keeps its id and time |
| Lifecycle.Choose | services/conversation_engine.py:108-112 | `random.choice` picks a member of the list |
| Lifecycle.ContinuePrompt | services/conversation_engine.py:95-114 | a fixed text when nothing is missing, a question for the only missing field, otherwise the ask for all three |
| Collecting.TurnTime | fsm/collecting.py:48-50 | this turn's time, when any, has the normaliser's shape |
| Collecting.Merged | fsm/collecting.py:35-57 | every value the turn provides overwrites the pending one, the others stay, `updated_at` is set, and the counters reset when anything was provided |
| Collecting.MergedKeepsRest | fsm/collecting.py:35-57 | the merge changes nothing else |
| Collecting.MergedValid | fsm/collecting.py:35-57 | the merge keeps the session invariant |
| Collecting.NothingProvidedKeeps | fsm/collecting.py:52-57 | with nothing provided only `updated_at` changes |
| Collecting.MergeTurn | fsm/collecting.py:35-57 | the session becomes the merge |
| Collecting.AskFor | fsm/collecting.py:62-75 | the question for the field is recorded and one of its questions is asked |
| Collecting.Questions | services/conversation_engine.py:49-63 | each field has a non-empty list of questions |
| Collecting.NewBookingId | fsm/collecting.py:194 | the reference is 14 characters: "SALON-" followed by the first eight characters of the fresh uuid text, upper-cased |
| Collecting.CancelPending | fsm/collecting.py:180-192 | every PENDING booking of the caller becomes CANCELLED; every other row stays |
| Collecting.CancelOldPending | fsm/collecting.py:180-192 | the loop leaves the table as `CancelPending` says |
| Collecting.CancelPendingFacts | fsm/collecting.py:180-192 | ids and times are kept, and no PENDING booking of the caller remains |
| Collecting.AddPending | fsm/collecting.py:180-210 | earlier PENDING bookings cancelled, then the new one inserted unless its id exists |
| Collecting.CreatedValid | fsm/collecting.py:180-210 | the creation keeps the table invariant for a valid new time |
| Collecting.AtMostOnePending | fsm/collecting.py:180-210 | after a creation the caller's only PENDING booking is the new one (none if the id existed) |
| Collecting.AnchorIsClock | fsm/collecting.py:112 | the fallback anchor "19:00" is a valid clock text |
| Collecting.AnchorParses | fsm/collecting.py:112 | the fallback anchor parses |
| Collecting.Requested | fsm/collecting.py:196-204 | the new booking is PENDING, the caller's, with the pending date and time |
| Collecting.BookStep | fsm/collecting.py:80-223 | with all three fields present the step validates, checks the slot or creates; it never asks |
| Collecting.HandleCollecting | fsm/collecting.py:11-223 | outside COLLECTING nothing changes; inside, the session and table become their specifications of the merged session; both invariants are kept |
| Collecting.Proceed | fsm/collecting.py:59-223 | session, table and reply follow the step of the merged session |
| Collecting.ValidateAndBook | fsm/collecting.py:80-223 | session, table and reply follow the booking step |
| Collecting.RejectSlot | fsm/collecting.py:86-137 | a refused slot counts a failure and either hands off with a reset or clears the field and explains |
| Collecting.ExplainRejection | fsm/collecting.py:99-137 | the rejected field is cleared and the reply says why, with suggestions after a refused time |
| Collecting.ClearField | fsm/collecting.py:99-105 | only the rejected field is cleared and `updated_at` set |
| Collecting.OfferAlternatives | fsm/collecting.py:140-171 | a taken slot forgets the time and the reply lists suggestions around it |
| Collecting.CreatePendingBooking | fsm/collecting.py:174-223 | the new PENDING booking is added and the session waits for the confirmation |
| Collecting.AwaitConfirmation | fsm/collecting.py:212-215 | CONFIRMING, with the question cleared and `updated_at` set |
| Collecting.AsksFirstMissing | fsm/collecting.py:62-75 | the first missing field is asked for, in the order service, date, time; nothing is booked |
| Collecting.StepOf | fsm/collecting.py:59-223 | the COLLECTING branch: the first missing field in the order service, date, time, else the booking step; its properties are `AsksFirstMissing`, `BooksOnlyFreeValidSlots` and `StepKeepsValid` |
| Collecting.BooksOnlyFreeValidSlots | fsm/collecting.py:80-215 | a booking is written only with all fields present, a valid and free slot; then the session waits for the confirmation |
| Collecting.TakenForgetsTime | fsm/collecting.py:140-151 | a taken slot forgets only the time and searches around it |
| Collecting.StepKeepsValid | fsm/collecting.py:11-223 | the turn keeps the session and table invariants |
| Collecting.SessionStepValid | fsm/collecting.py:59-215 | every outcome keeps the session invariant |
| Collecting.RowsStepValid | fsm/collecting.py:180-210 | only a creation changes the table, keeping its invariant |
| Collecting.RejectedValid | fsm/collecting.py:86-105 | a refused slot keeps the session invariant, through the reset too |
| Collecting.RejectCountsFailure | fsm/collecting.py:86-102 | below the threshold a refusal adds one failure and clears only the named field |
| Collecting.HandoffRepeats | fsm/collecting.py:88-93 | the handoff resets the session, yet the kept failure count makes the next refusal hand off again |
| Confirming.HandleConfirming | fsm/confirming.py:7-170 | without a pending booking or outside CONFIRMING nothing changes; otherwise session, table and reply follow the choice; both invariants are kept |
| Confirming.ApplyModify | fsm/confirming.py:28-58 | the change is merged, the stale PENDING booking is cancelled and the session returns to COLLECTING |
| Confirming.MergeChange | fsm/confirming.py:31-40 | the values given overwrite the pending ones |
| Confirming.RequireDeposit | fsm/confirming.py:77-96 | with a deposit due the booking stays PENDING with payment required, and the session waits for the payment |
| Confirming.ConfirmBooking | fsm/confirming.py:101-145 | without a deposit the booking is CONFIRMED and the request closed |
| Confirming.DeclineBooking | fsm/confirming.py:151-166 | a no cancels the booking and closes the request |
| Confirming.CloseRequest | fsm/confirming.py:128-135 | IDLE, with the request forgotten and the counters reset |
| Confirming.ForgetRequest | fsm/confirming.py:129-132 | the collected fields and the question are dropped |
| Confirming.ChoiceKeepsValid | fsm/confirming.py:28-170 | every branch keeps both invariants |
| Confirming.ModifyFirst | fsm/confirming.py:28 | a change request is recognised before a yes or a no |
| Confirming.ModifyFallsThrough | fsm/confirming.py:42-58 | a change cancels the booking and returns to COLLECTING, passing the message on exactly when all three fields are filled |
| Confirming.DepositKeepsPending | fsm/confirming.py:66-96 | a yes with a deposit keeps the booking PENDING, requires payment of the computed deposit and waits for it |
| Confirming.ConfirmWithoutDeposit | fsm/confirming.py:98-145 | a yes without a deposit confirms now; the session is IDLE with the request cleared and no handoff due |
| Confirming.DeclineOrWait | fsm/confirming.py:151-170 | a no cancels the booking; anything else changes nothing |
| Confirming.NoNewPending | fsm/confirming.py:28-170 | no branch creates a PENDING booking |
| Confirming.YepDoesNotConfirm | fsm/confirming.py:28-66 | every yes-word of the engine that CONFIRMING does not list ("y", "yeah", "yep", "okay", "please", "do it") leaves the booking waiting, unless the intent is a change, a yes or a no |
| Confirming.ChoiceOf | fsm/confirming.py:28-170 | the CONFIRMING branch in the source's order: a change request, then a yes (with or without a deposit), then a no, else waiting; its properties are the `Confirming` lemmas |
| Cancelling.AnswerOf | fsm/cancel.py:20-61 | yes exactly for the confirm intent or a yes-word; no for the cancel intent or a no-word otherwise |
| Cancelling.HandleCancelConfirm | fsm/cancel.py:4-76 | outside CANCEL_CONFIRM nothing changes; otherwise session, table and reply follow the answer; both invariants are kept |
| Cancelling.CloseQuestion | fsm/cancel.py:50-54 | IDLE, with the booking id cleared and the counters reset |
| Cancelling.CancelKeepsValid | fsm/cancel.py:20-71 | every answer keeps both invariants |
| Cancelling.CancelsOnlyTarget | fsm/cancel.py:20-34 | at most one row changes: the caller's CONFIRMED booking with that id, now CANCELLED |
| Cancelling.YesCancels | fsm/cancel.py:20-34 | a yes leaves no CONFIRMED booking of the caller with that id |
| Cancelling.CancelIntentKeepsAppointment | fsm/cancel.py:20-71 | with the intent to cancel and any text that is not a yes-word the answer is no: the appointment is kept, the question closed and the "still confirmed" reply given |
| Cancelling.OnlyYesCancels | fsm/cancel.py:20-34 | without the confirm intent or a yes-word no booking changes |
| Cancelling.CancelIsNoYes | services/conversation_engine.py:79 | "cancel" is not one of the yes-words |
| Cancelling.AnswerClosesOrKeeps | fsm/cancel.py:50-76 | an answer ends the question; an unclear one changes nothing |
| Rescheduling.Judge | fsm/reschedule.py:87-184 | a patched proposal is refused, finds its slot booked, matches the booking or is put to the user |
| Rescheduling.Placed | fsm/reschedule.py:114-184 | a valid proposal's slot is taken, the booking's own, or a change to confirm |
| Rescheduling.CollectProposal | fsm/reschedule.py:37-184 | session and reply follow the proposal step; the table is only read |
| Rescheduling.ProposalStepOf | fsm/reschedule.py:37-184 | the RESCHEDULE_COLLECTING branch: a missing target, a missing date, a refused proposal, a taken slot or a change to confirm; its properties are `ProposalIsSound` and `RefusedProposalKept` |
| Rescheduling.MergeProposal | fsm/reschedule.py:61-82 | the given date and time replace the proposed ones |
| Rescheduling.JudgeProposal | fsm/reschedule.py:87-184 | session and reply follow `Judge` |
| Rescheduling.RefuseProposal | fsm/reschedule.py:93-109 | a refused proposal counts a failure; at the threshold the handoff is offered and the session reset |
| Rescheduling.CheckProposal | fsm/reschedule.py:114-184 | session and reply follow `Placed` |
| Rescheduling.SuggestInstead | fsm/reschedule.py:114-151 | a taken proposed slot is answered with the same-day and next-day suggestions of the search around it |
| Rescheduling.PlaceFree | fsm/reschedule.py:156-184 | a free proposed slot equal to the booking's own changes nothing; otherwise the changed date and time are put to the user |
| Rescheduling.ProposeChange | fsm/reschedule.py:156-184 | the stored session moves to RESCHEDULE_CONFIRM with its failure counters kept, since their reset at line 175 follows the last commit; the reply lists the changes |
| Rescheduling.DecideProposal | fsm/reschedule.py:189-284 | session, table and reply follow the decision |
| Rescheduling.DecisionOf | fsm/reschedule.py:189-284 | the RESCHEDULE_CONFIRM branch: a new date or time reopens collecting, then a yes accepts, then a no rejects, else the question is asked again |
| Rescheduling.AcceptProposal | fsm/reschedule.py:204-268 | a yes moves the booking if still CONFIRMED and resets the session |
| Rescheduling.HandleReschedule | fsm/reschedule.py:13-286 | nothing happens outside the two reschedule states; inside, each half follows its specification; both invariants are kept |
| Rescheduling.AcceptedProposalShape | fsm/reschedule.py:87-93 | a proposal that passes validation has a date and a valid "HH:MM" |
| Rescheduling.DecisionValid | fsm/reschedule.py:189-284 | every decision keeps both invariants |
| Rescheduling.SameSlotNeverReached | fsm/reschedule.py:114-170 | the "same slot" answer is never given, because the booking's own row takes the slot first |
| Rescheduling.OwnSlotIsTaken | fsm/reschedule.py:114-116 | a CONFIRMED booking holds its own slot |
| Rescheduling.ProposalIsSound | fsm/reschedule.py:153-184 | a proposal put to the user passes validation, its slot is free, and it lists the date exactly when the date changes and the time exactly when the time changes |
| Rescheduling.RefusedProposalKept | fsm/reschedule.py:93-109 | below the threshold a refused proposal is kept, with one more failure |
| Rescheduling.CountersSurviveProposal | fsm/reschedule.py:93-199 | with two failures counted, a free proposal leaves the count at 2, so after a reopen the next refused proposal hands off and resets the session |
| Rescheduling.ReopenDropsNewValues | fsm/reschedule.py:191-199 | a new date or time while awaiting the yes reopens collecting without recording it |
| Rescheduling.AcceptMovesOnlyTarget | fsm/reschedule.py:204-225 | a yes moves only the caller's CONFIRMED target booking, to the proposed slot |
| Rescheduling.RejectKeepsBookings | fsm/reschedule.py:270-284 | a no or an unclear answer leaves every booking as it was; a no resets the session |
| Reminders.AppointmentOnLocalClock | services/reminder_service.py:14-19 | the UTC instant of an appointment, read back on the business's clock, falls on the booking's date at its "HH:MM" with zero seconds |
| Reminders.NoticeFor | services/reminder_service.py:47-55 | a reminder goes to the booking's own channel and phone number |
| Reminders.Swept | services/reminder_service.py:28-101 | the swept table has the same rows, each with its own action applied |
| Reminders.ActionOf | services/reminder_service.py:34-101 | only CONFIRMED bookings; the first reminder within three minutes ahead, else the second within one minute ahead, else the no-show flag ten seconds after an unconfirmed reminded appointment |
| Reminders.SessionTable.constructor | services/reminder_service.py:110-115 | the sessions table holds the given sessions |
| Reminders.RunReminderJob | services/reminder_service.py:22-107 | the table becomes the sweep, the sessions the bindings, and the notices those of the reminders sent, in order |
| Reminders.SweepOne | services/reminder_service.py:34-101 | one loop pass applies the row's action, with its notice and binding |
| Reminders.SweptStep | services/reminder_service.py:34-101 | one loop pass extends the swept prefix |
| Reminders.SweptAll | services/reminder_service.py:34-101 | the fully swept table is the sweep |
| Reminders.BindReminderToSession | services/reminder_service.py:110-119 | the caller's session, if any, remembers the booking and the instant |
| Reminders.SweptKeepsValid | services/reminder_service.py:28-101 | the sweep changes no id and no time |
| Reminders.SweepOnlyRaisesFlags | services/reminder_service.py:28-101 | statuses never change, only CONFIRMED bookings are touched, and flags only go from false to true |
| Reminders.ReminderWindows | services/reminder_service.py:42-89 | the first reminder exactly when unsent and the appointment is more than 0 and at most one window ahead; the second only when the first was not sent this sweep |
| Reminders.NoShowExactly | services/reminder_service.py:94-100 | tagged exactly when at least ten seconds past, reminded, unconfirmed and not yet tagged |
| Reminders.SentOnce | services/reminder_service.py:42-89 | each reminder goes out at most once |
| Reminders.NoticesMatch | services/reminder_service.py:34-89 | at most one notice per booking, each to a swept booking's own channel and phone number |
| Reminders.BoundOnlyReminded | services/reminder_service.py:60-119 | binding touches only reminded callers' sessions, only their reminder id and time, and adds none |
| Messages.Changes | fsm/reschedule.py:156-164 | one line per changed field; when the date changes the first line is "date → " and the ISO date, when the time changes the last line is "time → " and the time as the user reads it |
| Messages.ConfirmedShowsRef | fsm/confirming.py:137-145 | the confirmation shows the booking reference |
| Messages.Render | services/conversation_engine.py:447 | a plain reply is its own text (the FAQ answer, blank line and prompt join is stated by `Engine.FaqKeepsBooking`) |
| Messages.StatusEndsWithRef | services/conversation_engine.py:479-489 | the status reply ends with the booking reference |
| Messages.InvalidTimeStartsWithMessage | fsm/collecting.py:119-135 | a refused-time reply opens with the validator's message |
| Engine.Opened | services/conversation_engine.py:353-359 | the channel is recorded and an expired session is reset and flagged; otherwise nothing else changes |
| Engine.Remember | services/conversation_engine.py:368-371 | the id is appended and only the newest twenty are kept |
| Engine.RememberKeepsRecent | services/conversation_engine.py:368-371 | every one of the nineteen newest ids survives |
| Engine.RecordMessage | services/conversation_engine.py:364-371 | a duplicate changes nothing; a new id is remembered |
| Engine.OpenTurn | services/conversation_engine.py:353-371 | channel, timeout reset, then the duplicate check and the record |
| Engine.RetryIsIgnored | services/conversation_engine.py:364-371 | a recorded id is recognised when the same message arrives again |
| Engine.CountMiss | services/conversation_engine.py:385-399 | a failure is counted, and the handoff is given exactly when due |
| Engine.MissedCounts | services/conversation_engine.py:385-422 | the count grows by one and survives the handoff reset, after which a handoff is due again; without one the state is kept |
| Engine.ThirdMissHandsOff | services/conversation_engine.py:385-397 | the third miss in a row hands off when none was offered |
| Engine.RefineInquiry | services/conversation_engine.py:428-431 | an inquiry becomes the FAQ intent its keywords suggest, if any; other intents stay |
| Engine.GlobalReply | services/conversation_engine.py:436-489 | an answer exactly for FAQ, human and status intents |
| Engine.AnswerGlobal | services/conversation_engine.py:436-489 | session and reply follow the global answer |
| Engine.FaqKeepsBooking | services/conversation_engine.py:436-451 | an FAQ answer keeps the booking in progress; mid-booking the reply renders as the answer, a blank line and the continue prompt |
| Engine.HumanResets | services/conversation_engine.py:456-463 | a request for a human resets the session and clears the counters |
| Engine.StatusShowsNewest | services/conversation_engine.py:467-489 | the status reply shows the caller's newest booking, or says there is none |
| Engine.ReminderStepOf | services/conversation_engine.py:493-575 | a yes or a cancel in answer to a reminder concerns the caller's CONFIRMED reminded booking |
| Engine.HandleReminderReply | services/conversation_engine.py:493-575 | session, table and reply follow the reminder step |
| Engine.AcknowledgeReminder | services/conversation_engine.py:532-545 | the booking notes the confirmation, the no-show flag cleared only after the second reminder, and the context closed |
| Engine.CancelFromReminder | services/conversation_engine.py:550-568 | "cancel" moves into the cancel confirmation for the reminded booking |
| Engine.ReminderContextCleared | services/conversation_engine.py:493-575 | whatever the answer, the reminder context is gone |
| Engine.YesAcknowledgesOnlyInTime | services/conversation_engine.py:517-545 | a late yes changes no booking; a yes in time only acknowledges the reminded one |
| Engine.CancelTargetsReminded | services/conversation_engine.py:550-568 | "cancel" asks to cancel exactly the reminded booking |
| Engine.ReleaseExpiredPayment | services/conversation_engine.py:600-620 | the caller's first PENDING booking is released when its window has closed and the session returns to IDLE; otherwise nothing changes |
| Engine.TargetOf | services/conversation_engine.py:651-663 | the caller's CONFIRMED booking with the referenced id, else the newest; none only without a CONFIRMED booking when no reference is given |
| Engine.ForgetCollected | services/conversation_engine.py:646-649 | the collected fields and the question are cleared |
| Engine.StartCancel | services/conversation_engine.py:644-684 | outside a cancel from IDLE nothing changes; otherwise the target awaits the yes, or the reply says none was found |
| Engine.AwaitCancel | services/conversation_engine.py:671-675 | CANCEL_CONFIRM for the booking, with the counters reset |
| Engine.StartReschedule | services/conversation_engine.py:689-722 | outside a reschedule from IDLE nothing changes; otherwise the proposal is seeded from the target, or the reply says none was found |
| Engine.SeedProposal | services/conversation_engine.py:716-722 | RESCHEDULE_COLLECTING with the target id and its own date and time |
| Engine.StartPicksOwnConfirmed | services/conversation_engine.py:644-722 | either start picks a CONFIRMED booking of the caller, the referenced one when there is a reference; with none the session stays IDLE |
| Engine.SmartStart | services/conversation_engine.py:755-775 | a booking request from IDLE takes over the values given and moves to COLLECTING; otherwise nothing changes |
| Engine.StartThenCollectAgrees | services/conversation_engine.py:755-823 | the collecting step after a smart start sees exactly what the start took over |
| Engine.CancelRequest | services/conversation_engine.py:785-799 | a cancel while collecting resets the session and the counters; otherwise nothing changes |
| Engine.FinalReply | services/conversation_engine.py:826-828 | the extractor's intent, or "fallback", with its reply or the welcome text |
| Engine.HandleMessage | services/conversation_engine.py:319-828 | the new session, table and reply are those of `TurnOf` on the stored ones (an empty caller id is an error with no change; a duplicate is ignored after the channel and timeout updates; an unparsable message counts a miss; otherwise the routing below); both invariants are kept |
| Engine.RouteIntent | services/conversation_engine.py:402-489 | the outcome of `IntentTurn`: a pending expiry notice comes first, then a fallback is counted (the handoff reply once three misses are reached), then the global intents; both invariants are kept |
| Engine.RouteGlobal | services/conversation_engine.py:436-489 | the outcome of `GlobalTurn`: a global intent gets the global answer and session and leaves the table alone; any other goes to the state handlers |
| Engine.RouteStates | services/conversation_engine.py:493-639 | the outcome of `StatesTurn`: the reminder interceptor first, then CANCEL_CONFIRM, then the rest of the state handlers; both invariants are kept |
| Engine.RoutePayment | services/conversation_engine.py:599-639 | the outcome of `ConfirmingTurn`: the payment window of the caller's pending booking, then CONFIRMING (a complete change request falls through), then the IDLE starts; both invariants are kept |
| Engine.RouteIdle | services/conversation_engine.py:644-750 | the outcome of `IdleTurn`: the cancel start, then the reschedule start (which falls through once it has a target), then RESCHEDULE_COLLECTING and RESCHEDULE_CONFIRM (a reopened proposal falls through); both invariants are kept |
| Engine.RouteCollecting | services/conversation_engine.py:755-828 | the outcome of `CollectingTurn`: the smart start from IDLE, then a cancel while collecting, then the COLLECTING step, then the extractor's own reply; both invariants are kept |
| Engine.GlobalAnsweredInAnyState | services/conversation_engine.py:436-489 | when no expiry notice is due, a global intent gets its answer and its session update in every state, before any state handler, and the table is untouched |

## Left out

- The language-model call and its JSON parsing: the extractor's output comes in as `data`, with a `ParseFailure` case for a reply that is not JSON.
- Time zones: `ZoneInfo` is replaced by a fixed offset `utcOffset`, in seconds east of UTC. The business time zone and `BUSINESS_TIMEZONE` are taken to be that same offset.
- Regular expressions are written out as matchers over ASCII text. `\b` and `\s` are read in their ASCII sense, and Unicode case folding is not modelled.
- Text.PyInt: Python's `int()` also accepts `_` between digits ("1_0" is 10); the model refuses such text, and Unicode digits are not accepted either.
- The `dateparser` fallback is a function parameter `fallback: string -> Option<Day>`. Dates are day numbers, and ISO text appears only in replies.
- Randomness: `random.choice` takes its draw as a parameter `pick`. `uuid4()` is replaced by a parameter `token` of at least eight characters.
- The clock: `datetime.now` is the parameter `now`, an instant in UTC seconds.
- Stripe: the refund's outcome is the parameter `refundSucceeds`. Checkout creation and webhooks are not part of this model.
- Google Calendar: creating, updating and deleting events is not modelled. Those calls only log their failures.
- Message delivery: `send_message` is not called. The reminder sweep returns the notices it would send, in order.
- Database sessions, commits, rollbacks and exceptions are not modelled.
  - Engine.StartCancel and Engine.StartReschedule: when no CONFIRMED booking is found, the original clears the collected fields (services/conversation_engine.py:643-665 and 686-711) and returns without a commit, so closing the request's database session (app.py:19-24) drops those writes. The model keeps the cleared fields, as the in-memory session has them.
  - `payment_last_error`: a failed refund (services/conversation_engine.py:281-282) records the error text on the booking. The booking record has no such field; the model only keeps the payment status "EXPIRED" that such a booking ends with.
  - Rescheduling.ProposeChange: the original calls `reset_failures` after its last commit (fsm/reschedule.py:172-175), and neither channel commits before closing its database session (channels/sms.py:37, channels/whatsapp.py:94). The model stores the counters as committed, so it does not capture the in-memory reset, which nothing reads before the request ends.
  - An insert whose id already exists is modelled as no insert, as the `IntegrityError` rollback leaves it.
  - A business configuration whose times do not parse is excluded by `ValidConfig`, where the original would raise.
- Fetching or creating the session row: the caller passes the stored session, or a new IDLE one. `business_id` is not modelled.
- The `updated_at` column default: it is evaluated once when the code is loaded. The model takes that instant as a parameter of the constructor.
- Concurrency between webhook calls and the reminder job is not modelled.
- Replies are structured values rendered by `Messages.Render`. Emoji and the exact wording of the long replies are kept as constants, but not proved about.
- `ensure_utc_aware` is not modelled, because every instant is already UTC. `PAYMENT_TIMEOUT_MINUTES` is never read by the code, and nothing in the modelled code sets `payment_expires_at`.
- `booking_to_event_times`, `build_business_info`, the channel webhooks and the prompt builder are not part of this model.
- Reminders.NoticesMatch: states an upper bound on the number of notices and that each notice belongs to a booking sent a reminder. It does not state the exact count.
