/**
 * Slot occupancy, the nearest-first search for free slots around a
 * requested time, and booking reference ids.
 */
module BookingService {
  import opened Wrappers
  import opened Text
  import opened Clock
  import opened Records
  import opened Store
  import opened BusinessRules

  // ---------------------------------------------------------------------
  // is_slot_taken
  // ---------------------------------------------------------------------

  predicate Occupies(b: Booking, date: Day, time: string) {
    b.date == date && b.time == time && (b.status == Pending || b.status == Confirmed)
  }

  /** `is_slot_taken`: some booking, of any phone number, holds this date and time and is PENDING or CONFIRMED. */
  function IsSlotTaken(rows: seq<Booking>, date: Day, time: string): (r: bool)
    ensures r <==> exists i :: 0 <= i < |rows| && rows[i].date == date && rows[i].time == time
                              && (rows[i].status == Pending || rows[i].status == Confirmed)
  {
    var hit := FirstWhere(rows, (b: Booking) => Occupies(b, date, time), 0);
    assert hit.Some? ==> Occupies(rows[hit.value], date, time);
    hit.Some?
  }

  /** A cancelled booking frees its slot: only the other rows decide. */
  lemma CancelledFrees(rows: seq<Booking>, i: int, date: Day, time: string)
    requires 0 <= i < |rows|
    requires rows[i].status == Cancelled
    ensures IsSlotTaken(rows, date, time) <==>
      exists j :: 0 <= j < |rows| && j != i && Occupies(rows[j], date, time)
  {
  }

  // ---------------------------------------------------------------------
  // suggest_slots_around: specification
  // ---------------------------------------------------------------------

  /** The number of slot steps tried around the anchor: 0, -1, +1, ..., -25, +25. */
  const OffsetCount := 51

  /** The `k`-th step of the outward search. */
  function OffsetAt(k: nat): (o: int)
    ensures o == 0 <==> k == 0
    ensures (if o < 0 then -o else o) == (k + 1) / 2
  {
    if k % 2 == 1 then -((k + 1) / 2) else k / 2
  }

  /** The requested minute clamped into the opening hours. */
  function Clamp(open: int, close: int, m: int): (r: int)
    ensures open <= close ==> open <= r <= close
    ensures open <= m <= close ==> r == m
  {
    if open >= (if m <= close then m else close) then open else if m <= close then m else close
  }

  function Min(a: int, b: int): int { if a <= b then a else b }

  /** `s[:n]` for a non-negative bound, and the empty list for a bound below one. */
  function Take<T>(s: seq<T>, n: int): (r: seq<T>)
    ensures |r| <= |s| && (n >= 0 ==> |r| <= n) && r <= s
    ensures |r| < n ==> r == s
  {
    if n <= 0 then [] else if |s| <= n then s else s[..n]
  }

  /** Taking from a longer list that starts with `a` changes nothing once `a` has `n` elements. */
  lemma TakePrefix<T>(a: seq<T>, b: seq<T>, n: int)
    requires a <= b
    requires |a| >= n
    ensures Take(a, n) == Take(b, n)
  {
  }

  /** Everything the search depends on. */
  datatype Search = Search(rows: seq<Booking>, date: Day, anchor: int, slot: int, open: int, close: int)
  {
    /** The minute of the `k`-th same-day candidate. */
    function Candidate(k: nat): int { anchor + OffsetAt(k) * slot }

    predicate InHours(m: int) { open <= m <= close }

    /** An earlier in-hours candidate had the same minute. */
    predicate SeenBefore(k: nat) {
      exists j: nat :: j < k && InHours(Candidate(j)) && Candidate(j) == Candidate(k)
    }

    /** The texts of the in-hours candidates among the first `n` (the loop's `seen`). */
    function SeenSet(n: nat): set<string> {
      if n == 0 then {} else SeenSet(n - 1) + (if InHours(Candidate(n - 1)) then {HhMm(Candidate(n - 1))} else {})
    }

    /** Candidate `k` is suggested, unless the list is already full. */
    predicate Offered(k: nat) {
      InHours(Candidate(k)) && !SeenBefore(k) && !IsSlotTaken(rows, date, HhMm(Candidate(k)))
    }

    /** The texts of the candidates among the first `n` that are suggested, in search order. */
    function Listed(n: nat): seq<string> {
      if n == 0 then [] else Listed(n - 1) + (if Offered(n - 1) then [HhMm(Candidate(n - 1))] else [])
    }

    /** The candidate indices behind `Listed(n)`. */
    function Origins(n: nat): seq<nat> {
      if n == 0 then [] else Origins(n - 1) + (if Offered(n - 1) then [n - 1] else [])
    }

    /** The minute of the `k`-th probe on the next day. */
    function NextProbe(k: nat): int { open + k * slot }

    /** The `k`-th probe is free on the next day. */
    predicate NextFree(k: nat) { !IsSlotTaken(rows, date + 1, HhMm(NextProbe(k))) }

    /** The free probes among the first `n` on the next day. */
    function NextListed(n: nat): seq<string> {
      if n == 0 then [] else NextListed(n - 1) + (if NextFree(n - 1) then [HhMm(NextProbe(n - 1))] else [])
    }

    /** The probe indices behind `NextListed(n)`. */
    function NextOrigins(n: nat): seq<nat> {
      if n == 0 then [] else NextOrigins(n - 1) + (if NextFree(n - 1) then [n - 1] else [])
    }
  }

  predicate SearchConfig(cfg: Config, time: string) {
    ParseTime(cfg.StartText()).Some? && ParseTime(cfg.EndText()).Some? && ParseTime(time).Some?
  }

  /** The search for a requested `time` on `date`, with the anchor clamped into opening hours. */
  function SearchFor(rows: seq<Booking>, cfg: Config, date: Day, time: string): (s: Search)
    requires SearchConfig(cfg, time)
    ensures 0 <= s.open < 1440 && 0 <= s.close < 1440 && 0 <= s.anchor < 1440
    ensures s.open <= s.close ==> s.open <= s.anchor <= s.close
  {
    var open := ParseTime(cfg.StartText()).value;
    var close := ParseTime(cfg.EndText()).value;
    Search(rows, date, Clamp(open, close, ParseTime(time).value), cfg.Slot(), open, close)
  }

  /** The same-day suggestions: the first `count` suggested candidates. */
  function SameDaySlots(s: Search, count: int): seq<string> {
    Take(s.Listed(OffsetCount), count)
  }

  /**
   * The next-day suggestions: only when the anchor is at or after closing or
   * nothing was found on the day, the first `min(3, count)` free probes among
   * 20 from opening time on.
   */
  function NextDaySlots(s: Search, count: int): seq<string> {
    if s.anchor >= s.close || |SameDaySlots(s, count)| == 0 then Take(s.NextListed(20), Min(3, count)) else []
  }

  // ---------------------------------------------------------------------
  // suggest_slots_around: the search itself
  // ---------------------------------------------------------------------

  /** `suggest_slots_around`: same-day suggestions around `time`, and next-day ones when needed. */
  method SuggestSlotsAround(rows: seq<Booking>, cfg: Config, date: Day, time: string, count: int)
    returns (sameDay: seq<string>, nextDay: seq<string>)
    requires SearchConfig(cfg, time)
    ensures sameDay == SameDaySlots(SearchFor(rows, cfg, date, time), count)
    ensures nextDay == NextDaySlots(SearchFor(rows, cfg, date, time), count)
  {
    var startMin := ParseTime(cfg.StartText()).value;
    var endMin := ParseTime(cfg.EndText()).value;
    var baseMin := ParseTime(time).value;
    baseMin := if startMin >= (if baseMin <= endMin then baseMin else endMin) then startMin
               else if baseMin <= endMin then baseMin else endMin;
    var s := Search(rows, date, baseMin, cfg.Slot(), startMin, endMin);
    assert s == SearchFor(rows, cfg, date, time);
    var offsets := SearchOffsets();
    sameDay := ScanSameDay(s, offsets, count);
    nextDay := [];
    if baseMin >= endMin || |sameDay| == 0 {
      nextDay := ScanNextDay(s, Min(3, count));
    }
  }

  /** The steps of the outward search, built pairwise as -step, +step. */
  method SearchOffsets() returns (offsets: seq<int>)
    ensures |offsets| == OffsetCount
    ensures forall k :: 0 <= k < |offsets| ==> offsets[k] == OffsetAt(k)
  {
    offsets := [0];
    var step := 1;
    while |offsets| < 50
      invariant |offsets| == 2 * step - 1 && 1 <= step <= 26
      invariant forall k :: 0 <= k < |offsets| ==> offsets[k] == OffsetAt(k)
    {
      assert OffsetAt(2 * step - 1) == -step && OffsetAt(2 * step) == step;
      offsets := offsets + [-step, step];
      step := step + 1;
    }
  }

  /** The same-day loop: candidates in search order, skipping those out of hours, seen or taken. */
  method ScanSameDay(s: Search, offsets: seq<int>, count: int) returns (sameDay: seq<string>)
    requires 0 <= s.open && s.close < 1440
    requires |offsets| == OffsetCount
    requires forall k :: 0 <= k < |offsets| ==> offsets[k] == OffsetAt(k)
    ensures sameDay == SameDaySlots(s, count)
  {
    sameDay := [];
    var seen: set<string> := {};
    var i := 0;
    while i < |offsets|
      invariant 0 <= i <= |offsets|
      invariant sameDay == Take(s.Listed(i), count)
      invariant seen == s.SeenSet(i)
    {
      if |sameDay| >= count {
        ListedPrefix(s, i, OffsetCount);
        TakePrefix(s.Listed(i), s.Listed(OffsetCount), count);
        return;
      }
      SameDayStep(s, i, count, sameDay);
      var candidateMin := s.anchor + offsets[i] * s.slot;
      assert candidateMin == s.Candidate(i);
      if candidateMin < s.open || candidateMin > s.close {
        i := i + 1;
        continue;
      }
      var hhmm := HhMm(candidateMin);
      SeenText(s, i);
      if hhmm in seen {
        i := i + 1;
        continue;
      }
      seen := seen + {hhmm};
      if !IsSlotTaken(s.rows, s.date, hhmm) {
        sameDay := sameDay + [hhmm];
      }
      i := i + 1;
    }
  }

  /** The next-day loop: up to 20 probes from opening time, one slot apart. */
  method ScanNextDay(s: Search, limit: int) returns (nextDay: seq<string>)
    ensures nextDay == Take(s.NextListed(20), limit)
  {
    nextDay := [];
    var morningMin := s.open;
    var attempts := 0;
    while |nextDay| < limit && attempts < 20
      invariant 0 <= attempts <= 20
      invariant morningMin == s.NextProbe(attempts)
      invariant nextDay == Take(s.NextListed(attempts), limit)
    {
      var hhmm := HhMm(morningMin);
      if !IsSlotTaken(s.rows, s.date + 1, hhmm) {
        nextDay := nextDay + [hhmm];
      }
      NextProbeStep(s, attempts);
      morningMin := morningMin + s.slot;
      attempts := attempts + 1;
    }
    if attempts < 20 {
      NextListedPrefix(s, attempts, 20);
      TakePrefix(s.NextListed(attempts), s.NextListed(20), limit);
    }
  }

  lemma NextProbeStep(s: Search, k: nat)
    ensures s.NextProbe(k + 1) == s.NextProbe(k) + s.slot
  {
    assert (k + 1) * s.slot == k * s.slot + s.slot;
  }

  /** One step of the same-day loop while the list is not full. */
  lemma SameDayStep(s: Search, i: nat, count: int, sameDay: seq<string>)
    requires sameDay == Take(s.Listed(i), count) && |sameDay| < count
    ensures s.SeenSet(i + 1) == s.SeenSet(i) + (if s.InHours(s.Candidate(i)) then {HhMm(s.Candidate(i))} else {})
    ensures s.Offered(i) ==> Take(s.Listed(i + 1), count) == sameDay + [HhMm(s.Candidate(i))]
    ensures !s.Offered(i) ==> Take(s.Listed(i + 1), count) == sameDay
  {
    assert sameDay == s.Listed(i);
  }

  /** Within opening hours a candidate's text was seen exactly when its minute was. */
  lemma SeenText(s: Search, i: nat)
    requires 0 <= s.open && s.close < 1440 && s.InHours(s.Candidate(i))
    ensures HhMm(s.Candidate(i)) in s.SeenSet(i) <==> s.SeenBefore(i)
  {
    SeenSetMembers(s, i, HhMm(s.Candidate(i)));
    if HhMm(s.Candidate(i)) in s.SeenSet(i) {
      var j: nat :| j < i && s.InHours(s.Candidate(j)) && HhMm(s.Candidate(j)) == HhMm(s.Candidate(i));
      HhMmInjective(s.Candidate(j), s.Candidate(i));
    }
  }

  lemma {:induction false} SeenSetMembers(s: Search, n: nat, x: string)
    ensures x in s.SeenSet(n) <==> exists j: nat :: j < n && s.InHours(s.Candidate(j)) && HhMm(s.Candidate(j)) == x
  {
    if n > 0 {
      SeenSetMembers(s, n - 1, x);
    }
  }

  lemma {:induction false} ListedPrefix(s: Search, i: nat, j: nat)
    requires i <= j
    ensures s.Listed(i) <= s.Listed(j)
    decreases j - i
  {
    if i < j {
      ListedPrefix(s, i, j - 1);
    }
  }

  lemma NextListedPrefix(s: Search, i: nat, j: nat)
    requires i < j
    ensures s.NextListed(i) <= s.NextListed(j)
  {
    var f := (k: nat) => s.NextListed(k);
    forall k: nat, m: nat | k < j && m == k + 1
      ensures f(k) <= f(m)
    {
      NextListedStep(s, k);
    }
    ChainPrefix(f, i, j);
  }

  /** A chain of sequences each a prefix of the next. */
  lemma {:induction false} ChainPrefix<T>(f: nat -> seq<T>, i: nat, j: nat)
    requires i < j
    requires forall k: nat, m: nat :: k < j && m == k + 1 ==> f(k) <= f(m)
    ensures f(i) <= f(j)
    decreases j - i
  {
    if i < j - 1 {
      ChainPrefix(f, i, j - 1);
      PrefixTrans(f(i), f(j - 1), f(j));
    } else {
      assert f(i) <= f(i + 1);
    }
  }

  /** One more probe only appends to the list. */
  lemma NextListedStep(s: Search, k: nat)
    ensures s.NextListed(k) <= s.NextListed(k + 1)
  {
    var c := if s.NextFree(k) then [HhMm(s.NextProbe(k))] else [];
    PrefixExtend(s.NextListed(k), s.NextListed(k), c);
  }

  lemma PrefixTrans<T>(a: seq<T>, b: seq<T>, x: seq<T>)
    requires a <= b && b <= x
    ensures a <= x
  {
    assert x[..|a|] == b[..|a|];
  }

  lemma PrefixExtend<T>(a: seq<T>, b: seq<T>, c: seq<T>)
    requires a <= b
    ensures a <= b + c
  {
    assert (b + c)[..|a|] == b[..|a|];
  }

  // ---------------------------------------------------------------------
  // suggest_slots_around: properties
  // ---------------------------------------------------------------------

  /** The distance of a suggested time from the anchor, in minutes. */
  function Distance(s: Search, e: string): int
    requires IsHhMm(e)
  {
    Gap(MinutesOf(e), s.anchor)
  }

  /**
   * Same-day suggestions are valid times within opening hours (both ends
   * included) that are not taken, no two alike, at most `count` of them.
   */
  lemma SameDayValid(s: Search, count: int)
    requires 0 <= s.open && s.close < 1440
    ensures |SameDaySlots(s, count)| <= OffsetCount
    ensures count >= 0 ==> |SameDaySlots(s, count)| <= count
    ensures forall p :: 0 <= p < |SameDaySlots(s, count)| ==>
      var e := SameDaySlots(s, count)[p];
      IsHhMm(e) && s.open <= MinutesOf(e) <= s.close && !IsSlotTaken(s.rows, s.date, e)
    ensures forall p, q :: 0 <= p < q < |SameDaySlots(s, count)| ==> SameDaySlots(s, count)[p] != SameDaySlots(s, count)[q]
  {
    var l := s.Listed(OffsetCount);
    OriginsFacts(s, OffsetCount);
    var o := s.Origins(OffsetCount);
    forall p | 0 <= p < |l|
      ensures IsHhMm(l[p]) && MinutesOf(l[p]) == s.Candidate(o[p])
    {
      HhMmValid(s.Candidate(o[p]));
    }
    forall p, q | 0 <= p < q < |l| ensures l[p] != l[q] {
      assert s.Offered(o[q]) && o[p] < o[q] && s.InHours(s.Candidate(o[p]));
      HhMmDistinct(s.Candidate(o[p]), s.Candidate(o[q]));
    }
  }

  /**
   * With a positive slot length the suggestions are nearest-first: each is at
   * least as close to the anchor as the next, and at equal distance the
   * earlier time comes first.
   */
  lemma SameDayNearestFirst(s: Search, count: int)
    requires 0 <= s.open && s.close < 1440 && s.slot > 0
    ensures forall p, q :: 0 <= p < q < |SameDaySlots(s, count)| ==>
      var a := SameDaySlots(s, count)[p];
      var b := SameDaySlots(s, count)[q];
      IsHhMm(a) && IsHhMm(b)
      && (Distance(s, a) < Distance(s, b) || (Distance(s, a) == Distance(s, b) && MinutesOf(a) < MinutesOf(b)))
  {
    var l := s.Listed(OffsetCount);
    var t := SameDaySlots(s, count);
    assert t <= l;
    OriginsFacts(s, OffsetCount);
    var o := s.Origins(OffsetCount);
    forall p, q | 0 <= p < q < |t|
      ensures IsHhMm(t[p]) && IsHhMm(t[q])
      ensures Distance(s, t[p]) < Distance(s, t[q]) || (Distance(s, t[p]) == Distance(s, t[q]) && MinutesOf(t[p]) < MinutesOf(t[q]))
    {
      assert t[p] == l[p] && t[q] == l[q];
      HhMmValid(s.Candidate(o[p]));
      HhMmValid(s.Candidate(o[q]));
      CandidateOrder(s, o[p], o[q]);
    }
  }

  /** Later candidates are no nearer; at equal distance the earlier candidate is below the anchor. */
  lemma CandidateOrder(s: Search, j: nat, k: nat)
    requires j < k && s.slot > 0
    ensures Gap(s.Candidate(j), s.anchor) < Gap(s.Candidate(k), s.anchor)
            || (Gap(s.Candidate(j), s.anchor) == Gap(s.Candidate(k), s.anchor) && s.Candidate(j) < s.Candidate(k))
  {
    var oj := OffsetAt(j);
    var ok := OffsetAt(k);
    var mj := (j + 1) / 2;
    var mk := (k + 1) / 2;
    assert s.Candidate(j) - s.anchor == oj * s.slot;
    assert s.Candidate(k) - s.anchor == ok * s.slot;
    AbsScale(oj, s.slot);
    AbsScale(ok, s.slot);
    if mj < mk {
      MulStrict(mj, mk, s.slot);
    } else {
      assert j % 2 == 1 && k == j + 1;
      assert oj == -mj && ok == mj && mj >= 1;
      MulPositive(mj, s.slot);
    }
  }

  function Gap(m: int, anchor: int): int { if m < anchor then anchor - m else m - anchor }

  lemma AbsScale(o: int, slot: int)
    requires slot > 0
    ensures Gap(o * slot, 0) == (if o < 0 then -o else o) * slot
  {
    if o < 0 {
      assert o * slot == -((-o) * slot);
    }
  }

  lemma MulStrict(a: int, b: int, c: int)
    requires a < b && c > 0
    ensures a * c < b * c
  {
    assert b * c - a * c == (b - a) * c;
    MulPositive(b - a, c);
  }

  lemma MulPositive(a: int, c: int)
    requires a > 0 && c > 0
    ensures a * c > 0
  {
  }

  /** The facts behind `Listed(n)`: the suggested candidates, in increasing search order. */
  lemma {:induction false} OriginsFacts(s: Search, n: nat)
    ensures |s.Origins(n)| == |s.Listed(n)| <= n
    ensures forall p :: 0 <= p < |s.Origins(n)| ==>
      s.Origins(n)[p] < n && s.Offered(s.Origins(n)[p]) && s.Listed(n)[p] == HhMm(s.Candidate(s.Origins(n)[p]))
    ensures forall p, q :: 0 <= p < q < |s.Origins(n)| ==> s.Origins(n)[p] < s.Origins(n)[q]
  {
    if n > 0 {
      OriginsFacts(s, n - 1);
    }
  }

  /** A free anchor is suggested first. */
  lemma AnchorFirst(s: Search, count: int)
    requires 0 <= s.open <= s.anchor <= s.close < 1440
    requires count >= 1
    requires !IsSlotTaken(s.rows, s.date, HhMm(s.anchor))
    ensures |SameDaySlots(s, count)| >= 1 && SameDaySlots(s, count)[0] == HhMm(s.anchor)
  {
    assert s.Candidate(0) == s.anchor;
    assert !s.SeenBefore(0);
    assert s.Listed(1) == [HhMm(s.anchor)];
    ListedPrefix(s, 1, OffsetCount);
  }

  /**
   * Next-day suggestions: none unless the anchor is at or after closing or
   * nothing was found on the day; at most `min(3, count)`, each a free probe
   * among 20 from opening time on the following day, not bounded by closing.
   */
  lemma NextDayValid(s: Search, count: int)
    ensures |NextDaySlots(s, count)| > 0 ==> s.anchor >= s.close || |SameDaySlots(s, count)| == 0
    ensures |NextDaySlots(s, count)| <= 3 && (count >= 0 ==> |NextDaySlots(s, count)| <= count)
    ensures forall p :: 0 <= p < |NextDaySlots(s, count)| ==>
      !IsSlotTaken(s.rows, s.date + 1, NextDaySlots(s, count)[p])
      && FreeProbe(s, 20, NextDaySlots(s, count)[p])
  {
    NextListedFacts(s, 20);
  }

  /** `e` is the text of a free probe among the first `n`. */
  predicate FreeProbe(s: Search, n: nat, e: string) {
    exists k: nat :: k < n && s.NextFree(k) && e == HhMm(s.NextProbe(k))
  }

  lemma {:induction false} NextListedFacts(s: Search, n: nat)
    ensures forall p :: 0 <= p < |s.NextListed(n)| ==> FreeProbe(s, n, s.NextListed(n)[p])
  {
    if n > 0 {
      if s.NextFree(n - 1) {
        FreeProbeAt(s, n, n - 1);
      }
      NextListedFacts(s, n - 1);
      var prev := s.NextListed(n - 1);
      var tail := if s.NextFree(n - 1) then [HhMm(s.NextProbe(n - 1))] else [];
      assert s.NextListed(n) == prev + tail;
      forall p | 0 <= p < |prev|
        ensures FreeProbe(s, n, prev[p])
      {
        FreeProbeGrows(s, n - 1, n, prev[p]);
      }
    }
  }

  lemma FreeProbeAt(s: Search, n: nat, k: nat)
    requires k < n && s.NextFree(k)
    ensures FreeProbe(s, n, HhMm(s.NextProbe(k)))
  {
  }

  lemma FreeProbeGrows(s: Search, m: nat, n: nat, e: string)
    requires m <= n && FreeProbe(s, m, e)
    ensures FreeProbe(s, n, e)
  {
  }

  /** When next-day slots are offered and opening time is free that day, it comes first. */
  lemma NextDayStartsAtOpening(s: Search, count: int)
    requires s.anchor >= s.close || |SameDaySlots(s, count)| == 0
    requires count >= 1
    requires !IsSlotTaken(s.rows, s.date + 1, HhMm(s.open))
    ensures |NextDaySlots(s, count)| >= 1 && NextDaySlots(s, count)[0] == HhMm(s.open)
  {
    assert s.NextProbe(0) == s.open;
    assert s.NextListed(1) == [HhMm(s.open)];
    NextListedPrefix(s, 1, 20);
  }

  // ---------------------------------------------------------------------
  // extract_booking_ref_id
  // ---------------------------------------------------------------------

  const RefPrefix := "SALON-"

  predicate IsRefChar(c: char) { IsUpper(c) || IsDigit(c) }

  /** `\bSALON-[A-Z0-9]{8}\b` at position `i`. */
  predicate RefAt(t: string, i: int) {
    0 <= i && i + 14 <= |t| && NonWordAt(t, i - 1) && t[i..i + 6] == RefPrefix
    && (forall k :: i + 6 <= k < i + 14 ==> IsRefChar(t[k]))
    && NonWordAt(t, i + 14)
  }

  /** The leftmost reference from position `i` on. */
  function FirstRefFrom(t: string, i: nat): (r: Option<nat>)
    ensures r.Some? ==> i <= r.value && RefAt(t, r.value)
    ensures r.Some? ==> forall j :: i <= j < r.value ==> !RefAt(t, j)
    ensures r.None? ==> forall j :: i <= j ==> !RefAt(t, j)
    decreases |t| - i
  {
    if i + 14 > |t| then None
    else if RefAt(t, i) then Some(i)
    else FirstRefFrom(t, i + 1)
  }

  /** `extract_booking_ref_id`: the leftmost reference in the upper-cased text. */
  function ExtractBookingRefId(text: string): (r: Option<string>)
    ensures r.Some? ==> |r.value| == 14 && r.value[..6] == RefPrefix
                        && forall k :: 6 <= k < 14 ==> IsRefChar(r.value[k])
    ensures r.Some? <==> exists i :: RefAt(Upper(text), i)
    ensures r.Some? ==> exists i :: RefAt(Upper(text), i) && Upper(text)[i..i + 14] == r.value
                                  && forall j :: 0 <= j < i ==> !RefAt(Upper(text), j)
  {
    if |text| == 0 then None
    else
      var t := Upper(text);
      match FirstRefFrom(t, 0)
      case Some(i) => Some(t[i..i + 14])
      case None => None
  }
}
