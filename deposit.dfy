/**
 * The deposit a booking needs: the larger of the service's own deposit and
 * the prime-time deposit for weekend and evening slots.
 */
module Deposit {
  import opened Text
  import opened Clock
  import opened Records

  /** The per-service rule table; a service not in it needs no deposit. */
  function ServiceDeposit(key: string): (cents: int)
    ensures cents == (if key == "facial" then 2000 else 0)
  {
    if key == "facial" then 2000
    else if key == "haircut" then 0
    else if key == "beard trim" then 0
    else 0
  }

  /** The prime-time rule: weekends and evenings from 18:00 need 1500 cents. */
  const PrimeDepositCents := 1500
  const EveningStartHour := 18

  /** Saturday or Sunday, or an hour from 18 on. */
  predicate IsPrimeTime(date: Day, time: string)
    requires IsHhMm(time)
  {
    Weekday(date) >= 5 || DigitsValue(time[..2]) >= EveningStartHour
  }

  /** 1500 cents exactly for a Saturday or Sunday or a slot from 18:00 (1080 minutes) on, nothing otherwise. */
  function PrimeDeposit(date: Day, time: string): (cents: int)
    requires IsHhMm(time)
    ensures cents == 0 || cents == PrimeDepositCents
    ensures cents == PrimeDepositCents <==> Weekday(date) >= 5 || MinutesOf(time) >= EveningStartHour * 60
  {
    if IsPrimeTime(date, time) then PrimeDepositCents else 0
  }

  /** The key a service is looked up under: lower-cased, then stripped. */
  function ServiceKey(service: string): string {
    Strip(Lower(service))
  }

  /**
   * `compute_deposit` for a booking whose stored time is a valid "HH:MM"
   * (any other time makes the original raise).
   */
  function ComputeDeposit(service: string, date: Day, time: string): (cents: int)
    requires IsHhMm(time)
    ensures cents >= ServiceDeposit(ServiceKey(service)) && cents >= PrimeDeposit(date, time)
    ensures cents == ServiceDeposit(ServiceKey(service)) || cents == PrimeDeposit(date, time)
    ensures cents == 0 || cents == 1500 || cents == 2000
  {
    var s := ServiceDeposit(ServiceKey(service));
    var p := PrimeDeposit(date, time);
    if s >= p then s else p
  }

  // ---------------------------------------------------------------------
  // Properties
  // ---------------------------------------------------------------------

  /** A facial always costs 2000, the service amount, even at prime time: the two rules never add up. */
  lemma FacialAlways2000(service: string, date: Day, time: string)
    requires IsHhMm(time)
    requires ServiceKey(service) == "facial"
    ensures ComputeDeposit(service, date, time) == 2000
  {
  }

  /** For any other service the deposit is 1500 exactly at prime time and 0 otherwise. */
  lemma OtherServiceDeposit(service: string, date: Day, time: string)
    requires IsHhMm(time)
    requires ServiceKey(service) != "facial"
    ensures ComputeDeposit(service, date, time) == (if IsPrimeTime(date, time) then 1500 else 0)
  {
  }

  /** The lookup ignores case and the blanks around the name. */
  lemma DepositIgnoresCase(a: string, b: string, date: Day, time: string)
    requires IsHhMm(time)
    requires ServiceKey(a) == ServiceKey(b)
    ensures ComputeDeposit(a, date, time) == ComputeDeposit(b, date, time)
  {
  }

  /** For a fixed service, a weekend or evening slot costs at least as much as any other slot. */
  lemma PrimeCostsAtLeast(service: string, d1: Day, t1: string, d2: Day, t2: string)
    requires IsHhMm(t1) && IsHhMm(t2)
    requires IsPrimeTime(d2, t2)
    ensures ComputeDeposit(service, d2, t2) >= ComputeDeposit(service, d1, t1)
  {
  }

  /** Mixed case and surrounding blanks reach the facial rule. */
  lemma SpacedFacial(date: Day, time: string)
    requires IsHhMm(time)
    ensures ComputeDeposit(" Facial ", date, time) == 2000
  {
    var l := Lower(" Facial ");
    assert l == " facial ";
    assert l[1..] == "facial ";
    NoSpaceTrimLeft("facial ");
    assert "facial "[..6] == "facial";
    NoSpaceTrimRight("facial");
  }
}
