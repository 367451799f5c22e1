/** Donor eligibility as the dashboard computes it (`calculateEligibility`): a
    medical hold for allergies, otherwise a 56-day cooldown after the last donation,
    counted in whole days rounded up. */
module Eligibility {
  import opened Wrappers
  import opened Text
  import opened Types

  const COOLDOWN_DAYS: int := 56

  /** The dashboard's status line, before rendering. */
  datatype Notice = MedicalHold | DonateToday | EligibleIn(days: int)

  datatype Eligibility = Eligibility(daysRemaining: int, isEligible: bool, notice: Notice)

  /** The status line as displayed: the two fixed texts belong to exactly the hold
      and the eligible notices. */
  function NoticeText(n: Notice): (t: string)
    ensures t == "Medical Hold" <==> n == MedicalHold
    ensures t == "You can donate today!" <==> n == DonateToday
  {
    match n
    case MedicalHold => "Medical Hold"
    case DonateToday => "You can donate today!"
    case EligibleIn(days) =>
      var t := "Eligible in " + (if days < 0 then "-" + Decimal(-days) else Decimal(days)) + " days";
      assert t[0] == 'E';
      t
  }

  /** `Math.ceil(a / b)` for a positive divisor. */
  function CeilDiv(a: int, b: int): (q: int)
    requires b > 0
    ensures (q - 1) * b < a <= q * b
  {
    var m := (-a) / b;
    assert -a == m * b + (-a) % b;
    -m
  }

  /** The first instant at which a donor who last gave at `last` may give again. */
  function NextEligible(last: Millis): Millis
  {
    last + COOLDOWN_DAYS * DAY_MS
  }

  /** `calculateEligibility(lastDate)` with the page's `hasAllergies` state and the
      clock reading `now`. */
  function CalculateEligibility(hasAllergies: bool, lastDate: Option<Millis>, now: Millis): (e: Eligibility)
    ensures hasAllergies ==> e == Eligibility(0, false, MedicalHold)
    ensures !hasAllergies && lastDate.None? ==> e == Eligibility(0, true, DonateToday)
    ensures !hasAllergies && lastDate.Some? ==>
              (e.isEligible <==> now >= NextEligible(lastDate.value))
    ensures !hasAllergies ==> (e.isEligible <==> e.daysRemaining == 0)
    ensures e.daysRemaining >= 0
    ensures e.isEligible ==> e.daysRemaining == 0 && e.notice == DonateToday
    ensures !hasAllergies && lastDate.Some? && !e.isEligible ==>
              e.notice == EligibleIn(e.daysRemaining) &&
              (e.daysRemaining - 1) * DAY_MS < NextEligible(lastDate.value) - now <= e.daysRemaining * DAY_MS
  {
    if hasAllergies then Eligibility(0, false, MedicalHold)
    else if lastDate.None? then Eligibility(0, true, DonateToday)
    else
      var diffDays := CeilDiv(NextEligible(lastDate.value) - now, DAY_MS);
      if diffDays <= 0 then Eligibility(0, true, DonateToday)
      else Eligibility(diffDays, false, EligibleIn(diffDays))
  }

  /** Once eligible, a donor stays eligible as time goes on; while waiting, the
      number of days remaining never grows. */
  lemma EligibilityMonotone(hasAllergies: bool, lastDate: Option<Millis>, now: Millis, later: Millis)
    requires now <= later
    ensures CalculateEligibility(hasAllergies, lastDate, now).isEligible ==>
            CalculateEligibility(hasAllergies, lastDate, later).isEligible
    ensures CalculateEligibility(hasAllergies, lastDate, later).daysRemaining <=
            CalculateEligibility(hasAllergies, lastDate, now).daysRemaining
  {
    var e1 := CalculateEligibility(hasAllergies, lastDate, now);
    var e2 := CalculateEligibility(hasAllergies, lastDate, later);
    if !hasAllergies && lastDate.Some? && !e2.isEligible {
      var gap1 := NextEligible(lastDate.value) - now;
      var gap2 := NextEligible(lastDate.value) - later;
      assert gap2 <= gap1;
      assert (e2.daysRemaining - 1) * DAY_MS < gap2;
      assert gap1 <= e1.daysRemaining * DAY_MS;
    }
  }

  /** The boundary around the cooldown: 55 days after a donation one day remains,
      from 56 days on the donor is eligible. */
  lemma CooldownBoundary(last: Millis)
    ensures CalculateEligibility(false, Some(last), last + 55 * DAY_MS) == Eligibility(1, false, EligibleIn(1))
    ensures CalculateEligibility(false, Some(last), last + 56 * DAY_MS) == Eligibility(0, true, DonateToday)
    ensures CalculateEligibility(false, Some(last), last + 57 * DAY_MS) == Eligibility(0, true, DonateToday)
  {
    var e := CalculateEligibility(false, Some(last), last + 55 * DAY_MS);
    assert NextEligible(last) - (last + 55 * DAY_MS) == DAY_MS;
    assert (e.daysRemaining - 1) * DAY_MS < DAY_MS <= e.daysRemaining * DAY_MS;
  }

  /** Any instant in [last + 55 days, last + 56 days) still shows one day left. */
  lemma LastWaitingDay(last: Millis, now: Millis)
    requires last + 55 * DAY_MS <= now < last + 56 * DAY_MS
    ensures CalculateEligibility(false, Some(last), now) == Eligibility(1, false, EligibleIn(1))
  {
    var e := CalculateEligibility(false, Some(last), now);
    var gap := NextEligible(last) - now;
    assert 0 < gap <= DAY_MS;
    assert (e.daysRemaining - 1) * DAY_MS < gap <= e.daysRemaining * DAY_MS;
  }

  /** The text the card shows: "Medical Hold" under an allergy hold, "You can donate
      today!" when eligible, and otherwise "Eligible in N days" with N the days
      remaining, written in decimal. */
  lemma EligibilityText(hasAllergies: bool, lastDate: Option<Millis>, now: Millis)
    ensures var e := CalculateEligibility(hasAllergies, lastDate, now);
            NoticeText(e.notice) ==
              if hasAllergies then "Medical Hold"
              else if e.isEligible then "You can donate today!"
              else "Eligible in " + Decimal(e.daysRemaining) + " days"
  {
  }
}
