/** The study-preferences step (components/form/preferences-step.tsx): a
    record setter, the hours inputs and the weekly-hours estimate. The wizard
    in components/study-plan-form.tsx updates its preferences with the same
    setter. Hours are counted in half-hour units. */
module Preferences {
  import opened Types
  import opened Numerals
  import PlanParams

  /** The field a control writes, with the value it writes. */
  datatype PreferenceEdit =
    | SetWeekdayHours(weekdayHours: int)
    | SetWeekendHours(weekendHours: int)
    | SetPreferredTime(preferredTime: PreferredTime)
    | SetTargetDate(targetDate: string)

  /** `{ ...data, [field]: value }`: the named field takes the value and the
      other fields are copied. */
  function Update(p: StudyPreferences, e: PreferenceEdit): (q: StudyPreferences)
    ensures q.weekdayHours == (if e.SetWeekdayHours? then e.weekdayHours else p.weekdayHours)
    ensures q.weekendHours == (if e.SetWeekendHours? then e.weekendHours else p.weekendHours)
    ensures q.preferredTime == (if e.SetPreferredTime? then e.preferredTime else p.preferredTime)
    ensures q.targetDate == (if e.SetTargetDate? then e.targetDate else p.targetDate)
  {
    match e
    case SetWeekdayHours(v) => p.(weekdayHours := v)
    case SetWeekendHours(v) => p.(weekendHours := v)
    case SetPreferredTime(v) => p.(preferredTime := v)
    case SetTargetDate(v) => p.(targetDate := v)
  }

  /** An hours input: `Number.parseInt(text) || 1` whole hours, in half-hour
      units, so always a non-zero whole number of hours. */
  function HoursFromInput(text: string): (halfHours: int)
    ensures halfHours != 0 && halfHours % 2 == 0
    ensures ParseInt(text).None? || ParseInt(text).value == 0 ==> halfHours == 2
    ensures ParseInt(text).Some? && ParseInt(text).value != 0 ==> halfHours == 2 * ParseInt(text).value
  {
    2 * ParseIntOrOne(text)
  }

  /** Typed whole hours come back as themselves, zero excepted, which becomes
      one hour. */
  lemma HoursFromTypedNumber(n: int, rest: string)
    requires rest == [] || !IsDigit(rest[0])
    ensures HoursFromInput(IntToString(n) + rest) == 2 * (if n == 0 then 1 else n)
  {
    ParseIntOrOneOfNumber(n, rest);
  }

  /** The estimate shown under the inputs, computed in the component itself
      from the current preferences. */
  function WeeklyEstimate(p: StudyPreferences): int
  {
    p.weekdayHours * 5 + p.weekendHours * 2
  }

  /** The figure the student sees before submitting is the weekly budget the
      endpoint later puts into the prompt for the same preferences, whatever
      the target date. */
  lemma WeeklyEstimateMatchesEndpoint(p: StudyPreferences, nowMs: int, targetMs: int)
    ensures WeeklyEstimate(p) == PlanParams.Derive(p, nowMs, targetMs).weeklyHours
  {
    PlanParams.WeeklyHoursIsSumOfDays(p.weekdayHours, p.weekendHours);
  }

  /** The choices of the preferred-time select, in display order. */
  const TimeOptions: seq<PreferredTime> := [Morning, Afternoon, Evening, Night]

  /** The select offers every preferred time exactly once. */
  lemma TimeOptionsAreTheFourTimes(t: PreferredTime)
    ensures t in TimeOptions
    ensures |TimeOptions| == 4
    ensures forall i, j :: 0 <= i < j < |TimeOptions| ==> TimeOptions[i] != TimeOptions[j]
    ensures PreferredTimeName(t) in {"morning", "afternoon", "evening", "night"}
  {
  }
}
