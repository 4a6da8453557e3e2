/**
 * The `schedule` memo of the vaccination reminder (app/tools/page.tsx) and
 * the "Generate Schedule" button that goes with it. Converting a number to
 * text inside the notes template is the parameter `show`.
 */
module Vaccination {
  import opened Wrappers
  import opened JsValues

  /** The fixed vaccination cycle, in days, anchored to the age in months. */
  const Cycle: real := 180.0

  /** What the reminder shows: days until the next dose, and a sentence of notes. */
  datatype Schedule = Schedule(nextDue: real, notes: string)

  /** `Math.max(0, 180 - (age % 180))`, with JavaScript's truncating `%`. */
  function DueInDays(age: real): (days: real)
    ensures 0.0 < days < 2.0 * Cycle
    ensures age > 0.0 ==> days <= Cycle
    ensures age < 0.0 ==> Cycle <= days
    ensures days == Cycle - JsRem(age, Cycle)
  {
    MathMax(0.0, Cycle - JsRem(age, Cycle))
  }

  /** The schedule memo: nothing unless breed, age and last date are all truthy. */
  function ComputeSchedule(breed: string, age: NumberInput, lastDate: string, show: real -> string)
    : (s: Option<Schedule>)
    ensures s.None? <==> breed == "" || age == Blank || age == Val(0.0) || lastDate == ""
    ensures s.Some? ==> s.value.nextDue == DueInDays(age.r) && s.value.nextDue > 0.0
    ensures s.Some? ==> age.r > 0.0 ==> s.value.nextDue <= Cycle
    ensures s.Some? ==> StartsWith(s.value.notes, "Based on " + breed + " at " + show(age.r))
                        && EndsWith(s.value.notes, " months. Consult local guidelines.")
  {
    if !StringTruthy(breed) || !Truthy(age) || !StringTruthy(lastDate) then None
    else
      Some(Schedule(
             DueInDays(age.r),
             "Based on " + breed + " at " + show(age.r) + " months. Consult local guidelines."))
  }

  /** `disabled={!breed || !age || !lastDate}` on the "Generate Schedule" button. */
  function GenerateDisabled(breed: string, age: NumberInput, lastDate: string): (disabled: bool)
    ensures disabled <==> breed == "" || age == Blank || age == Val(0.0) || lastDate == ""
  {
    !StringTruthy(breed) || !Truthy(age) || !StringTruthy(lastDate)
  }

  /** The button is disabled exactly when the memo yields no schedule. */
  lemma DisabledIffNoSchedule(breed: string, age: NumberInput, lastDate: string, show: real -> string)
    ensures GenerateDisabled(breed, age, lastDate) <==> ComputeSchedule(breed, age, lastDate, show).None?
  {}

  /** The last-vaccination date only gates the schedule: any two non-empty dates give the same one. */
  lemma LastDateOnlyGates(breed: string, age: NumberInput, d1: string, d2: string, show: real -> string)
    requires d1 != "" && d2 != ""
    ensures ComputeSchedule(breed, age, d1, show) == ComputeSchedule(breed, age, d2, show)
  {}

  /**
   * The due date repeats every 180 months while the age keeps its sign; it
   * breaks only where `age + 180` crosses zero.
   */
  lemma DueInDaysPeriodic(age: real)
    requires age > 0.0 || age + Cycle < 0.0
    ensures DueInDays(age + Cycle) == DueInDays(age)
  {
    JsRemShift(age, Cycle);
  }

  /** Worked values: ages 90, 180, 270 and, typed past the `min`, -10. */
  lemma DueInDaysExamples()
    ensures DueInDays(90.0) == 90.0
    ensures DueInDays(180.0) == 180.0
    ensures DueInDays(270.0) == 90.0
    ensures DueInDays(-10.0) == 190.0
  {}
}
