/**
 * The `plan` memo of the nutrition calculator (app/tools/page.tsx) and the
 * "Get Nutrition Plan" button. Amounts are computed over exact reals and then
 * shown through `toFixed(1)`; converting a number to text inside the notes
 * template is the parameter `show`.
 */
module Nutrition {
  import opened Wrappers
  import opened JsValues

  /** Minimum maintenance fodder, kg per day. */
  const MinFodderKg: real := 3.0
  /** Fodder as a share of body weight (2%). */
  const FodderShare: real := 0.02
  /** Concentrate per litre of daily milk yield, kg. */
  const ConcentratePerLitre: real := 0.4
  /** Concentrate when no milk yield is given, kg per day. */
  const DefaultConcentrateKg: real := 1.0
  /** The constant supplement recommendation. */
  const Supplements: string := "Mineral mix 50g, salt 30g"

  /** What the calculator shows: two amounts as printed by `toFixed(1)`, the supplements and the notes. */
  datatype Plan = Plan(fodder: Fixed1, concentrate: Fixed1, supplements: string, notes: string)

  /** `Math.max(3, wt * 0.02)`: 2% of body weight, never below the 3 kg minimum. */
  function FodderKg(weight: real): (kg: real)
    ensures kg >= MinFodderKg && kg >= weight * FodderShare
    ensures kg == MinFodderKg || kg == weight * FodderShare
  {
    MathMax(MinFodderKg, weight * FodderShare)
  }

  /** The minimum applies up to 150 kg; above that the fodder is 2% of the weight. */
  lemma FodderThreshold(weight: real)
    ensures weight <= 150.0 ==> FodderKg(weight) == MinFodderKg
    ensures weight > 150.0 ==> FodderKg(weight) == weight * FodderShare > MinFodderKg
  {}

  /** `milk ? Number(milk) * 0.4 : 1`. */
  function ConcentrateKg(milk: NumberInput): (kg: real)
    ensures Truthy(milk) ==> kg == milk.r * ConcentratePerLitre
    ensures !Truthy(milk) ==> kg == DefaultConcentrateKg
    ensures kg < 0.0 <==> milk.Val? && milk.r < 0.0
  {
    if Truthy(milk) then milk.r * ConcentratePerLitre else DefaultConcentrateKg
  }

  /** The optional `, <milk> L/day` clause of the notes. */
  function MilkClause(milk: NumberInput, show: real -> string): (clause: string)
    ensures clause == "" <==> !Truthy(milk)
  {
    if Truthy(milk) then ", " + show(milk.r) + " L/day" else ""
  }

  /** The plan memo: nothing unless breed, age and weight are all truthy; milk yield is optional. */
  function ComputePlan(breed: string, age: NumberInput, weight: NumberInput, milk: NumberInput,
                       show: real -> string): (p: Option<Plan>)
    ensures p.None? <==> breed == "" || age == Blank || age == Val(0.0)
                         || weight == Blank || weight == Val(0.0)
    ensures p.Some? ==> p.value.supplements == Supplements
    ensures p.Some? ==> p.value.fodder == ToFixed1(FodderKg(weight.r))
                        && p.value.concentrate == ToFixed1(ConcentrateKg(milk))
    ensures p.Some? ==> !p.value.fodder.negative && p.value.fodder.tenths >= 30
    ensures p.Some? ==> -0.05 <= p.value.fodder.Value() - FodderKg(weight.r) <= 0.05
    ensures p.Some? ==> -0.05 <= p.value.concentrate.Value() - ConcentrateKg(milk) <= 0.05
    ensures p.Some? ==> StartsWith(p.value.notes, "Auto plan for " + breed + ", " + show(age.r)
                                                  + " mo, ~" + show(weight.r) + " kg")
    ensures p.Some? ==> (EndsWith(p.value.notes, " L/day.") <==> Truthy(milk))
  {
    if !StringTruthy(breed) || !Truthy(age) || !Truthy(weight) then None
    else
      var wt := weight.r;
      var notes := "Auto plan for " + breed + ", " + show(age.r) + " mo, ~" + show(wt) + " kg"
                   + MilkClause(milk, show) + ".";
      NotesEnding(notes, "Auto plan for " + breed + ", " + show(age.r) + " mo, ~" + show(wt),
                  milk, show);
      FodderShown(wt);
      Some(Plan(ToFixed1(FodderKg(wt)), ToFixed1(ConcentrateKg(milk)), Supplements, notes))
  }

  /** A rendered fodder amount is never below 3.0. */
  lemma FodderShown(weight: real)
    ensures !ToFixed1(FodderKg(weight)).negative && ToFixed1(FodderKg(weight)).tenths >= 30
  {}

  /** Notes end with the milk clause exactly when milk is truthy, and with " kg." otherwise. */
  lemma NotesEnding(notes: string, head: string, milk: NumberInput, show: real -> string)
    requires notes == head + " kg" + MilkClause(milk, show) + "."
    ensures EndsWith(notes, " L/day.") <==> Truthy(milk)
  {
    if Truthy(milk) {
      var mid := head + " kg" + ", " + show(milk.r);
      assert notes == mid + " L/day.";
      assert notes[|notes| - 7..] == " L/day.";
    } else {
      assert notes == head + " kg.";
      assert notes[|notes| - 3] == 'k';
    }
  }

  /** The printed concentrate carries a minus sign exactly when a negative milk yield was typed. */
  lemma ConcentrateSignShown(milk: NumberInput)
    ensures ToFixed1(ConcentrateKg(milk)).negative <==> milk.Val? && milk.r < 0.0
  {}

  /** `disabled={!breed || !age || !weight}` on the "Get Nutrition Plan" button. */
  function PlanDisabled(breed: string, age: NumberInput, weight: NumberInput): (disabled: bool)
    ensures disabled <==> breed == "" || age == Blank || age == Val(0.0)
                          || weight == Blank || weight == Val(0.0)
  {
    !StringTruthy(breed) || !Truthy(age) || !Truthy(weight)
  }

  /** The button is disabled exactly when the memo yields no plan, whatever the milk yield. */
  lemma DisabledIffNoPlan(breed: string, age: NumberInput, weight: NumberInput, milk: NumberInput,
                          show: real -> string)
    ensures PlanDisabled(breed, age, weight) <==> ComputePlan(breed, age, weight, milk, show).None?
  {}

  /** Milk yield never decides whether a plan exists, nor its fodder or supplements. */
  lemma MilkOnlyShapesConcentrate(breed: string, age: NumberInput, weight: NumberInput,
                                  m1: NumberInput, m2: NumberInput, show: real -> string)
    ensures var p1 := ComputePlan(breed, age, weight, m1, show);
            var p2 := ComputePlan(breed, age, weight, m2, show);
            p1.Some? == p2.Some?
            && (p1.Some? ==> p1.value.fodder == p2.value.fodder
                             && p1.value.supplements == p2.value.supplements)
  {}

  /**
   * Worked values: 100 kg gives 3.0 kg fodder, 500 kg gives 10.0; 10 L/day gives
   * 4.0 kg concentrate, no milk gives 1.0; 0.625 L/day gives 0.25 kg, printed
   * "0.3" (a tie rounds up); -0.01 L/day gives -0.004 kg, printed "-0.0".
   */
  lemma PlanExamples(show: real -> string)
    ensures var p := ComputePlan("Murrah", Val(36.0), Val(100.0), Blank, show);
            p.Some? && p.value.fodder == Fixed1(false, 30) && p.value.concentrate == Fixed1(false, 10)
    ensures var p := ComputePlan("Murrah", Val(36.0), Val(500.0), Val(10.0), show);
            p.Some? && p.value.fodder == Fixed1(false, 100) && p.value.concentrate == Fixed1(false, 40)
    ensures ComputePlan("Murrah", Val(36.0), Val(0.0), Val(10.0), show).None?
    ensures var p := ComputePlan("Murrah", Val(36.0), Val(400.0), Val(0.625), show);
            p.Some? && p.value.concentrate == Fixed1(false, 3)
    ensures var p := ComputePlan("Murrah", Val(36.0), Val(400.0), Val(-0.01), show);
            p.Some? && p.value.concentrate == Fixed1(true, 0)
  {}
}
