# Care-plan calculators of the livestock health tools page

This project models the two calculators on the "Health Tools" page of the
Cattle-detection web front-end: the vaccination reminder and the nutrition
calculator in `app/tools/page.tsx`. Each calculator is a `useMemo` body that
turns the current form fields into a result, or into nothing when the input is
insufficient, and each has a button whose `disabled` flag repeats the memo's
gate. Both memos are lifted out here as pure functions.

Modules:

- `Wrappers`: the `Option` a memo returns (`null` is `None`).
- `JsValues`: the JavaScript semantics the memos depend on.
  - A numeric field is `NumberInput = Blank | Val(r)`, matching the `number | ""` state.
  - Truthiness is JavaScript's: a blank field, `0` and the empty string are falsy.
  - `Math.max`.
  - The truncating `%` is `JsRem`, whose sign follows the dividend (`-10 % 180` is `-10`).
  - `toFixed(1)` is `ToFixed1`, which returns a sign and a count of tenths.
- `Vaccination`: the `schedule` memo and the "Generate Schedule" button.
- `Nutrition`: the `plan` memo and the "Get Nutrition Plan" button.

Numbers are exact reals. The constants 180, 3, 0.02, 0.4 and 1 are exact. The
conversion of a number to text inside the notes template literals is the
function parameter `show`.

Behaviour of `app/tools/page.tsx` that the model reproduces as written:

- Age 0 is falsy, so the gate at line 16 returns `null`: an age of 0 months gives no schedule.
- Line 17 applies `%` to the age as typed, so fractional ages are not rounded.
- The `min={0}` attribute (lines 43, 106, 116, 126) does not stop a typed negative number.
  - A negative age still passes the gate at line 16 and gives a due date in [180, 360).
  - A negative milk yield is truthy at line 77 and gives a negative concentrate amount.
- Inside the memo, the last-vaccination date is read only by the gate at line 16; the button at line 53 tests it too. Its value never reaches lines 17-20.

## Model

| member | source | states |
|---|---|---|
| JsValues.Truthy | app/tools/page.tsx:16 | a number-or-blank field is falsy exactly when it is blank or holds 0, as `!age`, `!weight` (lines 16, 53, 74, 134) and `milk ?` (lines 77, 83) test it |
| JsValues.StringTruthy | app/tools/page.tsx:16 | a string is falsy exactly when it is empty, as `!breed` and `!lastDate` (lines 16, 53, 74, 134) test it |
| JsValues.TruncDiv | app/tools/page.tsx:17 | the quotient inside `%` rounds toward zero: its multiple of the divisor lies between 0 and the dividend, less than one divisor away |
| JsValues.MathMax | app/tools/page.tsx:17 | the result is the larger of the two arguments: at least each, and equal to one of them |
| JsValues.JsRem | app/tools/page.tsx:17 | `%` on numbers: the remainder has the dividend's sign and magnitude below the divisor, and dividend = truncated quotient × divisor + remainder |
| JsValues.JsRemUnique | app/tools/page.tsx:17 | any r with n = q·d + r for an integer q, the sign of n and \|r\| < d is the remainder `%` returns |
| JsValues.JsRemShift | app/tools/page.tsx:17 | adding the divisor to a dividend that keeps its sign leaves `%` unchanged |
| JsValues.ToFixed1 | app/tools/page.tsx:80-81 | `toFixed(1)` prints a minus sign exactly for negative numbers, and the printed decimal is within 0.05 of the number |
| JsValues.ToFixed1Unique | app/tools/page.tsx:80-81 | the printed tenths are the closest count to the magnitude, the larger one on a tie |
| Vaccination.DueInDays | app/tools/page.tsx:17 | the due date is strictly between 0 and 360 days, so `max(0, ·)` never clamps: it is 180 − age % 180. It is at most 180 for positive ages and at least 180 for negative ones |
| Vaccination.ComputeSchedule | app/tools/page.tsx:15-22 | there is no schedule exactly when breed is empty, age is blank or 0, or the last date is empty; otherwise the due date is positive and at most 180 for a positive age, and the notes begin "Based on <breed> at <age>" and end " months. Consult local guidelines." |
| Vaccination.GenerateDisabled | app/tools/page.tsx:53 | the button is disabled exactly when breed is empty, age is blank or 0, or the date is empty |
| Vaccination.DisabledIffNoSchedule | app/tools/page.tsx:53 | "Generate Schedule" is disabled if and only if the memo yields no schedule |
| Vaccination.LastDateOnlyGates | app/tools/page.tsx:15-22 | any two non-empty last-vaccination dates give the identical schedule |
| Vaccination.DueInDaysPeriodic | app/tools/page.tsx:17 | the due date repeats when the age grows by 180 months without changing sign |
| Vaccination.DueInDaysExamples | app/tools/page.tsx:17 | ages 90, 180, 270 and −10 give 90, 180, 90 and 190 days |
| Nutrition.FodderKg | app/tools/page.tsx:76 | fodder is at least 3 kg and at least 2% of the weight, and equals one of the two |
| Nutrition.FodderThreshold | app/tools/page.tsx:76 | fodder is exactly 3 kg up to 150 kg of weight and 2% of the weight (above 3) beyond it |
| Nutrition.ConcentrateKg | app/tools/page.tsx:77 | concentrate is 0.4 kg per litre for a truthy milk yield and 1 kg otherwise; it is negative exactly for a negative milk yield |
| Nutrition.MilkClause | app/tools/page.tsx:83 | the milk clause of the notes is empty exactly when milk is blank or 0 |
| Nutrition.ComputePlan | app/tools/page.tsx:73-85 | no plan exactly when breed is empty, age is blank or 0, or weight is blank or 0; otherwise supplements are the constant text, fodder and concentrate are `toFixed(1)` of the exact amounts (so fodder prints as at least 3.0 and both within 0.05), and the notes begin "Auto plan for <breed>, <age> mo, ~<weight> kg" and end in " L/day." exactly when milk is truthy |
| Nutrition.FodderShown | app/tools/page.tsx:76-80 | the printed fodder is never negative and never below 3.0 |
| Nutrition.NotesEnding | app/tools/page.tsx:83 | notes built from the template end in " L/day." if and only if the milk yield is truthy |
| Nutrition.ConcentrateSignShown | app/tools/page.tsx:77-81 | the printed concentrate has a minus sign exactly when a negative milk yield was typed |
| Nutrition.PlanDisabled | app/tools/page.tsx:134 | the button is disabled exactly when breed is empty, age is blank or 0, or weight is blank or 0 |
| Nutrition.DisabledIffNoPlan | app/tools/page.tsx:134 | "Get Nutrition Plan" is disabled if and only if the memo yields no plan, whatever the milk yield |
| Nutrition.MilkOnlyShapesConcentrate | app/tools/page.tsx:73-85 | two milk yields give plans that both exist or both do not, with the same fodder and supplements |
| Nutrition.PlanExamples | app/tools/page.tsx:74-81 | 100 kg gives 3.0 kg fodder and 1.0 kg concentrate without milk; 500 kg and 10 L/day give 10.0 and 4.0; 0.625 L/day prints 0.3; -0.01 L/day prints -0.0; weight 0 gives no plan |

## Left out

- The "find nearby vet" location fallback chain is not modelled. `EmergencyHelp` (app/tools/page.tsx:162-177) is a button with no handler, so there is no resolver logic to model.
- The photo detection page (app/detect/page.tsx) is not modelled. Its result is hard-coded behind a timer.
- The landing page (app/page.tsx) and the footer (components/Footer.tsx) are not modelled. They hold only static markup and links.
- Binary floating point is not modelled. Rounding effects of 0.02 and 0.4 as IEEE-754 doubles, NaN and infinities are out of scope. A number input only ever holds `""` or a finite number.
- Parsing the typed text into a number (`Number(e.target.value)`) is not modelled. A field is modelled by the value it ends up holding.
- Number-to-text conversion in the notes is the abstract parameter `show`.
- The "N days" label (`${schedule.nextDue} days`, app/tools/page.tsx:58) is rendering outside the memo and is not modelled.
- JsValues.ToFixed1: does not model the branch for magnitudes of 1e21 and above, where `toFixed` falls back to plain number-to-text.
- JsValues.ToFixed1: returns the sign and tenths, not the digit string.
- React state, `useMemo` dependency tracking and re-render timing are not modelled. Each memo is a function of the current field values.
