# BMI calculator: a verified model of its logic

This project models the behaviour of a small client-side BMI calculator written in
React/TypeScript, leaving out everything that is only rendering. Five modules follow
the program's structure:

- `Engine` (engine.dfy): the form record `BMIData`, the result record `BMIResult`
  and `calculateBMI`. An imperial height (total inches) is multiplied by 2.54. The
  weight is always kilograms and is never converted. The raw index is
  `weight / (cm/100)^2`. It is classified into four half-open bands at 18.5, 25 and
  30, and reported rounded half-up to one decimal. The category comes from the
  UNROUNDED index. A raw 18.46 is reported as 18.5 and still labelled underweight.
  The form is not validated before calculating, so a zero height is a real case:
  the quotient is a `JsNumber`, which is finite, `Infinity`, `-Infinity` or `NaN`,
  and comparisons follow JavaScript. Calculating on the untouched form gives `NaN`.
  `NaN` fails every test of the if-chain and is reported as "obese".
- `Form` (form.dfy): the one-field updater behind every input. It also holds the
  feet/inches view of an imperial height (`Math.floor(h/12)` and JavaScript's
  truncating `h % 12`) and the two input handlers that recombine feet and inches.
- `Gauge` (gauge.dfy): the needle angle, a clamped piecewise-linear map onto
  0–180 degrees, and the needle colour for a category name.
- `DietPlan` (diet_plan.dfy): four fixed nutrition cards, then at most one card for
  the category. The exercise texts are chosen by an age cut-off of 65 and by whether
  the category is obese.
- `AppState` (app.dfy): the app's state cells as a class `App`. The fields are
  `formData`, `result`, `showModal` and `showDietPlan`. Its methods are the
  calculate, reset and view-plan handlers, the dialog's close button and the form
  edits.

Quantities are Dafny `real`. `Math.round` is `floor(x + 1/2)`.

Note that classifying the reported (rounded) value would give a different category
for 18.46: the band is decided from the unrounded index (src/App.tsx:74) while the
report is rounded (src/App.tsx:92). `Engine.CategoryFromUnroundedIndex` and
`Gauge.NeedleArcAndColourCanDisagree` show the consequence.

## Model

| member | source | states |
|---|---|---|
| Engine.Divide | src/App.tsx:68 | a non-zero divisor gives the finite quotient (quotient × divisor = dividend); a zero divisor gives Infinity, -Infinity or NaN by the sign of the dividend |
| Engine.Classify | src/App.tsx:74-90 | the if-chain partitions finite values: underweight iff < 18.5, normal iff 18.5 ≤ x < 25, overweight iff 25 ≤ x < 30, obese iff ≥ 30; NaN and Infinity fall through to obese, -Infinity is underweight |
| Engine.ClassifyMonotone | src/App.tsx:74-90 | a larger index never gives an earlier category in the order underweight < normal < overweight < obese |
| Engine.CategoryName | src/App.tsx:74-90 | the name is "underweight", "normal", "overweight" or "obese" exactly for the category of that name (one iff per category) |
| Engine.CategoryNameInjective | src/App.tsx:20 | different categories have different names |
| Engine.MessageFor | src/App.tsx:74-90 | each of the four messages belongs to exactly one category (message = X iff category is X's), so the four differ |
| Engine.EmojiFor | src/App.tsx:74-90 | the worried face belongs to exactly underweight and obese; the smiling face only to normal; the neutral face only to overweight |
| Engine.HeightCm | src/App.tsx:62-67 | the height in centimetres (imperial inches times 2.54), divided by 100, is the height in metres at 0.0254 m per inch or 0.01 m per cm |
| Engine.RawBmi | src/App.tsx:67-68 | for a non-zero height in metres the index is finite and index × metres² = weight; for a zero height it is not finite |
| Engine.CalculateBmi | src/App.tsx:58-93 | the category is the classification of the unrounded index; the report is finite exactly when the entered height is non-zero; message and emoji are those of the category (value in detail: CalculateBmiSpec, CalculateBmiZeroHeight) |
| Engine.RoundHalfUp | src/App.tsx:92 | `Math.round` gives the integer n with n − 1/2 ≤ x < n + 1/2 (ties go up) |
| Engine.RoundToTenth | src/App.tsx:92 | the reported value is a whole number of tenths within 0.05 of the raw one (x − 0.05 < r ≤ x + 0.05); non-finite values pass through |
| Engine.CalculateBmiSpec | src/App.tsx:58-93 | for a non-zero height, with the textbook index (index × metres² = weight, 0.0254 m per inch, 0.01 m per cm, weight as entered): the report is finite and equals round(index·10)/10, within 0.05 of the index; the category is the band of the unrounded index, both directions; message and emoji are those of the category |
| Engine.CalculateBmiZeroHeight | src/App.tsx:67-90 | a zero height reports a non-finite value; the category is underweight iff the weight is negative and obese otherwise; NaN exactly when the weight is zero |
| Engine.InitialFormReportsObese | src/App.tsx:27-34 | calculating on the initial form record `InitialForm` (age 0, male, height 0, weight 0, moderate, metric; also the record reset restores at src/App.tsx:102-109) reports NaN, obese, the obesity message and the worried face |
| Engine.UnitEquivalence | src/App.tsx:62-68 | imperial input of h inches gives the same result as metric input of 2.54·h cm with the same weight: only the height is converted |
| Engine.MessageDependsOnlyOnCategory | src/App.tsx:74-92 | two calculations with the same category have the same message and emoji |
| Engine.CategoryFromUnroundedIndex | src/App.tsx:74-92 | 18.46 kg at 100 cm is reported as 18.5 and labelled underweight, though classifying 18.5 gives normal |
| Engine.WorkedExamples | src/App.tsx:58-93 | 175 cm/70 kg → 22.9 normal; 60 in/45 kg → 19.4 normal; 150 cm/90 kg → 40.0 obese; 180 cm/50 kg → 15.4 underweight; 70 in and 177.8 cm at 70 kg agree at 22.1 |
| Form.UpdateField | src/components/BMIForm.tsx:11-13 | the named field takes the new value and every other field keeps its old one |
| Form.SwitchingUnitKeepsNumbers | src/components/BMIForm.tsx:37-56 | the unit buttons change only `unit`; height and weight are not converted |
| Form.Trunc | src/components/BMIForm.tsx:20 | truncation toward zero: the floor for non-negative values, within one above the value for negative ones |
| Form.Remainder12 | src/components/BMIForm.tsx:20 | JavaScript `h % 12` lies in [0, 12) for h ≥ 0 and in (−12, 0] for h < 0, and h minus it is 12 times the truncated quotient |
| Form.GetHeightDisplay | src/components/BMIForm.tsx:16-24 | metric: feet 0 and inches = the height; imperial, every h: feet = floor(h/12) and inches = JavaScript h % 12; imperial with h ≥ 0: 0 ≤ inches < 12 and feet·12 + inches = h |
| Form.UpdateImperialHeight | src/components/BMIForm.tsx:26-29 | the record with height feet·12 + inches and nothing else changed |
| Form.DisplayRoundTrip | src/components/BMIForm.tsx:16-29 | for an imperial h ≥ 0, writing back the displayed feet and inches leaves the record unchanged |
| Form.SplitOfCombined | src/components/BMIForm.tsx:16-29 | storing f feet and i inches (f ≥ 0, 0 ≤ i < 12) then displaying gives exactly f and i back |
| Form.EditFeet | src/components/BMIForm.tsx:138 | changes only the height; for every imperial height h and typed f it stores f·12 + (h % 12) |
| Form.EditFeetKeepsInches | src/components/BMIForm.tsx:138 | for an imperial h ≥ 0 and typed f ≥ 0 the form then shows f feet and the old inches |
| Form.EditInches | src/components/BMIForm.tsx:150 | changes only the height; for every imperial height h and typed i it stores floor(h/12)·12 + i |
| Form.EditInchesKeepsFeet | src/components/BMIForm.tsx:150 | for an imperial h ≥ 0 and typed 0 ≤ i < 12 the form then shows the old feet and i inches |
| Form.DisplayWriteBack | src/components/BMIForm.tsx:16-29 | for every imperial h, writing back the displayed feet and inches changes only the height, which becomes h − 12 when h is negative and not a whole number of feet, and stays h otherwise |
| Form.NegativeHeightDisplay | src/components/BMIForm.tsx:16-29 | a height of −5 inches displays as −1 ft −5 in, and writing that back stores −17 |
| Gauge.GaugeAngle | src/components/BMIGauge.tsx:18-24 | the angle lies in [0, 180]; underweight values map into [0, 45), normal into [45, 135), overweight into [135, 165), obese into [165, 180] |
| Gauge.GaugeBreakpoints | src/components/BMIGauge.tsx:20-23 | angle(0) = 0, angle(18.5) = 45, angle(25) = 135, angle(30) = 165, angle(40) = 180 |
| Gauge.GaugeSaturates | src/components/BMIGauge.tsx:20-23 | every value ≤ 0 gives 0 and every value ≥ 40 gives 180 |
| Gauge.GaugeMonotone | src/components/BMIGauge.tsx:18-24 | the angle never decreases as the index grows |
| Gauge.GaugeStrictlyIncreasing | src/components/BMIGauge.tsx:18-24 | between 0 and 40 a larger index gives a strictly larger angle |
| Gauge.GaugeContinuous | src/components/BMIGauge.tsx:18-24 | the angle changes by at most 180/13 degrees per unit, so there is no jump at any breakpoint |
| Gauge.ArcMatchesCategory | src/components/BMIGauge.tsx:18-24 | for every value, its category is underweight, normal, overweight or obese iff its angle is in [0,45), [45,135), [135,165) or [165,180] |
| Gauge.NeedleColor | src/components/BMIGauge.tsx:26-34 | blue `#60A5FA` exactly for "underweight", green `#10B981` exactly for "normal", orange `#F97316` exactly for "overweight", red `#EF4444` exactly for "obese", grey `#6B7280` exactly for every other string |
| Gauge.NeedleColorsDistinct | src/components/BMIGauge.tsx:26-34 | different categories get different needle colours |
| Gauge.NeedleArcAndColourCanDisagree | src/components/BMIGauge.tsx:36-37 | for 18.46 kg at 100 cm the needle stands at 45° (start of the normal arc) and is coloured underweight blue |
| DietPlan.GetDietRecommendations | src/components/DietPlan.tsx:11-52 | the list is the four base cards in order, then nothing for normal, "Increase Caloric Intake" for underweight, "Create Caloric Deficit" for overweight and obese (length 4 or 5); only the category is read |
| DietPlan.GetExerciseRecommendations | src/components/DietPlan.tsx:54-68 | adult cardio and strength texts iff age < 65, senior texts iff age ≥ 65; low-impact intensity iff the category is obese |
| DietPlan.ExerciseTextsIndependent | src/components/DietPlan.tsx:54-68 | cardio and strength do not depend on the result, intensity does not depend on the form |
| AppState.App.ModalShown | src/App.tsx:223 | in every state the handlers keep (the dialog is only open over a result), the dialog is rendered exactly when `showModal` is set |
| AppState.App.DietPlanShown | src/App.tsx:215 | the plan is rendered only over a result, and when there is one exactly when `showDietPlan` is set |
| AppState.App.constructor | src/App.tsx:26-37 | the app starts with the initial form, no result, no dialog and no plan |
| AppState.App.HandleCalculate | src/App.tsx:95-99 | the result becomes the calculation of the current form and the dialog opens; the form and the plan flag are unchanged |
| AppState.App.HandleReset | src/App.tsx:101-113 | the form is exactly the initial record, the result is cleared, and both dialog and plan are hidden |
| AppState.App.HandleViewPlan | src/App.tsx:115-118 | the dialog closes and the plan flag is set; form and result unchanged; the plan is shown iff there is a result |
| AppState.App.CloseModal | src/App.tsx:223-228 | only the dialog flag changes, to false |
| AppState.App.UpdateField | src/components/BMIForm.tsx:11-13 | the form becomes the one-field update of the old form; the result (possibly stale now) and both flags are unchanged |
| AppState.App.EditFeet | src/components/BMIForm.tsx:138 | in imperial mode, where the input exists (src/components/BMIForm.tsx:110), the form becomes the feet edit of the old form; nothing else changes |
| AppState.App.EditInches | src/components/BMIForm.tsx:150 | in imperial mode, where the input exists, the form becomes the inches edit of the old form; nothing else changes |
| AppState.EmptyFormSession | src/App.tsx:95-118 | on a fresh app, Calculate opens the dialog with NaN/obese, View Plan shows the plan and closes the dialog, Reset hides both |

## Left out

- Rendering: JSX, CSS classes, icons (including each nutrition card's icon) and the SVG of the gauge.
- The theme flag and its persistence (`localStorage`, `window.matchMedia`, `document.documentElement`, src/App.tsx:39-56, 138-155): browser I/O.
- src/components/SocialShare.tsx: window opening, clipboard and timers are I/O and asynchronous.
- src/components/ResultModal.tsx: a view of the result with two callbacks. The callbacks are modelled as `App.CloseModal` and `App.HandleViewPlan`.
- The gauge's 300 ms animation (src/components/BMIGauge.tsx:9-16): timing only. The gauge is modelled at rest, showing `result.bmi`.
- Gauge.GaugeAngle: takes a finite real, so a NaN or infinite reported index (zero height) reaching the gauge is not modelled.
- Parsing of input text (`parseInt`, `parseFloat`, `|| 0`): inputs arrive as numbers. An age is an integer and heights and weights are reals. The NaN of an empty text field is not modelled.
- IEEE-754 double precision: arithmetic is exact on reals, so results that doubles would round differently (e.g. near a tie in `Math.round`) are not modelled. Only the non-finite results of dividing by a zero height are kept.
- React's state batching: each handler's updates are applied together, as they are in one event.
