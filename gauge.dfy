/** The gauge: the needle's angle on the 0-180 degree arc for a BMI value, and the
    needle's colour for a category name. */
module Gauge {
  import opened Engine

  function Max(a: real, b: real): (m: real)
    ensures m >= a && m >= b && (m == a || m == b)
  {
    if a >= b then a else b
  }

  function Min(a: real, b: real): (m: real)
    ensures m <= a && m <= b && (m == a || m == b)
  {
    if a <= b then a else b
  }

  /** `getGaugeAngle`: piecewise linear through (18.5, 45), (25, 135), (30, 165) and
      (40, 180), clamped to the arc at both ends. Each category's band lands in its
      own part of the arc. */
  function GaugeAngle(bmi: real): (angle: real)
    ensures 0.0 <= angle <= 180.0
    ensures bmi < 18.5 ==> angle < 45.0
    ensures 18.5 <= bmi < 25.0 ==> 45.0 <= angle < 135.0
    ensures 25.0 <= bmi < 30.0 ==> 135.0 <= angle < 165.0
    ensures 30.0 <= bmi ==> 165.0 <= angle
  {
    if bmi < 18.5 then Max(0.0, (bmi / 18.5) * 45.0)
    else if bmi < 25.0 then 45.0 + ((bmi - 18.5) / 6.5) * 90.0
    else if bmi < 30.0 then 135.0 + ((bmi - 25.0) / 5.0) * 30.0
    else Min(180.0, 165.0 + Min((bmi - 30.0) / 10.0, 1.0) * 15.0)
  }

  lemma GaugeBreakpoints()
    ensures GaugeAngle(0.0) == 0.0
    ensures GaugeAngle(18.5) == 45.0
    ensures GaugeAngle(25.0) == 135.0
    ensures GaugeAngle(30.0) == 165.0
    ensures GaugeAngle(40.0) == 180.0
  {
  }

  /** The needle rests at 0 for every non-positive value and at 180 from 40 up. */
  lemma GaugeSaturates(bmi: real)
    ensures bmi <= 0.0 ==> GaugeAngle(bmi) == 0.0
    ensures bmi >= 40.0 ==> GaugeAngle(bmi) == 180.0
  {
  }

  lemma GaugeMonotone(x: real, y: real)
    requires x <= y
    ensures GaugeAngle(x) <= GaugeAngle(y)
  {
  }

  /** Strictly increasing between 0 and 40, so distinct values there are told apart. */
  lemma GaugeStrictlyIncreasing(x: real, y: real)
    requires 0.0 <= x < y <= 40.0
    ensures GaugeAngle(x) < GaugeAngle(y)
  {
  }

  /** No jumps: the angle moves by at most 180/13 degrees (the slope of the normal
      band, the steepest) per unit of BMI, so it is continuous everywhere,
      breakpoints included. */
  lemma GaugeContinuous(x: real, y: real)
    requires x <= y
    ensures GaugeAngle(y) - GaugeAngle(x) <= (y - x) * 180.0 / 13.0
  {
  }

  /** The arc the needle points into names the category of the value it shows. */
  lemma ArcMatchesCategory(bmi: real)
    ensures Classify(Finite(bmi)) == Underweight <==> GaugeAngle(bmi) < 45.0
    ensures Classify(Finite(bmi)) == Normal <==> 45.0 <= GaugeAngle(bmi) < 135.0
    ensures Classify(Finite(bmi)) == Overweight <==> 135.0 <= GaugeAngle(bmi) < 165.0
    ensures Classify(Finite(bmi)) == Obese <==> 165.0 <= GaugeAngle(bmi)
  {
  }

  const Blue := "#60A5FA"
  const Green := "#10B981"
  const Orange := "#F97316"
  const Red := "#EF4444"
  const Grey := "#6B7280"

  /** `getNeedleColor`: one colour per category name, grey for any other string. */
  function NeedleColor(category: string): (colour: string)
    ensures colour == Blue <==> category == "underweight"
    ensures colour == Green <==> category == "normal"
    ensures colour == Orange <==> category == "overweight"
    ensures colour == Red <==> category == "obese"
    ensures colour == Grey <==> category !in {"underweight", "normal", "overweight", "obese"}
    ensures colour in {Blue, Green, Orange, Red, Grey}
  {
    match category
    case "underweight" => Blue
    case "normal" => Green
    case "overweight" => Orange
    case "obese" => Red
    case _ => Grey
  }

  /** The four categories get four different colours. */
  lemma NeedleColorsDistinct(c: Category, d: Category)
    requires c != d
    ensures NeedleColor(CategoryName(c)) != NeedleColor(CategoryName(d))
  {
  }

  /** The needle shows the reported (rounded) index while its colour comes from the
      category of the unrounded one: for 18.46 kg at 100 cm the needle stands at
      45 degrees, the start of the normal arc, and is coloured underweight blue. */
  lemma NeedleArcAndColourCanDisagree()
    ensures var r := CalculateBmi(BMIData(30, Female, 100.0, 18.46, Moderate, Metric));
            && r.bmi.Finite?
            && GaugeAngle(r.bmi.value) == 45.0
            && NeedleColor(CategoryName(r.category)) == Blue
  {
    CategoryFromUnroundedIndex();
  }
}
