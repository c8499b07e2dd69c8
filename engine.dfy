/** The BMI engine of the calculator: the form record, the result record and
    `calculateBMI`, which converts the height to centimetres, divides, classifies
    the unrounded index into four half-open bands and reports it rounded to one
    decimal. */
module Engine {

  datatype Gender = Male | Female

  datatype ActivityLevel = Sedentary | Light | Moderate | Active | VeryActive

  datatype Unit = Metric | Imperial

  /** The form's contents, already parsed into numbers. The height is centimetres
      in metric mode and total inches in imperial mode; the weight is kilograms in
      both modes. */
  datatype BMIData = BMIData(age: int, gender: Gender, height: real, weight: real,
                             activityLevel: ActivityLevel, unit: Unit)

  datatype Category = Underweight | Normal | Overweight | Obese

  /** A JavaScript number as this program can produce it from real inputs: a finite
      value, or what a division by a zero square yields. */
  datatype JsNumber = Finite(value: real) | Infinity | NegInfinity | NaN

  datatype BMIResult = BMIResult(bmi: JsNumber, category: Category, message: string, emoji: string)

  /** The form record the app starts with and returns to on reset. */
  const InitialForm := BMIData(0, Male, 0.0, 0.0, Moderate, Metric)

  const CmPerInch: real := 2.54

  const UnderweightMessage := "You're underweight. Consider consulting a healthcare provider."
  const NormalMessage := "Great! You're in the healthy weight range."
  const OverweightMessage := "You're overweight. Small lifestyle changes can help."
  const ObeseMessage := "You're in the obesity range. Consider professional guidance."

  const WorriedFace := "\U{1F61F}"
  const SmilingFace := "\U{1F60A}"
  const NeutralFace := "\U{1F610}"

  /** The string the source uses for each category. */
  function CategoryName(c: Category): (name: string)
    ensures name == "underweight" <==> c == Underweight
    ensures name == "normal" <==> c == Normal
    ensures name == "overweight" <==> c == Overweight
    ensures name == "obese" <==> c == Obese
  {
    match c
    case Underweight => "underweight"
    case Normal => "normal"
    case Overweight => "overweight"
    case Obese => "obese"
  }

  lemma CategoryNameInjective(c: Category, d: Category)
    requires CategoryName(c) == CategoryName(d)
    ensures c == d
  {
  }

  /** `x / y` in JavaScript, for a divisor that is a square (so a zero divisor is +0). */
  function Divide(x: real, y: real): (q: JsNumber)
    ensures y != 0.0 ==> q.Finite? && q.value * y == x
    ensures y == 0.0 ==> (q == Infinity <==> x > 0.0) && (q == NegInfinity <==> x < 0.0)
                         && (q == NaN <==> x == 0.0)
  {
    if y != 0.0 then Finite(x / y)
    else if x > 0.0 then Infinity
    else if x < 0.0 then NegInfinity
    else NaN
  }

  /** `n < t` in JavaScript: every comparison with NaN is false. */
  predicate Below(n: JsNumber, t: real)
  {
    match n
    case Finite(v) => v < t
    case Infinity => false
    case NegInfinity => true
    case NaN => false
  }

  /** `n >= t` in JavaScript. */
  predicate AtLeast(n: JsNumber, t: real)
  {
    match n
    case Finite(v) => v >= t
    case Infinity => true
    case NegInfinity => false
    case NaN => false
  }

  /** The if-chain of `calculateBMI`, tests in source order, applied to the raw index. */
  function Classify(bmi: JsNumber): (c: Category)
    ensures bmi.Finite? ==> (c == Underweight <==> bmi.value < 18.5)
    ensures bmi.Finite? ==> (c == Normal <==> 18.5 <= bmi.value < 25.0)
    ensures bmi.Finite? ==> (c == Overweight <==> 25.0 <= bmi.value < 30.0)
    ensures bmi.Finite? ==> (c == Obese <==> 30.0 <= bmi.value)
    ensures bmi == Infinity || bmi == NaN ==> c == Obese
    ensures bmi == NegInfinity ==> c == Underweight
  {
    if Below(bmi, 18.5) then Underweight
    else if AtLeast(bmi, 18.5) && Below(bmi, 25.0) then Normal
    else if AtLeast(bmi, 25.0) && Below(bmi, 30.0) then Overweight
    else Obese
  }

  /** Position of a category in the order underweight < normal < overweight < obese. */
  function Rank(c: Category): nat
  {
    match c
    case Underweight => 0
    case Normal => 1
    case Overweight => 2
    case Obese => 3
  }

  lemma ClassifyMonotone(x: real, y: real)
    requires x <= y
    ensures Rank(Classify(Finite(x))) <= Rank(Classify(Finite(y)))
  {
  }

  function MessageFor(c: Category): (m: string)
    ensures m == UnderweightMessage <==> c == Underweight
    ensures m == NormalMessage <==> c == Normal
    ensures m == OverweightMessage <==> c == Overweight
    ensures m == ObeseMessage <==> c == Obese
  {
    match c
    case Underweight => UnderweightMessage
    case Normal => NormalMessage
    case Overweight => OverweightMessage
    case Obese => ObeseMessage
  }

  function EmojiFor(c: Category): (e: string)
    ensures e == WorriedFace <==> c == Underweight || c == Obese
    ensures e == SmilingFace <==> c == Normal
    ensures e == NeutralFace <==> c == Overweight
  {
    match c
    case Underweight => WorriedFace
    case Normal => SmilingFace
    case Overweight => NeutralFace
    case Obese => WorriedFace
  }

  /** `Math.round`: the nearest integer, ties toward +infinity. */
  function RoundHalfUp(x: real): (n: int)
    ensures n as real - 0.5 <= x < n as real + 0.5
  {
    (x + 0.5).Floor
  }

  /** `Math.round(x * 10) / 10`; the non-finite values pass through unchanged. */
  function RoundToTenth(x: JsNumber): (r: JsNumber)
    ensures x.Finite? <==> r.Finite?
    ensures x.Finite? ==> r.value - 0.05 <= x.value < r.value + 0.05
    ensures x.Finite? ==> ((r.value * 10.0).Floor as real) == r.value * 10.0
    ensures !x.Finite? ==> r == x
  {
    match x
    case Finite(v) => Finite(RoundHalfUp(v * 10.0) as real / 10.0)
    case _ => x
  }

  /** The height in centimetres: imperial total inches are multiplied by 2.54. */
  function HeightCm(data: BMIData): (cm: real)
    ensures cm / 100.0 == HeightMetres(data)
  {
    if data.unit == Imperial then data.height * CmPerInch else data.height
  }

  /** `weight / (heightInMeters * heightInMeters)`, before rounding. */
  function RawBmi(data: BMIData): (q: JsNumber)
    ensures HeightMetres(data) != 0.0 ==>
              q.Finite? && q.value * (HeightMetres(data) * HeightMetres(data)) == data.weight
    ensures HeightMetres(data) == 0.0 ==> !q.Finite?
  {
    var metres := HeightCm(data) / 100.0;
    Divide(data.weight, metres * metres)
  }

  /** `calculateBMI`: the category is decided from the raw index, the reported
      index is the rounded one. */
  function CalculateBmi(data: BMIData): (r: BMIResult)
    ensures r.category == Classify(RawBmi(data))
    ensures r.bmi.Finite? <==> data.height != 0.0
    ensures Consistent(r)
  {
    var raw := RawBmi(data);
    var category := Classify(raw);
    BMIResult(RoundToTenth(raw), category, MessageFor(category), EmojiFor(category))
  }

  /** A result whose message and emoji are the fixed ones of its category. */
  predicate Consistent(r: BMIResult)
  {
    r.message == MessageFor(r.category) && r.emoji == EmojiFor(r.category)
  }

  /** The height in metres straight from the entered value: an inch is 0.0254 m,
      a centimetre 0.01 m. */
  function HeightMetres(data: BMIData): real
  {
    if data.unit == Imperial then data.height * 0.0254 else data.height * 0.01
  }

  /** For a non-zero height, let `index` be the textbook body-mass index, the number
      whose product with the square of the height in metres is the weight as
      entered (in both unit modes). The reported index is `index` rounded half-up
      to a tenth, and the category is the band of the UNROUNDED `index`. */
  lemma CalculateBmiSpec(data: BMIData, index: real)
    requires data.height != 0.0
    requires index * (HeightMetres(data) * HeightMetres(data)) == data.weight
    ensures CalculateBmi(data).bmi.Finite?
    ensures CalculateBmi(data).bmi.value == RoundHalfUp(index * 10.0) as real / 10.0
    ensures CalculateBmi(data).bmi.value - 0.05 <= index < CalculateBmi(data).bmi.value + 0.05
    ensures CalculateBmi(data).category == Underweight <==> index < 18.5
    ensures CalculateBmi(data).category == Normal <==> 18.5 <= index < 25.0
    ensures CalculateBmi(data).category == Overweight <==> 25.0 <= index < 30.0
    ensures CalculateBmi(data).category == Obese <==> index >= 30.0
    ensures Consistent(CalculateBmi(data))
  {
    var m := HeightMetres(data);
    var metres := HeightCm(data) / 100.0;
    assert metres == m;
    assert metres * metres == m * m;
    assert m * m != 0.0;
    var q := RawBmi(data);
    assert q == Divide(data.weight, metres * metres);
    assert q.Finite? && q.value * (m * m) == index * (m * m);
    CancelNonZero(q.value, index, m * m);
  }

  lemma CancelNonZero(a: real, b: real, y: real)
    requires y != 0.0 && a * y == b * y
    ensures a == b
  {
  }

  /** A zero height divides by zero: a positive weight gives Infinity and a zero
      weight NaN, both of which fall through to "obese"; a negative weight gives
      -Infinity, which is "underweight". The report is not a finite number. */
  lemma CalculateBmiZeroHeight(data: BMIData)
    requires data.height == 0.0
    ensures var r := CalculateBmi(data);
            && !r.bmi.Finite?
            && (r.category == Underweight <==> data.weight < 0.0)
            && (r.category == Obese <==> data.weight >= 0.0)
            && (r.bmi == NaN <==> data.weight == 0.0)
  {
    assert HeightCm(data) == 0.0;
  }

  /** Pressing Calculate on the untouched form reports NaN and "obese". */
  lemma InitialFormReportsObese()
    ensures CalculateBmi(InitialForm) == BMIResult(NaN, Obese, ObeseMessage, WorriedFace)
  {
    CalculateBmiZeroHeight(InitialForm);
  }

  /** Imperial input of h inches is metric input of 2.54 h centimetres with the same
      weight: only the height is converted. */
  lemma UnitEquivalence(data: BMIData)
    requires data.unit == Imperial
    ensures CalculateBmi(data) == CalculateBmi(data.(unit := Metric, height := CmPerInch * data.height))
  {
    var metric := data.(unit := Metric, height := CmPerInch * data.height);
    var metres := HeightCm(data) / 100.0;
    assert HeightCm(data) == HeightCm(metric);
    assert RawBmi(data) == Divide(data.weight, metres * metres) == RawBmi(metric);
  }

  /** Message and emoji are functions of the category alone. */
  lemma MessageDependsOnlyOnCategory(a: BMIData, b: BMIData)
    requires CalculateBmi(a).category == CalculateBmi(b).category
    ensures CalculateBmi(a).message == CalculateBmi(b).message
    ensures CalculateBmi(a).emoji == CalculateBmi(b).emoji
  {
  }

  /** The category is NOT the band of the reported index: 18.46 kg at 100 cm is
      reported as 18.5, a "normal" value, yet categorised underweight. */
  lemma CategoryFromUnroundedIndex()
    ensures var data := BMIData(30, Female, 100.0, 18.46, Moderate, Metric);
            var r := CalculateBmi(data);
            && r.bmi == Finite(18.5)
            && r.category == Underweight
            && Classify(r.bmi) == Normal
  {
    var data := BMIData(30, Female, 100.0, 18.46, Moderate, Metric);
    assert RawBmi(data) == Finite(18.46);
    assert RoundHalfUp(184.6) == 185;
  }

  /** Worked examples: 175 cm / 70 kg, 60 in / 45 kg, 150 cm / 90 kg, 180 cm / 50 kg,
      and 70 in against 177.8 cm at 70 kg. */
  lemma WorkedExamples()
    ensures CalculateBmi(BMIData(30, Male, 175.0, 70.0, Moderate, Metric)).bmi == Finite(22.9)
    ensures CalculateBmi(BMIData(30, Male, 175.0, 70.0, Moderate, Metric)).category == Normal
    ensures CalculateBmi(BMIData(30, Male, 60.0, 45.0, Moderate, Imperial)).bmi == Finite(19.4)
    ensures CalculateBmi(BMIData(30, Male, 60.0, 45.0, Moderate, Imperial)).category == Normal
    ensures CalculateBmi(BMIData(30, Male, 150.0, 90.0, Moderate, Metric)).bmi == Finite(40.0)
    ensures CalculateBmi(BMIData(30, Male, 150.0, 90.0, Moderate, Metric)).category == Obese
    ensures CalculateBmi(BMIData(30, Male, 180.0, 50.0, Moderate, Metric)).bmi == Finite(15.4)
    ensures CalculateBmi(BMIData(30, Male, 180.0, 50.0, Moderate, Metric)).category == Underweight
    ensures CalculateBmi(BMIData(30, Male, 70.0, 70.0, Moderate, Imperial))
         == CalculateBmi(BMIData(30, Male, 177.8, 70.0, Moderate, Metric))
    ensures CalculateBmi(BMIData(30, Male, 70.0, 70.0, Moderate, Imperial)).bmi == Finite(22.1)
  {
    assert RawBmi(BMIData(30, Male, 175.0, 70.0, Moderate, Metric)) == Finite(70.0 / 3.0625);
    assert RoundHalfUp(700.0 / 3.0625) == 229;
    assert RawBmi(BMIData(30, Male, 60.0, 45.0, Moderate, Imperial)) == Finite(45.0 / 2.322576);
    assert RoundHalfUp(450.0 / 2.322576) == 194;
    assert RawBmi(BMIData(30, Male, 150.0, 90.0, Moderate, Metric)) == Finite(40.0);
    assert RoundHalfUp(400.0) == 400;
    assert RawBmi(BMIData(30, Male, 180.0, 50.0, Moderate, Metric)) == Finite(50.0 / 3.24);
    assert RoundHalfUp(500.0 / 3.24) == 154;
    assert RawBmi(BMIData(30, Male, 177.8, 70.0, Moderate, Metric)) == Finite(70.0 / 3.16128400);
    assert RoundHalfUp(700.0 / 3.161284) == 221;
  }
}
