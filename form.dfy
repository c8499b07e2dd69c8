/** The form component: the one-field updater behind every input, the feet/inches
    view of an imperial height and the two handlers that write it back. */
module Form {
  import opened Engine

  /** One input's change: the field it names and the parsed value. */
  datatype Edit =
    | SetAge(age: int)
    | SetGender(gender: Gender)
    | SetHeight(height: real)
    | SetWeight(weight: real)
    | SetActivityLevel(activityLevel: ActivityLevel)
    | SetUnit(unit: Unit)

  /** `updateField`: the previous record with exactly the named field replaced. */
  function UpdateField(data: BMIData, e: Edit): (r: BMIData)
    ensures r.age == (if e.SetAge? then e.age else data.age)
    ensures r.gender == (if e.SetGender? then e.gender else data.gender)
    ensures r.height == (if e.SetHeight? then e.height else data.height)
    ensures r.weight == (if e.SetWeight? then e.weight else data.weight)
    ensures r.activityLevel == (if e.SetActivityLevel? then e.activityLevel else data.activityLevel)
    ensures r.unit == (if e.SetUnit? then e.unit else data.unit)
  {
    match e
    case SetAge(a) => data.(age := a)
    case SetGender(g) => data.(gender := g)
    case SetHeight(h) => data.(height := h)
    case SetWeight(w) => data.(weight := w)
    case SetActivityLevel(l) => data.(activityLevel := l)
    case SetUnit(u) => data.(unit := u)
  }

  /** Switching units re-labels the stored height and weight without converting
      them, so the same numbers now mean inches instead of centimetres (or back). */
  lemma SwitchingUnitKeepsNumbers(data: BMIData, u: Unit)
    ensures UpdateField(data, SetUnit(u)) == data.(unit := u)
    ensures UpdateField(data, SetUnit(u)).height == data.height
    ensures UpdateField(data, SetUnit(u)).weight == data.weight
  {
  }

  datatype FeetInches = FeetInches(feet: real, inches: real)

  /** Truncation toward zero. */
  function Trunc(x: real): (n: int)
    ensures 0.0 <= x ==> n == x.Floor
    ensures x < 0.0 ==> x <= n as real < x + 1.0
  {
    if x >= 0.0 then x.Floor else -((-x).Floor)
  }

  /** JavaScript's `x % 12`: the remainder of truncating division, with the sign of `x`. */
  function Remainder12(x: real): (r: real)
    ensures 0.0 <= x ==> 0.0 <= r < 12.0
    ensures x < 0.0 ==> -12.0 < r <= 0.0
    ensures (x - r) / 12.0 == Trunc(x / 12.0) as real
  {
    x - 12.0 * Trunc(x / 12.0) as real
  }

  /** `getHeightDisplay`: imperial total inches split into whole feet and the rest;
      in metric mode the feet are 0 and the "inches" are the centimetres. */
  function GetHeightDisplay(data: BMIData): (d: FeetInches)
    ensures data.unit == Metric ==> d == FeetInches(0.0, data.height)
    ensures data.unit == Imperial ==>
              d.feet == (data.height / 12.0).Floor as real && d.inches == Remainder12(data.height)
    ensures data.unit == Imperial && data.height >= 0.0 ==>
              && d.feet == (data.height / 12.0).Floor as real
              && 0.0 <= d.inches < 12.0
              && d.feet * 12.0 + d.inches == data.height
  {
    if data.unit == Imperial then
      var totalInches := data.height;
      FeetInches((totalInches / 12.0).Floor as real, Remainder12(totalInches))
    else
      FeetInches(0.0, data.height)
  }

  /** `updateImperialHeight`: store feet * 12 + inches as the height. */
  function UpdateImperialHeight(data: BMIData, feet: real, inches: real): (r: BMIData)
    ensures r == data.(height := feet * 12.0 + inches)
  {
    UpdateField(data, SetHeight(feet * 12.0 + inches))
  }

  /** The feet input's handler: the new feet with the displayed inches. For an
      imperial height h and any typed f it stores f * 12 + (h % 12), and it changes
      nothing but the height. */
  function EditFeet(data: BMIData, feet: int): (r: BMIData)
    ensures r == data.(height := r.height)
    ensures data.unit == Imperial ==> r.height == feet as real * 12.0 + Remainder12(data.height)
  {
    UpdateImperialHeight(data, feet as real, GetHeightDisplay(data).inches)
  }

  /** The inches input's handler: the displayed feet with the new inches. For an
      imperial height h and any typed i it stores floor(h / 12) * 12 + i, and it
      changes nothing but the height. */
  function EditInches(data: BMIData, inches: int): (r: BMIData)
    ensures r == data.(height := r.height)
    ensures data.unit == Imperial ==> r.height == (data.height / 12.0).Floor as real * 12.0 + inches as real
  {
    UpdateImperialHeight(data, GetHeightDisplay(data).feet, inches as real)
  }

  /** Writing back what is displayed changes nothing: the record is the same. */
  lemma DisplayRoundTrip(data: BMIData)
    requires data.unit == Imperial && data.height >= 0.0
    ensures var d := GetHeightDisplay(data);
            UpdateImperialHeight(data, d.feet, d.inches) == data
  {
  }

  /** Splitting `feet * 12 + inches` with 0 <= inches < 12 gives back both parts. */
  lemma {:induction false} SplitOfCombined(data: BMIData, feet: int, inches: real)
    requires data.unit == Imperial && feet >= 0 && 0.0 <= inches < 12.0
    ensures var d := GetHeightDisplay(UpdateImperialHeight(data, feet as real, inches));
            d == FeetInches(feet as real, inches)
  {
    var h := feet as real * 12.0 + inches;
    assert h / 12.0 == feet as real + inches / 12.0;
    assert (h / 12.0).Floor == feet;
  }

  /** After typing new feet f over a height h >= 0, with f >= 0, the form shows
      exactly f feet and the old inches. */
  lemma EditFeetKeepsInches(data: BMIData, feet: int)
    requires data.unit == Imperial
    ensures data.height >= 0.0 && feet >= 0 ==>
      GetHeightDisplay(EditFeet(data, feet)) == FeetInches(feet as real, GetHeightDisplay(data).inches)
  {
    if data.height >= 0.0 && feet >= 0 {
      SplitOfCombined(data, feet, GetHeightDisplay(data).inches);
    }
  }

  /** After typing new inches i over a height h >= 0, with 0 <= i < 12, the form shows
      the old feet and exactly i inches. */
  lemma EditInchesKeepsFeet(data: BMIData, inches: int)
    requires data.unit == Imperial
    ensures data.height >= 0.0 && 0 <= inches < 12 ==>
      GetHeightDisplay(EditInches(data, inches)) == FeetInches(GetHeightDisplay(data).feet, inches as real)
  {
    if data.height >= 0.0 && 0 <= inches < 12 {
      var feet := (data.height / 12.0).Floor;
      assert feet >= 0;
      SplitOfCombined(data, feet, inches as real);
    }
  }

  /** Writing the display back, for every imperial height: a height that is negative
      and not a whole number of feet shows floor(h / 12) feet but truncated inches,
      so the written-back height is h - 12; every other height comes back as it was. */
  lemma DisplayWriteBack(data: BMIData)
    requires data.unit == Imperial
    ensures var d := GetHeightDisplay(data);
            var h := data.height;
            var wholeFeet := (h / 12.0).Floor as real == h / 12.0;
            UpdateImperialHeight(data, d.feet, d.inches) == data.(height := if h < 0.0 && !wholeFeet then h - 12.0 else h)
  {
    var h := data.height;
    var q := h / 12.0;
    if h < 0.0 && q.Floor as real != q {
      assert Trunc(q) == q.Floor + 1;
    }
  }

  /** For a negative height the display and the handlers disagree: -5 inches shows
      as -1 ft -5 in, and writing that back stores -17. */
  lemma NegativeHeightDisplay()
    ensures var data := BMIData(30, Male, -5.0, 70.0, Moderate, Imperial);
            && GetHeightDisplay(data) == FeetInches(-1.0, -5.0)
            && UpdateImperialHeight(data, -1.0, -5.0).height == -17.0
  {
    assert (-5.0 / 12.0).Floor == -1;
    assert Trunc(-5.0 / 12.0) == 0;
  }
}
