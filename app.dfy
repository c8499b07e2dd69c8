/** The app's state: the form record, the last result, and whether the result
    dialog and the health plan are shown, with the handlers that change them. */
module AppState {
  import opened Engine
  import Form

  datatype Option<T> = None | Some(value: T)

  class App {
    var formData: BMIData
    var result: Option<BMIResult>
    var showModal: bool
    var showDietPlan: bool

    /** The dialog is only ever open over a result, and every result carries the
        message and emoji of its category. */
    ghost predicate Valid()
      reads this
    {
      && (showModal ==> result.Some?)
      && (result.Some? ==> Consistent(result.value))
    }

    /** The result dialog is rendered (`showModal && result`). In every valid state
        the flag alone decides it. */
    predicate ModalShown()
      reads this
      ensures Valid() ==> (ModalShown() <==> showModal)
    {
      showModal && result.Some?
    }

    /** The health plan is rendered. */
    predicate DietPlanShown()
      reads this
      ensures DietPlanShown() ==> result.Some?
      ensures result.Some? ==> (DietPlanShown() <==> showDietPlan)
    {
      showDietPlan && result.Some?
    }

    constructor ()
      ensures Valid()
      ensures formData == InitialForm && result == None && !showModal && !showDietPlan
    {
      formData := InitialForm;
      result := None;
      showModal := false;
      showDietPlan := false;
    }

    /** `handleCalculate`: compute from the current form, keep the result and open
        the dialog; the form and the plan's visibility are untouched. */
    method HandleCalculate()
      requires Valid()
      modifies this
      ensures Valid()
      ensures formData == old(formData) && showDietPlan == old(showDietPlan)
      ensures result == Some(CalculateBmi(formData)) && showModal
      ensures ModalShown()
    {
      var bmiResult := CalculateBmi(formData);
      result := Some(bmiResult);
      showModal := true;
    }

    /** `handleReset`: back to the initial form with no result and nothing open. */
    method HandleReset()
      requires Valid()
      modifies this
      ensures Valid()
      ensures formData == InitialForm && result == None && !showModal && !showDietPlan
      ensures !ModalShown() && !DietPlanShown()
    {
      formData := InitialForm;
      result := None;
      showModal := false;
      showDietPlan := false;
    }

    /** `handleViewPlan`: close the dialog and show the plan for the same result. */
    method HandleViewPlan()
      requires Valid()
      modifies this
      ensures Valid()
      ensures formData == old(formData) && result == old(result)
      ensures !showModal && showDietPlan
      ensures !ModalShown() && (DietPlanShown() <==> result.Some?)
    {
      showModal := false;
      showDietPlan := true;
    }

    /** The dialog's close button: only the dialog changes. */
    method CloseModal()
      requires Valid()
      modifies this
      ensures Valid()
      ensures formData == old(formData) && result == old(result) && showDietPlan == old(showDietPlan)
      ensures !showModal
    {
      showModal := false;
    }

    /** A form input's change, through `setFormData(prev => updateField(prev))`:
        the previous result stays as it was, even though the form no longer
        matches it. */
    method UpdateField(e: Form.Edit)
      requires Valid()
      modifies this
      ensures Valid()
      ensures formData == Form.UpdateField(old(formData), e)
      ensures result == old(result) && showModal == old(showModal) && showDietPlan == old(showDietPlan)
    {
      formData := Form.UpdateField(formData, e);
    }

    /** The feet input's change; the input exists only in imperial mode. */
    method EditFeet(feet: int)
      requires Valid() && formData.unit == Imperial
      modifies this
      ensures Valid()
      ensures formData == Form.EditFeet(old(formData), feet)
      ensures result == old(result) && showModal == old(showModal) && showDietPlan == old(showDietPlan)
    {
      formData := Form.EditFeet(formData, feet);
    }

    /** The inches input's change; the input exists only in imperial mode. */
    method EditInches(inches: int)
      requires Valid() && formData.unit == Imperial
      modifies this
      ensures Valid()
      ensures formData == Form.EditInches(old(formData), inches)
      ensures result == old(result) && showModal == old(showModal) && showDietPlan == old(showDietPlan)
    {
      formData := Form.EditInches(formData, inches);
    }
  }

  /** A session from a fresh page: Calculate on the untouched form opens the dialog
      with NaN and "obese"; after View Plan the plan shows it; Reset hides both. */
  method EmptyFormSession() returns (shown: BMIResult)
    ensures shown == BMIResult(NaN, Obese, ObeseMessage, WorriedFace)
  {
    var app := new App();
    app.HandleCalculate();
    InitialFormReportsObese();
    assert app.ModalShown();
    app.HandleViewPlan();
    assert app.DietPlanShown() && !app.ModalShown();
    shown := app.result.value;
    app.HandleReset();
    assert !app.DietPlanShown() && app.formData == InitialForm;
  }
}
