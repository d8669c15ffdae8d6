/**
 * The three-step driver sign-up wizard: per-step validation, moving between
 * steps, editing a field and the terms check on submit.
 */
module DriverRegistration {
  import opened Basics

  /** A form value: text inputs hold strings, checkboxes hold booleans. */
  datatype FieldValue = Text(text: string) | Flag(flag: bool)

  /** JavaScript truthiness of a form field; a missing field is `undefined`. */
  predicate Truthy(form: map<string, FieldValue>, name: string) {
    name in form && match form[name]
      case Text(t) => t != ""
      case Flag(b) => b
  }

  const InitialForm: map<string, FieldValue> := map[
    "vehicleType" := Text("BIKE"), "vehiclePlate" := Text(""), "licenseNumber" := Text(""),
    "vehicleColor" := Text(""), "vehicleModel" := Text(""), "yearsOfExperience" := Text(""),
    "hasInsurance" := Flag(false), "acceptedTerms" := Flag(false)]

  /** validateStep's verdict: the message it reports, or None when the step passes. */
  function StepError(form: map<string, FieldValue>, step: int): (err: Option<string>)
    ensures step == 1 ==> (err.Some? <==> !Truthy(form, "vehicleType"))
    ensures step == 1 && err.Some? ==> err.value == "Please select a vehicle type"
    ensures step == 2 ==> (err.Some? <==> !Truthy(form, "vehiclePlate") || !Truthy(form, "licenseNumber"))
    ensures step == 2 && !Truthy(form, "vehiclePlate") ==> err == Some("Please enter your vehicle plate number")
    ensures step == 2 && Truthy(form, "vehiclePlate") && !Truthy(form, "licenseNumber") ==>
      err == Some("Please enter your driver's license number")
    ensures step != 1 && step != 2 ==> err.None?
  {
    if step == 1 then
      if !Truthy(form, "vehicleType") then Some("Please select a vehicle type") else None
    else if step == 2 then
      if !Truthy(form, "vehiclePlate") then Some("Please enter your vehicle plate number")
      else if !Truthy(form, "licenseNumber") then Some("Please enter your driver's license number")
      else None
    else None
  }

  class DriverRegistrationPage {
    var currentStep: int
    var formData: map<string, FieldValue>
    var error: string
    var loading: bool
    var success: bool
    /** Where the page has navigated, if anywhere. */
    var navigatedTo: Option<string>

    constructor ()
      ensures currentStep == 1 && formData == InitialForm && error == ""
      ensures !loading && !success && navigatedTo == None
    {
      currentStep := 1;
      formData := InitialForm;
      error := "";
      loading, success := false, false;
      navigatedTo := None;
    }

    method HandleChange(name: string, value: string, isCheckbox: bool, checked: bool)
      modifies this`formData, this`error
      ensures formData == old(formData)[name := if isCheckbox then Flag(checked) else Text(value)]
      ensures error == ""
    {
      formData := formData[name := if isCheckbox then Flag(checked) else Text(value)];
      error := "";
    }

    method ValidateStep(step: int) returns (ok: bool)
      modifies this`error
      ensures ok <==> StepError(formData, step).None?
      ensures ok ==> error == old(error)
      ensures !ok ==> error == StepError(formData, step).value
    {
      if step == 1 {
        if !Truthy(formData, "vehicleType") {
          error := "Please select a vehicle type";
          return false;
        }
      } else if step == 2 {
        if !Truthy(formData, "vehiclePlate") {
          error := "Please enter your vehicle plate number";
          return false;
        }
        if !Truthy(formData, "licenseNumber") {
          error := "Please enter your driver's license number";
          return false;
        }
      }
      return true;
    }

    method NextStep()
      modifies this`currentStep, this`error
      ensures StepError(formData, old(currentStep)).None? ==> currentStep == old(currentStep) + 1 && error == ""
      ensures StepError(formData, old(currentStep)).Some? ==>
        currentStep == old(currentStep) && error == StepError(formData, old(currentStep)).value
    {
      var ok := ValidateStep(currentStep);
      if ok {
        currentStep := currentStep + 1;
        error := "";
      }
    }

    method PrevStep()
      modifies this`currentStep, this`error
      ensures currentStep == old(currentStep) - 1 && error == ""
    {
      currentStep := currentStep - 1;
      error := "";
    }

    /** handleSubmit; the page only simulates the profile request, which cannot fail. */
    method HandleSubmit()
      modifies this`error, this`loading, this`success, this`navigatedTo
      ensures !Truthy(formData, "acceptedTerms") ==>
        && error == "Please accept the terms and conditions"
        && loading == old(loading) && success == old(success)
        && navigatedTo == old(navigatedTo)
      ensures Truthy(formData, "acceptedTerms") ==>
        && error == "" && !loading && success
        && navigatedTo == Some("/driver/dashboard")
    {
      if !Truthy(formData, "acceptedTerms") {
        error := "Please accept the terms and conditions";
        return;
      }
      loading := true;
      error := "";
      success := true;
      navigatedTo := Some("/driver/dashboard");
      loading := false;
    }
  }
}
