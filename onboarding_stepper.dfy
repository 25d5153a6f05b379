/**
 * The single-page onboarding stepper (`/onboarding`): a step counter over the
 * five forms and the form data collected so far.
 */
module OnboardingStepper {
  import opened Wrappers
  import opened JsValues

  /** The forms in the order the steps show them. */
  datatype StepForm = BasicInfo | BodyComposition | WorkoutDetails | DietaryPreferences | HealthInfo

  const Steps: seq<StepForm> := [BasicInfo, BodyComposition, WorkoutDetails, DietaryPreferences, HealthInfo]

  /** The index of the last step, `STEPS.length - 1`. */
  const LastStep: int := |Steps| - 1

  /** `renderStep`: the form a step shows, or nothing for a step outside the switch. */
  function RenderStep(step: int): (form: Option<StepForm>)
    ensures form.Some? <==> 0 <= step <= LastStep
  {
    match step
    case 0 => Some(BasicInfo)
    case 1 => Some(BodyComposition)
    case 2 => Some(WorkoutDetails)
    case 3 => Some(DietaryPreferences)
    case 4 => Some(HealthInfo)
    case _ => None
  }

  /** The switch in `renderStep` follows the order of the step list. */
  lemma RenderFollowsSteps(step: int)
    requires 0 <= step < |Steps|
    ensures RenderStep(step) == Some(Steps[step])
  {
  }

  /** Distinct steps show distinct forms. */
  lemma RenderInjective(i: int, j: int)
    requires RenderStep(i).Some? && RenderStep(i) == RenderStep(j)
    ensures i == j
  {
  }

  class Stepper {
    var currentStep: int
    var formData: PartialRecord

    predicate Valid()
      reads this
    {
      0 <= currentStep <= LastStep
    }

    constructor()
      ensures Valid() && currentStep == 0 && formData == map[]
    {
      currentStep := 0;
      formData := map[];
    }

    method HandleNext()
      requires Valid()
      modifies this`currentStep
      ensures Valid()
      ensures old(currentStep) < LastStep ==> currentStep == old(currentStep) + 1
      ensures old(currentStep) == LastStep ==> currentStep == old(currentStep)
    {
      if currentStep < |Steps| - 1 {
        currentStep := currentStep + 1;
      }
    }

    method HandleBack()
      requires Valid()
      modifies this`currentStep
      ensures Valid()
      ensures old(currentStep) > 0 ==> currentStep == old(currentStep) - 1
      ensures old(currentStep) == 0 ==> currentStep == 0
    {
      if currentStep > 0 {
        currentStep := currentStep - 1;
      }
    }

    /** A form's submit: merge its data over what was collected, then advance unless on the
      * last step. Properties the form leaves `undefined` override earlier values too. */
    method HandleSubmit(data: PartialRecord)
      requires Valid()
      modifies this`currentStep, this`formData
      ensures Valid()
      ensures formData.Keys == old(formData).Keys + data.Keys
      ensures forall k :: k in data ==> formData[k] == data[k]
      ensures forall k :: k in old(formData) && k !in data ==> formData[k] == old(formData)[k]
      ensures old(currentStep) < LastStep ==> currentStep == old(currentStep) + 1
      ensures old(currentStep) == LastStep ==> currentStep == LastStep
    {
      formData := formData + data;
      if currentStep == |Steps| - 1 {
        // the last step only logs the collected data
      } else {
        HandleNext();
      }
    }

    /** Next followed by Back returns to the starting step below the last one. */
    method NextThenBack()
      requires Valid()
      modifies this`currentStep
      ensures Valid()
      ensures old(currentStep) < LastStep ==> currentStep == old(currentStep)
      ensures old(currentStep) == LastStep ==> currentStep == LastStep - 1
    {
      HandleNext();
      HandleBack();
    }
  }
}
