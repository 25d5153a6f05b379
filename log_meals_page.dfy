/**
 * The meal-logging page (`/dashboard/log-meals`): a form whose state is a meal
 * record with an editable ingredient list, and a submit handler that posts the
 * record and resets the form on success.
 *
 * The component's state variables become the fields of `MealLogPage`; each
 * `setX` becomes an assignment to the field. The POST to `/api/meals/log` and its
 * `response.json()` are one outcome value passed to the submit handler.
 */
module LogMealsPage {
  import opened Wrappers
  import opened JsValues
  import JsNumbers

  datatype MealDetails = MealDetails(name: string, ingredients: seq<string>, portionSize: string)

  /** The form record that is sent as the request body. */
  datatype MealForm = MealForm(
    details: MealDetails,
    calories: int,
    protein: int,
    carbs: int,
    fats: int,
    mealType: string)

  /** The state the form starts in, and the state it is reset to after a successful submit. */
  const InitialForm: MealForm :=
    MealForm(MealDetails("", [""], ""), 0, 0, 0, 0, "breakfast")

  const SuccessMessage: string := "Meal logged successfully!"
  const DefaultFailure: string := "Failed to log meal"
  const UnknownFailure: string := "An unknown error occurred"
  const DashboardPath: string := "/dashboard"

  /** What V8 throws when `data.message` is read on a `null` response body. */
  const NullMessageRead: string := "Cannot read properties of null (reading 'message')"

  /** How the POST ended: a response with its `ok` flag and parsed body, or a thrown value
    * (a network failure or a body that is not JSON). */
  datatype FetchOutcome = Replied(ok: bool, data: Value) | Threw(thrown: Thrown)

  /** `parseInt(text) || 0`: the value a numeric input stores. NaN and 0 are both falsy.
    * `parseInt` without a radix also reads a `0x` prefix as hexadecimal; the inputs
    * are `type="number"`, whose value is a decimal numeral or empty, so that case is
    * not modelled. */
  function CoerceNumber(text: string): (n: int)
    ensures JsNumbers.ParseInt(text).None? ==> n == 0
    ensures JsNumbers.ParseInt(text).Some? ==> n == JsNumbers.ParseInt(text).value
  {
    match JsNumbers.ParseInt(text)
    case None => 0
    case Some(v) => if v != 0 then v else 0
  }

  /** Typing the decimal form of n (optionally followed by a fraction or other non-digits)
    * stores n. */
  lemma CoerceDecimal(n: int, suffix: string)
    requires suffix == [] || !JsNumbers.IsDigit(suffix[0])
    ensures CoerceNumber(JsNumbers.IntToDecimal(n) + suffix) == n
  {
    JsNumbers.ParseIntOfDecimal(n, suffix);
  }

  /** Text without a digit after the blanks and an optional sign stores 0. */
  lemma CoerceNonNumeric(text: string)
    requires var t := JsNumbers.TrimStart(text);
      var body := if t != [] && (t[0] == '-' || t[0] == '+') then t[1..] else t;
      body == [] || !JsNumbers.IsDigit(body[0])
    ensures CoerceNumber(text) == 0
  {
    JsNumbers.ParseIntNaN(text);
  }

  /** The error thrown for a response that is not ok: `new Error(data.message || 'Failed to log meal')`.
    * Reading `.message` of a `null` body throws a TypeError instead. */
  function NotOkError(data: Value): (e: Thrown)
    ensures e.ErrorObject?
    ensures data.JObj? && Truthy(Prop(data.fields, "message")) ==> e.message == Show(data.fields["message"])
    ensures data.JObj? && !Truthy(Prop(data.fields, "message")) ==> e.message == DefaultFailure
    ensures !data.JObj? && data != JNull ==> e.message == DefaultFailure
    ensures data == JNull <==> e.kind == TypeError
  {
    match data
    case JNull => ErrorObject(TypeError, NullMessageRead)
    case JObj(fields) =>
      var m := Prop(fields, "message");
      if Truthy(m) then ErrorObject(PlainError, Show(m.value)) else ErrorObject(PlainError, DefaultFailure)
    case _ => ErrorObject(PlainError, DefaultFailure)
  }

  class MealLogPage {
    var mealData: MealForm
    var loading: bool
    var error: Option<string>
    var success: Option<string>
    /** The navigation scheduled by `setTimeout` after a successful submit. */
    var scheduledRedirect: Option<string>
    /** The request bodies posted so far, oldest first. */
    var posted: seq<MealForm>

    /** The ingredient list is never empty. */
    predicate Valid()
      reads this
    {
      |mealData.details.ingredients| >= 1
    }

    constructor()
      ensures Valid()
      ensures mealData == InitialForm && !loading && error == None && success == None
      ensures scheduledRedirect == None && posted == []
    {
      mealData := InitialForm;
      loading := false;
      error := None;
      success := None;
      scheduledRedirect := None;
      posted := [];
    }

    /** Copies the list, overwrites entry `index` of the copy, and stores the copy. */
    method HandleIngredientChange(index: nat, value: string)
      requires Valid() && index < |mealData.details.ingredients|
      modifies this`mealData
      ensures Valid()
      ensures |mealData.details.ingredients| == |old(mealData.details.ingredients)|
      ensures mealData.details.ingredients[index] == value
      ensures forall j :: 0 <= j < |mealData.details.ingredients| && j != index ==>
        mealData.details.ingredients[j] == old(mealData.details.ingredients)[j]
      ensures mealData == old(mealData).(details := old(mealData.details).(ingredients := mealData.details.ingredients))
    {
      var list := mealData.details.ingredients;
      var copy := new string[|list|](i requires 0 <= i < |list| => list[i]);
      copy[index] := value;
      mealData := mealData.(details := mealData.details.(ingredients := copy[..]));
    }

    method AddIngredient()
      requires Valid()
      modifies this`mealData
      ensures Valid()
      ensures mealData.details.ingredients == old(mealData.details.ingredients) + [""]
      ensures mealData == old(mealData).(details := old(mealData.details).(ingredients := mealData.details.ingredients))
    {
      mealData := mealData.(details := mealData.details.(ingredients := mealData.details.ingredients + [""]));
    }

    /** Removes entry `index` with `splice(index, 1)` on a copy, unless it is the only entry.
      * `splice` at an index past the end removes nothing. */
    method RemoveIngredient(index: nat)
      requires Valid()
      modifies this`mealData
      ensures Valid()
      ensures var was := old(mealData.details.ingredients);
        if |was| > 1 && index < |was| then mealData.details.ingredients == was[..index] + was[index + 1..]
        else mealData.details.ingredients == was
      ensures mealData == old(mealData).(details := old(mealData.details).(ingredients := mealData.details.ingredients))
    {
      var list := mealData.details.ingredients;
      if |list| > 1 {
        var copy := new string[|list|](i requires 0 <= i < |list| => list[i]);
        var n := copy.Length;
        if index < n {
          // splice: shift the entries after `index` one place down, then drop the last slot
          var j := index;
          while j < n - 1
            invariant index <= j <= n - 1
            invariant forall k :: 0 <= k < index ==> copy[k] == list[k]
            invariant forall k :: index <= k < j ==> copy[k] == list[k + 1]
            invariant forall k :: j < k < n ==> copy[k] == list[k]
            invariant mealData == old(mealData)
          {
            copy[j] := copy[j + 1];
            j := j + 1;
          }
          assert copy[..n - 1] == list[..index] + list[index + 1..];
          mealData := mealData.(details := mealData.details.(ingredients := copy[..n - 1]));
        }
      }
    }

    /** The part of the submit handler that runs before the request is awaited. */
    method BeginSubmit()
      modifies this`loading, this`error, this`success
      ensures loading && error == None && success == None
    {
      loading := true;
      error := None;
      success := None;
    }

    /** The rest of the submit handler, once the request has settled with `outcome`. */
    method CompleteSubmit(outcome: FetchOutcome)
      requires Valid()
      modifies this`mealData, this`loading, this`error, this`success, this`scheduledRedirect
      ensures Valid() && !loading
      ensures outcome.Replied? && outcome.ok ==>
        mealData == InitialForm && success == Some(SuccessMessage)
        && scheduledRedirect == Some(DashboardPath) && error == old(error)
      ensures outcome.Replied? && !outcome.ok ==>
        mealData == old(mealData) && success == old(success) && scheduledRedirect == old(scheduledRedirect)
        && error == Some(NotOkError(outcome.data).message)
      ensures outcome.Threw? ==>
        mealData == old(mealData) && success == old(success) && scheduledRedirect == old(scheduledRedirect)
        && error == Some(MessageOr(outcome.thrown, UnknownFailure))
    {
      var caught: Option<Thrown> := None;
      match outcome {
        case Threw(t) =>
          caught := Some(t);
        case Replied(ok, data) =>
          if !ok {
            caught := Some(NotOkError(data));
          } else {
            success := Some(SuccessMessage);
            mealData := InitialForm;
            scheduledRedirect := Some(DashboardPath);
          }
      }
      if caught.Some? {
        error := Some(MessageOr(caught.value, UnknownFailure));
      }
      loading := false;
    }

    /** The whole submit handler: the current form is posted, then the outcome is handled. */
    method HandleSubmit(outcome: FetchOutcome)
      requires Valid()
      modifies this`mealData, this`loading, this`error, this`success, this`scheduledRedirect, this`posted
      ensures Valid() && !loading
      ensures posted == old(posted) + [old(mealData)]
      ensures outcome.Replied? && outcome.ok ==>
        mealData == InitialForm && success == Some(SuccessMessage)
        && scheduledRedirect == Some(DashboardPath) && error == None
      ensures outcome.Replied? && !outcome.ok ==>
        mealData == old(mealData) && success == None && scheduledRedirect == old(scheduledRedirect)
        && error == Some(NotOkError(outcome.data).message)
      ensures outcome.Threw? ==>
        mealData == old(mealData) && success == None && scheduledRedirect == old(scheduledRedirect)
        && error == Some(MessageOr(outcome.thrown, UnknownFailure))
    {
      BeginSubmit();
      posted := posted + [mealData];
      CompleteSubmit(outcome);
    }

    /** Editing a numeric input stores `parseInt(text) || 0` in that field. */
    method HandleCaloriesChange(text: string)
      modifies this`mealData
      ensures mealData == old(mealData).(calories := CoerceNumber(text))
    {
      mealData := mealData.(calories := CoerceNumber(text));
    }

    method HandleProteinChange(text: string)
      modifies this`mealData
      ensures mealData == old(mealData).(protein := CoerceNumber(text))
    {
      mealData := mealData.(protein := CoerceNumber(text));
    }

    method HandleCarbsChange(text: string)
      modifies this`mealData
      ensures mealData == old(mealData).(carbs := CoerceNumber(text))
    {
      mealData := mealData.(carbs := CoerceNumber(text));
    }

    method HandleFatsChange(text: string)
      modifies this`mealData
      ensures mealData == old(mealData).(fats := CoerceNumber(text))
    {
      mealData := mealData.(fats := CoerceNumber(text));
    }
  }

  /** The initial form satisfies the page invariant, has one empty ingredient and zero macros. */
  lemma InitialFormShape()
    ensures |InitialForm.details.ingredients| == 1 && InitialForm.details.ingredients[0] == ""
    ensures InitialForm.calories == InitialForm.protein == InitialForm.carbs == InitialForm.fats == 0
    ensures InitialForm.mealType == "breakfast"
  {
  }
}
