/**
 * The response schemas the two model clients validate a generated meal plan
 * against: a `meal_plan` object with breakfast, lunch, dinner and snacks lists
 * of meals. The OpenAI schema wants a meal's `instructions` as a list of
 * strings, the Deepseek schema as a single string; nothing else differs.
 */
module MealPlanSchema {
  import opened Wrappers
  import opened JsValues
  import opened Schema

  /** Which form a meal's `instructions` must take. */
  datatype InstructionsForm = StepList | SingleText

  function InstructionsSchema(form: InstructionsForm): Schema {
    match form
    case StepList => ZArray(ZString(0, false))
    case SingleText => ZString(0, false)
  }

  function MealFields(form: InstructionsForm): seq<Field> {
    [ Field("name", ZString(0, false), false),
      Field("calories", ZNumber(None, None, false), false),
      Field("protein", ZNumber(None, None, false), false),
      Field("carbs", ZNumber(None, None, false), false),
      Field("fats", ZNumber(None, None, false), false),
      Field("ingredients", ZArray(ZString(0, false)), false),
      Field("instructions", InstructionsSchema(form), false) ]
  }

  const MealTimes: seq<string> := ["breakfast", "lunch", "dinner", "snacks"]

  function PlanFields(form: InstructionsForm): seq<Field> {
    seq(4, i requires 0 <= i < 4 => Field(MealTimes[i], ZArray(ZObject(MealFields(form))), false))
  }

  function ResponseSchema(form: InstructionsForm): Schema {
    ZObject([Field("meal_plan", ZObject(PlanFields(form)), false)])
  }

  /** The acceptance condition for one meal, key by key. */
  ghost predicate ValidMeal(m: Record, form: InstructionsForm) {
    && StringAt(m, "name")
    && NumberAt(m, "calories") && NumberAt(m, "protein") && NumberAt(m, "carbs") && NumberAt(m, "fats")
    && StringListAt(m, "ingredients")
    && (match form
        case StepList => StringListAt(m, "instructions")
        case SingleText => StringAt(m, "instructions"))
  }

  ghost predicate ValidMealList(v: Value, form: InstructionsForm) {
    v.JArr? && forall j :: 0 <= j < |v.items| ==> v.items[j].JObj? && ValidMeal(v.items[j].fields, form)
  }

  ghost predicate ValidMealPlan(v: Value, form: InstructionsForm) {
    && v.JObj? && "meal_plan" in v.fields && v.fields["meal_plan"].JObj?
    && var plan := v.fields["meal_plan"].fields;
    forall i :: 0 <= i < 4 ==> MealTimes[i] in plan && ValidMealList(plan[MealTimes[i]], form)
  }

  lemma MealConforms(v: Value, form: InstructionsForm, isEmail: string -> bool)
    ensures Conforms(ZObject(MealFields(form)), v, isEmail) <==> v.JObj? && ValidMeal(v.fields, form)
  {
    if v.JObj? {
      var fs := MealFields(form);
      var m := v.fields;
      StringFieldConforms(fs, 0, m, isEmail, "name", 0, false);
      NumberFieldConforms(fs, 1, m, isEmail, "calories", None, None, false);
      NumberFieldConforms(fs, 2, m, isEmail, "protein", None, None, false);
      NumberFieldConforms(fs, 3, m, isEmail, "carbs", None, None, false);
      NumberFieldConforms(fs, 4, m, isEmail, "fats", None, None, false);
      StringListFieldConforms(fs, 5, m, isEmail, "ingredients");
      match form {
        case StepList => StringListFieldConforms(fs, 6, m, isEmail, "instructions");
        case SingleText => StringFieldConforms(fs, 6, m, isEmail, "instructions", 0, false);
      }
      if ValidMeal(m, form) {
        forall j | 0 <= j < |fs| ensures FieldConforms(fs, j, m, isEmail) {
          assert j in {0, 1, 2, 3, 4, 5, 6};
        }
      }
    }
  }

  lemma MealListConforms(v: Value, form: InstructionsForm, isEmail: string -> bool)
    ensures Conforms(ZArray(ZObject(MealFields(form))), v, isEmail) <==> ValidMealList(v, form)
  {
    if v.JArr? {
      forall j | 0 <= j < |v.items| {
        MealConforms(v.items[j], form, isEmail);
      }
    }
  }

  /** The schema accepts a reply exactly when each of the four lists holds only valid meals. */
  lemma AcceptedIff(v: Value, form: InstructionsForm, isEmail: string -> bool)
    ensures Parse(ResponseSchema(form), v, isEmail).Success? <==> ValidMealPlan(v, form)
  {
    ParseSucceedsIff(ResponseSchema(form), v, isEmail);
    var outer := [Field("meal_plan", ZObject(PlanFields(form)), false)];
    if v.JObj? {
      ObjectFieldConforms(outer, 0, v.fields, isEmail, "meal_plan", PlanFields(form));
      if "meal_plan" in v.fields && v.fields["meal_plan"].JObj? {
        var plan := v.fields["meal_plan"].fields;
        var fs := PlanFields(form);
        forall i | 0 <= i < 4
          ensures FieldConforms(fs, i, plan, isEmail) <==> MealTimes[i] in plan && ValidMealList(plan[MealTimes[i]], form)
        {
          if MealTimes[i] in plan {
            MealListConforms(plan[MealTimes[i]], form, isEmail);
          }
        }
      }
      assert Conforms(ResponseSchema(form), v, isEmail) <==> FieldConforms(outer, 0, v.fields, isEmail);
    }
  }

  /** The two schemas disagree on every meal: no meal passes both, so a reply with at
    * least one breakfast is accepted by at most one client. */
  lemma SchemasExclusive(v: Value, isEmail: string -> bool)
    requires v.JObj? && "meal_plan" in v.fields && v.fields["meal_plan"].JObj?
    requires "breakfast" in v.fields["meal_plan"].fields
    requires var b := v.fields["meal_plan"].fields["breakfast"]; b.JArr? && |b.items| > 0
    ensures !(Parse(ResponseSchema(StepList), v, isEmail).Success? && Parse(ResponseSchema(SingleText), v, isEmail).Success?)
  {
    AcceptedIff(v, StepList, isEmail);
    AcceptedIff(v, SingleText, isEmail);
    assert MealTimes[0] == "breakfast";
  }
}
