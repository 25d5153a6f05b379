/**
 * `POST /api/diet-plan/generate`: read the signed-in user's row, ask the language
 * model for a weekly diet plan built from it, and save the plan's macros, meal
 * plan and shopping list as the user's active diet plan.
 *
 * The user lookup, the model call, `JSON.parse` and the insert are parameters.
 * The fixed wording of the prompt is not modelled: `DietPrompt` records the
 * values interpolated into it, in order.
 */
module DietPlanRoute {
  import opened Wrappers
  import opened JsValues
  import opened Http

  const NotSpecified: string := "Not specified"
  const NoneGiven: string := "None"
  const DefaultSubject: string := "person"
  const EmptyPlanText: string := "{}"

  const FetchUserFailed: string := "Failed to fetch user data"
  const SaveFailed: string := "Failed to save diet plan"
  const Generated: string := "Diet plan generated successfully"
  const Unexpected: string := "An unexpected error occurred"

  /** The values interpolated into the prompt, in the order they appear. */
  datatype DietPrompt = DietPrompt(
    subject: string,
    age: string, height: string, currentWeight: string, desiredWeight: string,
    currentBodyFat: string, desiredBodyFat: string, duration: string,
    frequency: string, schedule: string, cardioType: string, cardioDuration: string, cardioIntensity: string,
    mealPreferences: string, allergies: string, restrictions: string,
    medicalConditions: string, additionalInfo: string)

  /** `${v || fallback}` */
  function Or(v: Option<Value>, fallback: string): (r: string)
    ensures Truthy(v) ==> r == Show(v.value)
    ensures !Truthy(v) ==> r == fallback
  {
    if Truthy(v) then Show(v.value) else fallback
  }

  /** `userData.workout_details || {}` */
  function Workout(user: Value): (w: Value)
    ensures w != JNull
    ensures Truthy(Get(user, "workout_details")) ==> w == Get(user, "workout_details").value
  {
    var wd := Get(user, "workout_details");
    if Truthy(wd) then wd.value else JObj(map[])
  }

  /** `s ? s.join(', ') : 'Not specified'`; a truthy value that is not an array has no `join`. */
  function ScheduleText(s: Option<Value>): (r: Result<string, Thrown>)
    ensures !Truthy(s) ==> r == Success(NotSpecified)
    ensures s.Some? && s.value.JArr? ==> r == Success(JoinValues(s.value.items, ", "))
    ensures r.Failure? <==> Truthy(s) && !s.value.JArr?
  {
    if !Truthy(s) then Success(NotSpecified)
    else if s.value.JArr? then Success(JoinValues(s.value.items, ", "))
    else Failure(ErrorObject(TypeError, "workoutDetails.workout_schedule.join is not a function"))
  }

  /** The prompt `generateDietPlan` builds from a user row, or what building it throws. */
  function BuildPrompt(user: Value): (r: Result<DietPrompt, Thrown>)
    ensures r.Failure? <==> user == JNull || ScheduleText(Get(Workout(user), "workout_schedule")).Failure?
    ensures r.Success? ==>
      var p := r.value;
      var w := Workout(user);
      && (Truthy(Get(user, "gender")) ==> p.subject == Show(Get(user, "gender").value))
      && (!Truthy(Get(user, "gender")) ==> p.subject == DefaultSubject)
      && p.age == ShowOpt(Get(user, "age")) && p.mealPreferences == ShowOpt(Get(user, "meal_preferences"))
      && p.frequency == Or(Get(w, "workout_frequency"), NotSpecified)
      && p.schedule == ScheduleText(Get(w, "workout_schedule")).value
      && p.cardioType == Or(Get(w, "cardio_type"), NotSpecified)
      && p.cardioDuration == Or(Get(w, "cardio_duration"), NotSpecified)
      && p.cardioIntensity == Or(Get(w, "cardio_intensity"), NotSpecified)
      && p.allergies == Or(Get(user, "food_allergies"), NoneGiven)
      && p.restrictions == Or(Get(user, "food_restrictions"), NoneGiven)
      && p.medicalConditions == Or(Get(user, "medical_conditions"), NoneGiven)
      && p.additionalInfo == Or(Get(user, "additional_info"), NoneGiven)
  {
    if user == JNull then Failure(NullRead("workout_details"))
    else
      var w := Workout(user);
      match ScheduleText(Get(w, "workout_schedule"))
      case Failure(e) => Failure(e)
      case Success(schedule) =>
        Success(DietPrompt(
          Or(Get(user, "gender"), DefaultSubject),
          ShowOpt(Get(user, "age")), ShowOpt(Get(user, "height")),
          ShowOpt(Get(user, "current_weight")), ShowOpt(Get(user, "desired_weight")),
          ShowOpt(Get(user, "current_body_fat")), ShowOpt(Get(user, "desired_body_fat")),
          ShowOpt(Get(user, "duration")),
          Or(Get(w, "workout_frequency"), NotSpecified), schedule,
          Or(Get(w, "cardio_type"), NotSpecified), Or(Get(w, "cardio_duration"), NotSpecified),
          Or(Get(w, "cardio_intensity"), NotSpecified),
          ShowOpt(Get(user, "meal_preferences")),
          Or(Get(user, "food_allergies"), NoneGiven), Or(Get(user, "food_restrictions"), NoneGiven),
          Or(Get(user, "medical_conditions"), NoneGiven), Or(Get(user, "additional_info"), NoneGiven)))
  }

  /** The workout object onboarding saves: a frequency of 1 to 7 and a list of day names. */
  predicate OnboardedWorkout(w: Value, frequency: int, days: seq<string>) {
    && w.JObj?
    && "workout_frequency" in w.fields && w.fields["workout_frequency"] == JNum(frequency)
    && "workout_schedule" in w.fields
    && w.fields["workout_schedule"] == JArr(seq(|days|, i requires 0 <= i < |days| => JStr(days[i])))
    && 1 <= frequency <= 7
  }

  /** A user who went through onboarding has such a workout object: the prompt carries
    * its frequency and days, never the "Not specified" default. */
  lemma OnboardedWorkoutShown(user: Value, frequency: int, days: seq<string>)
    requires user.JObj? && "workout_details" in user.fields
    requires OnboardedWorkout(user.fields["workout_details"], frequency, days)
    ensures BuildPrompt(user).Success?
    ensures BuildPrompt(user).value.frequency == JsNumbers.IntToDecimal(frequency)
    ensures BuildPrompt(user).value.schedule == Join(days, ", ")
  {
    var w := user.fields["workout_details"];
    assert Workout(user) == w;
    WorkoutFieldsShown(w, frequency, days);
  }

  lemma WorkoutFieldsShown(w: Value, frequency: int, days: seq<string>)
    requires OnboardedWorkout(w, frequency, days)
    ensures Or(Get(w, "workout_frequency"), NotSpecified) == JsNumbers.IntToDecimal(frequency)
    ensures ScheduleText(Get(w, "workout_schedule")) == Success(Join(days, ", "))
  {
    JoinStrings(days, ", ");
  }

  /** `response.choices[0].message.content || '{}'`: null or empty content reads as an empty object. */
  function ContentText(content: Option<string>): (t: string)
    ensures NonEmpty(content) ==> t == content.value
    ensures !NonEmpty(content) ==> t == EmptyPlanText
  {
    if NonEmpty(content) then content.value else EmptyPlanText
  }

  /** A property of an object literal as it reaches the datastore: one holding `undefined`
    * is dropped by serialisation. */
  function Put(r: Record, key: string, v: Option<Value>): (r': Record)
    ensures r'.Keys <= r.Keys + {key}
    ensures Prop(r', key) == (if v.Some? then v else Prop(r, key))
    ensures forall k :: k != key ==> Prop(r', k) == Prop(r, k)
  {
    if v.Some? then r[key := v.value] else r
  }

  /** The `macros` object of the row. */
  function Macros(plan: Value, m: Value): (r: Record)
    ensures r.Keys <= {"calories", "protein", "carbs", "fat"}
    ensures Prop(r, "calories") == Get(plan, "daily_calories")
    ensures Prop(r, "protein") == Get(m, "protein")
    ensures Prop(r, "carbs") == Get(m, "carbs")
    ensures Prop(r, "fat") == Get(m, "fat")
  {
    var r1 := Put(map[], "calories", Get(plan, "daily_calories"));
    var r2 := Put(r1, "protein", Get(m, "protein"));
    var r3 := Put(r2, "carbs", Get(m, "carbs"));
    Put(r3, "fat", Get(m, "fat"))
  }

  /** The row inserted into `diet_plans` for a parsed plan, or the `TypeError` reading a
    * missing or null `macronutrients` throws. */
  function PlanRow(userId: string, plan: Value): (r: Result<Record, Thrown>)
    ensures r.Success? <==> plan != JNull && Get(plan, "macronutrients").Some? && Get(plan, "macronutrients").value != JNull
    ensures r.Failure? ==> r.error.ErrorObject? && r.error.kind == TypeError
    ensures r.Success? ==>
      var row := r.value;
      && row.Keys <= {"user_id", "macros", "meal_plan", "shopping_list", "is_active"}
      && Prop(row, "user_id") == Some(JStr(userId))
      && Prop(row, "is_active") == Some(JBool(true))
      && Prop(row, "meal_plan") == Get(plan, "meal_plan")
      && Prop(row, "shopping_list") == Get(plan, "shopping_list")
      && Prop(row, "macros") == Some(JObj(Macros(plan, Get(plan, "macronutrients").value)))
  {
    if plan == JNull then Failure(NullRead("daily_calories"))
    else
      var macronutrients := Get(plan, "macronutrients");
      if macronutrients.None? || macronutrients.value == JNull then Failure(NullRead("protein"))
      else
        var r1 := Put(map[], "user_id", Some(JStr(userId)));
        var r2 := Put(r1, "macros", Some(JObj(Macros(plan, macronutrients.value))));
        var r3 := Put(r2, "meal_plan", Get(plan, "meal_plan"));
        var r4 := Put(r3, "shopping_list", Get(plan, "shopping_list"));
        Success(Put(r4, "is_active", Some(JBool(true))))
  }

  /** The handler's response together with what it sent out: the prompt given to the
    * model and the row given to the datastore, if it got that far. */
  datatype Outcome = Outcome(response: Response, prompt: Option<DietPrompt>, saved: Option<Record>)

  /** The model call, `JSON.parse` and the insert, for a prompt that was built. */
  function GenerateAndSave(userId: string, prompt: DietPrompt, generate: DietPrompt -> Result<Option<string>, Thrown>,
                           parseJson: string -> Result<Value, Thrown>,
                           insert: Record -> Result<seq<Value>, DbError>): (o: Outcome)
    ensures o.prompt == Some(prompt)
    ensures o.saved.Some? <==>
      && generate(prompt).Success? && parseJson(ContentText(generate(prompt).value)).Success?
      && PlanRow(userId, parseJson(ContentText(generate(prompt).value)).value).Success?
    ensures o.saved.Some? ==> o.saved.value == PlanRow(userId, parseJson(ContentText(generate(prompt).value)).value).value
    ensures o.saved.None? ==> o.response == Response(500, false, Unexpected, NoPayload)
    ensures o.saved.Some? && Single(insert(o.saved.value)).Failure? ==> o.response == Response(500, false, SaveFailed, NoPayload)
    ensures o.saved.Some? && Single(insert(o.saved.value)).Success? ==>
      o.response == Response(200, true, Generated, Data(Single(insert(o.saved.value)).value))
  {
    var thrown := Response(500, false, Unexpected, NoPayload);
    match generate(prompt)
    case Failure(_) => Outcome(thrown, Some(prompt), None)
    case Success(content) =>
      match parseJson(ContentText(content))
      case Failure(_) => Outcome(thrown, Some(prompt), None)
      case Success(plan) =>
        match PlanRow(userId, plan)
        case Failure(_) => Outcome(thrown, Some(prompt), None)
        case Success(row) =>
          match Single(insert(row))
          case Failure(_) => Outcome(Response(500, false, SaveFailed, NoPayload), Some(prompt), Some(row))
          case Success(savedPlan) => Outcome(Response(200, true, Generated, Data(savedPlan)), Some(prompt), Some(row))
  }

  /** `generateDietPlan` followed by the insert, for a fetched user row: a row that the
    * prompt cannot be built from fails before the model is asked. */
  function PlanAndSave(userId: string, user: Value, generate: DietPrompt -> Result<Option<string>, Thrown>,
                       parseJson: string -> Result<Value, Thrown>,
                       insert: Record -> Result<seq<Value>, DbError>): (o: Outcome)
    ensures BuildPrompt(user).Failure? ==> o == Outcome(Response(500, false, Unexpected, NoPayload), None, None)
    ensures BuildPrompt(user).Success? ==> o == GenerateAndSave(userId, BuildPrompt(user).value, generate, parseJson, insert)
  {
    match BuildPrompt(user)
    case Failure(_) => Outcome(Response(500, false, Unexpected, NoPayload), None, None)
    case Success(prompt) => GenerateAndSave(userId, prompt, generate, parseJson, insert)
  }

  /** The handler. `fetchUser` is the rows the user lookup returns before `.single()`. */
  function Handle(lookup: SessionLookup, fetchUser: string -> Result<seq<Value>, DbError>,
                  generate: DietPrompt -> Result<Option<string>, Thrown>,
                  parseJson: string -> Result<Value, Thrown>,
                  insert: Record -> Result<seq<Value>, DbError>): (o: Outcome)
    ensures !Authenticated(lookup) ==> o == Outcome(Unauthorized(), None, None)
    ensures Authenticated(lookup) && Single(fetchUser(lookup.session.value.userId)).Failure? ==>
      o == Outcome(Response(500, false, FetchUserFailed, NoPayload), None, None)
    ensures Authenticated(lookup) && Single(fetchUser(lookup.session.value.userId)).Success? ==>
      var userId := lookup.session.value.userId;
      o == PlanAndSave(userId, Single(fetchUser(userId)).value, generate, parseJson, insert)
    ensures o.response.code in {200, 401, 500}
    ensures o.response.code == 200 ==>
      && o.saved.Some? && Prop(o.saved.value, "user_id") == Some(JStr(lookup.session.value.userId))
      && Prop(o.saved.value, "is_active") == Some(JBool(true))
  {
    if !Authenticated(lookup) then Outcome(Unauthorized(), None, None)
    else
      var userId := lookup.session.value.userId;
      match Single(fetchUser(userId))
      case Failure(_) => Outcome(Response(500, false, FetchUserFailed, NoPayload), None, None)
      case Success(user) => PlanAndSave(userId, user, generate, parseJson, insert)
  }

  /** Empty model content becomes `{}`, which has no `macronutrients`: the handler fails with
    * the generic 500 and saves nothing. */
  lemma EmptyContentSavesNothing(lookup: SessionLookup, fetchUser: string -> Result<seq<Value>, DbError>,
                                 generate: DietPrompt -> Result<Option<string>, Thrown>,
                                 parseJson: string -> Result<Value, Thrown>,
                                 insert: Record -> Result<seq<Value>, DbError>)
    requires Authenticated(lookup) && Single(fetchUser(lookup.session.value.userId)).Success?
    requires var user := Single(fetchUser(lookup.session.value.userId)).value;
      BuildPrompt(user).Success? && generate(BuildPrompt(user).value) in {Success(None), Success(Some(""))}
    requires parseJson(EmptyPlanText) == Success(JObj(map[]))
    ensures Handle(lookup, fetchUser, generate, parseJson, insert) ==
      Outcome(Response(500, false, Unexpected, NoPayload), Some(BuildPrompt(Single(fetchUser(lookup.session.value.userId)).value).value), None)
  {
  }
}
