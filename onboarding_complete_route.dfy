/**
 * `POST /api/onboarding/complete`: validate the collected onboarding answers,
 * move the five workout answers into one `workout_details` object, and insert
 * the user's row keyed by the session's user id.
 */
module OnboardingCompleteRoute {
  import opened Wrappers
  import opened JsValues
  import opened Schema
  import opened Http

  const OnboardingSchema: Schema := ZObject([
    Field("name", ZString(2, false), false),
    Field("age", ZNumber(Some(1), None, false), false),
    Field("height", ZNumber(None, None, true), false),
    Field("current_weight", ZNumber(None, None, true), false),
    Field("desired_weight", ZNumber(None, None, true), false),
    Field("current_body_fat", ZNumber(Some(0), Some(100), false), false),
    Field("desired_body_fat", ZNumber(Some(0), Some(100), false), false),
    Field("duration", ZNumber(None, None, true), false),
    Field("workout_frequency", ZNumber(Some(1), Some(7), false), false),
    Field("workout_schedule", ZArray(ZString(0, false)), false),
    Field("cardio_type", ZString(0, false), true),
    Field("cardio_duration", ZNumber(None, None, false), true),
    Field("cardio_intensity", ZString(0, false), true),
    Field("meal_preferences", ZEnum(["vegetarian", "non-vegetarian"]), false),
    Field("food_allergies", ZString(0, false), true),
    Field("food_restrictions", ZString(0, false), true),
    Field("medical_conditions", ZString(0, false), true),
    Field("additional_info", ZString(0, false), true)
  ])

  const WorkoutKeys: set<string> :=
    {"workout_frequency", "workout_schedule", "cardio_type", "cardio_duration", "cardio_intensity"}

  const InvalidData: string := "Invalid onboarding data"
  const SaveFailed: string := "Failed to save onboarding data"
  const Completed: string := "Onboarding completed successfully"
  const Unexpected: string := "An unexpected error occurred"

  /** The acceptance condition, key by key. */
  ghost predicate ValidBasics(m: Record) {
    && StringAt(m, "name") && Utf16Length(m["name"].s) >= 2
    && NumberAt(m, "age") && m["age"].n >= 1
    && NumberAt(m, "height") && m["height"].n > 0
    && NumberAt(m, "current_weight") && m["current_weight"].n > 0
    && NumberAt(m, "desired_weight") && m["desired_weight"].n > 0
    && NumberAt(m, "current_body_fat") && 0 <= m["current_body_fat"].n <= 100
    && NumberAt(m, "desired_body_fat") && 0 <= m["desired_body_fat"].n <= 100
    && NumberAt(m, "duration") && m["duration"].n > 0
  }

  ghost predicate ValidPreferences(m: Record) {
    && NumberAt(m, "workout_frequency") && 1 <= m["workout_frequency"].n <= 7
    && StringListAt(m, "workout_schedule")
    && OptionalStringAt(m, "cardio_type")
    && OptionalNumberAt(m, "cardio_duration")
    && OptionalStringAt(m, "cardio_intensity")
    && StringAt(m, "meal_preferences") && m["meal_preferences"].s in {"vegetarian", "non-vegetarian"}
    && OptionalStringAt(m, "food_allergies")
    && OptionalStringAt(m, "food_restrictions")
    && OptionalStringAt(m, "medical_conditions")
    && OptionalStringAt(m, "additional_info")
  }

  ghost predicate ValidOnboarding(v: Value) {
    v.JObj? && ValidBasics(v.fields) && ValidPreferences(v.fields)
  }

  lemma BasicsConform(m: Record, isEmail: string -> bool)
    ensures (forall i :: 0 <= i < 8 ==> FieldConforms(OnboardingSchema.fields, i, m, isEmail)) <==> ValidBasics(m)
  {
    var fs := OnboardingSchema.fields;
    BasicFieldConditions(m, isEmail);
    if ValidBasics(m) {
      forall i | 0 <= i < 8 ensures FieldConforms(fs, i, m, isEmail) {
        assert i in {0, 1, 2, 3, 4, 5, 6, 7};
      }
    }
  }

  lemma BasicFieldConditions(m: Record, isEmail: string -> bool)
    ensures FieldConforms(OnboardingSchema.fields, 0, m, isEmail) <==> StringAt(m, "name") && Utf16Length(m["name"].s) >= 2
    ensures FieldConforms(OnboardingSchema.fields, 1, m, isEmail) <==> NumberAt(m, "age") && m["age"].n >= 1
    ensures FieldConforms(OnboardingSchema.fields, 2, m, isEmail) <==> NumberAt(m, "height") && m["height"].n > 0
    ensures FieldConforms(OnboardingSchema.fields, 3, m, isEmail) <==> NumberAt(m, "current_weight") && m["current_weight"].n > 0
    ensures FieldConforms(OnboardingSchema.fields, 4, m, isEmail) <==> NumberAt(m, "desired_weight") && m["desired_weight"].n > 0
    ensures FieldConforms(OnboardingSchema.fields, 5, m, isEmail) <==>
      NumberAt(m, "current_body_fat") && 0 <= m["current_body_fat"].n <= 100
    ensures FieldConforms(OnboardingSchema.fields, 6, m, isEmail) <==>
      NumberAt(m, "desired_body_fat") && 0 <= m["desired_body_fat"].n <= 100
    ensures FieldConforms(OnboardingSchema.fields, 7, m, isEmail) <==> NumberAt(m, "duration") && m["duration"].n > 0
  {
    var fs := OnboardingSchema.fields;
    StringFieldConforms(fs, 0, m, isEmail, "name", 2, false);
    NumberFieldConforms(fs, 1, m, isEmail, "age", Some(1), None, false);
    NumberFieldConforms(fs, 2, m, isEmail, "height", None, None, true);
    NumberFieldConforms(fs, 3, m, isEmail, "current_weight", None, None, true);
    NumberFieldConforms(fs, 4, m, isEmail, "desired_weight", None, None, true);
    NumberFieldConforms(fs, 5, m, isEmail, "current_body_fat", Some(0), Some(100), false);
    NumberFieldConforms(fs, 6, m, isEmail, "desired_body_fat", Some(0), Some(100), false);
    NumberFieldConforms(fs, 7, m, isEmail, "duration", None, None, true);
  }

  lemma PreferencesConform(m: Record, isEmail: string -> bool)
    ensures (forall i :: 8 <= i < 18 ==> FieldConforms(OnboardingSchema.fields, i, m, isEmail)) <==> ValidPreferences(m)
  {
    var fs := OnboardingSchema.fields;
    WorkoutFieldConditions(m, isEmail);
    DietFieldConditions(m, isEmail);
    if ValidPreferences(m) {
      forall i | 8 <= i < 18 ensures FieldConforms(fs, i, m, isEmail) {
        assert i in {8, 9, 10, 11, 12, 13, 14, 15, 16, 17};
      }
    }
  }

  lemma WorkoutFieldConditions(m: Record, isEmail: string -> bool)
    ensures FieldConforms(OnboardingSchema.fields, 8, m, isEmail) <==>
      NumberAt(m, "workout_frequency") && 1 <= m["workout_frequency"].n <= 7
    ensures FieldConforms(OnboardingSchema.fields, 9, m, isEmail) <==> StringListAt(m, "workout_schedule")
    ensures FieldConforms(OnboardingSchema.fields, 10, m, isEmail) <==> OptionalStringAt(m, "cardio_type")
    ensures FieldConforms(OnboardingSchema.fields, 11, m, isEmail) <==> OptionalNumberAt(m, "cardio_duration")
    ensures FieldConforms(OnboardingSchema.fields, 12, m, isEmail) <==> OptionalStringAt(m, "cardio_intensity")
  {
    var fs := OnboardingSchema.fields;
    NumberFieldConforms(fs, 8, m, isEmail, "workout_frequency", Some(1), Some(7), false);
    StringListFieldConforms(fs, 9, m, isEmail, "workout_schedule");
    OptionalStringFieldConforms(fs, 10, m, isEmail, "cardio_type");
    OptionalNumberFieldConforms(fs, 11, m, isEmail, "cardio_duration");
    OptionalStringFieldConforms(fs, 12, m, isEmail, "cardio_intensity");
  }

  lemma DietFieldConditions(m: Record, isEmail: string -> bool)
    ensures FieldConforms(OnboardingSchema.fields, 13, m, isEmail) <==>
      StringAt(m, "meal_preferences") && m["meal_preferences"].s in {"vegetarian", "non-vegetarian"}
    ensures FieldConforms(OnboardingSchema.fields, 14, m, isEmail) <==> OptionalStringAt(m, "food_allergies")
    ensures FieldConforms(OnboardingSchema.fields, 15, m, isEmail) <==> OptionalStringAt(m, "food_restrictions")
    ensures FieldConforms(OnboardingSchema.fields, 16, m, isEmail) <==> OptionalStringAt(m, "medical_conditions")
    ensures FieldConforms(OnboardingSchema.fields, 17, m, isEmail) <==> OptionalStringAt(m, "additional_info")
  {
    var fs := OnboardingSchema.fields;
    EnumFieldConforms(fs, 13, m, isEmail, "meal_preferences", ["vegetarian", "non-vegetarian"]);
    OptionalStringFieldConforms(fs, 14, m, isEmail, "food_allergies");
    OptionalStringFieldConforms(fs, 15, m, isEmail, "food_restrictions");
    OptionalStringFieldConforms(fs, 16, m, isEmail, "medical_conditions");
    OptionalStringFieldConforms(fs, 17, m, isEmail, "additional_info");
  }

  /** The schema accepts a body exactly when every key meets its condition. */
  lemma AcceptedIff(v: Value, isEmail: string -> bool)
    ensures Parse(OnboardingSchema, v, isEmail).Success? <==> ValidOnboarding(v)
  {
    ParseSucceedsIff(OnboardingSchema, v, isEmail);
    if v.JObj? {
      BasicsConform(v.fields, isEmail);
      PreferencesConform(v.fields, isEmail);
      assert |OnboardingSchema.fields| == 18;
    }
  }

  /** The five workout answers of the validated data (`undefined` ones are left out). */
  function WorkoutDetails(validated: Record): (w: Record)
    ensures w.Keys == validated.Keys * WorkoutKeys
    ensures forall k :: k in w ==> w[k] == validated[k]
  {
    map k | k in validated && k in WorkoutKeys :: validated[k]
  }

  /** The validated data without the five workout answers. */
  function UserData(validated: Record): (u: Record)
    ensures u.Keys == validated.Keys - WorkoutKeys
    ensures forall k :: k in u ==> u[k] == validated[k]
  {
    map k | k in validated && k !in WorkoutKeys :: validated[k]
  }

  /** Every validated answer lands in exactly one of the two parts. */
  lemma SplitIsPartition(validated: Record)
    ensures WorkoutDetails(validated).Keys !! UserData(validated).Keys
    ensures WorkoutDetails(validated) + UserData(validated) == validated
  {
    var w, u := WorkoutDetails(validated), UserData(validated);
    assert (w + u).Keys == validated.Keys;
  }

  /** The inserted row `{ id, email, ...userData, workout_details }`; an undefined email is dropped. */
  function UserRow(session: Session, validated: Record): Record {
    var identity := if session.email.Some? then map["id" := JStr(session.userId), "email" := JStr(session.email.value)]
                    else map["id" := JStr(session.userId)];
    (identity + UserData(validated))["workout_details" := JObj(WorkoutDetails(validated))]
  }

  /** When the validated data holds none of the keys the handler sets itself, the row's
    * identity comes from the session, the workout answers sit only under
    * `workout_details`, and every other answer is copied. */
  lemma RowFromSession(session: Session, validated: Record)
    requires "id" !in validated && "email" !in validated && "workout_details" !in validated
    ensures var row := UserRow(session, validated);
      && row["id"] == JStr(session.userId)
      && ("email" in row <==> session.email.Some?)
      && (session.email.Some? ==> row["email"] == JStr(session.email.value))
      && row["workout_details"] == JObj(WorkoutDetails(validated))
      && (forall k :: k in WorkoutKeys ==> k !in row)
      && (forall k :: k in validated && k !in WorkoutKeys ==> k in row && row[k] == validated[k])
  {
  }

  /** What the schema lets through never holds those keys. */
  lemma ValidatedHasNoReservedKeys(body: Value, isEmail: string -> bool)
    requires Parse(OnboardingSchema, body, isEmail).Success?
    ensures var validated := Parse(OnboardingSchema, body, isEmail).value;
      validated.JObj? && "id" !in validated.fields && "email" !in validated.fields && "workout_details" !in validated.fields
  {
    ParseObject(OnboardingSchema.fields, body, isEmail);
    ReservedKeysUndeclared();
  }

  /** The schema declares none of the keys the handler sets itself. */
  lemma ReservedKeysUndeclared()
    ensures "id" !in DeclaredKeys(OnboardingSchema.fields, 0)
    ensures "email" !in DeclaredKeys(OnboardingSchema.fields, 0)
    ensures "workout_details" !in DeclaredKeys(OnboardingSchema.fields, 0)
  {
    var fs := OnboardingSchema.fields;
    forall j | 0 <= j < |fs| ensures fs[j].key != "id" && fs[j].key != "email" && fs[j].key != "workout_details" {
      assert j in {0, 1, 2, 3, 4, 5, 6, 7, 8, 9, 10, 11, 12, 13, 14, 15, 16, 17};
    }
  }

  /** `onboardingSchema.parse(body)`, as the cleaned object or the issue list. */
  function Validate(body: Value, isEmail: string -> bool): (r: Result<Record, seq<Issue>>)
    ensures r.Success? <==> ValidOnboarding(body)
    ensures r.Success? ==> "id" !in r.value && "email" !in r.value && "workout_details" !in r.value
    ensures r.Failure? ==> |r.error| > 0
  {
    AcceptedIff(body, isEmail);
    ParseSucceedsIff(OnboardingSchema, body, isEmail);
    match Parse(OnboardingSchema, body, isEmail)
    case Failure(issues) => Failure(issues)
    case Success(validated) =>
      ValidatedHasNoReservedKeys(body, isEmail);
      Success(validated.fields)
  }

  /**
   * The handler. `lookup` is the session, `body` the parsed request body (`None`
   * when it is not JSON), `insert` the rows the insert returns before `.single()`.
   */
  function Handle(lookup: SessionLookup, body: Option<Value>, isEmail: string -> bool,
                  insert: Record -> Result<seq<Value>, DbError>): (r: Response)
    ensures !Authenticated(lookup) ==> r == Unauthorized()
    ensures Authenticated(lookup) && body.None? ==> r == Response(500, false, Unexpected, NoPayload)
    ensures Authenticated(lookup) && body.Some? && !ValidOnboarding(body.value) ==>
      r.code == 400 && r.message == InvalidData && r.payload.Issues? && |r.payload.issues| > 0
    ensures r.code == 200 <==>
      && Authenticated(lookup) && body.Some? && ValidOnboarding(body.value)
      && Single(insert(UserRow(lookup.session.value, Validate(body.value, isEmail).value))).Success?
    ensures r.code == 200 ==>
      && r.ok && r.message == Completed
      && r.payload == Data(Single(insert(UserRow(lookup.session.value, Validate(body.value, isEmail).value))).value)
    ensures r.code == 500 && Authenticated(lookup) && body.Some? && ValidOnboarding(body.value) ==> r.message == SaveFailed
  {
    if !Authenticated(lookup) then Unauthorized()
    else if body.None? then Response(500, false, Unexpected, NoPayload)
    else
      match Validate(body.value, isEmail)
      case Failure(issues) => Response(400, false, InvalidData, Issues(issues))
      case Success(validated) =>
        var row := UserRow(lookup.session.value, validated);
        match Single(insert(row))
        case Failure(_) => Response(500, false, SaveFailed, NoPayload)
        case Success(data) => Response(200, true, Completed, Data(data))
  }

  /** The row a successful request saves carries the session's identity and the split answers. */
  lemma SavedRowShape(lookup: SessionLookup, body: Value, isEmail: string -> bool)
    requires Authenticated(lookup) && ValidOnboarding(body)
    ensures var row := UserRow(lookup.session.value, Validate(body, isEmail).value);
      && row["id"] == JStr(lookup.session.value.userId)
      && ("email" in row <==> lookup.session.value.email.Some?)
      && (forall k :: k in WorkoutKeys ==> k !in row)
      && row["workout_details"] == JObj(WorkoutDetails(Validate(body, isEmail).value))
  {
    RowFromSession(lookup.session.value, Validate(body, isEmail).value);
  }
}
