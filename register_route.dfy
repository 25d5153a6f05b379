/**
 * `POST /api/auth/register`: validate a registration and insert it as a user
 * row; a duplicate e-mail address is reported separately. No session is needed.
 */
module RegisterRoute {
  import opened Wrappers
  import opened JsValues
  import opened Schema
  import opened Http

  const WorkoutFields: seq<Field> := [
    Field("frequency", ZNumber(Some(1), Some(7), false), false),
    Field("schedule", ZArray(ZString(0, false)), false),
    Field("cardio_details", ZString(0, false), true)
  ]

  const RegisterSchema: Schema := ZObject([
    Field("email", ZString(0, true), false),
    Field("name", ZString(2, false), false),
    Field("age", ZNumber(Some(1), None, false), false),
    Field("height", ZNumber(None, None, true), false),
    Field("current_weight", ZNumber(None, None, true), false),
    Field("desired_weight", ZNumber(None, None, true), false),
    Field("current_body_fat", ZNumber(Some(0), Some(100), false), false),
    Field("desired_body_fat", ZNumber(Some(0), Some(100), false), false),
    Field("duration", ZNumber(None, None, true), false),
    Field("workout_details", ZObject(WorkoutFields), false),
    Field("meal_preferences", ZEnum(["vegetarian", "non-vegetarian"]), false),
    Field("medical_conditions", ZString(0, false), true),
    Field("additional_info", ZString(0, false), true)
  ])

  /** Postgres's unique-violation code. */
  const UniqueViolation: string := "23505"

  const Registered: string := "User registered successfully"
  const InvalidInput: string := "Invalid input data"
  const EmailExists: string := "Email already exists"
  const RegisterFailed: string := "Failed to register user"
  const UnknownError: string := "Unknown error"

  /** The acceptance condition, key by key. */
  ghost predicate ValidPerson(m: Record, isEmail: string -> bool) {
    && StringAt(m, "email") && isEmail(m["email"].s)
    && StringAt(m, "name") && Utf16Length(m["name"].s) >= 2
    && NumberAt(m, "age") && m["age"].n >= 1
    && NumberAt(m, "height") && m["height"].n > 0
    && NumberAt(m, "current_weight") && m["current_weight"].n > 0
    && NumberAt(m, "desired_weight") && m["desired_weight"].n > 0
    && NumberAt(m, "current_body_fat") && 0 <= m["current_body_fat"].n <= 100
    && NumberAt(m, "desired_body_fat") && 0 <= m["desired_body_fat"].n <= 100
    && NumberAt(m, "duration") && m["duration"].n > 0
  }

  ghost predicate ValidWorkout(w: Record) {
    && NumberAt(w, "frequency") && 1 <= w["frequency"].n <= 7
    && StringListAt(w, "schedule")
    && OptionalStringAt(w, "cardio_details")
  }

  ghost predicate ValidRegistration(v: Value, isEmail: string -> bool) {
    && v.JObj?
    && ValidPerson(v.fields, isEmail)
    && "workout_details" in v.fields && v.fields["workout_details"].JObj? && ValidWorkout(v.fields["workout_details"].fields)
    && StringAt(v.fields, "meal_preferences") && v.fields["meal_preferences"].s in {"vegetarian", "non-vegetarian"}
    && OptionalStringAt(v.fields, "medical_conditions")
    && OptionalStringAt(v.fields, "additional_info")
  }

  lemma PersonFieldConditions(m: Record, isEmail: string -> bool)
    ensures FieldConforms(RegisterSchema.fields, 0, m, isEmail) <==> StringAt(m, "email") && isEmail(m["email"].s)
    ensures FieldConforms(RegisterSchema.fields, 1, m, isEmail) <==> StringAt(m, "name") && Utf16Length(m["name"].s) >= 2
    ensures FieldConforms(RegisterSchema.fields, 2, m, isEmail) <==> NumberAt(m, "age") && m["age"].n >= 1
    ensures FieldConforms(RegisterSchema.fields, 3, m, isEmail) <==> NumberAt(m, "height") && m["height"].n > 0
    ensures FieldConforms(RegisterSchema.fields, 4, m, isEmail) <==> NumberAt(m, "current_weight") && m["current_weight"].n > 0
    ensures FieldConforms(RegisterSchema.fields, 5, m, isEmail) <==> NumberAt(m, "desired_weight") && m["desired_weight"].n > 0
    ensures FieldConforms(RegisterSchema.fields, 6, m, isEmail) <==>
      NumberAt(m, "current_body_fat") && 0 <= m["current_body_fat"].n <= 100
    ensures FieldConforms(RegisterSchema.fields, 7, m, isEmail) <==>
      NumberAt(m, "desired_body_fat") && 0 <= m["desired_body_fat"].n <= 100
    ensures FieldConforms(RegisterSchema.fields, 8, m, isEmail) <==> NumberAt(m, "duration") && m["duration"].n > 0
  {
    IdentityFieldConditions(m, isEmail);
    BodyFieldConditions(m, isEmail);
  }

  lemma IdentityFieldConditions(m: Record, isEmail: string -> bool)
    ensures FieldConforms(RegisterSchema.fields, 0, m, isEmail) <==> StringAt(m, "email") && isEmail(m["email"].s)
    ensures FieldConforms(RegisterSchema.fields, 1, m, isEmail) <==> StringAt(m, "name") && Utf16Length(m["name"].s) >= 2
    ensures FieldConforms(RegisterSchema.fields, 2, m, isEmail) <==> NumberAt(m, "age") && m["age"].n >= 1
    ensures FieldConforms(RegisterSchema.fields, 3, m, isEmail) <==> NumberAt(m, "height") && m["height"].n > 0
  {
    var fs := RegisterSchema.fields;
    StringFieldConforms(fs, 0, m, isEmail, "email", 0, true);
    StringFieldConforms(fs, 1, m, isEmail, "name", 2, false);
    NumberFieldConforms(fs, 2, m, isEmail, "age", Some(1), None, false);
    NumberFieldConforms(fs, 3, m, isEmail, "height", None, None, true);
  }

  lemma BodyFieldConditions(m: Record, isEmail: string -> bool)
    ensures FieldConforms(RegisterSchema.fields, 4, m, isEmail) <==> NumberAt(m, "current_weight") && m["current_weight"].n > 0
    ensures FieldConforms(RegisterSchema.fields, 5, m, isEmail) <==> NumberAt(m, "desired_weight") && m["desired_weight"].n > 0
    ensures FieldConforms(RegisterSchema.fields, 6, m, isEmail) <==>
      NumberAt(m, "current_body_fat") && 0 <= m["current_body_fat"].n <= 100
    ensures FieldConforms(RegisterSchema.fields, 7, m, isEmail) <==>
      NumberAt(m, "desired_body_fat") && 0 <= m["desired_body_fat"].n <= 100
    ensures FieldConforms(RegisterSchema.fields, 8, m, isEmail) <==> NumberAt(m, "duration") && m["duration"].n > 0
  {
    var fs := RegisterSchema.fields;
    NumberFieldConforms(fs, 4, m, isEmail, "current_weight", None, None, true);
    NumberFieldConforms(fs, 5, m, isEmail, "desired_weight", None, None, true);
    NumberFieldConforms(fs, 6, m, isEmail, "current_body_fat", Some(0), Some(100), false);
    NumberFieldConforms(fs, 7, m, isEmail, "desired_body_fat", Some(0), Some(100), false);
    NumberFieldConforms(fs, 8, m, isEmail, "duration", None, None, true);
  }

  lemma WorkoutConforms(w: Record, isEmail: string -> bool)
    ensures (forall j :: 0 <= j < |WorkoutFields| ==> FieldConforms(WorkoutFields, j, w, isEmail)) <==> ValidWorkout(w)
  {
    var fs := WorkoutFields;
    NumberFieldConforms(fs, 0, w, isEmail, "frequency", Some(1), Some(7), false);
    StringListFieldConforms(fs, 1, w, isEmail, "schedule");
    OptionalStringFieldConforms(fs, 2, w, isEmail, "cardio_details");
    if ValidWorkout(w) {
      forall j | 0 <= j < |fs| ensures FieldConforms(fs, j, w, isEmail) {
        assert j in {0, 1, 2};
      }
    }
  }

  lemma RestFieldConditions(m: Record, isEmail: string -> bool)
    ensures FieldConforms(RegisterSchema.fields, 9, m, isEmail) <==>
      "workout_details" in m && m["workout_details"].JObj? && ValidWorkout(m["workout_details"].fields)
    ensures FieldConforms(RegisterSchema.fields, 10, m, isEmail) <==>
      StringAt(m, "meal_preferences") && m["meal_preferences"].s in {"vegetarian", "non-vegetarian"}
    ensures FieldConforms(RegisterSchema.fields, 11, m, isEmail) <==> OptionalStringAt(m, "medical_conditions")
    ensures FieldConforms(RegisterSchema.fields, 12, m, isEmail) <==> OptionalStringAt(m, "additional_info")
  {
    var fs := RegisterSchema.fields;
    ObjectFieldConforms(fs, 9, m, isEmail, "workout_details", WorkoutFields);
    if "workout_details" in m && m["workout_details"].JObj? {
      WorkoutConforms(m["workout_details"].fields, isEmail);
    }
    EnumFieldConforms(fs, 10, m, isEmail, "meal_preferences", ["vegetarian", "non-vegetarian"]);
    OptionalStringFieldConforms(fs, 11, m, isEmail, "medical_conditions");
    OptionalStringFieldConforms(fs, 12, m, isEmail, "additional_info");
  }

  /** The schema accepts a body exactly when every key meets its condition. */
  lemma AcceptedIff(v: Value, isEmail: string -> bool)
    ensures Parse(RegisterSchema, v, isEmail).Success? <==> ValidRegistration(v, isEmail)
  {
    ParseSucceedsIff(RegisterSchema, v, isEmail);
    if v.JObj? {
      var fs := RegisterSchema.fields;
      if ValidRegistration(v, isEmail) {
        FieldsConformIfValid(v.fields, isEmail);
      }
      if forall i :: 0 <= i < |fs| ==> FieldConforms(fs, i, v.fields, isEmail) {
        ValidIfFieldsConform(v.fields, isEmail);
      }
    }
  }

  lemma FieldsConformIfValid(m: Record, isEmail: string -> bool)
    requires ValidRegistration(JObj(m), isEmail)
    ensures forall i :: 0 <= i < |RegisterSchema.fields| ==> FieldConforms(RegisterSchema.fields, i, m, isEmail)
  {
    var fs := RegisterSchema.fields;
    PersonFieldConditions(m, isEmail);
    RestFieldConditions(m, isEmail);
    forall i | 0 <= i < |fs| ensures FieldConforms(fs, i, m, isEmail) {
      assert i in {0, 1, 2, 3, 4, 5, 6, 7, 8, 9, 10, 11, 12};
    }
  }

  lemma ValidIfFieldsConform(m: Record, isEmail: string -> bool)
    requires forall i :: 0 <= i < |RegisterSchema.fields| ==> FieldConforms(RegisterSchema.fields, i, m, isEmail)
    ensures ValidRegistration(JObj(m), isEmail)
  {
    var fs := RegisterSchema.fields;
    PersonFieldConditions(m, isEmail);
    RestFieldConditions(m, isEmail);
    assert |fs| == 13;
    assert FieldConforms(fs, 0, m, isEmail) && FieldConforms(fs, 1, m, isEmail);
    assert FieldConforms(fs, 2, m, isEmail) && FieldConforms(fs, 3, m, isEmail);
    assert FieldConforms(fs, 4, m, isEmail) && FieldConforms(fs, 5, m, isEmail);
    assert FieldConforms(fs, 6, m, isEmail) && FieldConforms(fs, 7, m, isEmail);
    assert FieldConforms(fs, 8, m, isEmail) && FieldConforms(fs, 9, m, isEmail);
    assert FieldConforms(fs, 10, m, isEmail) && FieldConforms(fs, 11, m, isEmail);
    assert FieldConforms(fs, 12, m, isEmail);
  }

  /** `registerSchema.parse(body)`: the cleaned value that is inserted as it is, or the issue list. */
  function Validate(body: Value, isEmail: string -> bool): (r: Result<Value, seq<Issue>>)
    ensures r.Success? <==> ValidRegistration(body, isEmail)
    ensures r.Failure? ==> |r.error| > 0
  {
    AcceptedIff(body, isEmail);
    ParseSucceedsIff(RegisterSchema, body, isEmail);
    Parse(RegisterSchema, body, isEmail)
  }

  /**
   * The handler. `body` is the parsed request body or what `request.json()` threw;
   * `insert` is the rows the insert of the validated object returns before `.single()`.
   */
  function Handle(body: Result<Value, Thrown>, isEmail: string -> bool,
                  insert: Value -> Result<seq<Value>, DbError>): (r: Response)
    ensures body.Success? && !ValidRegistration(body.value, isEmail) ==>
      r.code == 400 && r.message == InvalidInput && r.payload.Issues? && |r.payload.issues| > 0
    ensures body.Failure? ==> r == Response(500, false, RegisterFailed, ErrorText(MessageOr(body.error, UnknownError)))
    ensures body.Success? && ValidRegistration(body.value, isEmail) ==>
      var saved := Single(insert(Validate(body.value, isEmail).value));
      && (saved.Success? ==> r == Response(200, true, Registered, Data(saved.value)))
      && (saved.Failure? && saved.error.code == UniqueViolation ==> r == Response(400, false, EmailExists, NoPayload))
      && (saved.Failure? && saved.error.code != UniqueViolation ==>
            r == Response(500, false, RegisterFailed, ErrorText(MessageOr(AsThrown(saved.error), UnknownError))))
  {
    match body
    case Failure(thrown) => Response(500, false, RegisterFailed, ErrorText(MessageOr(thrown, UnknownError)))
    case Success(b) =>
      match Validate(b, isEmail)
      case Failure(issues) => Response(400, false, InvalidInput, Issues(issues))
      case Success(validated) =>
        match Single(insert(validated))
        case Success(data) => Response(200, true, Registered, Data(data))
        case Failure(e) =>
          if e.code == UniqueViolation then Response(400, false, EmailExists, NoPayload)
          else Response(500, false, RegisterFailed, ErrorText(MessageOr(AsThrown(e), UnknownError)))
  }

  /** A 400 comes from the schema or from a duplicate e-mail address, never from anything else. */
  lemma BadRequestCauses(body: Result<Value, Thrown>, isEmail: string -> bool, insert: Value -> Result<seq<Value>, DbError>)
    requires Handle(body, isEmail, insert).code == 400
    ensures body.Success?
    ensures !ValidRegistration(body.value, isEmail) ||
      (var saved := Single(insert(Validate(body.value, isEmail).value));
       saved.Failure? && saved.error.code == UniqueViolation)
  {
  }
}
