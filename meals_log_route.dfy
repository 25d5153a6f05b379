/**
 * `POST /api/meals/log`: validate a meal and log it for the signed-in user.
 */
module MealsLogRoute {
  import opened Wrappers
  import opened JsValues
  import opened Schema
  import opened Http
  import MealLogs

  const MealDetailsFields: seq<Field> := [
    Field("name", ZString(0, false), false),
    Field("ingredients", ZArray(ZString(0, false)), false),
    Field("portion_size", ZString(0, false), false)
  ]

  const MealTypes: seq<string> := ["breakfast", "lunch", "dinner", "snack"]

  const MealLogSchema: Schema := ZObject([
    Field("meal_details", ZObject(MealDetailsFields), false),
    Field("calories", ZNumber(Some(0), None, false), false),
    Field("protein", ZNumber(Some(0), None, false), false),
    Field("carbs", ZNumber(Some(0), None, false), false),
    Field("fats", ZNumber(Some(0), None, false), false),
    Field("meal_type", ZEnum(MealTypes), false)
  ])

  const Logged: string := "Meal logged successfully"
  const InvalidMeal: string := "Invalid meal data"
  const LogFailed: string := "Failed to log meal"
  const UnknownError: string := "Unknown error"

  /** The acceptance condition, key by key. */
  ghost predicate ValidMealDetails(d: Record) {
    StringAt(d, "name") && StringListAt(d, "ingredients") && StringAt(d, "portion_size")
  }

  ghost predicate ValidMealLog(v: Value) {
    && v.JObj?
    && "meal_details" in v.fields && v.fields["meal_details"].JObj? && ValidMealDetails(v.fields["meal_details"].fields)
    && NumberAt(v.fields, "calories") && v.fields["calories"].n >= 0
    && NumberAt(v.fields, "protein") && v.fields["protein"].n >= 0
    && NumberAt(v.fields, "carbs") && v.fields["carbs"].n >= 0
    && NumberAt(v.fields, "fats") && v.fields["fats"].n >= 0
    && StringAt(v.fields, "meal_type") && v.fields["meal_type"].s in {"breakfast", "lunch", "dinner", "snack"}
  }

  lemma DetailsConform(d: Record, isEmail: string -> bool)
    ensures (forall j :: 0 <= j < |MealDetailsFields| ==> FieldConforms(MealDetailsFields, j, d, isEmail)) <==> ValidMealDetails(d)
  {
    var fs := MealDetailsFields;
    StringFieldConforms(fs, 0, d, isEmail, "name", 0, false);
    StringListFieldConforms(fs, 1, d, isEmail, "ingredients");
    StringFieldConforms(fs, 2, d, isEmail, "portion_size", 0, false);
    if ValidMealDetails(d) {
      forall j | 0 <= j < |fs| ensures FieldConforms(fs, j, d, isEmail) {
        assert j in {0, 1, 2};
      }
    }
  }

  /** The schema accepts a body exactly when every key meets its condition. */
  lemma AcceptedIff(v: Value, isEmail: string -> bool)
    ensures Parse(MealLogSchema, v, isEmail).Success? <==> ValidMealLog(v)
  {
    ParseSucceedsIff(MealLogSchema, v, isEmail);
    if v.JObj? {
      var fs := MealLogSchema.fields;
      var m := v.fields;
      ObjectFieldConforms(fs, 0, m, isEmail, "meal_details", MealDetailsFields);
      if "meal_details" in m && m["meal_details"].JObj? {
        DetailsConform(m["meal_details"].fields, isEmail);
      }
      NumberFieldConforms(fs, 1, m, isEmail, "calories", Some(0), None, false);
      NumberFieldConforms(fs, 2, m, isEmail, "protein", Some(0), None, false);
      NumberFieldConforms(fs, 3, m, isEmail, "carbs", Some(0), None, false);
      NumberFieldConforms(fs, 4, m, isEmail, "fats", Some(0), None, false);
      EnumFieldConforms(fs, 5, m, isEmail, "meal_type", MealTypes);
      if ValidMealLog(v) {
        forall i | 0 <= i < |fs| ensures FieldConforms(fs, i, m, isEmail) {
          assert i in {0, 1, 2, 3, 4, 5};
        }
      }
    }
  }

  /** `mealLogSchema.parse(body)`, as the cleaned object or the issue list. */
  function Validate(body: Value, isEmail: string -> bool): (r: Result<Record, seq<Issue>>)
    ensures r.Success? <==> ValidMealLog(body)
    ensures r.Failure? ==> |r.error| > 0
  {
    AcceptedIff(body, isEmail);
    ParseSucceedsIff(MealLogSchema, body, isEmail);
    match Parse(MealLogSchema, body, isEmail)
    case Failure(issues) => Failure(issues)
    case Success(validated) =>
      ParseObject(MealLogSchema.fields, body, isEmail);
      Success(validated.fields)
  }

  /**
   * The handler. `body` is the parsed request body or what `request.json()` threw;
   * `insert` is the datastore's answer to the insert with `.single()`.
   */
  function Handle(lookup: SessionLookup, body: Result<Value, Thrown>, isEmail: string -> bool,
                  insert: Record -> Result<Value, DbError>): (r: Response)
    ensures !Authenticated(lookup) ==> r == Unauthorized()
    ensures Authenticated(lookup) && body.Success? && !ValidMealLog(body.value) ==>
      r.code == 400 && r.message == InvalidMeal && r.payload.Issues? && |r.payload.issues| > 0
    ensures r.code == 200 <==>
      && Authenticated(lookup) && body.Success? && ValidMealLog(body.value)
      && insert(MealLogs.MealInsertRow(lookup.session.value.userId, Validate(body.value, isEmail).value)).Success?
    ensures r.code == 200 ==>
      && r.ok && r.message == Logged
      && r.payload == Data(insert(MealLogs.MealInsertRow(lookup.session.value.userId, Validate(body.value, isEmail).value)).value)
    ensures Authenticated(lookup) && body.Failure? ==>
      r == Response(500, false, LogFailed, ErrorText(MessageOr(body.error, UnknownError)))
    ensures r.code == 500 && body.Success? ==>
      r.message == LogFailed && r.payload.ErrorText?
      && r.payload.error == "Failed to log meal: " + insert(MealLogs.MealInsertRow(lookup.session.value.userId, Validate(body.value, isEmail).value)).error.message
    ensures r.code in {200, 400, 401, 500}
  {
    if !Authenticated(lookup) then Unauthorized()
    else
      match body
      case Failure(thrown) => Response(500, false, LogFailed, ErrorText(MessageOr(thrown, UnknownError)))
      case Success(b) =>
        match Validate(b, isEmail)
        case Failure(issues) => Response(400, false, InvalidMeal, Issues(issues))
        case Success(validated) =>
          match MealLogs.LogMeal(lookup.session.value.userId, validated, insert)
          case Failure(e) => Response(500, false, LogFailed, ErrorText(MessageOr(e, UnknownError)))
          case Success(mealLog) => Response(200, true, Logged, Data(mealLog))
  }

  /** A logged meal is stored under the session's user with the six validated columns, and
    * never with an `id` or `logged_at` of the client's choosing. */
  lemma LoggedUnderSessionUser(lookup: SessionLookup, body: Value, isEmail: string -> bool)
    requires Authenticated(lookup) && ValidMealLog(body)
    ensures var validated := Validate(body, isEmail).value;
      var row := MealLogs.MealInsertRow(lookup.session.value.userId, validated);
      && row["user_id"] == JStr(lookup.session.value.userId)
      && "id" !in row && "logged_at" !in row
      && (forall k :: k in MealLogs.MealColumns ==> k in row && row[k] == validated[k])
  {
    var validated := Validate(body, isEmail).value;
    MealLogs.MealInsertRowOmitsGenerated(lookup.session.value.userId, validated);
    ColumnsPresent(body, isEmail);
  }

  /** Every column the insert copies is present in an accepted meal. */
  lemma ColumnsPresent(body: Value, isEmail: string -> bool)
    requires ValidMealLog(body)
    ensures forall k :: k in MealLogs.MealColumns ==> k in Validate(body, isEmail).value
  {
    var fs := MealLogSchema.fields;
    AcceptedIff(body, isEmail);
    ParseObject(fs, body, isEmail);
    var validated := Validate(body, isEmail).value;
    assert validated.Keys == body.fields.Keys * DeclaredKeys(fs, 0);
    forall k | k in MealLogs.MealColumns ensures k in validated {
      assert k in body.fields;
      var j :| 0 <= j < |MealLogs.MealColumns| && MealLogs.MealColumns[j] == k;
      assert fs[j].key == k;
    }
  }
}
