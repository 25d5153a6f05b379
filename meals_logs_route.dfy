/**
 * `GET /api/meals/logs`: with a `date` parameter, that day's nutrition totals;
 * otherwise the meal logs of a range that defaults to the last seven days.
 *
 * The query string is a map from parameter name to value; `new Date(text)` is
 * the parameter `parseDate` (`None` for an invalid date) and `new Date()` is the
 * parameter `now`, both in milliseconds since the epoch.
 */
module MealsLogsRoute {
  import opened Wrappers
  import opened JsValues
  import opened Http
  import MealLogs

  const InvalidDate: string := "Invalid date format"
  const FetchFailed: string := "Failed to fetch meal logs"
  const UnknownError: string := "Unknown error"

  /** `searchParams.get(name)` is truthy: present and not empty. */
  predicate Given(params: map<string, string>, name: string) {
    name in params && params[name] != ""
  }

  /** A range bound: the parameter's date when it is given and valid, else the default. */
  function Bound(params: map<string, string>, name: string, parseDate: string -> Option<int>, default: int): (t: int)
    ensures Given(params, name) && parseDate(params[name]).Some? ==> t == parseDate(params[name]).value
    ensures !(Given(params, name) && parseDate(params[name]).Some?) ==> t == default
  {
    if Given(params, name) && parseDate(params[name]).Some? then parseDate(params[name]).value else default
  }

  function TotalsJson(t: MealLogs.Totals): Value {
    JObj(map["calories" := JNum(t.calories), "protein" := JNum(t.protein), "carbs" := JNum(t.carbs), "fats" := JNum(t.fats)])
  }

  /** The 500 response for whatever a helper threw. */
  function Failed(e: Thrown): Response {
    Response(500, false, FetchFailed, ErrorText(MessageOr(e, UnknownError)))
  }

  method Handle(lookup: SessionLookup, params: map<string, string>, now: int, parseDate: string -> Option<int>,
                rangeQuery: (string, int, int) -> Result<seq<Value>, DbError>,
                dayQuery: (string, int, int) -> Result<seq<MealLogs.NutritionRow>, DbError>)
    returns (r: Response)
    ensures !Authenticated(lookup) ==> r == Unauthorized()
    ensures Authenticated(lookup) && Given(params, "date") ==>
      var userId := lookup.session.value.userId;
      match parseDate(params["date"])
      case None => r == Response(400, false, InvalidDate, NoPayload)
      case Some(date) =>
        var rows := dayQuery(userId, MealLogs.StartOfDay(date), MealLogs.EndOfDay(date));
        if rows.Success? then r == Response(200, true, "", Data(TotalsJson(MealLogs.DailyTotals(rows.value))))
        else r == Failed(ErrorObject(PlainError, "Failed to fetch daily nutrition: " + rows.error.message))
    ensures Authenticated(lookup) && !Given(params, "date") ==>
      var userId := lookup.session.value.userId;
      var start := Bound(params, "startDate", parseDate, now - 7 * MealLogs.MsPerDay);
      var end := Bound(params, "endDate", parseDate, now);
      var logs := MealLogs.GetMealLogs(userId, start, end, rangeQuery);
      if logs.Success? then r == Response(200, true, "", Data(JArr(logs.value))) else r == Failed(logs.error)
  {
    if !Authenticated(lookup) {
      return Unauthorized();
    }
    var userId := lookup.session.value.userId;

    if Given(params, "date") {
      var date := parseDate(params["date"]);
      if date.None? {
        return Response(400, false, InvalidDate, NoPayload);
      }
      var totals := MealLogs.GetDailyNutrition(userId, date.value, dayQuery);
      if totals.Failure? {
        return Failed(totals.error);
      }
      return Response(200, true, "", Data(TotalsJson(totals.value)));
    }

    var startDate := now;
    startDate := startDate - 7 * MealLogs.MsPerDay;
    var endDate := now;
    if Given(params, "startDate") {
      var parsedStartDate := parseDate(params["startDate"]);
      if parsedStartDate.Some? {
        startDate := parsedStartDate.value;
      }
    }
    if Given(params, "endDate") {
      var parsedEndDate := parseDate(params["endDate"]);
      if parsedEndDate.Some? {
        endDate := parsedEndDate.value;
      }
    }

    var logs := MealLogs.GetMealLogs(userId, startDate, endDate, rangeQuery);
    if logs.Failure? {
      return Failed(logs.error);
    }
    return Response(200, true, "", Data(JArr(logs.value)));
  }

  /** An unparseable or empty range parameter counts as if it had not been sent. */
  lemma InvalidBoundIgnored(params: map<string, string>, name: string, parseDate: string -> Option<int>, default: int)
    requires name in params && (params[name] == "" || parseDate(params[name]).None?)
    ensures Bound(params, name, parseDate, default) == Bound(params - {name}, name, parseDate, default) == default
  {
  }
}
