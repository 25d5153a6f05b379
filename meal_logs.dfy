/**
 * The meal-log helpers of the datastore layer: inserting a meal, reading a date
 * range, the daily nutrition totals and deleting a log. The datastore itself is
 * an oracle: each query is a function parameter that returns rows or an error.
 * Times are milliseconds since the epoch in local time.
 */
module MealLogs {
  import opened Wrappers
  import opened JsValues
  import opened Http

  const MsPerDay: int := 24 * 60 * 60 * 1000

  // ---------------------------------------------------------------------------
  // logMeal

  /** The columns `logMeal` copies from the meal data. */
  const MealColumns: seq<string> := ["meal_details", "calories", "protein", "carbs", "fats", "meal_type"]

  /** The object `logMeal` inserts: `user_id` and the six meal columns (an undefined one is dropped by JSON). */
  function MealInsertRow(userId: string, meal: Record): (row: Record)
    ensures "user_id" in row && row["user_id"] == JStr(userId)
    ensures forall k :: k in row <==> k == "user_id" || (k in MealColumns && k in meal)
    ensures forall k :: k in MealColumns && k in meal ==> row[k] == meal[k]
  {
    var copied := map k | k in meal && k in MealColumns :: meal[k];
    copied["user_id" := JStr(userId)]
  }

  /** `logMeal`: the stored row, or `Error("Failed to log meal: ...")`. */
  function LogMeal(userId: string, meal: Record, insert: Record -> Result<Value, DbError>): (r: Result<Value, Thrown>)
    ensures insert(MealInsertRow(userId, meal)).Success? ==> r == Success(insert(MealInsertRow(userId, meal)).value)
    ensures insert(MealInsertRow(userId, meal)).Failure? ==>
      r == Failure(ErrorObject(PlainError, "Failed to log meal: " + insert(MealInsertRow(userId, meal)).error.message))
  {
    match insert(MealInsertRow(userId, meal))
    case Failure(e) => Failure(ErrorObject(PlainError, "Failed to log meal: " + e.message))
    case Success(row) => Success(row)
  }

  /** The insert never supplies the columns the datastore generates. */
  lemma MealInsertRowOmitsGenerated(userId: string, meal: Record)
    ensures "id" !in MealInsertRow(userId, meal) && "logged_at" !in MealInsertRow(userId, meal)
  {
    assert "id" !in MealColumns && "logged_at" !in MealColumns;
  }

  // ---------------------------------------------------------------------------
  // getMealLogs and deleteMealLog

  /** `getMealLogs`: the rows the range query returns, or `Error("Failed to fetch meal logs: ...")`. */
  function GetMealLogs(userId: string, start: int, end: int, query: (string, int, int) -> Result<seq<Value>, DbError>)
    : (r: Result<seq<Value>, Thrown>)
    ensures r.Success? <==> query(userId, start, end).Success?
    ensures r.Success? ==> r.value == query(userId, start, end).value
    ensures r.Failure? ==> r.error == ErrorObject(PlainError, "Failed to fetch meal logs: " + query(userId, start, end).error.message)
  {
    match query(userId, start, end)
    case Failure(e) => Failure(ErrorObject(PlainError, "Failed to fetch meal logs: " + e.message))
    case Success(rows) => Success(rows)
  }

  /** `deleteMealLog`: `true`, or `Error("Failed to delete meal log: ...")`. */
  function DeleteMealLog(id: string, delete: string -> Option<DbError>): (r: Result<bool, Thrown>)
    ensures r.Success? <==> delete(id).None?
    ensures r.Success? ==> r.value
    ensures r.Failure? ==> r.error == ErrorObject(PlainError, "Failed to delete meal log: " + delete(id).value.message)
  {
    match delete(id)
    case Some(e) => Failure(ErrorObject(PlainError, "Failed to delete meal log: " + e.message))
    case None => Success(true)
  }

  // ---------------------------------------------------------------------------
  // The day window of getDailyNutrition

  /** A JavaScript `Date` reduced to its time value, updated in place by `setHours`. */
  class JsDate {
    var time: int

    constructor (t: int)
      ensures time == t
    {
      time := t;
    }

    /** `setHours(h, m, s, ms)` with in-range arguments: same local day, new time of day. */
    method SetHours(h: int, m: int, s: int, ms: int)
      requires 0 <= h < 24 && 0 <= m < 60 && 0 <= s < 60 && 0 <= ms < 1000
      modifies this
      ensures time / MsPerDay == old(time) / MsPerDay
      ensures time % MsPerDay == ((h * 60 + m) * 60 + s) * 1000 + ms
    {
      time := time / MsPerDay * MsPerDay + ((h * 60 + m) * 60 + s) * 1000 + ms;
    }
  }

  /** The bounds `getDailyNutrition` queries: 00:00:00.000 and 23:59:59.999 of the day of `date`. */
  method DayWindow(date: int) returns (start: int, end: int)
    ensures start / MsPerDay == date / MsPerDay == end / MsPerDay
    ensures start % MsPerDay == 0 && end % MsPerDay == MsPerDay - 1
    ensures start <= date <= end && start < end
  {
    var startOfDay := new JsDate(date);
    startOfDay.SetHours(0, 0, 0, 0);
    var endOfDay := new JsDate(date);
    endOfDay.SetHours(23, 59, 59, 999);
    start, end := startOfDay.time, endOfDay.time;
  }

  /** The day window as values, for use in specifications. */
  function StartOfDay(date: int): int { date / MsPerDay * MsPerDay }

  function EndOfDay(date: int): int { date / MsPerDay * MsPerDay + MsPerDay - 1 }

  lemma WindowIsDayBounds(date: int, start: int, end: int)
    requires start / MsPerDay == date / MsPerDay == end / MsPerDay
    requires start % MsPerDay == 0 && end % MsPerDay == MsPerDay - 1
    ensures start == StartOfDay(date) && end == EndOfDay(date)
  {
  }

  // ---------------------------------------------------------------------------
  // The totals fold

  /** A row of `select('calories, protein, carbs, fats')`; a null column is `None`. */
  datatype NutritionRow = NutritionRow(calories: Option<int>, protein: Option<int>, carbs: Option<int>, fats: Option<int>)

  datatype Totals = Totals(calories: int, protein: int, carbs: int, fats: int)

  const ZeroTotals: Totals := Totals(0, 0, 0, 0)

  /** `x || 0` on a nullable number. */
  function OrZero(x: Option<int>): int { if x.Some? then x.value else 0 }

  /** The reducer: add one row to the accumulator, a null column counting 0. */
  function AddRow(acc: Totals, row: NutritionRow): Totals {
    Totals(acc.calories + OrZero(row.calories), acc.protein + OrZero(row.protein),
           acc.carbs + OrZero(row.carbs), acc.fats + OrZero(row.fats))
  }

  /** `data.reduce(AddRow, ZeroTotals)`, folding from the left. */
  function DailyTotals(rows: seq<NutritionRow>): Totals {
    if rows == [] then ZeroTotals else AddRow(DailyTotals(rows[..|rows| - 1]), rows[|rows| - 1])
  }

  function Plus(a: Totals, b: Totals): Totals {
    Totals(a.calories + b.calories, a.protein + b.protein, a.carbs + b.carbs, a.fats + b.fats)
  }

  datatype Column = Calories | Protein | Carbs | Fats

  function Cell(row: NutritionRow, c: Column): Option<int> {
    match c
    case Calories => row.calories
    case Protein => row.protein
    case Carbs => row.carbs
    case Fats => row.fats
  }

  function Total(t: Totals, c: Column): int {
    match c
    case Calories => t.calories
    case Protein => t.protein
    case Carbs => t.carbs
    case Fats => t.fats
  }

  /** The reference definition: the sum of one column over the rows, a null counting 0. */
  function ColumnSum(rows: seq<NutritionRow>, c: Column): int {
    if rows == [] then 0 else OrZero(Cell(rows[0], c)) + ColumnSum(rows[1..], c)
  }

  lemma {:induction false} ColumnSumAppend(xs: seq<NutritionRow>, ys: seq<NutritionRow>, c: Column)
    ensures ColumnSum(xs + ys, c) == ColumnSum(xs, c) + ColumnSum(ys, c)
    decreases |xs|
  {
    if xs != [] {
      assert (xs + ys)[1..] == xs[1..] + ys;
      ColumnSumAppend(xs[1..], ys, c);
    } else {
      assert xs + ys == ys;
    }
  }

  lemma TotalAddRow(acc: Totals, row: NutritionRow, c: Column)
    ensures Total(AddRow(acc, row), c) == Total(acc, c) + OrZero(Cell(row, c))
  {
  }

  lemma {:induction false} ColumnSumSnoc(rows: seq<NutritionRow>, c: Column)
    requires rows != []
    ensures ColumnSum(rows, c) == ColumnSum(rows[..|rows| - 1], c) + OrZero(Cell(rows[|rows| - 1], c))
    decreases |rows|
  {
    if |rows| > 1 {
      ColumnSumSnoc(rows[1..], c);
      assert rows[1..][..|rows| - 2] == rows[..|rows| - 1][1..];
    }
  }

  /** Each total is the sum of its column over the rows, null contributing 0. */
  lemma {:induction false} TotalsAreColumnSums(rows: seq<NutritionRow>, c: Column)
    ensures Total(DailyTotals(rows), c) == ColumnSum(rows, c)
    decreases |rows|
  {
    if rows != [] {
      TotalsAreColumnSums(rows[..|rows| - 1], c);
      TotalAddRow(DailyTotals(rows[..|rows| - 1]), rows[|rows| - 1], c);
      ColumnSumSnoc(rows, c);
    }
  }

  /** Over zero rows every total is 0. */
  lemma TotalsOfNoRows()
    ensures DailyTotals([]) == ZeroTotals
  {
  }

  lemma ColumnTotalAppend(xs: seq<NutritionRow>, ys: seq<NutritionRow>, c: Column)
    ensures Total(DailyTotals(xs + ys), c) == Total(DailyTotals(xs), c) + Total(DailyTotals(ys), c)
  {
    TotalsAreColumnSums(xs + ys, c);
    TotalsAreColumnSums(xs, c);
    TotalsAreColumnSums(ys, c);
    ColumnSumAppend(xs, ys, c);
  }

  /** Totals of a concatenation are the field-wise sum of the totals. */
  lemma TotalsAppend(xs: seq<NutritionRow>, ys: seq<NutritionRow>)
    ensures DailyTotals(xs + ys) == Plus(DailyTotals(xs), DailyTotals(ys))
  {
    ColumnTotalAppend(xs, ys, Calories);
    ColumnTotalAppend(xs, ys, Protein);
    ColumnTotalAppend(xs, ys, Carbs);
    ColumnTotalAppend(xs, ys, Fats);
  }

  /** The totals do not depend on the order the datastore returns the rows in. */
  lemma {:induction false} TotalsIgnoreOrder(xs: seq<NutritionRow>, ys: seq<NutritionRow>)
    requires multiset(xs) == multiset(ys)
    ensures DailyTotals(xs) == DailyTotals(ys)
    decreases |xs|
  {
    if xs == [] {
      assert |ys| == |multiset(ys)| == 0;
    } else {
      var init, last := xs[..|xs| - 1], xs[|xs| - 1];
      var k := RemoveMatching(xs, ys);
      var pre, post := ys[..k], ys[k + 1..];
      TotalsIgnoreOrder(init, pre + post);
      SplitLast(xs);
      SplitAt(ys, k);
      TotalsAppend(init, [last]);
      TotalsMoveOne(pre, last, post);
    }
  }

  /** The last element of xs occurs in ys at k; what remains on both sides is again a permutation. */
  lemma RemoveMatching<T>(xs: seq<T>, ys: seq<T>) returns (k: nat)
    requires xs != [] && multiset(xs) == multiset(ys)
    ensures k < |ys| && ys[k] == xs[|xs| - 1]
    ensures multiset(xs[..|xs| - 1]) == multiset(ys[..k] + ys[k + 1..])
  {
    var init, last := xs[..|xs| - 1], xs[|xs| - 1];
    assert xs == init + [last];
    assert last in multiset(ys);
    k :| 0 <= k < |ys| && ys[k] == last;
    var pre, post := ys[..k], ys[k + 1..];
    assert ys == pre + [last] + post;
    assert multiset(init) + multiset{last} == multiset(pre + post) + multiset{last};
    forall x: T
      ensures multiset(init)[x] == multiset(pre + post)[x]
    {
      assert (multiset(init) + multiset{last})[x] == (multiset(pre + post) + multiset{last})[x];
    }
  }

  lemma SplitLast<T>(s: seq<T>)
    requires s != []
    ensures s == s[..|s| - 1] + [s[|s| - 1]]
  {
  }

  lemma SplitAt<T>(s: seq<T>, k: nat)
    requires k < |s|
    ensures s == s[..k] + [s[k]] + s[k + 1..]
  {
  }

  lemma TotalsMoveOne(pre: seq<NutritionRow>, last: NutritionRow, post: seq<NutritionRow>)
    ensures DailyTotals(pre + [last] + post) == Plus(DailyTotals(pre + post), DailyTotals([last]))
  {
    var a, b, c := DailyTotals(pre), DailyTotals([last]), DailyTotals(post);
    TotalsAppend(pre, [last]);
    TotalsAppend(pre + [last], post);
    TotalsAppend(pre, post);
    PlusSwap(a, b, c);
  }

  lemma PlusSwap(a: Totals, b: Totals, c: Totals)
    ensures Plus(Plus(a, b), c) == Plus(Plus(a, c), b)
  {
  }

  /** One column's total is decided by that column alone: the others never affect it. */
  lemma {:induction false} ColumnsIndependent(xs: seq<NutritionRow>, ys: seq<NutritionRow>, c: Column)
    requires |xs| == |ys|
    requires forall i :: 0 <= i < |xs| ==> Cell(xs[i], c) == Cell(ys[i], c)
    ensures Total(DailyTotals(xs), c) == Total(DailyTotals(ys), c)
  {
    TotalsAreColumnSums(xs, c);
    TotalsAreColumnSums(ys, c);
    SameColumnSameSum(xs, ys, c);
  }

  lemma {:induction false} SameColumnSameSum(xs: seq<NutritionRow>, ys: seq<NutritionRow>, c: Column)
    requires |xs| == |ys|
    requires forall i :: 0 <= i < |xs| ==> Cell(xs[i], c) == Cell(ys[i], c)
    ensures ColumnSum(xs, c) == ColumnSum(ys, c)
    decreases |xs|
  {
    if xs != [] {
      assert Cell(xs[0], c) == Cell(ys[0], c);
      SameColumnSameSum(xs[1..], ys[1..], c);
    }
  }

  // ---------------------------------------------------------------------------
  // getDailyNutrition

  /**
   * `getDailyNutrition`: query the rows of the user between the day's bounds and
   * fold them, or `Error("Failed to fetch daily nutrition: ...")`.
   */
  method GetDailyNutrition(userId: string, date: int, query: (string, int, int) -> Result<seq<NutritionRow>, DbError>)
    returns (r: Result<Totals, Thrown>)
    ensures var rows := query(userId, StartOfDay(date), EndOfDay(date));
      && (rows.Success? ==> r == Success(DailyTotals(rows.value)))
      && (rows.Failure? ==> r == Failure(ErrorObject(PlainError, "Failed to fetch daily nutrition: " + rows.error.message)))
  {
    var start, end := DayWindow(date);
    WindowIsDayBounds(date, start, end);
    var rows := query(userId, start, end);
    if rows.Failure? {
      return Failure(ErrorObject(PlainError, "Failed to fetch daily nutrition: " + rows.error.message));
    }
    r := Success(DailyTotals(rows.value));
  }
}
