/**
 * The parameter block of the meal-plan prompt that both model clients send
 * (`constructPrompt` for OpenAI, the inline template for Deepseek). Each entry
 * is one line of the block, without the template's indentation; the optional
 * cardio and medical lines are empty lines when their value is missing or empty.
 * The fixed instructions around the block are not modelled.
 */
module MealPlanPrompt {
  import opened Wrappers
  import opened JsValues
  import JsNumbers

  /** `GenerateMealPlanParams`. */
  datatype MealPlanParams = MealPlanParams(
    bmr: int, tdee: int, targetCalories: int,
    protein: int, carbs: int, fats: int,
    duration: int, mealPreferences: string,
    workoutFrequency: int, workoutSchedule: seq<string>,
    cardioDetails: Option<string>, medicalConditions: Option<string>)

  const CardioPrefix: string := "- Cardio details: "
  const MedicalPrefix: string := "- Medical conditions: "

  /** `${x ? `<prefix>${x}` : ''}` for an optional string. */
  function OptionalLine(prefix: string, x: Option<string>): (line: string)
    ensures NonEmpty(x) ==> line == prefix + x.value
    ensures !NonEmpty(x) ==> line == ""
  {
    if NonEmpty(x) then prefix + x.value else ""
  }

  /** `${x}` for a number. */
  function Dec(x: int): string { JsNumbers.IntToDecimal(x) }

  /** The lines of the parameter block, in order. */
  function ParameterLines(p: MealPlanParams): (lines: seq<string>)
    ensures |lines| == 13
    ensures lines[10] == "- Workout schedule: " + Join(p.workoutSchedule, ", ")
    ensures lines[11] == OptionalLine(CardioPrefix, p.cardioDetails)
    ensures lines[12] == OptionalLine(MedicalPrefix, p.medicalConditions)
  {
    [ "- BMR: " + Dec(p.bmr) + " calories",
      "- TDEE: " + Dec(p.tdee) + " calories",
      "- Target daily calories: " + Dec(p.targetCalories) + " calories",
      "- Macronutrient targets:",
      "  - Protein: " + Dec(p.protein) + "g",
      "  - Carbs: " + Dec(p.carbs) + "g",
      "  - Fats: " + Dec(p.fats) + "g",
      "- Diet duration: " + Dec(p.duration) + " days",
      "- Meal preferences: " + p.mealPreferences,
      "- Workout frequency: " + Dec(p.workoutFrequency) + " times per week",
      "- Workout schedule: " + Join(p.workoutSchedule, ", "),
      OptionalLine(CardioPrefix, p.cardioDetails),
      OptionalLine(MedicalPrefix, p.medicalConditions) ]
  }

  /** Whether some line of the block starts with prefix. */
  predicate HasLine(lines: seq<string>, prefix: string) {
    exists i :: 0 <= i < |lines| && StartsWith(lines[i], prefix)
  }

  /** Only the optional lines can start with the optional prefixes: each fixed line differs
    * from both within its first five characters. */
  lemma FixedLinesDiffer(p: MealPlanParams, i: int)
    requires 0 <= i < 11
    ensures !StartsWith(ParameterLines(p)[i], CardioPrefix)
    ensures !StartsWith(ParameterLines(p)[i], MedicalPrefix)
  {
    if i < 4 {
      TargetLinesDiffer(p, i);
    } else if i < 8 {
      MacroLinesDiffer(p, i);
    } else {
      HabitLinesDiffer(p, i);
    }
  }

  lemma TargetLinesDiffer(p: MealPlanParams, i: int)
    requires 0 <= i < 4
    ensures !StartsWith(ParameterLines(p)[i], CardioPrefix) && !StartsWith(ParameterLines(p)[i], MedicalPrefix)
  {
    var lines := ParameterLines(p);
    if i == 0 {
      DiffersFromBoth(lines[i], 2);
    } else if i == 1 {
      DiffersFromBoth(lines[i], 2);
    } else if i == 2 {
      DiffersFromBoth(lines[i], 2);
    } else {
      DiffersFromBoth(lines[i], 4);
    }
  }

  lemma MacroLinesDiffer(p: MealPlanParams, i: int)
    requires 4 <= i < 8
    ensures !StartsWith(ParameterLines(p)[i], CardioPrefix) && !StartsWith(ParameterLines(p)[i], MedicalPrefix)
  {
    DiffersFromBoth(ParameterLines(p)[i], 2);
  }

  lemma HabitLinesDiffer(p: MealPlanParams, i: int)
    requires 8 <= i < 11
    ensures !StartsWith(ParameterLines(p)[i], CardioPrefix) && !StartsWith(ParameterLines(p)[i], MedicalPrefix)
  {
    var lines := ParameterLines(p);
    if i == 8 {
      DiffersFromBoth(lines[i], 4);
    } else if i == 9 {
      DiffersFromBoth(lines[i], 2);
    } else {
      DiffersFromBoth(lines[i], 2);
    }
  }

  /** A line that differs from both optional prefixes at position k starts with neither. */
  lemma DiffersFromBoth(line: string, k: nat)
    requires k < |line| && k < |CardioPrefix| && k < |MedicalPrefix|
    requires line[k] != CardioPrefix[k] && line[k] != MedicalPrefix[k]
    ensures !StartsWith(line, CardioPrefix) && !StartsWith(line, MedicalPrefix)
  {
    if |CardioPrefix| <= |line| {
      assert line[..|CardioPrefix|][k] == line[k];
    }
    if |MedicalPrefix| <= |line| {
      assert line[..|MedicalPrefix|][k] == line[k];
    }
  }

  /** The cardio line is present exactly when cardio details are given and not empty. */
  lemma CardioLineIff(p: MealPlanParams)
    ensures HasLine(ParameterLines(p), CardioPrefix) <==> NonEmpty(p.cardioDetails)
  {
    var lines := ParameterLines(p);
    if NonEmpty(p.cardioDetails) {
      assert (CardioPrefix + p.cardioDetails.value)[..|CardioPrefix|] == CardioPrefix;
      assert StartsWith(lines[11], CardioPrefix);
    } else {
      forall i | 0 <= i < |lines| ensures !StartsWith(lines[i], CardioPrefix) {
        if i < 11 {
          FixedLinesDiffer(p, i);
        } else if i == 12 && NonEmpty(p.medicalConditions) {
          assert lines[12][2] != CardioPrefix[2];
        }
      }
    }
  }

  /** The medical line is present exactly when medical conditions are given and not empty. */
  lemma MedicalLineIff(p: MealPlanParams)
    ensures HasLine(ParameterLines(p), MedicalPrefix) <==> NonEmpty(p.medicalConditions)
  {
    var lines := ParameterLines(p);
    if NonEmpty(p.medicalConditions) {
      assert (MedicalPrefix + p.medicalConditions.value)[..|MedicalPrefix|] == MedicalPrefix;
      assert StartsWith(lines[12], MedicalPrefix);
    } else {
      forall i | 0 <= i < |lines| ensures !StartsWith(lines[i], MedicalPrefix) {
        if i < 11 {
          FixedLinesDiffer(p, i);
        } else if i == 11 && NonEmpty(p.cardioDetails) {
          assert lines[11][2] != MedicalPrefix[2];
        }
      }
    }
  }

  /** Extending the schedule by a day extends its line by ", " and that day. */
  lemma {:induction false} ScheduleAppend(days: seq<string>, day: string)
    requires days != []
    ensures Join(days + [day], ", ") == Join(days, ", ") + ", " + day
  {
    assert (days + [day])[..|days + [day]| - 1] == days;
  }
}
