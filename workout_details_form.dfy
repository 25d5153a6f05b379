/**
 * The workout-details onboarding form: the set of training days is edited by
 * toggling one day at a time, and submitting converts the text fields into the
 * payload handed to the page.
 */
module WorkoutDetailsForm {
  import opened Wrappers
  import opened JsValues

  /** The form's state; numeric fields hold the text typed into them. */
  datatype WorkoutForm = WorkoutForm(
    frequency: string,
    schedule: seq<string>,
    cardioType: string,
    cardioDuration: string,
    cardioIntensity: string)

  predicate Distinct(s: seq<string>) {
    forall i, j :: 0 <= i < j < |s| ==> s[i] != s[j]
  }

  /** `s.filter(d => d !== day)` */
  function Without(s: seq<string>, day: string): (r: seq<string>)
    ensures day !in r
    ensures forall x :: x in r <==> x in s && x != day
    ensures |r| <= |s|
  {
    if s == [] then []
    else if s[0] == day then Without(s[1..], day)
    else [s[0]] + Without(s[1..], day)
  }

  /** `toggleDay`: remove every occurrence of a scheduled day, or append an unscheduled one. */
  function ToggleDay(schedule: seq<string>, day: string): (r: seq<string>)
    ensures day in r <==> day !in schedule
    ensures forall x :: x != day ==> (x in r <==> x in schedule)
    ensures day !in schedule ==> r == schedule + [day]
  {
    if day in schedule then Without(schedule, day) else schedule + [day]
  }

  /** Filtering distributes over concatenation, so the kept days stay in their relative order. */
  lemma {:induction false} WithoutAppend(a: seq<string>, b: seq<string>, day: string)
    ensures Without(a + b, day) == Without(a, day) + Without(b, day)
    decreases |a|
  {
    if a != [] {
      assert (a + b)[1..] == a[1..] + b;
      WithoutAppend(a[1..], b, day);
    } else {
      assert a + b == b;
    }
  }

  /** Filtering out a day that does not occur changes nothing. */
  lemma {:induction false} WithoutAbsent(s: seq<string>, day: string)
    requires day !in s
    ensures Without(s, day) == s
    decreases |s|
  {
    if s != [] {
      WithoutAbsent(s[1..], day);
      assert s == [s[0]] + s[1..];
    }
  }

  /** Every other day keeps its number of occurrences; the removed day has none left. */
  lemma {:induction false} WithoutCounts(s: seq<string>, day: string)
    ensures forall x :: x != day ==> multiset(Without(s, day))[x] == multiset(s)[x]
    ensures multiset(Without(s, day))[day] == 0
    decreases |s|
  {
    if s != [] {
      WithoutCounts(s[1..], day);
      assert s == [s[0]] + s[1..];
    }
  }

  lemma {:induction false} WithoutDistinct(s: seq<string>, day: string)
    requires Distinct(s)
    ensures Distinct(Without(s, day))
    decreases |s|
  {
    if s != [] {
      WithoutDistinct(s[1..], day);
      if s[0] != day {
        assert s[0] !in s[1..];
        assert s[0] !in Without(s[1..], day);
      }
    }
  }

  /** A duplicate-free schedule stays duplicate-free under any toggle. */
  lemma ToggleKeepsDistinct(schedule: seq<string>, day: string)
    requires Distinct(schedule)
    ensures Distinct(ToggleDay(schedule, day))
  {
    if day in schedule {
      WithoutDistinct(schedule, day);
    }
  }

  /** Toggling a scheduled day removes it and keeps the other days in order and multiplicity. */
  lemma ToggleRemoves(schedule: seq<string>, day: string, i: nat)
    requires i < |schedule| && schedule[i] == day
    ensures ToggleDay(schedule, day) == Without(schedule[..i], day) + Without(schedule[i + 1..], day)
    ensures forall x :: x != day ==> multiset(ToggleDay(schedule, day))[x] == multiset(schedule)[x]
  {
    assert schedule == schedule[..i] + ([day] + schedule[i + 1..]);
    WithoutAppend(schedule[..i], [day] + schedule[i + 1..], day);
    assert ([day] + schedule[i + 1..])[1..] == schedule[i + 1..];
    WithoutCounts(schedule, day);
  }

  /** Toggling an unscheduled day twice restores the schedule. */
  lemma ToggleTwice(schedule: seq<string>, day: string)
    requires day !in schedule
    ensures ToggleDay(ToggleDay(schedule, day), day) == schedule
  {
    WithoutAppend(schedule, [day], day);
    WithoutAbsent(schedule, day);
  }

  const PayloadKeys: set<string> :=
    {"workout_frequency", "workout_schedule", "cardio_type", "cardio_duration", "cardio_intensity"}

  /** The payload `handleSubmit` passes on; `number` is JavaScript's `Number(text)` as it
    * reaches the server (a NaN is serialised as `null`). An empty duration is passed on
    * as a property holding `undefined`. */
  function SubmitPayload(form: WorkoutForm, number: string -> Value): (r: PartialRecord)
    ensures r.Keys == PayloadKeys
    ensures r["workout_frequency"] == Some(number(form.frequency))
    ensures r["workout_schedule"] == Some(JArr(seq(|form.schedule|, i requires 0 <= i < |form.schedule| => JStr(form.schedule[i]))))
    ensures r["cardio_type"] == Some(JStr(form.cardioType)) && r["cardio_intensity"] == Some(JStr(form.cardioIntensity))
    ensures form.cardioDuration != "" ==> r["cardio_duration"] == Some(number(form.cardioDuration))
    ensures form.cardioDuration == "" ==> r["cardio_duration"] == None
  {
    map[
      "workout_frequency" := Some(number(form.frequency)),
      "workout_schedule" := Some(JArr(seq(|form.schedule|, i requires 0 <= i < |form.schedule| => JStr(form.schedule[i])))),
      "cardio_type" := Some(JStr(form.cardioType)),
      "cardio_duration" := if form.cardioDuration != "" then Some(number(form.cardioDuration)) else None,
      "cardio_intensity" := Some(JStr(form.cardioIntensity))]
  }
}
