/**
 * The per-route onboarding wizard (`/onboarding/basic-information` through
 * `/onboarding/health-info`). Each page keeps the answers collected so far under
 * one key of the browser's local storage, then navigates to the next page; the
 * last page posts the collected record to the server twice (complete
 * onboarding, then generate a diet plan) and clears the storage only when both
 * requests succeed.
 *
 * `OnboardingClient` is the browser tab: local storage (values are the stored
 * JSON records), the current location, and the state of the mounted page.
 * Whether `setItem` throws and how each request settles are parameters.
 */
module OnboardingFlow {
  import opened Wrappers
  import opened JsValues
  import WorkoutDetailsForm

  datatype Page = BasicInformation | BodyComposition | WorkoutDetails | DietaryPreferences | HealthInfo

  function Path(p: Page): string {
    match p
    case BasicInformation => "/onboarding/basic-information"
    case BodyComposition => "/onboarding/body-composition"
    case WorkoutDetails => "/onboarding/workout-details"
    case DietaryPreferences => "/onboarding/dietary-preferences"
    case HealthInfo => "/onboarding/health-info"
  }

  const StorageKey: string := "onboardingData"
  const DashboardPath: string := "/dashboard"
  const CompletePath: string := "/api/onboarding/complete"
  const GeneratePath: string := "/api/diet-plan/generate"
  const CompleteFailed: string := "Failed to complete onboarding"
  const GenerateFailed: string := "Failed to generate diet plan"
  const UnexpectedFailure: string := "An unexpected error occurred"

  /** Where a successful submit navigates. */
  function Forward(p: Page): (path: string)
    ensures p != HealthInfo ==> path == Path(Next(p))
  {
    match p
    case BasicInformation => Path(BodyComposition)
    case BodyComposition => Path(WorkoutDetails)
    case WorkoutDetails => Path(DietaryPreferences)
    case DietaryPreferences => Path(HealthInfo)
    case HealthInfo => DashboardPath
  }

  /** The page after p in the wizard's order. */
  function Next(p: Page): Page
    requires p != HealthInfo
  {
    match p
    case BasicInformation => BodyComposition
    case BodyComposition => WorkoutDetails
    case WorkoutDetails => DietaryPreferences
    case DietaryPreferences => HealthInfo
  }

  /** The target of a page's Back button; the first page has none. */
  function Back(p: Page): Option<Page> {
    match p
    case BasicInformation => None
    case BodyComposition => Some(BasicInformation)
    case WorkoutDetails => Some(BodyComposition)
    case DietaryPreferences => Some(WorkoutDetails)
    case HealthInfo => Some(WorkoutDetails)
  }

  /** Back undoes Forward for the middle pages, but not for dietary preferences:
    * from health info Back skips to workout details. */
  lemma BackAsymmetry()
    ensures Back(Next(BasicInformation)) == Some(BasicInformation)
    ensures Back(Next(BodyComposition)) == Some(BodyComposition)
    ensures Back(Next(WorkoutDetails)) == Some(WorkoutDetails)
    ensures Back(Next(DietaryPreferences)) != Some(DietaryPreferences)
  {
  }

  /** No two pages share a path, so the location identifies the page. */
  lemma PathInjective(p: Page, q: Page)
    requires Path(p) == Path(q)
    ensures p == q
  {
    assert Path(p)[13] == Path(q)[13];
  }

  /** `{ ...previousData, ...data }` as it is written to storage: submitted properties
    * override, properties submitted as `undefined` disappear, the others are kept. */
  function Merge(previous: Record, data: PartialRecord): (r: Record)
    ensures forall k :: k in data && data[k].Some? ==> k in r && r[k] == data[k].value
    ensures forall k :: k in data && data[k].None? ==> k !in r
    ensures forall k :: k !in data ==> (k in r <==> k in previous)
    ensures forall k :: k !in data && k in previous ==> r[k] == previous[k]
  {
    Serialized(Lift(previous) + data)
  }

  /** Merging a submission without `undefined` properties is a plain right-biased union. */
  lemma MergeDefined(previous: Record, data: Record)
    ensures Merge(previous, Lift(data)) == previous + data
  {
    var r := Merge(previous, Lift(data));
    assert r.Keys == (previous + data).Keys;
  }

  /** The workout-details page stores the form's payload merged into the stored record:
    * clearing the cardio duration deletes a stored duration, every other answer is
    * replaced, and keys outside the form are kept. */
  lemma WorkoutPayloadMerge(previous: Record, form: WorkoutDetailsForm.WorkoutForm, number: string -> Value)
    ensures var r := Merge(previous, WorkoutDetailsForm.SubmitPayload(form, number));
      && (form.cardioDuration == "" ==> "cardio_duration" !in r)
      && (form.cardioDuration != "" ==> r["cardio_duration"] == number(form.cardioDuration))
      && r["workout_frequency"] == number(form.frequency)
      && forall k :: k !in WorkoutDetailsForm.PayloadKeys ==> (k in r <==> k in previous)
  {
    var data := WorkoutDetailsForm.SubmitPayload(form, number);
    assert "cardio_duration" in data && "workout_frequency" in data;
  }

  /** How a `fetch` settled: a response with its `ok` flag, or a rejection. */
  datatype RequestOutcome = Responded(ok: bool) | Rejected(thrown: Thrown)

  datatype Post = Post(path: string, body: Record)

  class OnboardingClient {
    /** Local storage: key to stored JSON record. */
    var storage: map<string, Record>
    var location: string
    /** The mounted page and its state. */
    var page: Page
    var isLoading: bool
    var previousData: Record
    var error: Option<string>
    /** The requests sent so far, oldest first. */
    var posts: seq<Post>

    constructor(stored: map<string, Record>)
      ensures storage == stored && posts == []
      ensures page == BasicInformation && location == Path(BasicInformation)
      ensures !isLoading && previousData == map[] && error == None
    {
      storage := stored;
      page := BasicInformation;
      location := Path(BasicInformation);
      isLoading := false;
      previousData := map[];
      error := None;
      posts := [];
    }

    /** Mounting a page: fresh page state, and the stored record (or `{}`) as previous data.
      * The health-info page starts from `undefined`, which spreads like `{}`. */
    method Mount(p: Page)
      modifies this`page, this`location, this`isLoading, this`previousData, this`error
      ensures page == p && location == Path(p) && !isLoading && error == None
      ensures StorageKey in storage ==> previousData == storage[StorageKey]
      ensures StorageKey !in storage ==> previousData == map[]
    {
      page := p;
      location := Path(p);
      isLoading := false;
      error := None;
      previousData := map[];
      if StorageKey in storage {
        previousData := storage[StorageKey];
      }
    }

    /** Basic information: store exactly the submitted record (no merge), then go on. */
    method SubmitBasicInformation(data: PartialRecord, storeThrows: bool)
      requires page == BasicInformation
      modifies this`storage, this`location, this`isLoading
      ensures !storeThrows ==>
        storage == old(storage)[StorageKey := Serialized(data)] && location == Path(BodyComposition) && isLoading
      ensures storeThrows ==> storage == old(storage) && location == old(location) && !isLoading
    {
      isLoading := true;
      if storeThrows {
        isLoading := false;
      } else {
        storage := storage[StorageKey := Serialized(data)];
        location := Forward(page);
      }
    }

    /** Body composition, workout details and dietary preferences: store the previous data
      * merged with the submission, then go on. */
    method SubmitMerged(data: PartialRecord, storeThrows: bool)
      requires page == BodyComposition || page == WorkoutDetails || page == DietaryPreferences
      modifies this`storage, this`location, this`isLoading
      ensures !storeThrows ==>
        storage == old(storage)[StorageKey := Merge(previousData, data)] && location == Path(Next(page)) && isLoading
      ensures storeThrows ==> storage == old(storage) && location == old(location) && !isLoading
    {
      isLoading := true;
      if storeThrows {
        isLoading := false;
      } else {
        var merged := Merge(previousData, data);
        storage := storage[StorageKey := merged];
        location := Forward(page);
      }
    }

    /** A Back button: navigation only, storage untouched. */
    method GoBack()
      requires page != BasicInformation
      modifies this`location
      ensures location == Path(Back(page).value)
    {
      location := Path(Back(page).value);
    }

    /**
     * Health info: store the merged record, post it to complete onboarding, and only
     * if that succeeds post it to generate the diet plan; clear storage and go to the
     * dashboard only if both succeed. `store` is what `setItem` throws, if anything.
     */
    method SubmitHealthInfo(data: PartialRecord, store: Option<Thrown>, complete: RequestOutcome, generate: RequestOutcome)
      requires page == HealthInfo
      modifies this`storage, this`location, this`isLoading, this`error, this`posts
      ensures var merged := Merge(previousData, data);
        && (store.Some? ==>
              storage == old(storage) && posts == old(posts) && location == old(location)
              && !isLoading && error == Some(MessageOr(store.value, UnexpectedFailure)))
        && (store.None? && complete != Responded(true) ==>
              storage == old(storage)[StorageKey := merged]
              && posts == old(posts) + [Post(CompletePath, merged)]
              && location == old(location) && !isLoading
              && error == Some(if complete.Rejected? then MessageOr(complete.thrown, UnexpectedFailure) else CompleteFailed))
        && (store.None? && complete == Responded(true) && generate != Responded(true) ==>
              storage == old(storage)[StorageKey := merged]
              && posts == old(posts) + [Post(CompletePath, merged)] + [Post(GeneratePath, merged)]
              && location == old(location) && !isLoading
              && error == Some(if generate.Rejected? then MessageOr(generate.thrown, UnexpectedFailure) else GenerateFailed))
        && (store.None? && complete == Responded(true) && generate == Responded(true) ==>
              storage == old(storage) - {StorageKey}
              && posts == old(posts) + [Post(CompletePath, merged)] + [Post(GeneratePath, merged)]
              && location == DashboardPath && isLoading && error == None)
    {
      isLoading := true;
      error := None;
      var caught: Option<Thrown> := None;
      var merged := Merge(previousData, data);
      if store.Some? {
        caught := store;
      } else {
        storage := storage[StorageKey := merged];
        posts := posts + [Post(CompletePath, merged)];
        if complete.Rejected? {
          caught := Some(complete.thrown);
        } else if !complete.ok {
          caught := Some(ErrorObject(PlainError, CompleteFailed));
          assert MessageOr(caught.value, UnexpectedFailure) == CompleteFailed;
        } else {
          posts := posts + [Post(GeneratePath, merged)];
          if generate.Rejected? {
            caught := Some(generate.thrown);
          } else if !generate.ok {
            caught := Some(ErrorObject(PlainError, GenerateFailed));
            assert MessageOr(caught.value, UnexpectedFailure) == GenerateFailed;
          } else {
            storage := storage - {StorageKey};
            location := DashboardPath;
          }
        }
      }
      if caught.Some? {
        error := Some(MessageOr(caught.value, UnexpectedFailure));
        isLoading := false;
      }
    }
  }
}
