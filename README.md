# cal-ai core, modelled in Dafny

cal-ai is a Next.js diet-planning application. Users register or sign in with
OAuth, go through a five-step onboarding wizard, get a diet plan and a meal plan
from a language model, and log their meals against daily nutrition totals. This
project models the sequential logic of that application and proves properties
about it. That logic is:

- **Nutrition bookkeeping** (`MealLogs`, `LogMealsPage`, `WorkoutDetailsForm`):
  - the daily-totals fold and its day window;
  - the meal-insert row;
  - the ingredient-list editor of the meal-logging page and its submit handler;
  - the workout-day toggle.
- **Onboarding** (`OnboardingStepper`, `OnboardingFlow`):
  - the in-page step counter;
  - the per-route wizard over browser local storage. Its pages replace or merge
    the stored record and navigate. The last page posts the record twice and
    clears storage only when both requests succeed.
- **Route handlers** (`OnboardingCompleteRoute`, `MealsLogRoute`, `MealsLogsRoute`,
  `RegisterRoute`, `DietPlanRoute`): request validation with zod schemas
  (`Schema` models the part of zod they use), then the mapping from session,
  validation result and datastore outcome to an HTTP status and message.
- **Redirect decisions** (`Middleware`, `AuthCallback`).
- **Language-model text handling** (`MealPlanPrompt`, `MealPlanSchema`, `JsonSpan`,
  `ErrorHandling`, `OpenAiClient`, `DeepseekClient`):
  - the prompt's parameter block;
  - the `{`...`}` extraction;
  - reply validation;
  - error classification.
- **Small state machines** (`SessionConfig`, `LoadingScreen`): the session-timeout
  clamp and the loading-dots cycle.

Shared modules:

- `Wrappers`: Option and Result.
- `JsValues`: JSON values and the pieces of JavaScript semantics the code relies on.
  These are truthiness, property reads on `null`, `String(v)`, `join` and
  serialisation dropping `undefined`.
- `JsNumbers`: `parseInt` and decimal rendering.
- `Http`: sessions, datastore errors, PostgREST's `.single()` and JSON responses.

Everything outside the process becomes a function parameter (an oracle):

- the hosted database (Supabase);
- the auth session;
- the OpenAI SDK and the Deepseek `fetch`;
- `JSON.parse`;
- `new Date(text)`;
- zod's e-mail test.

Each such parameter returns a value or what the call reported or threw. Component
state that the source updates in place becomes a class whose methods update it:
`MealLogPage`, `Stepper`, `OnboardingClient`, `LoadingDots` and `JsDate`.

## Model

| member | source | states |
|---|---|---|
| Http.Single | src/app/auth/callback/route.ts:47-51 | `.single()` succeeds exactly when the query returns one row, and yields that row; zero or several rows give the PGRST116 error; a query error passes through |
| MealLogs.MealInsertRow | src/lib/supabase/meal-logs.ts:10-18 | the inserted object holds `user_id` set to the given user plus exactly those of the six meal columns the data has, each copied unchanged, and no other key |
| MealLogs.MealInsertRowOmitsGenerated | src/lib/supabase/meal-logs.ts:7-18 | the insert never supplies `id` or `logged_at`, which the datastore generates; a meal carrying them cannot set them |
| MealLogs.LogMeal | src/lib/supabase/meal-logs.ts:7-28 | a successful insert returns the stored row; an insert error becomes an `Error` whose message is "Failed to log meal: " followed by the datastore's message |
| MealLogs.GetMealLogs | src/lib/supabase/meal-logs.ts:33-48 | succeeds exactly when the range query does and returns its rows unchanged; otherwise the error reads "Failed to fetch meal logs: " plus the datastore's message |
| MealLogs.DeleteMealLog | src/lib/supabase/meal-logs.ts:88-100 | returns `true` exactly when the delete reports no error; otherwise throws "Failed to delete meal log: " plus the message |
| MealLogs.JsDate.SetHours | src/lib/supabase/meal-logs.ts:54-58 | `setHours` keeps the date's day and sets the time of day to the given hours, minutes, seconds and milliseconds |
| MealLogs.DayWindow | src/lib/supabase/meal-logs.ts:54-58 | both bounds lie on the same day as the date, at 00:00:00.000 and 23:59:59.999; the date lies between them and start < end |
| MealLogs.WindowIsDayBounds | src/lib/supabase/meal-logs.ts:54-58 | such bounds are exactly the start and the end of the date's day |
| MealLogs.TotalsOfNoRows | src/lib/supabase/meal-logs.ts:73-80 | over zero rows all four totals are 0 |
| MealLogs.TotalsAreColumnSums | src/lib/supabase/meal-logs.ts:73-80 | each total of the left fold equals the independent column sum over the rows, a null cell counting 0 |
| MealLogs.TotalsAppend | src/lib/supabase/meal-logs.ts:73-80 | the totals of two concatenated row lists are the field-wise sum of their totals |
| MealLogs.TotalsIgnoreOrder | src/lib/supabase/meal-logs.ts:73-80 | two row lists that are permutations of each other have the same totals |
| MealLogs.ColumnsIndependent | src/lib/supabase/meal-logs.ts:74-79 | a column's total depends only on that column: lists that agree on it agree on its total, whatever the other columns hold |
| MealLogs.GetDailyNutrition | src/lib/supabase/meal-logs.ts:53-83 | queries the user's rows between the start and end of the date's day and returns their totals; a query error becomes "Failed to fetch daily nutrition: " plus the message |
| LogMealsPage.CoerceNumber | src/app/dashboard/log-meals/page.tsx:246-248 | `parseInt(text) \|\| 0`: decimal text `parseInt` reads as n stores n, and text it cannot read (NaN) stores 0 |
| LogMealsPage.CoerceDecimal | src/app/dashboard/log-meals/page.tsx:246-248 | typing the decimal form of any integer n, even when non-digits follow it, stores n |
| LogMealsPage.CoerceNonNumeric | src/app/dashboard/log-meals/page.tsx:246-248 | text with no digit after the blanks and an optional sign stores 0 |
| LogMealsPage.NotOkError | src/app/dashboard/log-meals/page.tsx:78-80 | a failed response's error carries the body's truthy `message`, or else "Failed to log meal"; a `null` body throws a TypeError instead |
| LogMealsPage.MealLogPage.constructor | src/app/dashboard/log-meals/page.tsx:8-23 | the page starts with the initial form (one empty ingredient, zero macros, breakfast), not loading, with no messages |
| LogMealsPage.InitialFormShape | src/app/dashboard/log-meals/page.tsx:12-23 | the initial form has exactly one empty ingredient, zero calories and macros, and meal type "breakfast" |
| LogMealsPage.MealLogPage.HandleIngredientChange | src/app/dashboard/log-meals/page.tsx:25-35 | entry i becomes the new value; the length, every other entry and every other form field stay the same; the list stays non-empty |
| LogMealsPage.MealLogPage.AddIngredient | src/app/dashboard/log-meals/page.tsx:37-45 | appends one empty ingredient after the existing ones, in order, and changes no other field |
| LogMealsPage.MealLogPage.RemoveIngredient | src/app/dashboard/log-meals/page.tsx:47-59 | on a list longer than one, removes exactly entry i and shifts the later ones down; on a one-entry list, or past the end, nothing changes; the list is never empty |
| LogMealsPage.MealLogPage.BeginSubmit | src/app/dashboard/log-meals/page.tsx:63-65 | submitting sets loading and clears both messages |
| LogMealsPage.MealLogPage.CompleteSubmit | src/app/dashboard/log-meals/page.tsx:76-107 | an OK reply resets the form to the initial state, sets the success message and schedules `/dashboard`; a failure keeps the form and sets the error message; loading always ends |
| LogMealsPage.MealLogPage.HandleSubmit | src/app/dashboard/log-meals/page.tsx:61-108 | the form as it was is posted; then each outcome ends as `CompleteSubmit` states, with stale messages cleared |
| LogMealsPage.MealLogPage.HandleCaloriesChange | src/app/dashboard/log-meals/page.tsx:244-250 | editing calories stores the coerced number and changes no other field |
| LogMealsPage.MealLogPage.HandleProteinChange | src/app/dashboard/log-meals/page.tsx:263-269 | editing protein stores the coerced number and changes no other field |
| LogMealsPage.MealLogPage.HandleCarbsChange | src/app/dashboard/log-meals/page.tsx:282-288 | editing carbs stores the coerced number and changes no other field |
| LogMealsPage.MealLogPage.HandleFatsChange | src/app/dashboard/log-meals/page.tsx:301-307 | editing fats stores the coerced number and changes no other field |
| WorkoutDetailsForm.Without | src/components/forms/WorkoutDetailsForm.tsx:56 | the filtered schedule holds exactly the other days, and the removed day no longer |
| WorkoutDetailsForm.ToggleDay | src/components/forms/WorkoutDetailsForm.tsx:52-59 | toggling flips whether the day is scheduled, keeps every other day's membership, and appends an unscheduled day at the end |
| WorkoutDetailsForm.WithoutAppend | src/components/forms/WorkoutDetailsForm.tsx:56 | filtering distributes over concatenation, so the remaining days keep their relative order |
| WorkoutDetailsForm.WithoutAbsent | src/components/forms/WorkoutDetailsForm.tsx:56 | filtering out a day that does not occur leaves the schedule unchanged |
| WorkoutDetailsForm.WithoutCounts | src/components/forms/WorkoutDetailsForm.tsx:56 | removal deletes every occurrence of the day and keeps every other day's number of occurrences |
| WorkoutDetailsForm.WithoutDistinct | src/components/forms/WorkoutDetailsForm.tsx:56 | filtering a duplicate-free schedule leaves it duplicate-free |
| WorkoutDetailsForm.ToggleKeepsDistinct | src/components/forms/WorkoutDetailsForm.tsx:55-57 | a duplicate-free schedule stays duplicate-free under any toggle |
| WorkoutDetailsForm.ToggleRemoves | src/components/forms/WorkoutDetailsForm.tsx:55-57 | toggling a scheduled day yields the days before and after it, filtered and in order |
| WorkoutDetailsForm.ToggleTwice | src/components/forms/WorkoutDetailsForm.tsx:55-57 | toggling an unscheduled day twice restores the original schedule |
| WorkoutDetailsForm.SubmitPayload | src/components/forms/WorkoutDetailsForm.tsx:41-50 | frequency and cardio duration go through `Number`, the schedule and the cardio texts are copied; the payload always has the five keys, and `cardio_duration` holds `undefined` exactly when its field is empty |
| OnboardingFlow.WorkoutPayloadMerge | src/app/onboarding/workout-details/page.tsx:24-27 | merging the workout payload into the stored answers drops a stored `cardio_duration` when the field is empty (JSON omits `undefined`), stores `Number` of it otherwise, and leaves every key outside the payload as it was |
| OnboardingStepper.RenderStep | src/app/onboarding/page.tsx:46-61 | a form is shown exactly for steps 0 to 4; anything else renders nothing |
| OnboardingStepper.RenderFollowsSteps | src/app/onboarding/page.tsx:46-61 | step i shows the i-th entry of the step list |
| OnboardingStepper.RenderInjective | src/app/onboarding/page.tsx:46-61 | different steps show different forms |
| OnboardingStepper.Stepper.constructor | src/app/onboarding/page.tsx:20-21 | the wizard starts at step 0 with no data |
| OnboardingStepper.Stepper.HandleNext | src/app/onboarding/page.tsx:23-27 | moves up exactly one step below the last step and does nothing on it; the step stays in 0..4 |
| OnboardingStepper.Stepper.HandleBack | src/app/onboarding/page.tsx:29-33 | moves down exactly one step above 0 and does nothing at 0; the step stays in 0..4 |
| OnboardingStepper.Stepper.HandleSubmit | src/app/onboarding/page.tsx:35-44 | submitted keys override, earlier keys not submitted are kept; the step advances unless it is the last, where it stays |
| OnboardingStepper.Stepper.NextThenBack | src/app/onboarding/page.tsx:23-33 | Next followed by Back returns to the same step below the last one |
| OnboardingFlow.BackAsymmetry | src/app/onboarding/health-info/page.tsx:107 | Back undoes Forward for the middle pages but not for dietary preferences: health info goes back to workout details |
| OnboardingFlow.Merge | src/app/onboarding/body-composition/page.tsx:26-27 | submitted values override; keys submitted as `undefined` disappear from the stored JSON; keys not submitted keep their previous values |
| OnboardingFlow.MergeDefined | src/app/onboarding/body-composition/page.tsx:26-27 | for a submission without `undefined` values the merge is the right-biased union of the two records |
| OnboardingFlow.OnboardingClient.constructor | src/app/onboarding/basic-information/page.tsx:8-11 | the tab opens on basic information with the given storage, nothing loading and no previous data |
| OnboardingFlow.OnboardingClient.Mount | src/app/onboarding/basic-information/page.tsx:13-19 | previous data is the stored record when the key exists and `{}` otherwise |
| OnboardingFlow.OnboardingClient.SubmitBasicInformation | src/app/onboarding/basic-information/page.tsx:21-35 | stores exactly the submission, without merging, and goes to body composition; if storing throws, storage and location are unchanged and loading ends |
| OnboardingFlow.OnboardingClient.SubmitMerged | src/app/onboarding/body-composition/page.tsx:21-35 | stores the previous data merged with the submission and goes to the next page; if storing throws, nothing is stored or navigated and loading ends |
| OnboardingFlow.OnboardingClient.GoBack | src/app/onboarding/body-composition/page.tsx:37-39 | Back only navigates, to the page's back target, and leaves storage alone |
| OnboardingFlow.OnboardingClient.SubmitHealthInfo | src/app/onboarding/health-info/page.tsx:24-69 | the merged record is stored before any request, then posted to complete onboarding and only after that succeeds to diet-plan generation; storage is cleared and `/dashboard` reached only when both succeed; any failure keeps the stored record, sets the error and ends loading |
| OnboardingCompleteRoute.AcceptedIff | src/app/api/onboarding/complete/route.ts:8-36 | the schema accepts a body exactly when name is at least 2 UTF-16 code units long, age ≥ 1, height, weights and duration > 0, body fats in [0,100], frequency in [1,7], the schedule is a string list, meal preference is one of the two values and the optional keys have their types |
| OnboardingCompleteRoute.BasicFieldConditions | src/app/api/onboarding/complete/route.ts:9-16 | each of the first eight keys is accepted exactly under its own bound; the name's bound counts UTF-16 code units |
| OnboardingCompleteRoute.Validate | src/app/api/onboarding/complete/route.ts:53-56 | succeeds exactly on valid bodies, whose result holds none of `id`, `email`, `workout_details`; failures list at least one issue |
| OnboardingCompleteRoute.WorkoutDetails | src/app/api/onboarding/complete/route.ts:59-65 | `workout_details` holds exactly the workout answers present, copied unchanged |
| OnboardingCompleteRoute.UserData | src/app/api/onboarding/complete/route.ts:68-75 | the rest holds every validated answer except the five workout ones |
| OnboardingCompleteRoute.SplitIsPartition | src/app/api/onboarding/complete/route.ts:59-75 | every validated answer lands in exactly one of the two parts, and together they give the validated data back |
| OnboardingCompleteRoute.RowFromSession | src/app/api/onboarding/complete/route.ts:78-87 | the row's id and email come from the session; the workout answers sit only under `workout_details`; every other answer is copied |
| OnboardingCompleteRoute.ValidatedHasNoReservedKeys | src/app/api/onboarding/complete/route.ts:8-36 | what the schema lets through never holds `id`, `email` or `workout_details`, so the body cannot override the session's identity |
| OnboardingCompleteRoute.Handle | src/app/api/onboarding/complete/route.ts:38-127 | no session gives 401 before the body is read; an invalid body gives 400 with its issues; 200 exactly when the insert of the session-keyed row returns one row, and with that row; an insert error gives 500 "Failed to save onboarding data" |
| OnboardingCompleteRoute.SavedRowShape | src/app/api/onboarding/complete/route.ts:78-87 | the row a valid request inserts is keyed by the session user, carries the e-mail exactly when the session has one, and nests the workout answers |
| MealsLogRoute.AcceptedIff | src/app/api/meals/log/route.ts:8-19 | the schema accepts a body exactly when the four macros are numbers ≥ 0, the meal type is one of the four values, and `meal_details` has a string name, a string-list of ingredients and a string portion size |
| MealsLogRoute.Validate | src/app/api/meals/log/route.ts:37 | succeeds exactly on valid bodies; failures list at least one issue |
| MealsLogRoute.Handle | src/app/api/meals/log/route.ts:21-70 | no session gives 401 before the body is parsed; an invalid body gives 400 "Invalid meal data"; 200 exactly when the insert succeeds, carrying the stored row; other failures give 500 "Failed to log meal" with the error's message |
| MealsLogRoute.LoggedUnderSessionUser | src/app/api/meals/log/route.ts:33-40 | an accepted meal is stored under the session user with all six validated columns, and never with a client-chosen `id` or `logged_at` |
| MealsLogRoute.ColumnsPresent | src/app/api/meals/log/route.ts:8-19 | every column the insert copies is present in an accepted meal |
| MealsLogsRoute.Bound | src/app/api/meals/logs/route.ts:49-61 | a range bound is the parameter's date when it is given and valid, and the default otherwise |
| MealsLogsRoute.InvalidBoundIgnored | src/app/api/meals/logs/route.ts:49-61 | an empty or unparseable bound counts as if it had not been sent |
| MealsLogsRoute.Handle | src/app/api/meals/logs/route.ts:5-81 | no session gives 401; a given `date` takes precedence: invalid gives 400, valid gives that day's totals; otherwise the logs of [now − 7 days, now], with valid bounds substituted and no start ≤ end check; helper failures give 500 "Failed to fetch meal logs" |
| RegisterRoute.AcceptedIff | src/app/api/auth/register/route.ts:8-26 | the schema accepts a body exactly when the e-mail passes zod's test, name is at least 2 UTF-16 code units long, age ≥ 1, the positive fields > 0, body fats in [0,100], workout frequency in [1,7] with a string-list schedule, meal preference one of the two, optional texts strings |
| JsValues.Utf16Length | src/app/api/auth/register/route.ts:10 | a string's JavaScript `length`, which zod's `.min(2)` compares, lies between its number of characters and twice that |
| JsValues.Utf16LengthOfBmp | src/app/api/auth/register/route.ts:10 | the JavaScript length equals the number of characters exactly when no character lies outside the Basic Multilingual Plane |
| RegisterRoute.PersonFieldConditions | src/app/api/auth/register/route.ts:9-17 | each of the nine personal keys is accepted exactly under its own bound; the name's bound counts UTF-16 code units |
| RegisterRoute.WorkoutConforms | src/app/api/auth/register/route.ts:18-22 | `workout_details` is accepted exactly when frequency is in [1,7], the schedule is a string list and cardio details, if present, a string |
| RegisterRoute.Validate | src/app/api/auth/register/route.ts:34 | succeeds exactly on valid bodies; failures list at least one issue |
| RegisterRoute.Handle | src/app/api/auth/register/route.ts:28-88 | needs no session; invalid gives 400 "Invalid input data"; the validated object is inserted unchanged; one saved row gives 200 with it; code 23505 gives 400 "Email already exists"; any other error gives 500 "Failed to register user" |
| RegisterRoute.BadRequestCauses | src/app/api/auth/register/route.ts:43-76 | a 400 comes only from the schema or from a unique violation |
| DietPlanRoute.Or | src/app/api/diet-plan/generate/route.ts:110-123 | `${v \|\| fallback}` renders a truthy value and the fallback for undefined, null, 0, false and "" |
| DietPlanRoute.Workout | src/app/api/diet-plan/generate/route.ts:92 | the workout object is the row's truthy `workout_details`, otherwise `{}` |
| DietPlanRoute.ScheduleText | src/app/api/diet-plan/generate/route.ts:111 | a missing schedule reads "Not specified", an array is joined with ", ", and a truthy non-array throws |
| DietPlanRoute.BuildPrompt | src/app/api/diet-plan/generate/route.ts:90-156 | building fails only for a null row or a non-array schedule; the subject is the gender or "person"; workout fields default to "Not specified"; allergies, restrictions, conditions and extra info default to "None" |
| DietPlanRoute.OnboardedWorkoutShown | src/app/api/diet-plan/generate/route.ts:110-111 | for a row saved by onboarding the prompt shows the real frequency and the ", "-joined days, never the defaults |
| DietPlanRoute.ContentText | src/app/api/diet-plan/generate/route.ts:176 | null or empty model content is read as "{}" |
| DietPlanRoute.Put | src/app/api/diet-plan/generate/route.ts:49-60 | an object-literal property holding `undefined` is dropped from the stored JSON; every other property is kept |
| DietPlanRoute.Macros | src/app/api/diet-plan/generate/route.ts:51-56 | `macros` takes calories from `daily_calories` and protein, carbs and fat from `macronutrients`, and nothing else |
| DietPlanRoute.PlanRow | src/app/api/diet-plan/generate/route.ts:47-60 | the row has the session user id, `is_active` true, the plan's macros, meal plan and shopping list; a missing or null `macronutrients` throws a TypeError |
| DietPlanRoute.GenerateAndSave | src/app/api/diet-plan/generate/route.ts:44-76 | a row is saved exactly when the model answers, its content parses and a row can be built; a failure before that gives 500 "An unexpected error occurred"; a save error gives 500 "Failed to save diet plan"; one saved row gives 200 with it |
| DietPlanRoute.PlanAndSave | src/app/api/diet-plan/generate/route.ts:44 | a row the prompt cannot be built from fails before the model is asked |
| DietPlanRoute.Handle | src/app/api/diet-plan/generate/route.ts:12-88 | no session gives 401; a user-fetch error gives 500 "Failed to fetch user data" and nothing is generated; a 200 always saved a row with the session user id and `is_active` true |
| DietPlanRoute.EmptyContentSavesNothing | src/app/api/diet-plan/generate/route.ts:176 | empty model content parses to `{}`, which has no macronutrients: the handler answers the generic 500 and saves nothing |
| Middleware.Decide | src/middleware.ts:5-38 | signed-out visitors are sent to sign in except on `/auth` paths; signed-in visitors of `/auth` paths go to the dashboard when the user row is found and to onboarding otherwise; everything else passes |
| Middleware.NoRedirectLoop | src/middleware.ts:16-35 | following any redirect with the same session leads to a pass-through |
| Middleware.PassThroughIff | src/middleware.ts:16-37 | a request passes exactly when having a session and being off `/auth` coincide |
| Middleware.Middleware | src/middleware.ts:40-50 | paths the matcher excludes are never intercepted; matched paths get the decision |
| Middleware.MatcherExclusions | src/middleware.ts:49 | any path made of `/`, then `_next/static`, `_next/image`, `favicon.ico` or `public`, then anything, passes whatever the session |
| Middleware.PublicIsAPrefix | src/middleware.ts:49 | the exclusions are prefixes, so `/publications` passes too |
| Middleware.DashboardGuarded | src/middleware.ts:16-18 | a signed-out visit to the dashboard is sent to sign in |
| AuthCallback.OAuthErrorTarget | src/app/auth/callback/route.ts:18-23 | the provider's error sends the visitor to sign in with the encoded description, or "Authentication failed" when there is none |
| AuthCallback.Callback | src/app/auth/callback/route.ts:5-83 | an error parameter wins; no code gives "No authentication code received"; an exchange or lookup error gives "Authentication failed. Please try again."; a null session falls through to the no-code target; a found user goes to the dashboard |
| AuthCallback.ErrorTakesPrecedence | src/app/auth/callback/route.ts:18-23 | with an error parameter the code and the backend do not matter |
| AuthCallback.TargetsAreKnown | src/app/auth/callback/route.ts:17-82 | every outcome is one of five targets |
| AuthCallback.OnboardingUnreachable | src/app/auth/callback/route.ts:47-67 | as written, the callback never redirects to `/onboarding` |
| AuthCallback.NewUserSentToSignIn | src/app/auth/callback/route.ts:47-56 | a first-time user with a valid code and no user row is sent back to sign in with the failure message |
| AuthCallback.MaybeSingle | src/app/auth/callback/route.ts:47-51 | the corrected lookup: zero rows mean no user, one row is that user, several rows and query errors are errors |
| AuthCallback.CallbackCorrected | src/app/auth/callback/route.ts:5-83 | with the corrected lookup, the error parameter still wins and a missing code still gives the no-code target |
| AuthCallback.CorrectedRoutesByOnboarding | src/app/auth/callback/route.ts:60-67 | corrected, a user without a row goes to onboarding and one with a row to the dashboard; it agrees with the handler as written unless the lookup is empty |
| ErrorHandling.HandleOpenAIError | src/lib/ai/error-handling.ts:6-17 | SDK errors get the "OpenAI API error: " prefix; they are tested before other `Error`s, which keep their message; anything else gets the fixed unknown-error text |
| ErrorHandling.SdkErrorsPrefixed | src/lib/ai/error-handling.ts:7-12 | an SDK error's message never passes unchanged and differs from a plain error with the same text |
| ErrorHandling.Rewrapped | src/lib/ai/openai.ts:191-193 | what the OpenAI client throws instead is always a plain `Error` |
| ErrorHandling.RewrapStable | src/lib/ai/error-handling.ts:10-12 | handling a rewrapped error again keeps its message, so the prefix is added at most once |
| JsonSpan.FirstIndex | src/lib/ai/openai.ts:172 | the index of the first occurrence, or none when the character does not occur |
| JsonSpan.LastIndex | src/lib/ai/openai.ts:172 | the index of the last occurrence, or none when the character does not occur |
| JsonSpan.SpanExistsIff | src/lib/ai/openai.ts:172-173 | the greedy pattern matches exactly when some `{` precedes some `}` |
| JsonSpan.SpanIsMaximal | src/lib/ai/openai.ts:172 | the match runs from the first `{` to the last `}` and contains every other `{`...`}` stretch |
| JsonSpan.SpanIdempotent | src/lib/ai/deepseek.ts:153 | extracting again from an extracted span gives the same span |
| JsNumbers.ParseIntOfDecimal | src/lib/auth/session-config.ts:25 | `parseInt` reads back the decimal form of every integer, also when non-digits follow |
| JsNumbers.ParseIntNaN | src/lib/auth/session-config.ts:25 | text whose first non-blank character after an optional sign is not a digit gives NaN |
| MealPlanPrompt.OptionalLine | src/lib/ai/openai.ts:95-96 | the optional line shows prefix and value for a non-empty value, and is empty otherwise |
| MealPlanPrompt.ParameterLines | src/lib/ai/openai.ts:84-96 | the block has thirteen lines; the schedule line joins the days with ", "; the last two are the optional cardio and medical lines |
| MealPlanPrompt.CardioLineIff | src/lib/ai/openai.ts:95 | a cardio line is present exactly when cardio details are given and non-empty |
| MealPlanPrompt.MedicalLineIff | src/lib/ai/openai.ts:96 | a medical line is present exactly when medical conditions are given and non-empty |
| MealPlanPrompt.ScheduleAppend | src/lib/ai/openai.ts:94 | one more day extends the schedule text by ", " and that day |
| MealPlanSchema.AcceptedIff | src/lib/ai/openai.ts:6-45 | a reply is accepted exactly when `meal_plan` holds breakfast, lunch, dinner and snacks lists. Every meal in them has a name, four numbers and a string-list of ingredients. Its instructions are a string list for OpenAI and a single string for Deepseek |
| MealPlanSchema.SchemasExclusive | src/lib/ai/deepseek.ts:13 | no reply with a breakfast passes both clients' schemas |
| OpenAiClient.ParseFailure | src/lib/ai/openai.ts:176-182 | the parse error cites the first parse error's message, or "Unknown error" for a non-`Error` |
| OpenAiClient.ReadContent | src/lib/ai/openai.ts:165-183 | a reply that parses is used as it is; otherwise only its `{`...`}` span is tried; every failure reports the first parse error |
| OpenAiClient.ReadContentSucceedsIff | src/lib/ai/openai.ts:165-183 | reading succeeds exactly when the reply or its span parses; without a span the error cites the first parse |
| OpenAiClient.ValidateReply | src/lib/ai/openai.ts:185-190 | succeeds exactly on a valid step-list meal plan; the plan returned is the reply with the keys the schema does not declare stripped; a failure carries "OpenAI response validation failed: " and the issues' text |
| OpenAiClient.Attempt | src/lib/ai/openai.ts:141-190 | SDK errors pass through to the rewrap; empty content fails with "Empty response from OpenAI API"; read and validation failures pass through unchanged, and otherwise the outcome is `ValidateReply` of the JSON read; a plan is returned only when the content reads as JSON and is a valid meal plan, and it is that JSON stripped to the schema |
| OpenAiClient.GenerateMealPlan | src/lib/ai/openai.ts:133-194 | a missing key throws "OpenAI API key is not configured" unwrapped; inside the `try` a success is returned and every failure is rewrapped as a plain `Error` |
| OpenAiClient.KeyCheckFirst | src/lib/ai/openai.ts:135-139 | without a key the outcome does not depend on the API at all |
| OpenAiClient.EmptyContentMessage | src/lib/ai/openai.ts:160-163 | missing or empty content fails with the empty-response message, unprefixed |
| OpenAiClient.FailureMessages | src/lib/ai/openai.ts:191-193 | SDK errors reach the caller with the "OpenAI API error: " prefix, the client's own errors unchanged |
| OpenAiClient.ReturnedPlansAreValid | src/lib/ai/openai.ts:160-190 | a returned plan always satisfies the schema, and valid content that parses as it is always comes back |
| DeepseekClient.Index0 | src/lib/ai/deepseek.ts:152 | `[0]` throws on undefined and null, gives an array's first item and undefined on an empty array |
| DeepseekClient.ApiErrorMessage | src/lib/ai/deepseek.ts:144-147 | a not-OK reply's message is "Deepseek API error: " plus the API's truthy message or else the status text; a `null` body throws |
| DeepseekClient.ContentOf | src/lib/ai/deepseek.ts:152 | `choices[0].message.content` of a well-formed reply; empty `choices` and a null body throw |
| DeepseekClient.MatchTarget | src/lib/ai/deepseek.ts:153 | only string content can be matched; anything else throws a TypeError |
| DeepseekClient.ReadPlan | src/lib/ai/deepseek.ts:153-162 | no span throws "Failed to extract JSON from Deepseek API response"; a span parse error passes through; a parsed span is accepted exactly when it is a valid single-text meal plan and then returned stripped to the schema, and rejected with a ZodError otherwise |
| DeepseekClient.Attempt | src/lib/ai/deepseek.ts:123-166 | fetch and body errors pass through unchanged; a reply that is not OK throws "Deepseek API error: " with the API's message or the status text (a `null` body throws its `TypeError`); on an OK reply errors reading the content pass through, and string content gives exactly `ReadPlan`'s outcome, so its extraction, parse and ZodError failures are rethrown unchanged; a plan is returned only for an OK reply whose content's span reads as a valid plan, stripped to the schema |
| DeepseekClient.GenerateMealPlan | src/lib/ai/deepseek.ts:72-167 | a missing key throws "Deepseek API key is not configured"; otherwise the outcome of the request, errors rethrown unchanged |
| DeepseekClient.KeyCheckFirst | src/lib/ai/deepseek.ts:81-84 | without a key the outcome does not depend on the API |
| DeepseekClient.OnlySpanMatters | src/lib/ai/deepseek.ts:153-159 | only the `{`...`}` span of the content matters; text around it is ignored |
| DeepseekClient.BareJsonRejected | src/lib/ai/deepseek.ts:153-157 | content without a `{` before a `}` fails extraction, even valid JSON such as `[]` |
| DeepseekClient.NotOkMessages | src/lib/ai/deepseek.ts:144-147 | the API's message is used when non-empty, the status text otherwise; a null body throws |
| DeepseekClient.ReturnedPlansAreValid | src/lib/ai/deepseek.ts:144-166 | a returned plan came from an OK reply whose span parses to a valid single-text plan; fetch errors are rethrown as they are |
| SessionConfig.GetSessionTimeoutMs | src/lib/auth/session-config.ts:19-33 | unset or empty gives 1,800,000 ms; a parsed n gives the larger of n·60000 and 300,000; unparseable text gives NaN |
| SessionConfig.ExactAboveFloor | src/lib/auth/session-config.ts:25-28 | five minutes or more are taken exactly: n·60000 |
| SessionConfig.ClampedBelowFloor | src/lib/auth/session-config.ts:25-28 | fewer than five minutes, zero and negative values included, become 300,000 ms |
| SessionConfig.Monotone | src/lib/auth/session-config.ts:25-28 | a longer configured timeout never gives a shorter session |
| SessionConfig.NonNumericIsNaN | src/lib/auth/session-config.ts:24-28 | a non-numeric value is not defaulted: `Math.max` passes the NaN through |
| LoadingScreen.NextDots | src/components/ui/loading-screen.tsx:19-22 | three or more dots reset to ""; fewer get one "." appended, the rest kept |
| LoadingScreen.WellFormedFrames | src/components/ui/loading-screen.tsx:14-22 | a state of up to three dots is one of "", ".", "..", "..." |
| LoadingScreen.NextDotsWellFormed | src/components/ui/loading-screen.tsx:19-22 | a tick keeps the state at most three characters long, all of them dots |
| LoadingScreen.FourTicksCycle | src/components/ui/loading-screen.tsx:19-22 | four ticks bring every reachable state back to itself |
| LoadingScreen.CycleFromEmpty | src/components/ui/loading-screen.tsx:14-22 | from "" the ticks show ".", "..", "..." and then "" again |
| LoadingScreen.LoadingDots.constructor | src/components/ui/loading-screen.tsx:14 | the dots start empty and well formed |
| LoadingScreen.LoadingDots.Tick | src/components/ui/loading-screen.tsx:18-23 | one firing applies the updater to the state and keeps it well formed |

## Findings

| source | as written | input that shows it | evidently intended | confidence | as-written member | corrected member |
|---|---|---|---|---|---|---|
| src/app/auth/callback/route.ts:47-67 | the user lookup uses `.single()`, which reports zero rows as an error (PGRST116); the error is rethrown into the catch, so the `/onboarding` branch can never be taken | a first-time OAuth user: valid `code`, a session, no row in `users` yet | a user without a row is sent to `/onboarding`, as the branch at lines 64-66 and the middleware's equivalent rule say | high; not executed | AuthCallback.OnboardingUnreachable | AuthCallback.CorrectedRoutesByOnboarding |

`AuthCallback.NewUserSentToSignIn` shows where such a user ends instead: the
sign-in page with "Authentication failed. Please try again.". The corrected handler
`AuthCallback.CallbackCorrected` uses a lookup that reads zero rows as "no user",
as `.maybeSingle()` does.

## Left out

- The hosted datastore, auth service, OpenAI SDK and Deepseek HTTP API are oracle parameters. SQL filtering, `getMealLogs`' descending order and the other query details belong to those services.
- `console.log`/`console.error` output is not modelled.
- zod's parsing engine is modelled only for the constructs the schemas use. The e-mail test is a parameter. The text of a `ZodError` message is the parameter `describe`. The issue list's messages and exact ordering are not claimed to match zod.
- `JSON.parse` is a parameter, so its acceptance and error messages are not modelled. `JSON.stringify` is modelled only as dropping properties that hold `undefined`.
- Numbers are unbounded integers. Floating point (weights and body fat in steps of 0.1) is not modelled, and neither is `Number()` returning NaN or 2^53 precision. The only NaN modelled is the one `parseInt` produces.
- LogMealsPage.CoerceNumber: the `0x` prefix `parseInt` reads as hexadecimal when no radix is given is not modelled, because the inputs are `type="number"` (src/app/dashboard/log-meals/page.tsx:242, 261, 280, 299), whose value is a decimal numeral or empty.
- JsNumbers.IsJsWhiteSpace: the Unicode space separators other than no-break space are not modelled.
- The exact text of V8's TypeError messages (`NullRead`) is an approximation; only the kind of error is relied on.
- Dates are milliseconds in local time. `new Date(text)` and `new Date()` are parameters. `setDate(getDate() - 7)` is modelled as seven 24-hour days, so daylight-saving transitions are not modelled; neither is `toISOString`. The logs route reads the clock twice, once for each default bound; the model takes one `now` for both, so the few milliseconds between the two reads are not modelled.
- `setInterval` and `setTimeout` are not modelled: each `LoadingDots.Tick` call is one firing, and the delayed `router.push('/dashboard')` of the meal page is recorded as `scheduledRedirect`.
- React's asynchronous state updates are modelled as immediate assignments. The handlers read state only before they update it, so the order of reads is the source's.
- LogMealsPage.MealLogPage.HandleIngredientChange: requires an index inside the list. The page only calls it for rendered entries, and JavaScript would pad the list with holes for a larger index.
- OnboardingFlow: whether `localStorage.setItem` throws is a parameter, and the JSON stored under the key is assumed to be an object. The health-info page's initial `undefined` previous data is modelled as `{}`, which spreads the same way.
- The fixed wording of the prompts and the model names, temperatures and token limits are not modelled. `MealPlanPrompt` models the parameter block; `DietPlanRoute.DietPrompt` models the interpolated values.
- The OpenAI client's `response.choices[0]?.message?.content` is the result of the `complete` parameter.
- The UI rendering, JSX and the pages, forms and endpoints not listed above are not part of this model. Neither is the session-timeout provider (src/lib/auth/session-timeout.ts), which is timers and event listeners.
- OnboardingCompleteRoute.Handle: a body that is not JSON is modelled as `None` and answered with the generic 500, which is what the catch does with a SyntaxError.
- MealLogs.GetDailyNutrition: the query oracle returns rows or an error. The case of `data` being `null` without an error is not modelled.
