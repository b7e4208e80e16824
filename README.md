# generateAiRoutine core, modelled in Dafny

The Firebase callable `generateAiRoutine` (`functions/src/index.ts`) turns a
user's onboarding profile into a weekly workout routine written by a
language model. This project models the handler's deterministic core and
proves what it promises:

- **Schedule** (`schedule.dfy`) resolves the schedule. From the onboarding
  `frequency` ("N" or "N-M", already split into numbers) and the preferred
  `workout_days`, it derives `actualWorkoutDaysCount` and `useSpecifiedDays`.
  `ResolveSchedule` is the branch-by-branch assignment of the two locals.
  `Resolved` states the outcome per case.
- **Prompt** (`prompt.dfy`) selects the prompt sections. Each pushed line is
  a `Section` value; its literal text is left out. `BuildPromptSections`
  pushes onto one sequence, as the handler pushes onto `promptSections`.
  `PromptSections` is the sequence it builds. The lemmas say which lines
  appear and with what content:
  - the CRITICAL exact-days line, or else the desired-count and
    preferred-days lines;
  - "Bodyweight only";
  - the stat lines;
  - the previous-routine block.
- **Reply** (`reply.dfy`) checks and normalises the reply:
  - the top-level shape check of the parsed reply;
  - the loop over the seven canonical weekday keys;
  - the per-exercise repair (description, weight suggestion, rest time,
    flags, target duration).

  Each loop and each assignment step is a method proved against a function
  (`NormalizedDays`, `RepairedExercises`, `RepairedFields`). The lemmas are
  about those functions.
- **Reconcile** (`reconcile.dfy`) classifies how well the reply kept to the
  requested days. The handler only logs this outcome: `ReconcileDays`
  returns nothing but the outcome tag. For request fields of their declared
  types, the handler's result does not depend on it (see "## Left out" for
  payloads that make the check itself throw).
- **Handler** (`handler.dfy`) covers the handler from the resolved schedule
  to the returned routine. The model call (`generate`) and `JSON.parse`
  (`parse`) are parameters.
- **JsValues** (`js_values.dfy`) is the JavaScript side of the model:
  - the JSON value tree, plus `undefined`;
  - property reads;
  - `String.prototype.trim` over the ECMAScript whitespace set;
  - `String.prototype.toLowerCase`.

Every refusal reaches the caller as an `internal` error, so the model
records the reason in `CallError`:
- the reply text is blank or does not parse;
- the top-level structure is invalid;
- a property access the runtime refuses. A `null` reply throws on `.name`,
  and a `null` or primitive exercise throws when a property is read or
  assigned.

An array `dailyWorkouts` passes the `typeof … === "object"` check of the
top level. The day keys the loop then assigns on it are named properties,
which a JSON array does not carry, so the model keeps it unchanged. The
exercise loop runs no type test on an entry. An array entry survives
because its fields read as `undefined` and assigning named properties on an
array does not throw; those properties are again not carried, so the entry
stays as it was.

The model follows the code:
- the day count is not clamped to 1..7 (`Schedule.CountIsNotClamped`);
- day keys are not merged case-insensitively. "Monday" stays beside the
  canonical "monday" (`Reply.NormalizedWeek`).

## Model

| member | source | states |
|---|---|---|
| Schedule.ResolveSchedule | functions/src/index.ts:159-186 | The two locals end as the resolver's outcome. Whenever the days are mandatory, the count is their non-zero number. |
| Schedule.WithFrequency | functions/src/index.ts:163-181 | With a frequency, the days are mandatory exactly when some are given and their number lies in [min, max]. The count is then that number, and otherwise max. |
| Schedule.SingleIsDegenerateRange | functions/src/index.ts:164-166 | "N" resolves exactly as the range [N, N]. |
| Schedule.WithoutFrequency | functions/src/index.ts:182-186 | Without a frequency, the days are mandatory exactly when some are given. The count is their number, or 3 when none are given. |
| Schedule.MandatoryDaysFixCount | functions/src/index.ts:159-186 | Whenever `useSpecifiedDays` holds, the count equals the (positive) number of preferred days. |
| Schedule.RangeExamples | functions/src/index.ts:163-181 | "3-5" with two days asks for 5 non-mandatory days. With three days it asks for exactly those 3. |
| Schedule.CountIsNotClamped | functions/src/index.ts:163-181 | The count is max as given: 9 for "9", 0 for "0-0"; no clamping to a week. |
| Prompt.OrDefault | functions/src/index.ts:192-194 | A present non-empty value is used; an absent or empty one gives the fallback. |
| Prompt.BuildPromptSections | functions/src/index.ts:188-222 | The pushes produce the role framing, profile, day, equipment, stats and previous-routine parts and the output instructions, in that order. |
| Prompt.PushDaySections | functions/src/index.ts:196-203 | Appends exactly the day part to the sections pushed so far. |
| Prompt.PushEquipmentSections | functions/src/index.ts:205-207 | Appends exactly the equipment part. |
| Prompt.PushStatsSections | functions/src/index.ts:209-215 | Appends exactly the statistics part. |
| Prompt.PushPreviousSections | functions/src/index.ts:217-222 | Appends exactly the previous-routine part. |
| Prompt.PromptFrame | functions/src/index.ts:188-194 | The prompt opens with the role framing, the profile header and the goal, gender and experience lines with their fallbacks ("Not specified", "Beginner"). It closes with the output instructions. |
| Prompt.DayMembers | functions/src/index.ts:196-203 | The day part holds the exact-days line for an exact schedule. Otherwise it holds the desired-count line, plus the preferred-days line when days are given. |
| Prompt.EquipmentMembers | functions/src/index.ts:205-207 | The equipment part holds the equipment line or "Bodyweight only", plus the focus line when focus areas are listed. |
| Prompt.StatLinesMembers | functions/src/index.ts:210-214 | A stat line is present exactly when its value is, and carries it. |
| Prompt.StatsMembers | functions/src/index.ts:209-215 | The statistics part, when stats are given, holds the header and the lines of the present stats. |
| Prompt.PreviousMembers | functions/src/index.ts:217-222 | The previous-routine part exists exactly when a non-empty name is given. It then holds the header, the name, the duration when given, and the progression note. |
| Prompt.DayLines | functions/src/index.ts:196-203 | In the whole prompt, the CRITICAL line appears exactly for mandatory, given days, with the count and the days. The desired-count line appears exactly otherwise. The preferred-days line appears exactly when days are given but not mandatory. |
| Prompt.EquipmentLines | functions/src/index.ts:205-207 | "Bodyweight only" appears exactly when no equipment is listed. The equipment line appears exactly when some is, carrying the list. The focus line appears exactly when focus areas are listed. |
| Prompt.StatLinesPresent | functions/src/index.ts:209-215 | The statistics header appears exactly when stats are given. Each stat line appears exactly when its value is non-null, carrying that value. |
| Prompt.PreviousBlock | functions/src/index.ts:217-222 | The header, the name and the progression note appear exactly when a non-empty name is given. The duration line appears exactly when the duration is also present. |
| Prompt.ResolvedDayLines | functions/src/index.ts:159-203 | With the resolved schedule, the exact-days line appears exactly when the days are mandatory, and it asks for as many days as were given. |
| JsValues.Trim | functions/src/index.ts:318 | A trimmed string is no longer than the input and neither starts nor ends with whitespace. |
| JsValues.TrimIsSlice | functions/src/index.ts:318 | `trim` is the unique slice with only whitespace outside it that is empty or has no whitespace at either end. |
| JsValues.TrimIdempotent | functions/src/index.ts:376-414 | Trimming twice is trimming once. |
| JsValues.TrimEmptyIff | functions/src/index.ts:318-319 | A trimmed string is empty exactly when the input is whitespace only. |
| JsValues.ToLowerCase | functions/src/index.ts:345-346 | Same length, each character lower-cased, and no upper-case ASCII letter left. |
| JsValues.ToLowerCaseIdempotent | functions/src/index.ts:345-346 | Lower-casing twice is lower-casing once. |
| Reply.CheckTopLevel | functions/src/index.ts:329-336 | The reply passes exactly when it is an object with a non-blank string `name`, a number `durationInWeeks` > 0 and an object or array `dailyWorkouts`. A `null` reply is a runtime error; any other failure is the structure error. |
| Reply.RepairedFieldsAt | functions/src/index.ts:376-414 | The repaired exercise has the old keys plus the six repaired ones. It gives each repaired field its coerced value and keeps every other field. |
| Reply.RepairedDescriptionTrimmed | functions/src/index.ts:391-395 | The final description is trimmed and not blank. |
| Reply.RepairExercise | functions/src/index.ts:376-414 | The assignment sequence yields the repaired exercise. |
| Reply.RepairDescription | functions/src/index.ts:376-395 | The check, the fallback, the trim and the second fallback yield the description step. |
| Reply.CoerceWeightAndRest | functions/src/index.ts:398-403 | Yields the weight and rest step. |
| Reply.CoerceFlags | functions/src/index.ts:405-406 | Yields the flag step. |
| Reply.ResetTargetDuration | functions/src/index.ts:408-414 | Yields the target-duration step, once `isTimed` is a boolean. |
| Reply.DescriptionRepaired | functions/src/index.ts:376-395 | Every exercise ends with a trimmed, non-blank description. A non-blank string is trimmed; a blank string becomes the "How to perform" fallback; a non-string becomes the "currently unavailable" fallback. |
| Reply.OptionalFieldsCoerced | functions/src/index.ts:398-406 | `weightSuggestionKg` is its trimmed value or "N/A". `restBetweenSetsSeconds` is kept when it is a number ≥ 0, else 60. `usesWeight` defaults to true and `isTimed` to false. |
| Reply.TargetDurationRepaired | functions/src/index.ts:408-414 | An untimed exercise's target becomes `undefined`. A timed one keeps it only when it is a positive number. |
| Reply.OtherFieldsUntouched | functions/src/index.ts:376-414 | Every field outside the six repaired ones (`name`, `sets`, `reps` among them) keeps its presence and value, valid or not. |
| Reply.RepairEstablishes | functions/src/index.ts:376-414 | Every repaired exercise is in the repaired state. |
| Reply.RepairFixesRepaired | functions/src/index.ts:376-414 | The repair leaves an exercise already in the repaired state as it is. |
| Reply.RepairIdempotent | functions/src/index.ts:376-414 | Repairing an exercise twice is repairing it once. |
| Reply.RepairedExercise | functions/src/index.ts:375-385 | An entry survives the repair exactly when it is an object or an array. |
| Reply.RepairedEntries | functions/src/index.ts:375-415 | Every entry of a repaired day is an array or a repaired exercise object. |
| Reply.RepairDayExercises | functions/src/index.ts:375-415 | The inner loop repairs each entry in place and in order, or throws at the first entry that is neither object nor array. |
| Reply.ExercisesKeptInOrder | functions/src/index.ts:375-415 | No exercise is removed or reordered. An object stays an object with its `name`, `sets` and `reps`, and an array entry is unchanged. |
| Reply.NormalizeDailyWorkouts | functions/src/index.ts:366-416 | The outer loop, each day reading the object as the earlier days left it, yields the normalised week or the runtime error. |
| Reply.NormalizedDaysShape | functions/src/index.ts:366-416 | Over distinct days, the loop throws exactly when a visited day's array holds a non-object entry. Otherwise the visited days hold their repaired arrays and other keys keep their values. |
| Reply.NormalizedWeek | functions/src/index.ts:366-375 | Each of the seven canonical keys maps to an array: `[]` for a missing or non-array value, and otherwise the same exercises repaired in order. Other keys (such as "Monday") are unchanged. The loop fails exactly when a canonical day holds a non-object entry. |
| Reply.NormalizedWeekEntries | functions/src/index.ts:366-416 | Each canonical day's array holds only arrays and repaired exercises, as many as before, or none. |
| Reply.RepairedExerciseIdempotent | functions/src/index.ts:375-415 | Repairing a repaired entry gives it back. |
| Reply.RepairedExercisesIdempotent | functions/src/index.ts:375-415 | Repairing a repaired day gives it back. |
| Reply.NormalizedWeekIdempotent | functions/src/index.ts:366-416 | Normalising a normalised week changes nothing. |
| Reconcile.GeneratedWorkoutDays | functions/src/index.ts:338 | For an object week, the generated days are exactly the keys whose value has a positive length. For an array week, index `i`'s key is generated exactly when entry `i` has a positive length, and every generated key is an index key. |
| Reconcile.IndexKeyInjective | functions/src/index.ts:338 | Distinct array indices give distinct `Object.keys` names. |
| Reconcile.ArrayDaysCount | functions/src/index.ts:338-339 | For an array week, the number of generated days is the number of entries with a positive length. |
| Reconcile.SameDaysIsEquality | functions/src/index.ts:345-351 | The size-and-membership check holds exactly when the two lower-cased sets are equal. |
| Reconcile.CompareDaySets | functions/src/index.ts:347-351 | The membership loop, with its early exit, reports a match exactly when the sets are equal. |
| Reconcile.AdherenceIff | functions/src/index.ts:341-357 | Adherence is reported exactly when the days are mandatory, the number of generated days equals the count, and the lower-cased sets are equal. |
| Reconcile.CaseVariantsDoNotAdhere | functions/src/index.ts:338-351 | "Monday" and "monday" count as two days but one lower-cased day, so requesting "monday" and "friday" reports a days mismatch. |
| Reconcile.ReconcileDays | functions/src/index.ts:338-364 | The check returns only the outcome tag: a count mismatch, a days mismatch or adherence for mandatory days; otherwise no workout days or around-requested. |
| Handler.GenerateAiRoutine | functions/src/index.ts:159-416 | The handler's result is the processing of the generated text of the prompt for the resolved schedule. The reconciliation is reported exactly when the reply parsed and passed the top-level check, and it does not affect the result. |
| Handler.ReplyRefusals | functions/src/index.ts:329-385 | A parsed reply is refused exactly when its top level is malformed (with the check's reason) or a canonical day holds a non-object entry (a runtime error). |
| Handler.Refusals | functions/src/index.ts:316-327 | A blank or unparsable text is refused as not JSON. The request fails exactly when parsing fails or the reply is refused; no routine is returned then. |
| Handler.AcceptedTopLevel | functions/src/index.ts:329-416 | An accepted reply is still well shaped and keeps its keys and every field but `dailyWorkouts`. An array week is returned unchanged; an object week becomes the normalised week. |
| Handler.AcceptedWeek | functions/src/index.ts:366-416 | In an accepted reply, each canonical day holds an array of arrays and repaired exercises, as many as the day held before. Other keys are unchanged. |
| Handler.ArrayWeekPassesThrough | functions/src/index.ts:332 | A reply with `dailyWorkouts: []` is accepted and returned as it was, with none of the seven day keys. |
| Handler.NormalizedReplyIdempotent | functions/src/index.ts:366-416 | Normalising an accepted reply again returns it unchanged. |

## Left out

- Firebase Admin initialisation, secrets, emulator detection and lazy client caching (functions/src/index.ts:17-53, 121-142): configuration with global handles.
- The authentication and `onboardingData` presence checks (functions/src/index.ts:144-154): request context of the platform. The model starts from an onboarding record.
- The Gemini request, its safety settings, the block-reason and empty-candidate checks and their errors (functions/src/index.ts:274-314): a foreign SDK. The reply text is the parameter `generate` applied to the prompt sections.
- `JSON.parse`: a library parser, modelled as the parameter `parse`, with `None` for a syntax error.
- Number coercion of the frequency parts (`split("-").map(Number)`, NaN, `""`): the frequency is given as integers, or as absent.
- Floating point: `durationInWeeks`, `sets`, the rest time and the target duration are exact reals.
- The logger calls, the literal prompt text, the `join("\n")` of the sections and the formatting of numbers inside them: output text with no logic. Each line is a `Section` carrying its values.
- Reconcile.HasPositiveLength: `?.length > 0` is modelled for strings, arrays and an object `length` member that is a number or boolean. A string, array or object `length` member compared with 0 by coercion counts as not positive.
- JsValues.ToLowerCase: only ASCII letters are mapped; other letters are left as they are.
- Property order of objects: objects are maps, so `Object.keys` order is not represented. Only the number and the set of generated days are used.
- Update in place and aliasing: the reply is a value. The in-place writes to `dailyWorkouts` and to each exercise are map updates that the methods return, and two days sharing one array object are not represented.
- Request fields are taken at their declared interface types (`OnboardingData` and `PreviousRoutineData`, functions/src/index.ts:56-80); `request.data` is not checked at run time. Payloads that break those types are not modelled. For example, a non-string entry in `workout_days` makes `toLowerCase` throw inside the reconciliation (functions/src/index.ts:345), and the request then fails as `internal`. Likewise, a non-array `workout_days` or `equipment` that has a `length` makes `join` throw (functions/src/index.ts:173, 197, 201, 205).
- Named properties on arrays: the day keys assigned on an array `dailyWorkouts`, and the fields assigned on an array exercise, are not represented, because the returned JSON does not carry them.
