/** The response validator and normaliser of `generateAiRoutine`: the
    top-level shape check of the parsed reply, the repair of
    `dailyWorkouts` so that every canonical weekday holds an array, and the
    per-exercise coercion of optional fields to defaults. */
module Reply {
  import opened JsValues

  /** The seven canonical day keys, in the order the handler visits them. */
  const DaysOfWeek: seq<string> :=
    ["monday", "tuesday", "wednesday", "thursday", "friday", "saturday", "sunday"]

  /** Why a reply is refused. Every refusal reaches the caller as an
      `internal` error and no routine is returned. */
  datatype Reason =
    | NotJson           // blank reply text, or text `JSON.parse` rejects
    | InvalidStructure  // name, durationInWeeks or dailyWorkouts malformed
    | RuntimeTypeError  // a property access or assignment the runtime refuses

  /** The error the callable reports: always the `internal` code. */
  datatype CallError = Internal(reason: Reason)

  // ---------------------------------------------------------------------
  // Top-level shape
  // ---------------------------------------------------------------------

  predicate IsNonBlankString(v: Value)
  {
    v.Str? && !IsBlank(v.s)
  }

  /** `typeof v === "object" && v !== null`: an object or an array. */
  predicate IsNonNullObject(v: Value)
  {
    v.Obj? || v.Arr?
  }

  /** The conditions the reply must meet to be repaired rather than refused. */
  predicate WellShaped(reply: Value)
  {
    && reply.Obj?
    && IsNonBlankString(Get(reply.fields, "name"))
    && Get(reply.fields, "durationInWeeks").Num?
    && Get(reply.fields, "durationInWeeks").n > 0.0
    && IsNonNullObject(Get(reply.fields, "dailyWorkouts"))
  }

  /** The top-level check; `None` lets the reply through. Reading `.name` of
      a `null` reply throws before the check can answer. */
  function CheckTopLevel(reply: Value): (r: Option<CallError>)
    ensures r.None? <==> WellShaped(reply)
    ensures reply.Null? || reply.Undefined? ==> r == Some(Internal(RuntimeTypeError))
    ensures !reply.Null? && !reply.Undefined? && !WellShaped(reply) ==> r == Some(Internal(InvalidStructure))
  {
    if reply.Null? || reply.Undefined? then Some(Internal(RuntimeTypeError))
    else if !reply.Obj? then Some(Internal(InvalidStructure))
    else
      var name := Get(reply.fields, "name");
      var duration := Get(reply.fields, "durationInWeeks");
      var dailyWorkouts := Get(reply.fields, "dailyWorkouts");
      if !name.Str? || Trim(name.s) == [] || !duration.Num? || duration.n <= 0.0
         || !(dailyWorkouts.Obj? || dailyWorkouts.Arr?)
      then Some(Internal(InvalidStructure))
      else None
  }

  // ---------------------------------------------------------------------
  // Per-exercise repair
  // ---------------------------------------------------------------------

  // The two description fallbacks are written in pieces: the verifier sees
  // the characters of a short literal but not of a long one.
  const UnavailableDescription: string :=
    "Instructions " + "for this exercise " + "are currently unavailable."
  const HowToFallback: string :=
    "How to perform: " + "Detailed instructions " + "will be available soon."
  const NoWeightSuggestion: string := "N/A"
  const DefaultRestSeconds: real := 60.0

  /** The exercise check that precedes the repair; failing it only matters
      for `description`. */
  predicate ExerciseLooksValid(e: map<string, Value>)
  {
    && IsNonBlankString(Get(e, "name"))
    && Get(e, "sets").Num? && Get(e, "sets").n > 0.0
    && IsNonBlankString(Get(e, "reps"))
    && Get(e, "description").Str?
  }

  /** The description an exercise ends with, given the one it had. */
  function RepairedDescription(d: Value): string
  {
    if !d.Str? then UnavailableDescription
    else if IsBlank(d.s) then HowToFallback
    else Trim(d.s)
  }

  /** The weight suggestion an exercise ends with. */
  function RepairedWeight(w: Value): string
  {
    if w.Str? && !IsBlank(w.s) then Trim(w.s) else NoWeightSuggestion
  }

  /** The rest time an exercise ends with. */
  function RepairedRest(v: Value): real
  {
    if v.Num? && v.n >= 0.0 then v.n else DefaultRestSeconds
  }

  /** A boolean field, or the default when the value is not a boolean. */
  function BoolOr(v: Value, default: bool): bool
  {
    if v.Bool? then v.b else default
  }

  /** The target duration an exercise ends with: kept only for a timed
      exercise whose target is a positive number. */
  function RepairedTarget(timed: bool, v: Value): Value
  {
    if timed && v.Num? && v.n > 0.0 then v else Undefined
  }

  /** The exercise fields the repair writes; every other field is left as it is. */
  const RepairedKeys: set<string> :=
    {"description", "weightSuggestionKg", "restBetweenSetsSeconds", "usesWeight", "isTimed",
     "targetDurationSeconds"}

  /** Step one of the repair: the description. */
  function WithDescription(e: map<string, Value>): map<string, Value>
  {
    e["description" := Str(RepairedDescription(Get(e, "description")))]
  }

  /** Step two: the weight suggestion and the rest time. */
  function WithWeightAndRest(e: map<string, Value>): map<string, Value>
  {
    e["weightSuggestionKg" := Str(RepairedWeight(Get(e, "weightSuggestionKg")))]
     ["restBetweenSetsSeconds" := Num(RepairedRest(Get(e, "restBetweenSetsSeconds")))]
  }

  /** Step three: the two flags. */
  function WithFlags(e: map<string, Value>): map<string, Value>
  {
    e["usesWeight" := Bool(BoolOr(Get(e, "usesWeight"), true))]
     ["isTimed" := Bool(BoolOr(Get(e, "isTimed"), false))]
  }

  /** Step four: the target duration, read against the flag of step three. */
  function WithTarget(e: map<string, Value>): map<string, Value>
  {
    e["targetDurationSeconds" :=
        RepairedTarget(BoolOr(Get(e, "isTimed"), false), Get(e, "targetDurationSeconds"))]
  }

  /** The fields of an exercise object after the repair. */
  function RepairedFields(e: map<string, Value>): map<string, Value>
  {
    WithTarget(WithFlags(WithWeightAndRest(WithDescription(e))))
  }

  lemma FallbacksAreTrimmed()
    ensures Trim(UnavailableDescription) == UnavailableDescription
    ensures Trim(HowToFallback) == HowToFallback
    ensures Trim(NoWeightSuggestion) == NoWeightSuggestion
  {
    TrimOfTrimmed(UnavailableDescription);
    TrimOfTrimmed(HowToFallback);
    TrimOfTrimmed(NoWeightSuggestion);
  }

  /** What each field of a repaired exercise holds. */
  lemma RepairedFieldsAt(e: map<string, Value>)
    ensures var r := RepairedFields(e);
      var timed := BoolOr(Get(e, "isTimed"), false);
      && r.Keys == e.Keys + RepairedKeys
      && r["description"] == Str(RepairedDescription(Get(e, "description")))
      && r["weightSuggestionKg"] == Str(RepairedWeight(Get(e, "weightSuggestionKg")))
      && r["restBetweenSetsSeconds"] == Num(RepairedRest(Get(e, "restBetweenSetsSeconds")))
      && r["usesWeight"] == Bool(BoolOr(Get(e, "usesWeight"), true))
      && r["isTimed"] == Bool(timed)
      && r["targetDurationSeconds"] == RepairedTarget(timed, Get(e, "targetDurationSeconds"))
      && (forall k :: k in e && k !in RepairedKeys ==> r[k] == e[k])
  {
  }

  /** A repaired description is trimmed and not blank. */
  lemma RepairedDescriptionTrimmed(d: Value)
    ensures Trim(RepairedDescription(d)) == RepairedDescription(d)
    ensures !IsBlank(RepairedDescription(d))
  {
    FallbacksAreTrimmed();
    if d.Str? {
      TrimIdempotent(d.s);
    }
  }

  /** Writing a key of a map that may already hold it. */
  lemma OverwriteKey(m: map<string, Value>, k: string, u: Value, v: Value)
    ensures m[k := u][k := v] == m[k := v]
  {
  }

  /** Writing back the value a key already holds. */
  lemma RewriteKey(m: map<string, Value>, k: string)
    requires k in m
    ensures m[k := m[k]] == m
  {
  }

  /** The repair of one exercise object, assignment by assignment as the
      handler performs it. */
  method RepairExercise(exercise: map<string, Value>) returns (e: map<string, Value>)
    ensures e == RepairedFields(exercise)
  {
    e := RepairDescription(exercise);
    e := CoerceWeightAndRest(e);
    e := CoerceFlags(e);
    e := ResetTargetDuration(e);
  }

  method RepairDescription(exercise: map<string, Value>) returns (e: map<string, Value>)
    ensures e == WithDescription(exercise)
  {
    FallbacksAreTrimmed();
    ghost var d0 := Get(exercise, "description");
    e := exercise;
    if !ExerciseLooksValid(e) {
      if !Get(e, "description").Str? {
        e := e["description" := Str(UnavailableDescription)];
      }
    }
    ghost var s1 := Get(e, "description").s;
    assert s1 == if d0.Str? then d0.s else UnavailableDescription;
    if e == exercise {
      RewriteKey(exercise, "description");
    }
    assert e == exercise["description" := Str(s1)];

    var description := Trim(Get(e, "description").s);
    e := e["description" := Str(description)];
    OverwriteKey(exercise, "description", Str(s1), Str(description));
    if description == [] {
      e := e["description" := Str(HowToFallback)];
      OverwriteKey(exercise, "description", Str(description), Str(HowToFallback));
    }
    assert e["description"].s == RepairedDescription(d0);
  }

  method CoerceWeightAndRest(exercise: map<string, Value>) returns (e: map<string, Value>)
    ensures e == WithWeightAndRest(exercise)
  {
    e := exercise;
    var weight := Get(e, "weightSuggestionKg");
    e := e["weightSuggestionKg" :=
           if weight.Str? && Trim(weight.s) != [] then Str(Trim(weight.s)) else Str(NoWeightSuggestion)];
    var rest := Get(e, "restBetweenSetsSeconds");
    e := e["restBetweenSetsSeconds" :=
           if rest.Num? && rest.n >= 0.0 then rest else Num(DefaultRestSeconds)];
  }

  method CoerceFlags(exercise: map<string, Value>) returns (e: map<string, Value>)
    ensures e == WithFlags(exercise)
  {
    e := exercise;
    var usesWeight := Get(e, "usesWeight");
    e := e["usesWeight" := if usesWeight.Bool? then usesWeight else Bool(true)];
    var isTimed := Get(e, "isTimed");
    e := e["isTimed" := if isTimed.Bool? then isTimed else Bool(false)];
  }

  method ResetTargetDuration(exercise: map<string, Value>) returns (e: map<string, Value>)
    requires Get(exercise, "isTimed").Bool?
    ensures e == WithTarget(exercise)
  {
    e := exercise;
    if !Get(e, "isTimed").b {
      e := e["targetDurationSeconds" := Undefined];
    } else {
      var target := Get(e, "targetDurationSeconds");
      e := e["targetDurationSeconds" := if target.Num? && target.n > 0.0 then target else Undefined];
    }
  }

  /** Every exercise ends with a trimmed, non-blank description: the old one
      trimmed when it was a non-blank string, the "How to perform" fallback
      when it was a blank string, and the "currently unavailable" fallback
      when it was no string at all. */
  lemma {:induction false} DescriptionRepaired(e: map<string, Value>)
    ensures var d := RepairedFields(e)["description"];
      && d.Str? && !IsBlank(d.s) && Trim(d.s) == d.s
      && (IsNonBlankString(Get(e, "description")) ==> d.s == Trim(Get(e, "description").s))
      && (Get(e, "description").Str? && IsBlank(Get(e, "description").s) ==> d.s == HowToFallback)
      && (!Get(e, "description").Str? ==> d.s == UnavailableDescription)
  {
    RepairedFieldsAt(e);
    RepairedDescriptionTrimmed(Get(e, "description"));
  }

  /** `weightSuggestionKg` ends as its trimmed value when it was a non-blank
      string and as "N/A" otherwise; `restBetweenSetsSeconds` keeps a
      non-negative number and becomes 60 otherwise; `usesWeight` defaults to
      true and `isTimed` to false. */
  lemma OptionalFieldsCoerced(e: map<string, Value>)
    ensures var r := RepairedFields(e);
      && r["weightSuggestionKg"] == Str(if IsNonBlankString(Get(e, "weightSuggestionKg"))
                                        then Trim(Get(e, "weightSuggestionKg").s)
                                        else NoWeightSuggestion)
      && r["restBetweenSetsSeconds"].Num? && r["restBetweenSetsSeconds"].n >= 0.0
      && (var rest := Get(e, "restBetweenSetsSeconds");
          r["restBetweenSetsSeconds"] == if rest.Num? && rest.n >= 0.0 then rest else Num(60.0))
      && r["usesWeight"] == (if Get(e, "usesWeight").Bool? then Get(e, "usesWeight") else Bool(true))
      && r["isTimed"] == (if Get(e, "isTimed").Bool? then Get(e, "isTimed") else Bool(false))
  {
    RepairedFieldsAt(e);
  }

  /** An untimed exercise loses its target duration; a timed one keeps it
      only when it is a positive number. */
  lemma TargetDurationRepaired(e: map<string, Value>)
    ensures var r := RepairedFields(e);
      var target := Get(e, "targetDurationSeconds");
      && (r["isTimed"] == Bool(false) ==> r["targetDurationSeconds"] == Undefined)
      && (r["isTimed"] == Bool(true) ==>
            r["targetDurationSeconds"] == if target.Num? && target.n > 0.0 then target else Undefined)
  {
    RepairedFieldsAt(e);
  }

  /** Fields other than the six repaired ones, `name`, `sets` and `reps`
      among them, are never touched, whether or not they pass the check. */
  lemma OtherFieldsUntouched(e: map<string, Value>, k: string)
    requires k !in RepairedKeys
    ensures k in RepairedFields(e) <==> k in e
    ensures Get(RepairedFields(e), k) == Get(e, k)
  {
    RepairedFieldsAt(e);
  }

  /** The state every repaired exercise is in: a trimmed non-blank
      description and weight suggestion, a non-negative rest time, two
      boolean flags, and a target duration that is `undefined` unless the
      exercise is timed and the target positive. */
  predicate IsRepaired(e: map<string, Value>)
  {
    && "description" in e && e["description"].Str?
    && !IsBlank(e["description"].s) && Trim(e["description"].s) == e["description"].s
    && "weightSuggestionKg" in e && e["weightSuggestionKg"].Str?
    && !IsBlank(e["weightSuggestionKg"].s) && Trim(e["weightSuggestionKg"].s) == e["weightSuggestionKg"].s
    && "restBetweenSetsSeconds" in e && e["restBetweenSetsSeconds"].Num?
    && e["restBetweenSetsSeconds"].n >= 0.0
    && "usesWeight" in e && e["usesWeight"].Bool?
    && "isTimed" in e && e["isTimed"].Bool?
    && "targetDurationSeconds" in e
    && (e["targetDurationSeconds"] == Undefined
        || (e["isTimed"].b && e["targetDurationSeconds"].Num? && e["targetDurationSeconds"].n > 0.0))
  }

  /** Every repaired exercise is in the repaired state. */
  lemma {:induction false} RepairEstablishes(e: map<string, Value>)
    ensures IsRepaired(RepairedFields(e))
  {
    RepairedFieldsAt(e);
    RepairedDescriptionTrimmed(Get(e, "description"));
    FallbacksAreTrimmed();
    var w := Get(e, "weightSuggestionKg");
    if w.Str? && !IsBlank(w.s) {
      TrimIdempotent(w.s);
    }
  }

  /** The repair leaves an exercise in the repaired state as it is. */
  lemma {:induction false} RepairFixesRepaired(e: map<string, Value>)
    requires IsRepaired(e)
    ensures RepairedFields(e) == e
  {
    RewriteKey(e, "description");
    assert WithDescription(e) == e;
    RewriteKey(e, "weightSuggestionKg");
    RewriteKey(e, "restBetweenSetsSeconds");
    assert WithWeightAndRest(e) == e;
    RewriteKey(e, "usesWeight");
    RewriteKey(e, "isTimed");
    assert WithFlags(e) == e;
    RewriteKey(e, "targetDurationSeconds");
    assert WithTarget(e) == e;
  }

  /** Repairing a repaired exercise changes nothing. */
  lemma RepairIdempotent(e: map<string, Value>)
    ensures RepairedFields(RepairedFields(e)) == RepairedFields(e)
  {
    RepairEstablishes(e);
    RepairFixesRepaired(RepairedFields(e));
  }

  // ---------------------------------------------------------------------
  // Exercises of one day
  // ---------------------------------------------------------------------

  /** One entry of a day's array after the repair. An object is repaired; an
      array takes the assignments as named properties, which its elements do
      not show; `null` and primitives make the runtime throw (`None`). */
  function RepairedExercise(v: Value): (r: Option<Value>)
    ensures r.Some? <==> v.Obj? || v.Arr?
  {
    match v
    case Obj(fields) => Some(Obj(RepairedFields(fields)))
    case Arr(_) => Some(v)
    case _ => None
  }

  /** A day's exercises after the repair: each entry repaired in place, in
      the same order, or `None` when one of them makes the runtime throw. */
  function RepairedExercises(items: seq<Value>): (r: Option<seq<Value>>)
  {
    if forall i :: 0 <= i < |items| ==> RepairedExercise(items[i]).Some?
    then Some(seq(|items|, i requires 0 <= i < |items| => RepairedExercise(items[i]).value))
    else None
  }

  /** Every entry of a repaired day is an array or an exercise object in
      the repaired state. */
  lemma RepairedEntries(items: seq<Value>)
    requires RepairedExercises(items).Some?
    ensures forall x :: x in RepairedExercises(items).value ==> x.Arr? || (x.Obj? && IsRepaired(x.fields))
  {
    var out := RepairedExercises(items).value;
    forall i | 0 <= i < |out|
      ensures out[i].Arr? || (out[i].Obj? && IsRepaired(out[i].fields))
    {
      if items[i].Obj? {
        RepairEstablishes(items[i].fields);
      }
    }
  }

  /** An empty day stays empty. */
  lemma NoExercises()
    ensures RepairedExercises([]) == Some([])
  {
    assert |RepairedExercises([]).value| == 0;
  }

  /** The inner loop over one day's exercises. */
  method RepairDayExercises(items: seq<Value>) returns (r: Option<seq<Value>>)
    ensures r == RepairedExercises(items)
  {
    var repaired: seq<Value> := [];
    var i := 0;
    while i < |items|
      invariant 0 <= i <= |items|
      invariant |repaired| == i
      invariant forall j :: 0 <= j < i ==> RepairedExercise(items[j]).Some?
      invariant forall j :: 0 <= j < i ==> repaired[j] == RepairedExercise(items[j]).value
    {
      var exercise := items[i];
      if exercise.Obj? {
        var fields := RepairExercise(exercise.fields);
        repaired := repaired + [Obj(fields)];
      } else if exercise.Arr? {
        repaired := repaired + [exercise];
      } else {
        return None;
      }
      i := i + 1;
    }
    assert repaired == seq(|items|, i requires 0 <= i < |items| => RepairedExercise(items[i]).value);
    r := Some(repaired);
  }

  /** No exercise is dropped or reordered, and each keeps its `name`,
      `sets` and `reps`. */
  lemma ExercisesKeptInOrder(items: seq<Value>, i: int)
    requires RepairedExercises(items).Some?
    requires 0 <= i < |items|
    ensures |RepairedExercises(items).value| == |items|
    ensures items[i].Obj? ==> RepairedExercises(items).value[i].Obj?
    ensures items[i].Obj? ==> forall k :: k in {"name", "sets", "reps"} ==>
              Get(RepairedExercises(items).value[i].fields, k) == Get(items[i].fields, k)
    ensures items[i].Arr? ==> RepairedExercises(items).value[i] == items[i]
  {
    if items[i].Obj? {
      forall k | k in {"name", "sets", "reps"}
        ensures Get(RepairedExercises(items).value[i].fields, k) == Get(items[i].fields, k)
      {
        OtherFieldsUntouched(items[i].fields, k);
      }
    }
  }

  /** The array a canonical day ends with: a missing or non-array value
      becomes `[]`, an array has its exercises repaired. */
  function RepairedDay(v: Value): Option<seq<Value>>
  {
    if v.Arr? then RepairedExercises(v.items) else Some([])
  }

  // ---------------------------------------------------------------------
  // The week
  // ---------------------------------------------------------------------

  /** The `dailyWorkouts` object after the loop has visited `days` in order,
      each visit reading the object as the earlier visits left it; `None`
      when one visit throws. */
  function NormalizedDays(m: map<string, Value>, days: seq<string>): Option<map<string, Value>>
    decreases |days|
  {
    if days == [] then Some(m)
    else
      match NormalizedDays(m, days[..|days| - 1])
      case None => None
      case Some(m1) =>
        var day := days[|days| - 1];
        match RepairedDay(Get(m1, day))
        case None => None
        case Some(items) => Some(m1[day := Arr(items)])
  }

  /** The outer loop over the seven canonical days. */
  method NormalizeDailyWorkouts(dailyWorkouts: map<string, Value>) returns (r: Option<map<string, Value>>)
    ensures r == NormalizedDays(dailyWorkouts, DaysOfWeek)
  {
    var workouts := dailyWorkouts;
    for k := 0 to |DaysOfWeek|
      invariant NormalizedDays(dailyWorkouts, DaysOfWeek[..k]) == Some(workouts)
    {
      var day := DaysOfWeek[k];
      ghost var before := workouts;
      assert DaysOfWeek[..k + 1][..k] == DaysOfWeek[..k];
      if day !in workouts {
        workouts := workouts[day := Arr([])];
      } else if !workouts[day].Arr? {
        workouts := workouts[day := Arr([])];
      }
      assert workouts[day].items == if Get(before, day).Arr? then Get(before, day).items else [];
      NoExercises();
      var repaired := RepairDayExercises(workouts[day].items);
      assert repaired == RepairedDay(Get(before, day));
      if repaired.None? {
        FailureIsFinal(dailyWorkouts, DaysOfWeek, k + 1);
        return None;
      }
      workouts := workouts[day := Arr(repaired.value)];
      assert workouts == before[day := Arr(repaired.value)];
    }
    assert DaysOfWeek[..|DaysOfWeek|] == DaysOfWeek;
    r := Some(workouts);
  }

  predicate Distinct(days: seq<string>)
  {
    forall i, j :: 0 <= i < j < |days| ==> days[i] != days[j]
  }

  /** Visiting distinct days: the loop throws exactly when some visited day
      holds an array with an entry that is neither object nor array;
      otherwise each visited day holds its repaired array and every other
      key keeps its value. */
  lemma {:induction false} NormalizedDaysShape(m: map<string, Value>, days: seq<string>)
    requires Distinct(days)
    ensures NormalizedDays(m, days).Some? <==> forall d :: d in days ==> RepairedDay(Get(m, d)).Some?
    ensures NormalizedDays(m, days).Some? ==>
      var m' := NormalizedDays(m, days).value;
      && (forall k :: k in m' <==> k in m || k in days)
      && (forall d :: d in days ==> d in m' && m'[d] == Arr(RepairedDay(Get(m, d)).value))
      && (forall k :: k in m && k !in days ==> k in m' && m'[k] == m[k])
    decreases |days|
  {
    if days != [] {
      var init, day := days[..|days| - 1], days[|days| - 1];
      assert Distinct(init);
      NormalizedDaysShape(m, init);
      assert day !in init;
      assert forall d :: d in days <==> d in init || d == day;
      match NormalizedDays(m, init)
      case None =>
      case Some(m1) =>
        assert Get(m1, day) == Get(m, day);
    }
  }

  /** Once a visit throws, visiting more days still throws. */
  lemma {:induction false} FailureIsFinal(m: map<string, Value>, days: seq<string>, n: nat)
    requires n <= |days|
    requires NormalizedDays(m, days[..n]).None?
    ensures NormalizedDays(m, days).None?
    decreases |days| - n
  {
    if n < |days| {
      assert days[..n + 1][..n] == days[..n];
      FailureIsFinal(m, days, n + 1);
    } else {
      assert days[..n] == days;
    }
  }

  lemma DaysOfWeekDistinct()
    ensures Distinct(DaysOfWeek)
  {
  }

  /** After the loop, each canonical day maps to an array: `[]` when it was
      missing or not an array, and otherwise the same exercises repaired in
      the same order. Keys outside the seven, such as "Monday", are left as
      they were. The loop throws exactly when a canonical day's array holds
      an entry that is neither an object nor an array. */
  lemma NormalizedWeek(m: map<string, Value>)
    ensures NormalizedDays(m, DaysOfWeek).Some? <==>
              forall d :: d in DaysOfWeek ==> RepairedDay(Get(m, d)).Some?
    ensures NormalizedDays(m, DaysOfWeek).Some? ==>
      var m' := NormalizedDays(m, DaysOfWeek).value;
      && (forall d :: d in DaysOfWeek ==> d in m' && m'[d].Arr?)
      && (forall d :: d in DaysOfWeek && !Get(m, d).Arr? ==> m'[d] == Arr([]))
      && (forall d :: d in DaysOfWeek && Get(m, d).Arr? ==>
            m'[d] == Arr(RepairedExercises(Get(m, d).items).value))
      && (forall k :: k !in DaysOfWeek ==> (k in m' <==> k in m) && Get(m', k) == Get(m, k))
  {
    DaysOfWeekDistinct();
    NormalizedDaysShape(m, DaysOfWeek);
  }

  /** After a loop that did not throw, each canonical day's array holds
      arrays and repaired exercise objects only, as many as the day's array
      held. */
  lemma NormalizedWeekEntries(m: map<string, Value>)
    requires NormalizedDays(m, DaysOfWeek).Some?
    ensures var week := NormalizedDays(m, DaysOfWeek).value;
      forall d :: d in DaysOfWeek ==>
        && d in week && week[d].Arr?
        && (forall x :: x in week[d].items ==> x.Arr? || (x.Obj? && IsRepaired(x.fields)))
        && |week[d].items| == (if Get(m, d).Arr? then |Get(m, d).items| else 0)
  {
    forall d | d in DaysOfWeek
      ensures var week := NormalizedDays(m, DaysOfWeek).value;
        && d in week && week[d].Arr?
        && (forall x :: x in week[d].items ==> x.Arr? || (x.Obj? && IsRepaired(x.fields)))
        && |week[d].items| == (if Get(m, d).Arr? then |Get(m, d).items| else 0)
    {
      NormalizedDayEntries(m, d);
    }
  }

  lemma NormalizedDayEntries(m: map<string, Value>, d: string)
    requires NormalizedDays(m, DaysOfWeek).Some?
    requires d in DaysOfWeek
    ensures var week := NormalizedDays(m, DaysOfWeek).value;
        && d in week && week[d].Arr?
        && (forall x :: x in week[d].items ==> x.Arr? || (x.Obj? && IsRepaired(x.fields)))
        && |week[d].items| == (if Get(m, d).Arr? then |Get(m, d).items| else 0)
  {
    NormalizedWeek(m);
    if Get(m, d).Arr? {
      RepairedEntries(Get(m, d).items);
    }
  }

  /** An exercise already repaired is repaired into itself. */
  lemma RepairedExerciseIdempotent(v: Value)
    requires RepairedExercise(v).Some?
    ensures RepairedExercise(RepairedExercise(v).value) == RepairedExercise(v)
  {
    if v.Obj? {
      RepairIdempotent(v.fields);
    }
  }

  /** A repaired day's array is repaired into itself. */
  lemma RepairedExercisesIdempotent(items: seq<Value>)
    requires RepairedExercises(items).Some?
    ensures RepairedExercises(RepairedExercises(items).value) == RepairedExercises(items)
  {
    var out := RepairedExercises(items).value;
    forall i | 0 <= i < |out|
      ensures RepairedExercise(out[i]) == Some(out[i])
    {
      RepairedExerciseIdempotent(items[i]);
    }
    assert out == seq(|out|, i requires 0 <= i < |out| => RepairedExercise(out[i]).value);
  }

  /** Normalising a normalised week changes nothing. */
  lemma NormalizedWeekIdempotent(m: map<string, Value>)
    requires NormalizedDays(m, DaysOfWeek).Some?
    ensures NormalizedDays(NormalizedDays(m, DaysOfWeek).value, DaysOfWeek)
            == NormalizedDays(m, DaysOfWeek)
  {
    var m' := NormalizedDays(m, DaysOfWeek).value;
    DaysOfWeekDistinct();
    NormalizedDaysShape(m, DaysOfWeek);
    NormalizedDaysShape(m', DaysOfWeek);
    forall d | d in DaysOfWeek
      ensures d in m' && m'[d].Arr? && RepairedDay(Get(m', d)) == Some(m'[d].items)
    {
      if Get(m, d).Arr? {
        RepairedExercisesIdempotent(Get(m, d).items);
      } else {
        NoExercises();
      }
    }
    assert NormalizedDays(m', DaysOfWeek).Some?;
    var m'' := NormalizedDays(m', DaysOfWeek).value;
    assert m''.Keys == m'.Keys;
    assert forall k :: k in m' ==> m''[k] == m'[k];
    assert m'' == m';
  }
}
