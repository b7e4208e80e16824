/** The day-reconciliation check of `generateAiRoutine`: it compares the days
    the reply filled with exercises against the requested days and only
    reports the outcome; the reply itself is never changed by it. */
module Reconcile {
  import opened JsValues

  /** What the check reports. */
  datatype Outcome =
    | CountMismatch    // mandatory days, but a different number of workout days
    | DaysMismatch     // as many workout days as mandated, but other days
    | Adherence        // exactly the mandatory days
    | NoWorkoutDays    // days not mandatory, some asked for, none generated
    | AroundRequested  // days not mandatory, some generated (or none asked for)

  /** `v?.length > 0`. A string or an array has a length; an object only
      when it holds a `length` member, which is then compared with 0. */
  predicate HasPositiveLength(v: Value)
  {
    match v
    case Str(s) => |s| > 0
    case Arr(items) => |items| > 0
    case Obj(fields) =>
      "length" in fields &&
      (match fields["length"]
       case Num(n) => n > 0.0
       case Bool(b) => b
       case _ => false)
    case _ => false
  }

  /** The decimal digits of `n`, as `Object.keys` names an array index. */
  function IndexKey(n: nat): (r: string)
    ensures |r| >= 1
    ensures forall i :: 0 <= i < |r| ==> '0' <= r[i] <= '9'
  {
    if n < 10 then [('0' as int + n) as char]
    else IndexKey(n / 10) + [('0' as int + n % 10) as char]
  }

  /** `Object.keys(dailyWorkouts).filter(day => dailyWorkouts[day]?.length > 0)`,
      as a set: the keys are distinct, and only their number and their
      lower-cased set are used. */
  function GeneratedWorkoutDays(dailyWorkouts: Value): (r: set<string>)
    requires dailyWorkouts.Obj? || dailyWorkouts.Arr?
    ensures dailyWorkouts.Obj? ==>
              forall k :: k in r <==> k in dailyWorkouts.fields && HasPositiveLength(dailyWorkouts.fields[k])
    ensures dailyWorkouts.Arr? ==>
              forall i :: 0 <= i < |dailyWorkouts.items| ==>
                (IndexKey(i) in r <==> HasPositiveLength(dailyWorkouts.items[i]))
    ensures dailyWorkouts.Arr? ==>
              forall k :: k in r ==> exists i :: 0 <= i < |dailyWorkouts.items| && k == IndexKey(i)
  {
    match dailyWorkouts
    case Obj(fields) => set k | k in fields && HasPositiveLength(fields[k])
    case Arr(items) =>
      IndexKeysDistinct();
      set i | 0 <= i < |items| && HasPositiveLength(items[i]) :: IndexKey(i)
  }

  /** Distinct indices have distinct keys. */
  lemma {:induction false} IndexKeyInjective(n: nat, m: nat)
    ensures IndexKey(n) == IndexKey(m) ==> n == m
    decreases n
  {
    var a, b := IndexKey(n), IndexKey(m);
    if a == b {
      if n >= 10 && m >= 10 {
        assert a[..|a| - 1] == IndexKey(n / 10) && b[..|b| - 1] == IndexKey(m / 10);
        IndexKeyInjective(n / 10, m / 10);
        assert (n % 10) as int == a[|a| - 1] as int - '0' as int == (m % 10) as int;
      } else if n < 10 && m < 10 {
        assert a[0] as int == '0' as int + n && b[0] as int == '0' as int + m;
      }
    }
  }

  lemma IndexKeysDistinct()
    ensures forall n: nat, m: nat :: IndexKey(n) == IndexKey(m) ==> n == m
  {
    forall n: nat, m: nat
      ensures IndexKey(n) == IndexKey(m) ==> n == m
    {
      IndexKeyInjective(n, m);
    }
  }

  /** The keys `Object.keys` gives for a set of array indices. */
  function IndexKeys(indices: set<nat>): set<string>
  {
    set i | i in indices :: IndexKey(i)
  }

  /** The keys of a set of indices are as many as the indices. */
  lemma {:induction false} IndexKeysCount(indices: set<nat>)
    ensures |IndexKeys(indices)| == |indices|
    decreases |indices|
  {
    if indices != {} {
      var x :| x in indices;
      var rest := indices - {x};
      IndexKeysCount(rest);
      var keys := IndexKeys(rest);
      assert IndexKey(x) !in keys by {
        forall i | i in rest
          ensures IndexKey(i) != IndexKey(x)
        {
          IndexKeyInjective(i, x);
        }
      }
      assert IndexKeys(indices) == keys + {IndexKey(x)};
      assert |indices| == |rest| + 1;
    }
  }

  /** For an array week, `Object.keys` names the indices, so the number of
      generated days is the number of entries with a positive length. */
  lemma ArrayDaysCount(items: seq<Value>)
    ensures |GeneratedWorkoutDays(Arr(items))| ==
            |set i: nat | i < |items| && HasPositiveLength(items[i])|
  {
    var indices := set i: nat | i < |items| && HasPositiveLength(items[i]);
    IndexKeysCount(indices);
    var keys := IndexKeys(indices);
    var r := GeneratedWorkoutDays(Arr(items));
    forall k | k in r
      ensures k in keys
    {
      var i :| 0 <= i < |items| && k == IndexKey(i);
      assert i in indices;
    }
    forall k | k in keys
      ensures k in r
    {
      var i :| i in indices && k == IndexKey(i);
      assert IndexKey(i) in r;
    }
    assert r == keys;
  }

  function LowerCased(days: set<string>): set<string>
  {
    set d | d in days :: ToLowerCase(d)
  }

  /** The check the handler performs on two sets of lower-cased days: equal
      sizes, and every requested day among the generated ones. */
  predicate SameDays(specified: set<string>, generated: set<string>)
  {
    |specified| == |generated| && forall d :: d in specified ==> d in generated
  }

  /** A set included in another of the same size is that set. */
  lemma {:induction false} SubsetOfSameSize(a: set<string>, b: set<string>)
    requires a <= b && |a| == |b|
    ensures a == b
  {
    if a != b {
      var x :| x in b && x !in a;
      assert a <= b - {x};
      assert |b - {x}| == |b| - 1;
      SubsetCardinality(a, b - {x});
    }
  }

  lemma {:induction false} SubsetCardinality(a: set<string>, b: set<string>)
    requires a <= b
    ensures |a| <= |b|
    decreases |a|
  {
    if a != {} {
      var x :| x in a;
      SubsetCardinality(a - {x}, b - {x});
    }
  }

  /** The size-and-inclusion check is set equality. */
  lemma SameDaysIsEquality(specified: set<string>, generated: set<string>)
    ensures SameDays(specified, generated) <==> specified == generated
  {
    if SameDays(specified, generated) {
      SubsetOfSameSize(specified, generated);
    }
  }

  /** The outcome the check reports, given the resolved schedule, the
      requested days and the keys of the days that hold exercises. */
  function Reconciliation(useSpecifiedDays: bool, count: int, workoutDays: seq<string>,
                          generated: set<string>): Outcome
  {
    if useSpecifiedDays && |workoutDays| > 0 then
      if |generated| != count then CountMismatch
      else if SameDays(LowerCased(set d | d in workoutDays), LowerCased(generated)) then Adherence
      else DaysMismatch
    else if |generated| < 1 && count > 0 then NoWorkoutDays
    else AroundRequested
  }

  /** Adherence is reported exactly when the days are mandatory, as many
      days hold exercises as were asked for, and the lower-cased generated
      days are the lower-cased requested ones. */
  lemma AdherenceIff(useSpecifiedDays: bool, count: int, workoutDays: seq<string>, generated: set<string>)
    requires useSpecifiedDays ==> |workoutDays| > 0
    ensures Reconciliation(useSpecifiedDays, count, workoutDays, generated) == Adherence <==>
              && useSpecifiedDays
              && |generated| == count
              && LowerCased(set d | d in workoutDays) == LowerCased(generated)
  {
    SameDaysIsEquality(LowerCased(set d | d in workoutDays), LowerCased(generated));
  }

  /** Case-variants of one day count twice in the number of workout days but
      once in the set, so they never adhere: "Monday" and "monday" for the
      two requested days "monday" and "friday". */
  lemma CaseVariantsDoNotAdhere()
    ensures Reconciliation(true, 2, ["monday", "friday"], {"Monday", "monday"}) == DaysMismatch
  {
    assert ToLowerCase("Monday") == "monday";
    assert ToLowerCase("monday") == "monday";
    assert ToLowerCase("friday") == "friday";
    assert LowerCased({"Monday", "monday"}) == {"monday"};
    assert "friday" in set d | d in ["monday", "friday"];
    assert "friday" in LowerCased(set d | d in ["monday", "friday"]);
  }

  /** The membership loop over the requested days, with its early exit. */
  method CompareDaySets(specified: set<string>, generated: set<string>) returns (daysMatch: bool)
    ensures daysMatch == SameDays(specified, generated)
    ensures daysMatch <==> specified == generated
  {
    SameDaysIsEquality(specified, generated);
    daysMatch := true;
    if |specified| != |generated| {
      daysMatch := false;
    } else {
      var remaining := specified;
      ghost var missing: string := "";
      while remaining != {}
        invariant remaining <= specified
        invariant daysMatch ==> forall d :: d in specified - remaining ==> d in generated
        invariant !daysMatch ==> missing in specified && missing !in generated
        decreases |remaining|
      {
        var day :| day in remaining;
        if day !in generated {
          daysMatch := false;
          missing := day;
          break;
        }
        remaining := remaining - {day};
      }
    }
  }

  /** The check as the handler runs it; it returns only the outcome. */
  method ReconcileDays(useSpecifiedDays: bool, actualWorkoutDaysCount: int, workoutDays: seq<string>,
                       dailyWorkouts: Value) returns (outcome: Outcome)
    requires dailyWorkouts.Obj? || dailyWorkouts.Arr?
    ensures outcome == Reconciliation(useSpecifiedDays, actualWorkoutDaysCount, workoutDays,
                                      GeneratedWorkoutDays(dailyWorkouts))
  {
    var generatedWorkoutDays := GeneratedWorkoutDays(dailyWorkouts);
    var numGeneratedWorkoutDays := |generatedWorkoutDays|;
    if useSpecifiedDays && |workoutDays| > 0 {
      if numGeneratedWorkoutDays != actualWorkoutDaysCount {
        outcome := CountMismatch;
      } else {
        var specifiedDaySet := LowerCased(set d | d in workoutDays);
        var generatedDaySet := LowerCased(generatedWorkoutDays);
        var daysMatch := CompareDaySets(specifiedDaySet, generatedDaySet);
        outcome := if daysMatch then Adherence else DaysMismatch;
      }
    } else {
      outcome := if numGeneratedWorkoutDays < 1 && actualWorkoutDaysCount > 0 then NoWorkoutDays
                 else AroundRequested;
    }
  }
}
