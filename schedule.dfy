/** The scheduling-parameter resolver of `generateAiRoutine`: from the
    onboarding frequency ("N" or "N-M") and the preferred weekdays it derives
    how many workout days to ask for and whether the preferred days are
    mandatory. */
module Schedule {
  import opened JsValues

  /** The onboarding `frequency` after `split("-").map(Number)`: one part or
      at least two (only the first two are read). */
  datatype Frequency = Single(n: int) | Range(lo: int, hi: int)
  {
    function MinFreq(): int
    {
      match this
      case Single(n) => n
      case Range(lo, _) => lo
    }

    function MaxFreq(): int
    {
      match this
      case Single(n) => n
      case Range(_, hi) => hi
    }
  }

  /** The two values the resolver leaves in `actualWorkoutDaysCount` and
      `useSpecifiedDays`. */
  datatype ScheduleParams = ScheduleParams(count: int, useSpecifiedDays: bool)

  /** Default day count when no frequency is given and no day is preferred. */
  const DefaultDayCount: int := 3

  /** The resolver's outcome, stated per case. An absent or empty preferred
      day list is `[]`. */
  function Resolved(frequency: Option<Frequency>, workoutDays: seq<string>): ScheduleParams
  {
    match frequency
    case Some(f) =>
      if |workoutDays| > 0 && f.MinFreq() <= |workoutDays| <= f.MaxFreq()
      then ScheduleParams(|workoutDays|, true)
      else ScheduleParams(f.MaxFreq(), false)
    case None =>
      if |workoutDays| > 0
      then ScheduleParams(|workoutDays|, true)
      else ScheduleParams(DefaultDayCount, false)
  }

  /** The resolver as the handler runs it: two locals, reassigned branch by
      branch. */
  method ResolveSchedule(frequency: Option<Frequency>, workoutDays: seq<string>)
    returns (actualWorkoutDaysCount: int, useSpecifiedDays: bool)
    ensures ScheduleParams(actualWorkoutDaysCount, useSpecifiedDays) == Resolved(frequency, workoutDays)
    ensures useSpecifiedDays ==> actualWorkoutDaysCount == |workoutDays| > 0
  {
    actualWorkoutDaysCount := 0;
    useSpecifiedDays := false;
    var preferredDaysSelected := |workoutDays| > 0;

    if frequency.Some? {
      var minFreq := frequency.value.MinFreq();
      var maxFreq := frequency.value.MaxFreq();
      if preferredDaysSelected {
        var numSelectedDays := |workoutDays|;
        if numSelectedDays >= minFreq && numSelectedDays <= maxFreq {
          actualWorkoutDaysCount := numSelectedDays;
          useSpecifiedDays := true;
        } else {
          actualWorkoutDaysCount := maxFreq;
        }
      } else {
        actualWorkoutDaysCount := maxFreq;
      }
    } else {
      actualWorkoutDaysCount := if preferredDaysSelected then |workoutDays| else DefaultDayCount;
      if preferredDaysSelected {
        useSpecifiedDays := true;
      }
    }
  }

  /** With a frequency, the preferred days become mandatory exactly when
      their number lies in [min, max]; the count is then that number, and
      otherwise the maximum of the range. */
  lemma WithFrequency(f: Frequency, workoutDays: seq<string>)
    ensures var p := Resolved(Some(f), workoutDays);
      && (p.useSpecifiedDays <==> |workoutDays| > 0 && f.MinFreq() <= |workoutDays| <= f.MaxFreq())
      && (p.useSpecifiedDays ==> p.count == |workoutDays|)
      && (!p.useSpecifiedDays ==> p.count == f.MaxFreq())
  {
  }

  /** A single value "N" is the range [N, N]. */
  lemma SingleIsDegenerateRange(n: int, workoutDays: seq<string>)
    ensures Resolved(Some(Single(n)), workoutDays) == Resolved(Some(Range(n, n)), workoutDays)
  {
  }

  /** Without a frequency, preferred days are always mandatory; with none,
      three days are asked for. */
  lemma WithoutFrequency(workoutDays: seq<string>)
    ensures var p := Resolved(None, workoutDays);
      && (p.useSpecifiedDays <==> |workoutDays| > 0)
      && p.count == (if |workoutDays| > 0 then |workoutDays| else DefaultDayCount)
  {
  }

  /** Whenever the days are mandatory, the count is the number of days given. */
  lemma MandatoryDaysFixCount(frequency: Option<Frequency>, workoutDays: seq<string>)
    ensures Resolved(frequency, workoutDays).useSpecifiedDays ==>
              Resolved(frequency, workoutDays).count == |workoutDays| > 0
  {
  }

  /** "3-5" with two preferred days asks for five, none mandatory; with
      three preferred days it asks for exactly those three. */
  lemma RangeExamples()
    ensures Resolved(Some(Range(3, 5)), ["monday", "wednesday"]) == ScheduleParams(5, false)
    ensures Resolved(Some(Range(3, 5)), ["monday", "wednesday", "friday"]) == ScheduleParams(3, true)
  {
  }

  /** The count is not clamped to a week: "9" asks for nine days and "0-0"
      for none. */
  lemma CountIsNotClamped()
    ensures Resolved(Some(Single(9)), []).count == 9
    ensures Resolved(Some(Range(0, 0)), ["monday"]).count == 0
  {
  }
}
