/** The deterministic path of `generateAiRoutine` from the onboarding
    profile to the routine it returns: resolve the schedule, build the
    prompt, take the model's reply text, parse it, check its top level,
    report the day reconciliation and normalise the week. The model call
    and the parser are parameters. */
module Handler {
  import opened JsValues
  import opened Schedule
  import opened Prompt
  import opened Reconcile
  import opened Reply

  /** The reply text handed to the parser: trimmed, and only when not blank. */
  function ParsedReply(responseText: string, parse: string -> Option<Value>): Option<Value>
  {
    if IsBlank(responseText) then None else parse(Trim(responseText))
  }

  /** The reply after the top-level check and the normalisation of its week.
      An array `dailyWorkouts` passes the check; the day keys the loop writes
      on it are named properties its elements do not show. */
  function NormalizedReply(reply: Value): Result<Value, CallError>
  {
    match CheckTopLevel(reply)
    case Some(error) => Result.Failure(error)
    case None =>
      var dailyWorkouts := reply.fields["dailyWorkouts"];
      if dailyWorkouts.Arr? then Success(reply)
      else
        match NormalizedDays(dailyWorkouts.fields, DaysOfWeek)
        case None => Result.Failure(Internal(RuntimeTypeError))
        case Some(week) => Success(Obj(reply.fields["dailyWorkouts" := Obj(week)]))
  }

  /** What the callable answers for a given reply text. */
  function ProcessReply(responseText: string, parse: string -> Option<Value>): Result<Value, CallError>
  {
    match ParsedReply(responseText, parse)
    case None => Result.Failure(Internal(NotJson))
    case Some(reply) => NormalizedReply(reply)
  }

  /** The handler from the resolved schedule on. It returns the routine or
      the error, and the reconciliation outcome it logs (`None` when the
      reply is refused before the check runs). */
  method GenerateAiRoutine(o: Onboarding, previous: Option<PreviousRoutine>,
                           generate: seq<Section> -> string, parse: string -> Option<Value>)
    returns (result: Result<Value, CallError>, outcome: Option<Outcome>)
    ensures var sp := Resolved(o.frequency, o.workoutDays);
      var responseText := generate(PromptSections(o, previous, sp.count, sp.useSpecifiedDays));
      && result == ProcessReply(responseText, parse)
      && (outcome.Some? <==>
            ParsedReply(responseText, parse).Some? && WellShaped(ParsedReply(responseText, parse).value))
      && (outcome.Some? ==>
            outcome.value == Reconciliation(sp.useSpecifiedDays, sp.count, o.workoutDays,
              GeneratedWorkoutDays(ParsedReply(responseText, parse).value.fields["dailyWorkouts"])))
  {
    var actualWorkoutDaysCount, useSpecifiedDays := ResolveSchedule(o.frequency, o.workoutDays);
    var promptSections := BuildPromptSections(o, previous, actualWorkoutDaysCount, useSpecifiedDays);
    var responseText := generate(promptSections);
    outcome := None;

    var jsonStringToParse := Trim(responseText);
    if jsonStringToParse == [] {
      result := Result.Failure(Internal(NotJson));
      return;
    }
    var parsed := parse(jsonStringToParse);
    if parsed.None? {
      result := Result.Failure(Internal(NotJson));
      return;
    }
    var parsedRoutine := parsed.value;
    var structureError := CheckTopLevel(parsedRoutine);
    if structureError.Some? {
      result := Result.Failure(structureError.value);
      return;
    }

    var dailyWorkouts := parsedRoutine.fields["dailyWorkouts"];
    var reported := ReconcileDays(useSpecifiedDays, actualWorkoutDaysCount, o.workoutDays, dailyWorkouts);
    outcome := Some(reported);

    if dailyWorkouts.Arr? {
      result := Success(parsedRoutine);
      return;
    }
    var week := NormalizeDailyWorkouts(dailyWorkouts.fields);
    if week.None? {
      result := Result.Failure(Internal(RuntimeTypeError));
      return;
    }
    result := Success(Obj(parsedRoutine.fields["dailyWorkouts" := Obj(week.value)]));
  }

  /** A parsed reply is refused exactly when its top level is malformed,
      with the reason the top-level check names, or when a canonical day's
      array holds an entry that is neither object nor array, as a runtime
      type error. */
  lemma ReplyRefusals(reply: Value)
    ensures !WellShaped(reply) ==> NormalizedReply(reply) == Result.Failure(CheckTopLevel(reply).value)
    ensures NormalizedReply(reply).Failure? <==>
              || !WellShaped(reply)
              || (reply.fields["dailyWorkouts"].Obj? &&
                  !forall d :: d in DaysOfWeek ==> RepairedDay(Get(reply.fields["dailyWorkouts"].fields, d)).Some?)
    ensures WellShaped(reply) && NormalizedReply(reply).Failure? ==>
              NormalizedReply(reply) == Result.Failure(Internal(RuntimeTypeError))
  {
    if WellShaped(reply) && reply.fields["dailyWorkouts"].Obj? {
      NormalizedWeek(reply.fields["dailyWorkouts"].fields);
    }
  }

  /** The request fails with `internal` exactly when the trimmed text is
      empty, does not parse, or the parsed reply is refused; a blank or
      unparsable text is reported as such. */
  lemma Refusals(responseText: string, parse: string -> Option<Value>)
    ensures IsBlank(responseText) ==> ProcessReply(responseText, parse) == Result.Failure(Internal(NotJson))
    ensures !IsBlank(responseText) && parse(Trim(responseText)).None? ==>
              ProcessReply(responseText, parse) == Result.Failure(Internal(NotJson))
    ensures ProcessReply(responseText, parse).Failure? <==>
              ParsedReply(responseText, parse).None? || NormalizedReply(ParsedReply(responseText, parse).value).Failure?
  {
  }

  /** An accepted reply keeps its top level: it is still well shaped, every
      field but `dailyWorkouts` is unchanged, an array `dailyWorkouts` is
      unchanged, and an object one becomes the normalised week. */
  lemma AcceptedTopLevel(reply: Value)
    requires NormalizedReply(reply).Success?
    ensures var out := NormalizedReply(reply).value;
      && out.Obj? && reply.Obj? && WellShaped(out)
      && out.fields.Keys == reply.fields.Keys
      && (forall k :: k in reply.fields && k != "dailyWorkouts" ==> out.fields[k] == reply.fields[k])
      && (reply.fields["dailyWorkouts"].Arr? ==> out == reply)
      && (reply.fields["dailyWorkouts"].Obj? ==>
            NormalizedDays(reply.fields["dailyWorkouts"].fields, DaysOfWeek).Some? &&
            out.fields["dailyWorkouts"] == Obj(NormalizedDays(reply.fields["dailyWorkouts"].fields, DaysOfWeek).value))
  {
  }

  /** In an accepted reply with an object `dailyWorkouts`, each canonical
      day holds an array whose entries are arrays or repaired exercise
      objects: none when the day held no array, and otherwise as many as
      the day's array held. Other keys keep their values. */
  lemma AcceptedWeek(reply: Value)
    requires NormalizedReply(reply).Success?
    requires reply.Obj? && "dailyWorkouts" in reply.fields && reply.fields["dailyWorkouts"].Obj?
    ensures var dailyWorkouts := reply.fields["dailyWorkouts"].fields;
      var week := NormalizedReply(reply).value.fields["dailyWorkouts"];
      && week.Obj?
      && (forall d :: d in DaysOfWeek ==>
            && d in week.fields && week.fields[d].Arr?
            && (forall x :: x in week.fields[d].items ==> x.Arr? || (x.Obj? && IsRepaired(x.fields)))
            && |week.fields[d].items| == (if Get(dailyWorkouts, d).Arr? then |Get(dailyWorkouts, d).items| else 0))
      && (forall k :: k !in DaysOfWeek ==> Get(week.fields, k) == Get(dailyWorkouts, k))
  {
    var dailyWorkouts := reply.fields["dailyWorkouts"].fields;
    NormalizedWeek(dailyWorkouts);
    NormalizedWeekEntries(dailyWorkouts);
    assert NormalizedReply(reply).value.fields["dailyWorkouts"] == Obj(NormalizedDays(dailyWorkouts, DaysOfWeek).value);
  }

  /** An array `dailyWorkouts` passes the top-level check and comes back as
      it was, without any of the seven day keys: `[]` is accepted as a week. */
  lemma ArrayWeekPassesThrough()
    ensures var reply := Obj(map["name" := Str("Plan"), "durationInWeeks" := Num(4.0),
                                 "dailyWorkouts" := Arr([])]);
      && NormalizedReply(reply) == Success(reply)
      && forall d :: d in DaysOfWeek ==> d !in NormalizedReply(reply).value.fields
  {
    var reply := Obj(map["name" := Str("Plan"), "durationInWeeks" := Num(4.0), "dailyWorkouts" := Arr([])]);
    assert !IsJsSpace('P') && !IsJsSpace('n');
    TrimOfTrimmed("Plan");
    assert WellShaped(reply);
  }

  /** Normalising an accepted reply again returns it unchanged. */
  lemma NormalizedReplyIdempotent(reply: Value)
    requires NormalizedReply(reply).Success?
    ensures NormalizedReply(NormalizedReply(reply).value) == NormalizedReply(reply)
  {
    var out := NormalizedReply(reply).value;
    var dailyWorkouts := reply.fields["dailyWorkouts"];
    if dailyWorkouts.Obj? {
      NormalizedWeekIdempotent(dailyWorkouts.fields);
      var week := NormalizedDays(dailyWorkouts.fields, DaysOfWeek).value;
      assert out.fields["dailyWorkouts" := Obj(week)] == out.fields;
    }
  }
}
