/** The section-selection rules of the prompt `generateAiRoutine` sends:
    which lines are pushed, in which order, for a given onboarding profile,
    previous routine and resolved schedule. The literal wording of each line
    is abstracted into a `Section` constructor carrying the values the line
    interpolates. */
module Prompt {
  import opened JsValues
  import opened Schedule

  /** `physical_stats`; an absent or `null` field is `None`. */
  datatype PhysicalStats = PhysicalStats(
    age: Option<real>,
    weightKg: Option<real>,
    heightM: Option<real>,
    targetWeightKg: Option<real>)

  /** The onboarding answers the prompt reads. An absent list is `[]`; the
      frequency is already split into numbers. */
  datatype Onboarding = Onboarding(
    goal: Option<string>,
    gender: Option<string>,
    experience: Option<string>,
    frequency: Option<Frequency>,
    workoutDays: seq<string>,
    equipment: seq<string>,
    focusAreas: seq<string>,
    physicalStats: Option<PhysicalStats>)

  /** `previousRoutineData`, when the caller sends one. */
  datatype PreviousRoutine = PreviousRoutine(name: Option<string>, durationInWeeks: Option<real>)

  /** One pushed line of the prompt, by the values it interpolates. */
  datatype Section =
    | RoleFraming
    | ProfileHeader
    | Goal(goal: string)
    | Gender(gender: string)
    | Experience(level: string)
    | ExactDays(count: int, days: seq<string>)
    | DesiredDayCount(count: int)
    | PreferredDays(count: int, days: seq<string>)
    | Equipment(items: seq<string>)
    | BodyweightOnly
    | FocusAreas(areas: seq<string>)
    | StatsHeader
    | Age(years: real)
    | Weight(kg: real)
    | Height(meters: real)
    | TargetWeight(kg: real)
    | PreviousHeader
    | PreviousName(name: string)
    | PreviousDuration(weeks: real)
    | ProgressionNote
    | OutputInstructions  // the fixed output-structure lines and JSON example

  const NotSpecified: string := "Not specified"
  const DefaultExperience: string := "Beginner"

  /** `s || fallback` on an optional string: an absent or empty answer
      gives the fallback. */
  function OrDefault(s: Option<string>, fallback: string): (r: string)
    ensures s.Some? && s.value != "" ==> r == s.value
    ensures s.None? || s.value == "" ==> r == fallback
  {
    if s.Some? && s.value != "" then s.value else fallback
  }

  /** `previousRoutine?.name` is truthy. */
  predicate HasPreviousName(previous: Option<PreviousRoutine>)
  {
    previous.Some? && previous.value.name.Some? && previous.value.name.value != ""
  }

  /** The days are given as an exact schedule. */
  predicate ExactSchedule(o: Onboarding, useSpecifiedDays: bool)
  {
    useSpecifiedDays && |o.workoutDays| > 0
  }

  function ProfileSections(o: Onboarding): seq<Section>
  {
    [ProfileHeader, Goal(OrDefault(o.goal, NotSpecified)), Gender(OrDefault(o.gender, NotSpecified)),
     Experience(OrDefault(o.experience, DefaultExperience))]
  }

  function DaySections(o: Onboarding, count: int, useSpecifiedDays: bool): seq<Section>
  {
    if ExactSchedule(o, useSpecifiedDays) then [ExactDays(count, o.workoutDays)]
    else [DesiredDayCount(count)] + (if |o.workoutDays| > 0 then [PreferredDays(count, o.workoutDays)] else [])
  }

  /** The day part holds the exact-days line for an exact schedule, and
      otherwise the desired-count line followed, when days are given, by
      the preferred-days line. */
  lemma DayMembers(o: Onboarding, count: int, useSpecifiedDays: bool)
    ensures forall s :: s in DaySections(o, count, useSpecifiedDays) <==>
      || (ExactSchedule(o, useSpecifiedDays) && s == ExactDays(count, o.workoutDays))
      || (!ExactSchedule(o, useSpecifiedDays) && s == DesiredDayCount(count))
      || (!useSpecifiedDays && |o.workoutDays| > 0 && s == PreferredDays(count, o.workoutDays))
  {
    if !ExactSchedule(o, useSpecifiedDays) {
      var d := if |o.workoutDays| > 0 then [PreferredDays(count, o.workoutDays)] else [];
      assert DaySections(o, count, useSpecifiedDays) == [DesiredDayCount(count)] + d;
    }
  }

  function EquipmentSections(o: Onboarding): seq<Section>
  {
    (if |o.equipment| > 0 then [Equipment(o.equipment)] else [BodyweightOnly])
    + (if |o.focusAreas| > 0 then [FocusAreas(o.focusAreas)] else [])
  }

  /** The equipment part holds the equipment line or "Bodyweight only",
      and the focus line when focus areas are listed. */
  lemma EquipmentMembers(o: Onboarding)
    ensures forall s :: s in EquipmentSections(o) <==>
      || (|o.equipment| > 0 && s == Equipment(o.equipment))
      || (|o.equipment| == 0 && s == BodyweightOnly)
      || (|o.focusAreas| > 0 && s == FocusAreas(o.focusAreas))
  {
    var e := if |o.equipment| > 0 then [Equipment(o.equipment)] else [BodyweightOnly];
    var f := if |o.focusAreas| > 0 then [FocusAreas(o.focusAreas)] else [];
    assert EquipmentSections(o) == e + f;
  }

  /** One line per stat that is present. */
  function StatLines(p: PhysicalStats): seq<Section>
  {
    (if p.age.Some? then [Age(p.age.value)] else [])
    + (if p.weightKg.Some? then [Weight(p.weightKg.value)] else [])
    + (if p.heightM.Some? then [Height(p.heightM.value)] else [])
    + (if p.targetWeightKg.Some? then [TargetWeight(p.targetWeightKg.value)] else [])
  }

  /** A stat line is present exactly when its value is. */
  lemma StatLinesMembers(p: PhysicalStats)
    ensures forall s :: s in StatLines(p) <==>
      || (p.age.Some? && s == Age(p.age.value))
      || (p.weightKg.Some? && s == Weight(p.weightKg.value))
      || (p.heightM.Some? && s == Height(p.heightM.value))
      || (p.targetWeightKg.Some? && s == TargetWeight(p.targetWeightKg.value))
  {
    var a := if p.age.Some? then [Age(p.age.value)] else [];
    var w := if p.weightKg.Some? then [Weight(p.weightKg.value)] else [];
    var h := if p.heightM.Some? then [Height(p.heightM.value)] else [];
    var t := if p.targetWeightKg.Some? then [TargetWeight(p.targetWeightKg.value)] else [];
    assert StatLines(p) == a + w + h + t;
  }

  function StatsSections(o: Onboarding): seq<Section>
  {
    if o.physicalStats.Some? then [StatsHeader] + StatLines(o.physicalStats.value) else []
  }

  /** The statistics part, when stats are given, holds the header and one
      line per stat that is present. */
  lemma StatsMembers(o: Onboarding)
    ensures var st := o.physicalStats;
      forall s :: s in StatsSections(o) <==>
        st.Some? &&
        (|| s == StatsHeader
         || (st.value.age.Some? && s == Age(st.value.age.value))
         || (st.value.weightKg.Some? && s == Weight(st.value.weightKg.value))
         || (st.value.heightM.Some? && s == Height(st.value.heightM.value))
         || (st.value.targetWeightKg.Some? && s == TargetWeight(st.value.targetWeightKg.value)))
  {
    if o.physicalStats.Some? {
      StatLinesMembers(o.physicalStats.value);
    }
  }

  function PreviousSections(previous: Option<PreviousRoutine>): seq<Section>
  {
    if HasPreviousName(previous) then
      var p := previous.value;
      [PreviousHeader, PreviousName(p.name.value)]
      + (if p.durationInWeeks.Some? then [PreviousDuration(p.durationInWeeks.value)] else [])
      + [ProgressionNote]
    else []
  }

  /** The previous-routine part, when present, holds the header, the name,
      the duration when given, and the progression note. */
  lemma PreviousMembers(previous: Option<PreviousRoutine>)
    ensures forall s :: s in PreviousSections(previous) <==>
      HasPreviousName(previous) &&
      (|| s == PreviousHeader
       || s == PreviousName(previous.value.name.value)
       || (previous.value.durationInWeeks.Some? && s == PreviousDuration(previous.value.durationInWeeks.value))
       || s == ProgressionNote)
  {
    if HasPreviousName(previous) {
      var p := previous.value;
      var d := if p.durationInWeeks.Some? then [PreviousDuration(p.durationInWeeks.value)] else [];
      assert PreviousSections(previous) == [PreviousHeader, PreviousName(p.name.value)] + d + [ProgressionNote];
    }
  }

  /** The prompt's lines, in the order they are pushed. */
  function PromptSections(o: Onboarding, previous: Option<PreviousRoutine>, count: int,
                          useSpecifiedDays: bool): seq<Section>
  {
    [RoleFraming] + ProfileSections(o) + DaySections(o, count, useSpecifiedDays)
    + EquipmentSections(o) + StatsSections(o) + PreviousSections(previous) + [OutputInstructions]
  }

  /** The prompt as the handler builds it: pushes onto one array. */
  method BuildPromptSections(o: Onboarding, previous: Option<PreviousRoutine>, count: int,
                             useSpecifiedDays: bool) returns (promptSections: seq<Section>)
    ensures promptSections == PromptSections(o, previous, count, useSpecifiedDays)
  {
    promptSections := [RoleFraming];
    promptSections := promptSections + [ProfileHeader];
    promptSections := promptSections + [Goal(OrDefault(o.goal, NotSpecified))];
    promptSections := promptSections + [Gender(OrDefault(o.gender, NotSpecified))];
    promptSections := promptSections + [Experience(OrDefault(o.experience, DefaultExperience))];
    assert promptSections == [RoleFraming] + ProfileSections(o);
    promptSections := PushDaySections(promptSections, o, count, useSpecifiedDays);
    promptSections := PushEquipmentSections(promptSections, o);
    promptSections := PushStatsSections(promptSections, o);
    promptSections := PushPreviousSections(promptSections, previous);
    promptSections := promptSections + [OutputInstructions];
  }

  method PushDaySections(sections: seq<Section>, o: Onboarding, count: int, useSpecifiedDays: bool)
    returns (promptSections: seq<Section>)
    ensures promptSections == sections + DaySections(o, count, useSpecifiedDays)
  {
    var preferredDaysSelected := |o.workoutDays| > 0;
    promptSections := sections;
    if useSpecifiedDays && |o.workoutDays| > 0 {
      promptSections := promptSections + [ExactDays(count, o.workoutDays)];
    } else {
      promptSections := promptSections + [DesiredDayCount(count)];
      if preferredDaysSelected {
        promptSections := promptSections + [PreferredDays(count, o.workoutDays)];
      }
    }
  }

  method PushEquipmentSections(sections: seq<Section>, o: Onboarding) returns (promptSections: seq<Section>)
    ensures promptSections == sections + EquipmentSections(o)
  {
    promptSections := sections;
    if |o.equipment| > 0 {
      promptSections := promptSections + [Equipment(o.equipment)];
    } else {
      promptSections := promptSections + [BodyweightOnly];
    }
    if |o.focusAreas| > 0 {
      promptSections := promptSections + [FocusAreas(o.focusAreas)];
    }
  }

  method PushStatsSections(sections: seq<Section>, o: Onboarding) returns (promptSections: seq<Section>)
    ensures promptSections == sections + StatsSections(o)
  {
    promptSections := sections;
    if o.physicalStats.Some? {
      var stats := o.physicalStats.value;
      promptSections := promptSections + [StatsHeader];
      if stats.age.Some? {
        promptSections := promptSections + [Age(stats.age.value)];
      }
      if stats.weightKg.Some? {
        promptSections := promptSections + [Weight(stats.weightKg.value)];
      }
      if stats.heightM.Some? {
        promptSections := promptSections + [Height(stats.heightM.value)];
      }
      if stats.targetWeightKg.Some? {
        promptSections := promptSections + [TargetWeight(stats.targetWeightKg.value)];
      }
    }
  }

  method PushPreviousSections(sections: seq<Section>, previous: Option<PreviousRoutine>)
    returns (promptSections: seq<Section>)
    ensures promptSections == sections + PreviousSections(previous)
  {
    promptSections := sections;
    if previous.Some? && previous.value.name.Some? && previous.value.name.value != "" {
      promptSections := promptSections + [PreviousHeader];
      promptSections := promptSections + [PreviousName(previous.value.name.value)];
      if previous.value.durationInWeeks.Some? {
        promptSections := promptSections + [PreviousDuration(previous.value.durationInWeeks.value)];
      }
      promptSections := promptSections + [ProgressionNote];
    }
  }

  /** The prompt opens with the role framing and the profile header and
      closes with the output instructions; the goal, gender and experience
      lines always appear, with their fallbacks. */
  lemma PromptFrame(o: Onboarding, previous: Option<PreviousRoutine>, count: int, useSpecifiedDays: bool)
    ensures var p := PromptSections(o, previous, count, useSpecifiedDays);
      && |p| >= 7 && p[0] == RoleFraming && p[1] == ProfileHeader && p[|p| - 1] == OutputInstructions
      && p[2] == Goal(if o.goal.Some? && o.goal.value != "" then o.goal.value else "Not specified")
      && p[3] == Gender(if o.gender.Some? && o.gender.value != "" then o.gender.value else "Not specified")
      && p[4] == Experience(if o.experience.Some? && o.experience.value != "" then o.experience.value
                            else "Beginner")
  {
    FrameOf(PromptSections(o, previous, count, useSpecifiedDays), [RoleFraming] + ProfileSections(o),
            DaySections(o, count, useSpecifiedDays), EquipmentSections(o), StatsSections(o),
            PreviousSections(previous));
  }

  /** A five-line head, four parts and the output instructions: the head
      opens the prompt and the instructions close it. */
  lemma FrameOf(p: seq<Section>, head: seq<Section>, a: seq<Section>, b: seq<Section>, c: seq<Section>,
                d: seq<Section>)
    requires |head| == 5 && p == head + a + b + c + d + [OutputInstructions]
    ensures |p| >= 6 && p[..5] == head && p[|p| - 1] == OutputInstructions
  {
    assert p == head + (a + b + c + d) + [OutputInstructions];
  }

  /** The part of the prompt a line belongs to, in push order. */
  function PartOf(s: Section): nat
  {
    match s
    case RoleFraming => 0
    case ProfileHeader | Goal(_) | Gender(_) | Experience(_) => 1
    case ExactDays(_, _) | DesiredDayCount(_) | PreferredDays(_, _) => 2
    case Equipment(_) | BodyweightOnly | FocusAreas(_) => 3
    case StatsHeader | Age(_) | Weight(_) | Height(_) | TargetWeight(_) => 4
    case PreviousHeader | PreviousName(_) | PreviousDuration(_) | ProgressionNote => 5
    case OutputInstructions => 6
  }

  /** The lines of `p` that belong to part `k`, in order. */
  function PartLines(p: seq<Section>, k: nat): seq<Section>
  {
    if p == [] then []
    else (if PartOf(p[0]) == k then [p[0]] else []) + PartLines(p[1..], k)
  }

  lemma {:induction false} PartLinesMembers(p: seq<Section>, k: nat, s: Section)
    ensures s in PartLines(p, k) <==> s in p && PartOf(s) == k
  {
    if p != [] {
      PartLinesMembers(p[1..], k, s);
      assert s in p <==> s == p[0] || s in p[1..];
    }
  }

  /** A line of part `k` is in `p` exactly when it is in that part. */
  lemma PartMembership(p: seq<Section>, k: nat, part: seq<Section>)
    requires PartLines(p, k) == part
    ensures forall s :: PartOf(s) == k ==> (s in p <==> s in part)
  {
    forall s | PartOf(s) == k
      ensures s in p <==> s in part
    {
      PartLinesMembers(p, k, s);
    }
  }

  lemma {:induction false} PartLinesConcat(a: seq<Section>, b: seq<Section>, k: nat)
    ensures PartLines(a + b, k) == PartLines(a, k) + PartLines(b, k)
  {
    if a != [] {
      assert (a + b)[1..] == a[1..] + b;
      PartLinesConcat(a[1..], b, k);
    } else {
      assert a + b == b;
    }
  }

  /** A part whose lines all belong to `k` is its own filter. */
  lemma {:induction false} PartLinesAll(p: seq<Section>, k: nat)
    requires forall s :: s in p ==> PartOf(s) == k
    ensures PartLines(p, k) == p
  {
    if p != [] {
      assert p[0] in p;
      PartLinesAll(p[1..], k);
    }
  }

  /** A part with no line of `k` filters to nothing. */
  lemma {:induction false} PartLinesNone(p: seq<Section>, k: nat)
    requires forall s :: s in p ==> PartOf(s) != k
    ensures PartLines(p, k) == []
  {
    if p != [] {
      assert p[0] in p;
      PartLinesNone(p[1..], k);
    }
  }

  /** A part whose lines all carry tag `j` filters to itself under `j` and
      to nothing under any other tag. */
  lemma PartLinesOfTagged(p: seq<Section>, j: nat, k: nat)
    requires forall s :: s in p ==> PartOf(s) == j
    ensures PartLines(p, k) == if k == j then p else []
  {
    if k == j { PartLinesAll(p, k); } else { PartLinesNone(p, k); }
  }

  lemma HeadTagged(o: Onboarding, k: nat)
    requires k >= 2
    ensures PartLines([RoleFraming] + ProfileSections(o), k) == []
  {
    PartLinesNone([RoleFraming] + ProfileSections(o), k);
  }

  lemma DaysTagged(o: Onboarding, count: int, useSpecifiedDays: bool, k: nat)
    ensures PartLines(DaySections(o, count, useSpecifiedDays), k) ==
              if k == 2 then DaySections(o, count, useSpecifiedDays) else []
  {
    PartLinesOfTagged(DaySections(o, count, useSpecifiedDays), 2, k);
  }

  lemma EquipmentTagged(o: Onboarding, k: nat)
    ensures PartLines(EquipmentSections(o), k) == if k == 3 then EquipmentSections(o) else []
  {
    PartLinesOfTagged(EquipmentSections(o), 3, k);
  }

  lemma StatsTagged(o: Onboarding, k: nat)
    ensures PartLines(StatsSections(o), k) == if k == 4 then StatsSections(o) else []
  {
    if o.physicalStats.Some? {
      StatLinesMembers(o.physicalStats.value);
    }
    PartLinesOfTagged(StatsSections(o), 4, k);
  }

  lemma PreviousTagged(previous: Option<PreviousRoutine>, k: nat)
    ensures PartLines(PreviousSections(previous), k) == if k == 5 then PreviousSections(previous) else []
  {
    PartLinesOfTagged(PreviousSections(previous), 5, k);
  }

  /** Filtering the whole prompt by part `k` gives that part of it. */
  lemma {:induction false} PromptPart(o: Onboarding, previous: Option<PreviousRoutine>, count: int,
                                      useSpecifiedDays: bool, k: nat)
    requires 2 <= k <= 5
    ensures PartLines(PromptSections(o, previous, count, useSpecifiedDays), k) ==
              if k == 2 then DaySections(o, count, useSpecifiedDays)
              else if k == 3 then EquipmentSections(o)
              else if k == 4 then StatsSections(o)
              else PreviousSections(previous)
  {
    var head := [RoleFraming] + ProfileSections(o);
    var days := DaySections(o, count, useSpecifiedDays);
    var eq, st, pr := EquipmentSections(o), StatsSections(o), PreviousSections(previous);
    var tail := [OutputInstructions];
    HeadTagged(o, k);
    PartLinesNone(tail, k);
    DaysTagged(o, count, useSpecifiedDays, k);
    EquipmentTagged(o, k);
    StatsTagged(o, k);
    PreviousTagged(previous, k);
    PartLinesConcat6(head, days, eq, st, pr, tail, k);
  }

  lemma PartLinesConcat6(a: seq<Section>, b: seq<Section>, c: seq<Section>, d: seq<Section>,
                         e: seq<Section>, f: seq<Section>, k: nat)
    ensures PartLines(a + b + c + d + e + f, k) ==
              PartLines(a, k) + PartLines(b, k) + PartLines(c, k) + PartLines(d, k) + PartLines(e, k)
              + PartLines(f, k)
  {
    PartLinesConcat(a, b, k);
    PartLinesConcat(a + b, c, k);
    PartLinesConcat(a + b + c, d, k);
    PartLinesConcat(a + b + c + d, e, k);
    PartLinesConcat(a + b + c + d + e, f, k);
  }

  /** The CRITICAL exact-days line appears exactly when the days are
      mandatory and given, and then names the count and the days; the
      desired-count line appears exactly otherwise; the preferred-days line
      appears exactly when days are given but not mandatory. */
  lemma DayLines(o: Onboarding, previous: Option<PreviousRoutine>, count: int, useSpecifiedDays: bool)
    ensures var p := PromptSections(o, previous, count, useSpecifiedDays);
      var exact := useSpecifiedDays && |o.workoutDays| > 0;
      && (forall c, ds :: ExactDays(c, ds) in p <==> exact && c == count && ds == o.workoutDays)
      && (forall c :: DesiredDayCount(c) in p <==> !exact && c == count)
      && (forall c, ds :: PreferredDays(c, ds) in p <==>
            !useSpecifiedDays && |o.workoutDays| > 0 && c == count && ds == o.workoutDays)
  {
    var p := PromptSections(o, previous, count, useSpecifiedDays);
    PromptPart(o, previous, count, useSpecifiedDays, 2);
    PartMembership(p, 2, DaySections(o, count, useSpecifiedDays));
    DayMembers(o, count, useSpecifiedDays);
    DaysPart(p, DaySections(o, count, useSpecifiedDays), o, count, useSpecifiedDays);
  }

  lemma DaysPart(p: seq<Section>, part: seq<Section>, o: Onboarding, count: int, useSpecifiedDays: bool)
    requires forall s :: PartOf(s) == 2 ==> (s in p <==> s in part)
    requires forall s :: s in part <==>
      || (ExactSchedule(o, useSpecifiedDays) && s == ExactDays(count, o.workoutDays))
      || (!ExactSchedule(o, useSpecifiedDays) && s == DesiredDayCount(count))
      || (!useSpecifiedDays && |o.workoutDays| > 0 && s == PreferredDays(count, o.workoutDays))
    ensures var exact := useSpecifiedDays && |o.workoutDays| > 0;
      && (forall c, ds :: ExactDays(c, ds) in p <==> exact && c == count && ds == o.workoutDays)
      && (forall c :: DesiredDayCount(c) in p <==> !exact && c == count)
      && (forall c, ds :: PreferredDays(c, ds) in p <==>
            !useSpecifiedDays && |o.workoutDays| > 0 && c == count && ds == o.workoutDays)
  {
    forall c, ds ensures ExactDays(c, ds) in p <==> ExactDays(c, ds) in part {
    }
    forall c ensures DesiredDayCount(c) in p <==> DesiredDayCount(c) in part {
    }
    forall c, ds ensures PreferredDays(c, ds) in p <==> PreferredDays(c, ds) in part {
    }
  }

  /** "Bodyweight only" appears exactly when no equipment is listed, and the
      equipment line exactly when some is, carrying the list; the focus line
      appears exactly when focus areas are listed. */
  lemma EquipmentLines(o: Onboarding, previous: Option<PreviousRoutine>, count: int, useSpecifiedDays: bool)
    ensures var p := PromptSections(o, previous, count, useSpecifiedDays);
      && (BodyweightOnly in p <==> |o.equipment| == 0)
      && (forall e :: Equipment(e) in p <==> |o.equipment| > 0 && e == o.equipment)
      && (forall f :: FocusAreas(f) in p <==> |o.focusAreas| > 0 && f == o.focusAreas)
  {
    var p := PromptSections(o, previous, count, useSpecifiedDays);
    PromptPart(o, previous, count, useSpecifiedDays, 3);
    PartMembership(p, 3, EquipmentSections(o));
    EquipmentMembers(o);
    EquipmentPart(p, EquipmentSections(o), o);
  }

  lemma EquipmentPart(p: seq<Section>, part: seq<Section>, o: Onboarding)
    requires forall s :: PartOf(s) == 3 ==> (s in p <==> s in part)
    requires forall s :: s in part <==>
      || (|o.equipment| > 0 && s == Equipment(o.equipment))
      || (|o.equipment| == 0 && s == BodyweightOnly)
      || (|o.focusAreas| > 0 && s == FocusAreas(o.focusAreas))
    ensures && (BodyweightOnly in p <==> |o.equipment| == 0)
            && (forall e :: Equipment(e) in p <==> |o.equipment| > 0 && e == o.equipment)
            && (forall f :: FocusAreas(f) in p <==> |o.focusAreas| > 0 && f == o.focusAreas)
  {
    assert BodyweightOnly in p <==> BodyweightOnly in part;
    forall e ensures Equipment(e) in p <==> Equipment(e) in part {
    }
    forall f ensures FocusAreas(f) in p <==> FocusAreas(f) in part {
    }
  }

  /** The statistics header appears exactly when `physical_stats` is given,
      and each stat line exactly when its value is present, carrying that
      value. */
  lemma StatLinesPresent(o: Onboarding, previous: Option<PreviousRoutine>, count: int, useSpecifiedDays: bool)
    ensures var p := PromptSections(o, previous, count, useSpecifiedDays);
      var st := o.physicalStats;
      && (StatsHeader in p <==> st.Some?)
      && (forall a :: Age(a) in p <==> st.Some? && st.value.age == Some(a))
      && (forall w :: Weight(w) in p <==> st.Some? && st.value.weightKg == Some(w))
      && (forall h :: Height(h) in p <==> st.Some? && st.value.heightM == Some(h))
      && (forall w :: TargetWeight(w) in p <==> st.Some? && st.value.targetWeightKg == Some(w))
  {
    var p := PromptSections(o, previous, count, useSpecifiedDays);
    PromptPart(o, previous, count, useSpecifiedDays, 4);
    PartMembership(p, 4, StatsSections(o));
    StatsMembers(o);
    StatsPart(p, StatsSections(o), o.physicalStats);
  }

  lemma StatsPart(p: seq<Section>, part: seq<Section>, st: Option<PhysicalStats>)
    requires forall s :: PartOf(s) == 4 ==> (s in p <==> s in part)
    requires forall s :: s in part <==>
        st.Some? &&
        (|| s == StatsHeader
         || (st.value.age.Some? && s == Age(st.value.age.value))
         || (st.value.weightKg.Some? && s == Weight(st.value.weightKg.value))
         || (st.value.heightM.Some? && s == Height(st.value.heightM.value))
         || (st.value.targetWeightKg.Some? && s == TargetWeight(st.value.targetWeightKg.value)))
    ensures && (StatsHeader in p <==> st.Some?)
      && (forall a :: Age(a) in p <==> st.Some? && st.value.age == Some(a))
      && (forall w :: Weight(w) in p <==> st.Some? && st.value.weightKg == Some(w))
      && (forall h :: Height(h) in p <==> st.Some? && st.value.heightM == Some(h))
      && (forall w :: TargetWeight(w) in p <==> st.Some? && st.value.targetWeightKg == Some(w))
  {
    assert StatsHeader in p <==> StatsHeader in part;
    forall a ensures Age(a) in p <==> st.Some? && st.value.age == Some(a) {
      assert Age(a) in p <==> Age(a) in part;
    }
    forall w ensures Weight(w) in p <==> st.Some? && st.value.weightKg == Some(w) {
      assert Weight(w) in p <==> Weight(w) in part;
    }
    forall h ensures Height(h) in p <==> st.Some? && st.value.heightM == Some(h) {
      assert Height(h) in p <==> Height(h) in part;
    }
    forall w ensures TargetWeight(w) in p <==> st.Some? && st.value.targetWeightKg == Some(w) {
      assert TargetWeight(w) in p <==> TargetWeight(w) in part;
    }
  }

  /** The previous-routine block appears exactly when the previous routine
      has a non-empty name, and names it; its duration line appears exactly
      when, in addition, the duration is present. */
  lemma PreviousBlock(o: Onboarding, previous: Option<PreviousRoutine>, count: int, useSpecifiedDays: bool)
    ensures var p := PromptSections(o, previous, count, useSpecifiedDays);
      && (PreviousHeader in p <==> HasPreviousName(previous))
      && (ProgressionNote in p <==> HasPreviousName(previous))
      && (forall n :: PreviousName(n) in p <==> HasPreviousName(previous) && previous.value.name == Some(n))
      && (forall w :: PreviousDuration(w) in p <==>
            HasPreviousName(previous) && previous.value.durationInWeeks == Some(w))
  {
    var p := PromptSections(o, previous, count, useSpecifiedDays);
    PromptPart(o, previous, count, useSpecifiedDays, 5);
    PartMembership(p, 5, PreviousSections(previous));
    PreviousMembers(previous);
    PreviousPart(p, PreviousSections(previous), previous);
  }

  lemma PreviousPart(p: seq<Section>, part: seq<Section>, previous: Option<PreviousRoutine>)
    requires forall s :: PartOf(s) == 5 ==> (s in p <==> s in part)
    requires forall s :: s in part <==>
      HasPreviousName(previous) &&
      (|| s == PreviousHeader
       || s == PreviousName(previous.value.name.value)
       || (previous.value.durationInWeeks.Some? && s == PreviousDuration(previous.value.durationInWeeks.value))
       || s == ProgressionNote)
    ensures && (PreviousHeader in p <==> HasPreviousName(previous))
            && (ProgressionNote in p <==> HasPreviousName(previous))
            && (forall n :: PreviousName(n) in p <==> HasPreviousName(previous) && previous.value.name == Some(n))
            && (forall w :: PreviousDuration(w) in p <==>
                  HasPreviousName(previous) && previous.value.durationInWeeks == Some(w))
  {
    assert PreviousHeader in p <==> PreviousHeader in part;
    assert ProgressionNote in p <==> ProgressionNote in part;
    forall n ensures PreviousName(n) in p <==> PreviousName(n) in part {
    }
    forall w ensures PreviousDuration(w) in p <==> PreviousDuration(w) in part {
    }
  }

  /** With the schedule the resolver produces, the exact-days line appears
      exactly when the preferred days are mandatory, and it then asks for as
      many days as were preferred and names them. */
  lemma ResolvedDayLines(o: Onboarding, previous: Option<PreviousRoutine>)
    ensures var sp := Resolved(o.frequency, o.workoutDays);
      var p := PromptSections(o, previous, sp.count, sp.useSpecifiedDays);
      forall c, ds :: ExactDays(c, ds) in p <==> sp.useSpecifiedDays && c == |o.workoutDays| && ds == o.workoutDays
  {
    var sp := Resolved(o.frequency, o.workoutDays);
    MandatoryDaysFixCount(o.frequency, o.workoutDays);
    DayLines(o, previous, sp.count, sp.useSpecifiedDays);
  }
}
