/** `StudyPlanner.generate_daily_plan`: one day's plan from the units, the
    assignments, the learning pace and the hours available. */
module Planner {
  import opened Wrappers
  import opened Records
  import opened Arith
  import opened Text
  import opened Sorting
  import opened Urgency
  import opened Candidates
  import opened Allocator
  import opened Breaks

  /** The most hours the planner schedules in a day. */
  const MaxDailyStudyHours: real := 8.0
  /** Weekend days keep 70% of the study time. */
  const WeekendReductionFactor: real := 0.7
  /** The pace at which the available hours are taken as they are. */
  const PaceNormal: real := 50.0

  /** The summary of an urgent assignment placed in the plan
      (`_assignment_to_dict`). */
  datatype AssignmentSummary = AssignmentSummary(
    id: int,
    title: string,
    kind: string,
    deadline: Timestamp,
    status: string,
    daysUntilDue: int)

  /** The plan dictionary `generate_daily_plan` returns. */
  datatype DailyPlan = DailyPlan(
    date: Timestamp,
    scheduledTopics: seq<Topic>,
    completedTopics: seq<Topic>,
    totalStudyTime: int,
    actualStudyTime: int,
    breaks: seq<Break>,
    urgentAssignments: seq<AssignmentSummary>,
    learningPace: int,
    effectiveHours: real)

  /** The study hours of the day: the available hours scaled by
      `pace / 50`, capped at 8, and cut to 70% on Saturday and Sunday
      (weekdays 5 and 6). */
  function EffectiveHours(availableHours: real, pace: int, weekday: int): real
  {
    var scaled := availableHours * (pace as real / PaceNormal);
    var capped := if MaxDailyStudyHours < scaled then MaxDailyStudyHours else scaled;
    if weekday >= 5 then capped * WeekendReductionFactor else capped
  }

  function Summarize(a: Assignment, now: Timestamp): AssignmentSummary
  {
    AssignmentSummary(a.id, a.title, a.kind, a.deadline, a.status, DaysUntil(a.deadline, now))
  }

  /** `[_assignment_to_dict(a) for a in urgent]`. */
  function Summaries(urgent: seq<Assignment>, now: Timestamp): (r: seq<AssignmentSummary>)
    ensures |r| == |urgent|
  {
    seq(|urgent|, i requires 0 <= i < |urgent| => Summarize(urgent[i], now))
  }

  /** The urgent assignments of the day, sorted by deadline. */
  function UrgentOf(assignments: seq<Assignment>, date: Timestamp): seq<Assignment>
  {
    SortBy(FilterUrgent(assignments, date), DeadlineKey)
  }

  /** The plan for `date` once the day's study hours are known, or the error
      raised while prioritizing. The urgency window is taken from `date`; the
      days until each deadline from the clock reading `now`. */
  function PlanForHours(date: Timestamp, units: seq<Unit>, assignments: seq<Assignment>,
                        pace: int, hours: real, now: Timestamp): Result<DailyPlan, PlanError>
  {
    var urgent := UrgentOf(assignments, date);
    match Prioritized(urgent, units, pace, now)
    case Failure(e) => Failure(e)
    case Success(ps) =>
      var minutes := Trunc(hours * 60.0);
      Success(DailyPlan(date, Allocation(ps, minutes), [], minutes, 0,
                        BreakSchedule(minutes), Summaries(urgent, now), pace, hours))
  }

  /** The plan for `date`: the day's weekday decides the hours, the rest is
      `PlanForHours`. */
  function DailyPlanFor(date: Timestamp, units: seq<Unit>, assignments: seq<Assignment>,
                        pace: int, availableHours: real, now: Timestamp): Result<DailyPlan, PlanError>
  {
    PlanForHours(date, units, assignments, pace, EffectiveHours(availableHours, pace, Weekday(date)), now)
  }

  /** `generate_daily_plan`: the day's hours from the pace, the cap and the
      weekday, then the plan assembled by `BuildPlan`. */
  method GenerateDailyPlan(date: Timestamp, units: seq<Unit>, assignments: seq<Assignment>,
                           learningPace: int, availableHours: real, now: Timestamp)
    returns (r: Result<DailyPlan, PlanError>)
    ensures r == DailyPlanFor(date, units, assignments, learningPace, availableHours, now)
  {
    var effectiveHours := EffectiveHours(availableHours, learningPace, Weekday(date));
    r := BuildPlan(date, units, assignments, learningPace, effectiveHours, now);
  }

  /** The body of `generate_daily_plan` after the hours are fixed: urgent
      assignments, prioritized topics, the allocation of the day's minutes
      and the break schedule, assembled into one plan; an exception while
      prioritizing becomes the error. */
  method BuildPlan(date: Timestamp, units: seq<Unit>, assignments: seq<Assignment>,
                   learningPace: int, effectiveHours: real, now: Timestamp)
    returns (r: Result<DailyPlan, PlanError>)
    ensures r == PlanForHours(date, units, assignments, learningPace, effectiveHours, now)
  {
    var urgent := GetUrgentAssignments(assignments, date);
    assert urgent == UrgentOf(assignments, date);
    var prioritized := PrioritizeTopics(units, urgent, learningPace, now);
    if prioritized.Failure? {
      return Failure(prioritized.error);
    }
    var timeSlots := AllocateTimeSlots(prioritized.value, effectiveHours);
    var breaks := GenerateBreakSchedule(effectiveHours);
    var minutes := Trunc(effectiveHours * 60.0);
    assert timeSlots == Allocation(prioritized.value, minutes);
    assert breaks == BreakSchedule(minutes);
    r := Success(DailyPlan(date, timeSlots, [], minutes, 0,
                           breaks, Summaries(urgent, now), learningPace, effectiveHours));
  }

  lemma PlanForHoursUnfold(date: Timestamp, units: seq<Unit>, assignments: seq<Assignment>,
                           pace: int, hours: real, now: Timestamp)
    ensures var urgent := UrgentOf(assignments, date);
      var ps := Prioritized(urgent, units, pace, now);
      var minutes := Trunc(hours * 60.0);
      && (ps.Failure? ==> PlanForHours(date, units, assignments, pace, hours, now) == Failure(ps.error))
      && (ps.Success? ==>
            PlanForHours(date, units, assignments, pace, hours, now)
            == Success(DailyPlan(date, Allocation(ps.value, minutes), [], minutes, 0,
                                 BreakSchedule(minutes), Summaries(urgent, now), pace, hours)))
  {
  }

  /** The day's hours never exceed 8 (5.6 at the weekend), are nonnegative
      for a nonnegative pace and availability, and are the plain scaled
      hours on a weekday under the cap. */
  lemma EffectiveHoursBounds(availableHours: real, pace: int, weekday: int)
    ensures var h := EffectiveHours(availableHours, pace, weekday);
      && h <= MaxDailyStudyHours
      && (weekday >= 5 ==> h <= MaxDailyStudyHours * WeekendReductionFactor)
      && (availableHours >= 0.0 && pace >= 0 ==> 0.0 <= h)
      && (weekday < 5 && availableHours * pace as real <= 400.0 ==> h == availableHours * pace as real / PaceNormal)
  {
    var scaled := availableHours * (pace as real / PaceNormal);
    assert scaled == availableHours * pace as real / PaceNormal;
    if availableHours >= 0.0 && pace >= 0 {
      assert availableHours * pace as real >= 0.0;
    }
  }

  /** Saturday and Sunday plans get 70% of the hours the same inputs give on
      a weekday. */
  lemma WeekendReduction(availableHours: real, pace: int, weekday: int)
    requires 5 <= weekday < 7
    ensures EffectiveHours(availableHours, pace, weekday)
            == EffectiveHours(availableHours, pace, 0) * WeekendReductionFactor
  {
  }

  /** A plan is produced exactly when no topic construction divides by a
      zero pace or indexes a template list out of range; with a positive pace
      and nonnegative progress counts it always is. */
  lemma PlanSucceedsIff(date: Timestamp, units: seq<Unit>, assignments: seq<Assignment>,
                        pace: int, availableHours: real, now: Timestamp)
    ensures DailyPlanFor(date, units, assignments, pace, availableHours, now).Success? <==>
              && (FilterUrgent(assignments, date) == [] || pace != 0)
              && forall u :: u in units ==>
                   UnitTopicCount(u) == 0
                   || (pace != 0 && (Templates(Lower(u.name)).None? || u.completedTopics >= -6))
    ensures pace != 0 && (forall u :: u in units ==> u.completedTopics >= 0) ==>
              DailyPlanFor(date, units, assignments, pace, availableHours, now).Success?
  {
    var collected := FilterUrgent(assignments, date);
    SortByIsStableSort(collected, DeadlineKey);
    assert UrgentOf(assignments, date) == [] <==> collected == [] by {
      assert |multiset(UrgentOf(assignments, date))| == |multiset(collected)|;
    }
    CandidatesSucceedIff(UrgentOf(assignments, date), units, pace, now);
  }

  /** A produced plan fits its day: the scheduled minutes stay within the
      total study time, which is at most 480 minutes; the scheduled topics
      are the leading prioritized topics in order, each with at most its
      estimate; every break falls inside the day; nothing is completed
      yet. */
  lemma PlanFitsDay(date: Timestamp, units: seq<Unit>, assignments: seq<Assignment>,
                    pace: int, availableHours: real, now: Timestamp)
    requires availableHours >= 0.0 && pace >= 0
    requires DailyPlanFor(date, units, assignments, pace, availableHours, now).Success?
    ensures var p := DailyPlanFor(date, units, assignments, pace, availableHours, now).value;
      var ps := Prioritized(UrgentOf(assignments, date), units, pace, now).value;
      && 0 <= p.totalStudyTime <= 480
      && SumTimes(p.scheduledTopics) <= p.totalStudyTime
      && |p.scheduledTopics| <= |ps|
      && (forall i :: 0 <= i < |p.scheduledTopics| ==>
            && p.scheduledTopics[i] == ps[i].(estimatedTime := p.scheduledTopics[i].estimatedTime)
            && p.scheduledTopics[i].estimatedTime <= ps[i].estimatedTime)
      && SortedBy(p.scheduledTopics, TopicKey)
      && (forall i :: 0 <= i < |p.breaks| ==> p.breaks[i].time < p.totalStudyTime)
      && p.completedTopics == [] && p.actualStudyTime == 0
  {
    var hours := EffectiveHours(availableHours, pace, Weekday(date));
    EffectiveHoursBounds(availableHours, pace, Weekday(date));
    PlanForHoursFits(date, units, assignments, pace, hours, now);
  }

  /** `PlanFitsDay` for any number of hours between zero and the daily cap. */
  lemma PlanForHoursFits(date: Timestamp, units: seq<Unit>, assignments: seq<Assignment>,
                         pace: int, hours: real, now: Timestamp)
    requires 0.0 <= hours <= MaxDailyStudyHours
    requires PlanForHours(date, units, assignments, pace, hours, now).Success?
    ensures var p := PlanForHours(date, units, assignments, pace, hours, now).value;
      var ps := Prioritized(UrgentOf(assignments, date), units, pace, now).value;
      && 0 <= p.totalStudyTime <= 480
      && SumTimes(p.scheduledTopics) <= p.totalStudyTime
      && |p.scheduledTopics| <= |ps|
      && (forall i :: 0 <= i < |p.scheduledTopics| ==>
            && p.scheduledTopics[i] == ps[i].(estimatedTime := p.scheduledTopics[i].estimatedTime)
            && p.scheduledTopics[i].estimatedTime <= ps[i].estimatedTime)
      && SortedBy(p.scheduledTopics, TopicKey)
      && (forall i :: 0 <= i < |p.breaks| ==> p.breaks[i].time < p.totalStudyTime)
      && p.completedTopics == [] && p.actualStudyTime == 0
  {
    var urgent := UrgentOf(assignments, date);
    var ps := Prioritized(urgent, units, pace, now).value;
    var minutes := Trunc(hours * 60.0);
    assert 0 <= minutes <= 480;
    PlanForHoursUnfold(date, units, assignments, pace, hours, now);
    SortByIsStableSort(BuildCandidates(urgent, units, pace, now).value, TopicKey);
    ScheduleFits(ps, minutes);
  }

  /** The allocation and break schedule of a nonnegative number of minutes
      over a sorted topic list: the shape `PlanFitsDay` promises. */
  lemma ScheduleFits(ps: seq<Topic>, minutes: int)
    requires 0 <= minutes
    requires SortedBy(ps, TopicKey)
    ensures var r := Allocation(ps, minutes);
      var bs := BreakSchedule(minutes);
      && SumTimes(r) <= minutes
      && |r| <= |ps|
      && (forall i :: 0 <= i < |r| ==>
            && r[i] == ps[i].(estimatedTime := r[i].estimatedTime)
            && r[i].estimatedTime <= ps[i].estimatedTime)
      && SortedBy(r, TopicKey)
      && (forall i :: 0 <= i < |bs| ==> bs[i].time < minutes)
  {
    AllocationWithinBudget(ps, minutes);
    AllocationTakesPrefix(ps, minutes);
    AllocationKeepsOrder(ps, minutes);
    BreakScheduleShape(minutes);
    var r := Allocation(ps, minutes);
    var j := FitCount(ps, minutes);
    forall i | 0 <= i < |r|
      ensures r[i] == ps[i].(estimatedTime := r[i].estimatedTime) && r[i].estimatedTime <= ps[i].estimatedTime
    {
      if i < j {
        assert r[i] == r[..j][i];
      }
    }
  }


  /** The plan lists each urgent assignment as often as it occurs among the
      assignments and no other, earliest deadline first, each with the whole
      days left until its deadline. */
  lemma PlanUrgentAssignments(date: Timestamp, units: seq<Unit>, assignments: seq<Assignment>,
                              pace: int, availableHours: real, now: Timestamp)
    requires DailyPlanFor(date, units, assignments, pace, availableHours, now).Success?
    ensures var p := DailyPlanFor(date, units, assignments, pace, availableHours, now).value;
      var us := p.urgentAssignments;
      var urgent := UrgentOf(assignments, date);
      && |us| == |urgent|
      && (forall i :: 0 <= i < |us| ==> us[i] == Summarize(urgent[i], now))
      && (forall a :: multiset(urgent)[a] == if IsUrgent(a, date) then multiset(assignments)[a] else 0)
      && (forall i :: 0 <= i < |us| ==>
            us[i].daysUntilDue * SecondsPerDay <= urgent[i].deadline - now < (us[i].daysUntilDue + 1) * SecondsPerDay)
      && (forall i, j :: 0 <= i < j < |us| ==> us[i].deadline <= us[j].deadline && us[i].daysUntilDue <= us[j].daysUntilDue)
  {
    PlanForHoursUnfold(date, units, assignments, pace, EffectiveHours(availableHours, pace, Weekday(date)), now);
    var urgent := UrgentOf(assignments, date);
    UrgentOfShape(assignments, date);
    var us := Summaries(urgent, now);
    forall i, j | 0 <= i < j < |us|
      ensures us[i].deadline <= us[j].deadline && us[i].daysUntilDue <= us[j].daysUntilDue
    {
      DaysUntilMonotone(urgent[i].deadline, urgent[j].deadline, now);
    }
  }

  lemma UrgentOfShape(assignments: seq<Assignment>, date: Timestamp)
    ensures var urgent := UrgentOf(assignments, date);
      && |urgent| == |FilterUrgent(assignments, date)|
      && (forall a :: multiset(urgent)[a] == if IsUrgent(a, date) then multiset(assignments)[a] else 0)
      && (forall a :: a in urgent <==> a in assignments && IsUrgent(a, date))
      && (forall i, j :: 0 <= i < j < |urgent| ==> urgent[i].deadline <= urgent[j].deadline)
  {
    SortedUrgentIsExact(assignments, date);
    SortByIsStableSort(FilterUrgent(assignments, date), DeadlineKey);
    assert |multiset(UrgentOf(assignments, date))| == |multiset(FilterUrgent(assignments, date))|;
  }

  lemma DaysUntilMonotone(d1: Timestamp, d2: Timestamp, now: Timestamp)
    requires d1 <= d2
    ensures DaysUntil(d1, now) <= DaysUntil(d2, now)
  {
    assert (d1 - now) / SecondsPerDay <= (d2 - now) / SecondsPerDay;
  }
}
