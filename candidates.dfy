/** The topic candidate builder and prioritizer of the study planner
    (`_prioritize_topics` with `_estimate_assignment_time`,
    `_estimate_study_time`, `_generate_topic_name` and `_calculate_priority`). */
module Candidates {
  import opened Wrappers
  import opened Records
  import opened Text
  import opened Arith
  import opened Sorting
  import opened Urgency

  /** The exceptions that can escape `_prioritize_topics`: `ZeroDivisionError`
      from `80 / learning_pace`, and `IndexError` from a template lookup
      with a topic number below -5. */
  datatype PlanError = DivisionByZero | IndexError

  const PaceReference: int := 80
  const DefaultStudySession: int := 45
  const AssignmentBaseTime: int := 60
  const CatBaseTime: int := 90
  const MaxTopicsPerUnit: int := 2

  function AssignmentBase(a: Assignment): int
  {
    if a.kind == "cat" then CatBaseTime else AssignmentBaseTime
  }

  /** `_estimate_assignment_time`: `int(base * (80 / pace))` clamped to
      [30, 180] minutes, base 90 for a "cat" and 60 otherwise. */
  function EstimateAssignmentTime(a: Assignment, pace: int): (minutes: int)
    requires pace != 0
    ensures 30 <= minutes <= 180
  {
    Clamp(TruncDiv(AssignmentBase(a) * PaceReference, pace), 30, 180)
  }

  /** `_estimate_study_time`: `int(45 * (80 / pace))` clamped to [20, 90]. */
  function EstimateStudyTime(pace: int): (minutes: int)
    requires pace != 0
    ensures 20 <= minutes <= 90
  {
    Clamp(TruncDiv(DefaultStudySession * PaceReference, pace), 20, 90)
  }

  lemma MulNonNegative(a: int, b: int)
    requires a >= 0 && b >= 0
    ensures a * b >= 0
  {
  }

  /** `n / p` is the largest multiple count of `p` that fits in `n`. */
  lemma DivIsLargest(x: int, n: int, p: int)
    requires p > 0 && x * p <= n
    ensures x <= n / p
  {
    var m := n / p;
    assert n == m * p + n % p;
    if x > m {
      assert (x - m - 1) * p == x * p - m * p - p;
      MulNonNegative(x - m - 1, p);
      assert false;
    }
  }

  lemma DivAntitone(n: int, p: int, q: int)
    requires n >= 0 && 0 < p <= q
    ensures n / q <= n / p
  {
    var k := n / q;
    assert n == k * q + n % q;
    assert k >= 0;
    MulNonNegative(k, q - p);
    assert k * (q - p) == k * q - k * p;
    DivIsLargest(k, n, p);
  }

  /** A slower learner (smaller positive pace) never gets less time: both
      estimates are antitone in the pace. */
  lemma EstimatesAntitoneInPace(a: Assignment, p: int, q: int)
    requires 0 < p <= q
    ensures EstimateAssignmentTime(a, q) <= EstimateAssignmentTime(a, p)
    ensures EstimateStudyTime(q) <= EstimateStudyTime(p)
  {
    DivAntitone(AssignmentBase(a) * PaceReference, p, q);
    DivAntitone(DefaultStudySession * PaceReference, p, q);
  }

  /** For a positive pace the estimate is the truncated quotient whenever that
      lies inside the clamp bounds. */
  lemma EstimateUnclamped(a: Assignment, pace: int)
    requires pace > 0
    ensures 30 <= AssignmentBase(a) * 80 / pace <= 180 ==>
              EstimateAssignmentTime(a, pace) == AssignmentBase(a) * 80 / pace
    ensures 20 <= 3600 / pace <= 90 ==> EstimateStudyTime(pace) == 3600 / pace
  {
  }

  /** The clamp saturates: a fast pace gives the 30- and 20-minute floors,
      a slow one the 180- and 90-minute ceilings, and a negative pace the
      floors; in between the truncated quotient is taken as it is. */
  lemma EstimateExamples(a: Assignment)
    ensures EstimateAssignmentTime(a, 10) == 180
    ensures EstimateAssignmentTime(a, 1000) == 30
    ensures EstimateAssignmentTime(a, -5) == 30
    ensures a.kind == "cat" ==> EstimateAssignmentTime(a, 50) == 144
    ensures a.kind != "cat" ==> EstimateAssignmentTime(a, 50) == 96
    ensures EstimateStudyTime(10) == 90
    ensures EstimateStudyTime(100) == 36
    ensures EstimateStudyTime(1000) == 20
    ensures EstimateStudyTime(-5) == 20
  {
  }

  const AnatomyTopics: seq<string> := [
    "Cardiovascular System", "Respiratory System", "Nervous System",
    "Muscular System", "Skeletal System", "Digestive System"]
  const ImmunologyTopics: seq<string> := [
    "Innate Immunity", "Adaptive Immunity", "Antibodies",
    "T-Cell Functions", "Immune Responses", "Autoimmunity"]
  const PhysiologyTopics: seq<string> := [
    "Cellular Respiration", "Homeostasis", "Metabolism",
    "Endocrine System", "Neural Transmission", "Blood Circulation"]

  /** The `topic_templates` table, keyed by lower-case subject name. */
  function Templates(subject: string): Option<seq<string>>
  {
    if subject == "anatomy" then Some(AnatomyTopics)
    else if subject == "immunology" then Some(ImmunologyTopics)
    else if subject == "physiology" then Some(PhysiologyTopics)
    else None
  }

  function GenericTopicName(unitName: string, n: int): string
  {
    unitName + " - Topic " + IntToString(n)
  }

  /** `_generate_topic_name`: the template entry `topics[n - 1]` when the
      lower-cased unit name has a template and `n` is at most its length,
      with Python's negative indexing for `n - 1 < 0`; the generic name
      otherwise. */
  function TopicName(u: Unit, n: int): Result<string, PlanError>
  {
    match Templates(Lower(u.name))
    case Some(topics) =>
      if n <= |topics| then
        var k := n - 1;
        if k >= 0 then Success(topics[k])
        else if k >= -|topics| then Success(topics[|topics| + k])
        else Failure(IndexError)
      else Success(GenericTopicName(u.name, n))
    case None => Success(GenericTopicName(u.name, n))
  }

  /** For topic numbers from 1 on, the name is the n-th template entry while
      there is one and the generic "<name> - Topic <n>" after it; topic
      numbers from -5 to 0 of a templated unit index from the end of the
      list; a unit without templates always gets the generic name; the
      lookup fails only for a templated unit and a topic number of -6 or
      less. */
  lemma TopicNameCases(u: Unit, n: int)
    ensures TopicName(u, n).Failure? <==> Templates(Lower(u.name)).Some? && n <= -6
    ensures n >= 1 && Templates(Lower(u.name)).Some? && n <= 6 ==>
              TopicName(u, n) == Success(Templates(Lower(u.name)).value[n - 1])
    ensures n >= 1 && (Templates(Lower(u.name)).None? || n > 6) ==>
              TopicName(u, n) == Success(u.name + " - Topic " + IntToString(n))
    ensures Templates(Lower(u.name)).Some? && -5 <= n <= 0 ==>
              TopicName(u, n) == Success(Templates(Lower(u.name)).value[n + 5])
    ensures Templates(Lower(u.name)).None? ==>
              TopicName(u, n) == Success(u.name + " - Topic " + IntToString(n))
  {
  }

  /** The template lookup ignores the case of the unit name: two units
      whose names lower-case to the same subject get the same topic names
      up to the length of the template list (past it, the generic name
      keeps each unit's own spelling). */
  lemma TemplateLookupIgnoresCase(u: Unit, v: Unit, n: int)
    requires Lower(u.name) == Lower(v.name) && Templates(Lower(u.name)).Some?
    ensures n <= |Templates(Lower(u.name)).value| ==> TopicName(u, n) == TopicName(v, n)
    ensures Templates(Lower(Upper(u.name))) == Templates(Lower(u.name))
  {
    CaseMappingIgnoresCase(u.name);
  }

  /** A unit named "ANATOMY" finds the anatomy templates: topic 1 is the
      first entry, topic 0 wraps to the last one, and topic 7 is past the
      list and gets the generic name. */
  lemma TopicNameExamples(u: Unit)
    requires u.name == "ANATOMY"
    ensures TopicName(u, 1) == Success("Cardiovascular System")
    ensures TopicName(u, 0) == Success("Digestive System")
    ensures TopicName(u, 7) == Success("ANATOMY - Topic 7")
    ensures TopicName(u, -6) == Failure(IndexError)
  {
    assert Lower(u.name) == "anatomy";
    assert IntToString(7) == "7";
    assert GenericTopicName(u.name, 7) == "ANATOMY" + " - Topic " + "7" == "ANATOMY - Topic 7";
  }

  /** `_calculate_priority`: the completion rate `completed / total` (0 when
      total is not positive) below 0.3 is "high", below 0.7 "medium",
      otherwise "low". */
  function UnitPriority(u: Unit): Tier
  {
    var rate: real := if u.totalTopics > 0 then u.completedTopics as real / u.totalTopics as real else 0.0;
    if rate < 0.3 then High else if rate < 0.7 then Medium else Low
  }

  lemma ScaleByPositive(x: real, y: real, t: real)
    requires t > 0.0
    ensures x < y <==> x * t < y * t
  {
    assert y * t - x * t == (y - x) * t;
    if x < y {
      assert (y - x) * t > 0.0;
    } else {
      assert (x - y) * t >= 0.0;
    }
  }

  lemma RateBelow(c: int, t: int, num: int)
    requires t > 0
    ensures (c as real / t as real < num as real / 10.0) <==> 10 * c < num * t
  {
    var rate := c as real / t as real;
    assert rate * t as real == c as real;
    ScaleByPositive(rate, num as real / 10.0, t as real);
    assert (num as real / 10.0) * t as real == (num * t) as real / 10.0;
  }

  /** The same tiers in integer arithmetic. */
  lemma UnitPriorityInIntegers(u: Unit)
    ensures UnitPriority(u) == High <==> u.totalTopics <= 0 || 10 * u.completedTopics < 3 * u.totalTopics
    ensures UnitPriority(u) == Medium <==>
              u.totalTopics > 0 && 3 * u.totalTopics <= 10 * u.completedTopics < 7 * u.totalTopics
    ensures UnitPriority(u) == Low <==> u.totalTopics > 0 && 10 * u.completedTopics >= 7 * u.totalTopics
  {
    if u.totalTopics > 0 {
      RateBelow(u.completedTopics, u.totalTopics, 3);
      RateBelow(u.completedTopics, u.totalTopics, 7);
      assert 3 as real / 10.0 == 0.3 && 7 as real / 10.0 == 0.7;
    }
  }

  /** The topic built for one urgent assignment. */
  function AssignmentTopic(a: Assignment, pace: int, now: Timestamp): Topic
    requires pace != 0
  {
    Topic(AssignmentWork(a.id), "Work on " + a.title, Upper(a.kind),
          EstimateAssignmentTime(a, pace), UrgencyTier(a.deadline, now), Some(a.deadline), false)
  }

  /** One assignment topic per urgent assignment, in order. */
  function AssignmentTopics(urgent: seq<Assignment>, pace: int, now: Timestamp): (ts: seq<Topic>)
    requires pace != 0 || urgent == []
    ensures |ts| == |urgent|
  {
    if urgent == [] then []
    else AssignmentTopics(urgent[..|urgent| - 1], pace, now) + [AssignmentTopic(urgent[|urgent| - 1], pace, now)]
  }

  /** The study topic for topic number `n` of a unit: the name is looked up
      first, then the time is estimated. */
  function StudyTopic(u: Unit, n: int, pace: int): Result<Topic, PlanError>
  {
    match TopicName(u, n)
    case Failure(e) => Failure(e)
    case Success(name) =>
      if pace == 0 then Failure(DivisionByZero)
      else Success(Topic(Study(u.id), name, u.name, EstimateStudyTime(pace), UnitPriority(u), None, false))
  }

  /** The first `count` study topics of a unit, numbered from
      `completedTopics + 1`; the first failure ends the list. */
  function TopicsForUnit(u: Unit, pace: int, count: nat): Result<seq<Topic>, PlanError>
  {
    if count == 0 then Success([])
    else
      match TopicsForUnit(u, pace, count - 1)
      case Failure(e) => Failure(e)
      case Success(ts) =>
        match StudyTopic(u, u.completedTopics + count, pace)
        case Failure(e) => Failure(e)
        case Success(t) => Success(ts + [t])
  }

  /** How many study topics a unit contributes: `min(total - completed, 2)`
      when topics are left, none otherwise. */
  function UnitTopicCount(u: Unit): nat
  {
    if u.completedTopics < u.totalTopics then Min(u.totalTopics - u.completedTopics, MaxTopicsPerUnit) else 0
  }

  function UnitTopics(u: Unit, pace: int): Result<seq<Topic>, PlanError>
  {
    TopicsForUnit(u, pace, UnitTopicCount(u))
  }

  /** The study topics of all units, unit by unit. */
  function UnitsTopics(units: seq<Unit>, pace: int): Result<seq<Topic>, PlanError>
  {
    if units == [] then Success([])
    else
      match UnitsTopics(units[..|units| - 1], pace)
      case Failure(e) => Failure(e)
      case Success(ts) =>
        match UnitTopics(units[|units| - 1], pace)
        case Failure(e) => Failure(e)
        case Success(us) => Success(ts + us)
  }

  /** The candidate list before sorting: the assignment topics, then the
      study topics of the units. */
  function BuildCandidates(urgent: seq<Assignment>, units: seq<Unit>, pace: int, now: Timestamp)
    : Result<seq<Topic>, PlanError>
  {
    if urgent != [] && pace == 0 then Failure(DivisionByZero)
    else
      match UnitsTopics(units, pace)
      case Failure(e) => Failure(e)
      case Success(us) => Success(AssignmentTopics(urgent, pace, now) + us)
  }

  /** `priority_order.get(t['priority'], 3)`; every built topic has a tier, so
      the default 3 never arises. */
  function TierRank(t: Tier): int
  {
    match t
    case High => 0
    case Medium => 1
    case Low => 2
  }

  /** The sort key of `_prioritize_topics`: tier rank, then deadline, with
      no deadline last. */
  function TopicKey(t: Topic): SortKey
  {
    SortKey(TierRank(t.priority), t.deadline)
  }

  /** A unit contributes exactly UnitTopicCount(u) topics, numbered from
      `completedTopics + 1`, all without deadline and with the unit's tier
      and the study estimate. */
  lemma {:induction false} TopicsForUnitShape(u: Unit, pace: int, count: nat)
    requires TopicsForUnit(u, pace, count).Success?
    ensures count > 0 ==> pace != 0
    ensures var ts := TopicsForUnit(u, pace, count).value;
      && |ts| == count
      && forall i :: 0 <= i < count ==>
           && TopicName(u, u.completedTopics + i + 1) == Success(ts[i].title)
           && ts[i].kind == Study(u.id)
           && ts[i].unitName == u.name
           && ts[i].deadline == None
           && ts[i].priority == UnitPriority(u)
           && ts[i].estimatedTime == EstimateStudyTime(pace)
           && !ts[i].completed
  {
    if count > 0 {
      TopicsForUnitShape(u, pace, count - 1);
      var prev := TopicsForUnit(u, pace, count - 1);
      var next := StudyTopic(u, u.completedTopics + count, pace);
      assert prev.Success? && next.Success?;
      var ts := TopicsForUnit(u, pace, count).value;
      assert ts == prev.value + [next.value];
      forall i | 0 <= i < count
        ensures TopicName(u, u.completedTopics + i + 1) == Success(ts[i].title)
      {
        if i < count - 1 {
          assert ts[i] == prev.value[i];
        }
      }
    }
  }

  lemma {:induction false} TopicsForUnitFailureSticks(u: Unit, pace: int, i: nat, n: nat)
    requires i <= n && TopicsForUnit(u, pace, i).Failure?
    ensures TopicsForUnit(u, pace, n) == TopicsForUnit(u, pace, i)
    decreases n
  {
    if n > i {
      TopicsForUnitFailureSticks(u, pace, i, n - 1);
    }
  }

  lemma {:induction false} UnitsTopicsFailureSticks(units: seq<Unit>, pace: int, j: nat)
    requires j <= |units| && UnitsTopics(units[..j], pace).Failure?
    ensures UnitsTopics(units, pace) == UnitsTopics(units[..j], pace)
    decreases |units|
  {
    if j < |units| {
      var n := |units| - 1;
      assert units[..n][..j] == units[..j];
      UnitsTopicsFailureSticks(units[..n], pace, j);
    } else {
      assert units[..j] == units;
    }
  }

  /** A unit's topics are built without an exception exactly when it has no
      topics left, or the pace is non-zero and the first topic number
      `completedTopics + 1` is not below -5 for a templated unit. */
  lemma UnitTopicsSucceedIff(u: Unit, pace: int)
    ensures UnitTopics(u, pace).Success? <==>
              UnitTopicCount(u) == 0
              || (pace != 0 && (Templates(Lower(u.name)).None? || u.completedTopics >= -6))
  {
    var n := u.completedTopics;
    TopicNameCases(u, n + 1);
    TopicNameCases(u, n + 2);
    assert StudyTopic(u, n + 1, pace).Success? <==> TopicName(u, n + 1).Success? && pace != 0;
    assert StudyTopic(u, n + 2, pace).Success? <==> TopicName(u, n + 2).Success? && pace != 0;
    assert TopicsForUnit(u, pace, 1).Success? <==> StudyTopic(u, n + 1, pace).Success?;
    assert TopicsForUnit(u, pace, 2).Success? <==>
             TopicsForUnit(u, pace, 1).Success? && StudyTopic(u, n + 2, pace).Success?;
  }

  lemma {:induction false} UnitsTopicsSucceedIff(units: seq<Unit>, pace: int)
    ensures UnitsTopics(units, pace).Success? <==> forall u :: u in units ==> UnitTopics(u, pace).Success?
  {
    if units != [] {
      var n := |units| - 1;
      UnitsTopicsSucceedIff(units[..n], pace);
      assert units == units[..n] + [units[n]];
    }
  }

  /** Candidate building raises exactly when the pace is zero and there is
      something to estimate, or a templated unit's topic number is below -5;
      in particular it never raises for a non-zero pace and units whose
      completed count is not negative. */
  lemma CandidatesSucceedIff(urgent: seq<Assignment>, units: seq<Unit>, pace: int, now: Timestamp)
    ensures BuildCandidates(urgent, units, pace, now).Success? <==>
              && (urgent == [] || pace != 0)
              && forall u :: u in units ==>
                   UnitTopicCount(u) == 0
                   || (pace != 0 && (Templates(Lower(u.name)).None? || u.completedTopics >= -6))
    ensures pace != 0 && (forall u :: u in units ==> u.completedTopics >= 0) ==>
              BuildCandidates(urgent, units, pace, now).Success?
  {
    UnitsTopicsSucceedIff(units, pace);
    forall u | u in units {
      UnitTopicsSucceedIff(u, pace);
    }
  }

  lemma {:induction false} AssignmentTopicsAt(urgent: seq<Assignment>, pace: int, now: Timestamp, i: int)
    requires pace != 0 && 0 <= i < |urgent|
    ensures AssignmentTopics(urgent, pace, now)[i] == AssignmentTopic(urgent[i], pace, now)
  {
    var n := |urgent| - 1;
    if i < n {
      AssignmentTopicsAt(urgent[..n], pace, now, i);
    }
  }

  /** The number of study topics the units contribute. */
  function StudyTopicCount(units: seq<Unit>): nat
  {
    if units == [] then 0 else StudyTopicCount(units[..|units| - 1]) + UnitTopicCount(units[|units| - 1])
  }

  lemma {:induction false} UnitsTopicsShape(units: seq<Unit>, pace: int)
    requires UnitsTopics(units, pace).Success?
    ensures var ts := UnitsTopics(units, pace).value;
      && |ts| == StudyTopicCount(units)
      && forall t :: t in ts ==>
           pace != 0 && t.deadline == None && t.kind.Study? && t.estimatedTime == EstimateStudyTime(pace)
  {
    if units != [] {
      var n := |units| - 1;
      UnitsTopicsShape(units[..n], pace);
      TopicsForUnitShape(units[n], pace, UnitTopicCount(units[n]));
      var us := UnitTopics(units[n], pace).value;
      forall t | t in us
        ensures pace != 0 && t.deadline == None && t.kind.Study? && t.estimatedTime == EstimateStudyTime(pace)
      {
        var i :| 0 <= i < |us| && us[i] == t;
      }
    }
  }

  /** The built list: one topic per urgent assignment, in order and carrying
      its deadline and an estimate in [30, 180]; then the study topics,
      without deadline and with an estimate in [20, 90]. */
  lemma CandidatesShape(urgent: seq<Assignment>, units: seq<Unit>, pace: int, now: Timestamp)
    requires BuildCandidates(urgent, units, pace, now).Success?
    ensures var ts := BuildCandidates(urgent, units, pace, now).value;
      && |ts| == |urgent| + StudyTopicCount(units)
      && (forall i :: 0 <= i < |urgent| ==>
            && pace != 0
            && ts[i] == AssignmentTopic(urgent[i], pace, now)
            && ts[i].deadline == Some(urgent[i].deadline)
            && 30 <= ts[i].estimatedTime <= 180)
      && (forall i :: |urgent| <= i < |ts| ==>
            && ts[i].deadline == None
            && ts[i].kind.Study?
            && 20 <= ts[i].estimatedTime <= 90)
  {
    var ts := BuildCandidates(urgent, units, pace, now).value;
    var us := UnitsTopics(units, pace).value;
    UnitsTopicsShape(units, pace);
    forall i | 0 <= i < |urgent| ensures pace != 0 && ts[i] == AssignmentTopic(urgent[i], pace, now) {
      AssignmentTopicsAt(urgent, pace, now, i);
    }
    forall i | |urgent| <= i < |ts|
      ensures ts[i].deadline == None && ts[i].kind.Study? && 20 <= ts[i].estimatedTime <= 90
    {
      assert ts[i] == us[i - |urgent|];
      assert ts[i] in us;
    }
  }

  lemma UnitsTopicsStep(units: seq<Unit>, pace: int, j: nat)
    requires j < |units| && UnitsTopics(units[..j], pace).Success?
    ensures UnitTopics(units[j], pace).Failure? ==>
              UnitsTopics(units[..j + 1], pace) == Failure(UnitTopics(units[j], pace).error)
    ensures UnitTopics(units[j], pace).Success? ==>
              UnitsTopics(units[..j + 1], pace)
              == Success(UnitsTopics(units[..j], pace).value + UnitTopics(units[j], pace).value)
  {
    assert units[..j + 1][..j] == units[..j];
  }

  lemma AssignmentTopicsStep(urgent: seq<Assignment>, pace: int, now: Timestamp, i: nat)
    requires pace != 0 && i < |urgent|
    ensures AssignmentTopics(urgent[..i + 1], pace, now)
            == AssignmentTopics(urgent[..i], pace, now) + [AssignmentTopic(urgent[i], pace, now)]
  {
    assert urgent[..i + 1][..i] == urgent[..i];
  }

  /** What `_prioritize_topics` returns: the candidates sorted stably by
      TopicKey, or the exception raised while building them. */
  function Prioritized(urgent: seq<Assignment>, units: seq<Unit>, pace: int, now: Timestamp)
    : Result<seq<Topic>, PlanError>
  {
    match BuildCandidates(urgent, units, pace, now)
    case Failure(e) => Failure(e)
    case Success(ts) => Success(SortBy(ts, TopicKey))
  }

  lemma PrioritizedUnfold(urgent: seq<Assignment>, units: seq<Unit>, pace: int, now: Timestamp)
    ensures urgent != [] && pace == 0 ==> Prioritized(urgent, units, pace, now) == Failure(DivisionByZero)
    ensures (urgent == [] || pace != 0) && UnitsTopics(units, pace).Failure? ==>
              Prioritized(urgent, units, pace, now) == Failure(UnitsTopics(units, pace).error)
    ensures (urgent == [] || pace != 0) && UnitsTopics(units, pace).Success? ==>
              Prioritized(urgent, units, pace, now)
              == Success(SortBy(AssignmentTopics(urgent, pace, now) + UnitsTopics(units, pace).value, TopicKey))
  {
  }

  /** The prioritized list is a permutation of the candidates, ordered by
      tier (high, medium, low) and then by deadline with topics without one
      last; candidates with equal tier and deadline keep their build order
      (assignments in deadline order, then units in order). */
  lemma PrioritizedOrder(urgent: seq<Assignment>, units: seq<Unit>, pace: int, now: Timestamp)
    requires Prioritized(urgent, units, pace, now).Success?
    ensures var ps := Prioritized(urgent, units, pace, now).value;
      var ts := BuildCandidates(urgent, units, pace, now).value;
      && multiset(ps) == multiset(ts)
      && (forall i, j :: 0 <= i < j < |ps| ==>
            || TierRank(ps[i].priority) < TierRank(ps[j].priority)
            || (ps[i].priority == ps[j].priority && DeadlineLe(ps[i].deadline, ps[j].deadline)))
      && (forall k :: WithKey(ps, TopicKey, k) == WithKey(ts, TopicKey, k))
  {
    var ts := BuildCandidates(urgent, units, pace, now).value;
    var ps := SortBy(ts, TopicKey);
    SortByIsStableSort(ts, TopicKey);
    forall i, j | 0 <= i < j < |ps|
      ensures || TierRank(ps[i].priority) < TierRank(ps[j].priority)
              || (ps[i].priority == ps[j].priority && DeadlineLe(ps[i].deadline, ps[j].deadline))
    {
      assert KeyLe(TopicKey(ps[i]), TopicKey(ps[j]));
    }
  }

  /** The inner loop of `_prioritize_topics` for one unit: up to two study
      topics, numbered from `completedTopics + 1`. */
  method UnitStudyTopics(unit: Unit, pace: int) returns (r: Result<seq<Topic>, PlanError>)
    ensures r == UnitTopics(unit, pace)
  {
    var topics: seq<Topic> := [];
    if unit.completedTopics < unit.totalTopics {
      var remaining := unit.totalTopics - unit.completedTopics;
      var count := Min(remaining, MaxTopicsPerUnit);
      for i := 0 to count
        invariant TopicsForUnit(unit, pace, i) == Success(topics)
      {
        var name := TopicName(unit, unit.completedTopics + i + 1);
        if name.Failure? {
          TopicsForUnitFailureSticks(unit, pace, i + 1, count);
          return Failure(name.error);
        }
        if pace == 0 {
          TopicsForUnitFailureSticks(unit, pace, i + 1, count);
          return Failure(DivisionByZero);
        }
        topics := topics + [Topic(Study(unit.id), name.value, unit.name, EstimateStudyTime(pace), UnitPriority(unit), None, false)];
      }
    }
    r := Success(topics);
  }

  /** The first loop of `_prioritize_topics`: one topic per urgent
      assignment, in order; a zero pace raises at the first one. */
  method UrgentTopics(urgent: seq<Assignment>, pace: int, now: Timestamp)
    returns (r: Result<seq<Topic>, PlanError>)
    ensures urgent != [] && pace == 0 ==> r == Failure(DivisionByZero)
    ensures urgent == [] || pace != 0 ==> r == Success(AssignmentTopics(urgent, pace, now))
  {
    var topics: seq<Topic> := [];
    for i := 0 to |urgent|
      invariant pace != 0 || i == 0
      invariant topics == AssignmentTopics(urgent[..i], pace, now)
    {
      if pace == 0 {
        return Failure(DivisionByZero);
      }
      AssignmentTopicsStep(urgent, pace, now, i);
      topics := topics + [AssignmentTopic(urgent[i], pace, now)];
    }
    assert urgent[..|urgent|] == urgent;
    r := Success(topics);
  }

  /** The second loop of `_prioritize_topics`: the study topics of every
      unit, unit by unit, stopping at the first exception. */
  method AllUnitsTopics(units: seq<Unit>, pace: int) returns (r: Result<seq<Topic>, PlanError>)
    ensures r == UnitsTopics(units, pace)
  {
    var topics: seq<Topic> := [];
    for j := 0 to |units|
      invariant UnitsTopics(units[..j], pace) == Success(topics)
    {
      UnitsTopicsStep(units, pace, j);
      var unitTopics := UnitStudyTopics(units[j], pace);
      if unitTopics.Failure? {
        UnitsTopicsFailureSticks(units, pace, j + 1);
        return Failure(unitTopics.error);
      }
      topics := topics + unitTopics.value;
    }
    assert units[..|units|] == units;
    r := Success(topics);
  }

  /** `_prioritize_topics`: build the candidates (assignments, then up to
      two topics per unit), then sort them stably by tier and deadline. An
      exception is returned as a Failure. */
  method PrioritizeTopics(units: seq<Unit>, urgent: seq<Assignment>, pace: int, now: Timestamp)
    returns (r: Result<seq<Topic>, PlanError>)
    ensures r == Prioritized(urgent, units, pace, now)
  {
    PrioritizedUnfold(urgent, units, pace, now);
    var assignmentTopics := UrgentTopics(urgent, pace, now);
    if assignmentTopics.Failure? {
      return Failure(assignmentTopics.error);
    }
    var studyTopics := AllUnitsTopics(units, pace);
    if studyTopics.Failure? {
      return Failure(studyTopics.error);
    }
    r := Success(SortBy(assignmentTopics.value + studyTopics.value, TopicKey));
  }
}
