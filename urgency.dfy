/** The urgency classifier: which assignments are urgent for a day
    (`_get_urgent_assignments`) and how urgent an assignment topic is (the
    tier computed in `_prioritize_topics`). */
module Urgency {
  import opened Wrappers
  import opened Records
  import opened Sorting

  const UrgentWindowDays: int := 7

  /** Not completed, and due between the reference time and seven days
      after it, both ends included. */
  predicate IsUrgent(a: Assignment, current: Timestamp)
  {
    && a.status != "completed"
    && a.deadline <= current + UrgentWindowDays * SecondsPerDay
    && a.deadline >= current
  }

  /** The urgent assignments in input order, as the loop appends them. */
  function FilterUrgent(assignments: seq<Assignment>, current: Timestamp): seq<Assignment>
  {
    if assignments == [] then []
    else
      var init := FilterUrgent(assignments[..|assignments| - 1], current);
      var a := assignments[|assignments| - 1];
      if IsUrgent(a, current) then init + [a] else init
  }

  /** The filter keeps every urgent assignment as often as it occurs and
      drops every other one. */
  lemma {:induction false} FilterUrgentCounts(assignments: seq<Assignment>, current: Timestamp)
    ensures forall a :: multiset(FilterUrgent(assignments, current))[a]
                        == if IsUrgent(a, current) then multiset(assignments)[a] else 0
  {
    if assignments != [] {
      var n := |assignments| - 1;
      FilterUrgentCounts(assignments[..n], current);
      assert assignments == assignments[..n] + [assignments[n]];
    }
  }

  /** The key `_get_urgent_assignments` sorts by: the deadline alone. */
  function DeadlineKey(a: Assignment): SortKey
  {
    SortKey(0, Some(a.deadline))
  }

  /** The sorted urgent list holds exactly the urgent assignments, earliest
      deadline first, assignments with the same deadline in input order. */
  lemma SortedUrgentIsExact(assignments: seq<Assignment>, current: Timestamp)
    ensures var urgent := SortBy(FilterUrgent(assignments, current), DeadlineKey);
      && (forall a :: multiset(urgent)[a] == if IsUrgent(a, current) then multiset(assignments)[a] else 0)
      && (forall a :: a in urgent <==> a in assignments && IsUrgent(a, current))
      && (forall i, j :: 0 <= i < j < |urgent| ==> urgent[i].deadline <= urgent[j].deadline)
      && (forall k :: WithKey(urgent, DeadlineKey, k) == WithKey(FilterUrgent(assignments, current), DeadlineKey, k))
  {
    var collected := FilterUrgent(assignments, current);
    var urgent := SortBy(collected, DeadlineKey);
    StableSortIsUnique(collected, urgent, DeadlineKey);
    FilterUrgentCounts(assignments, current);
    forall a ensures a in urgent <==> a in assignments && IsUrgent(a, current) {
      assert a in urgent <==> multiset(urgent)[a] > 0;
      assert a in assignments <==> multiset(assignments)[a] > 0;
    }
    forall i, j | 0 <= i < j < |urgent| ensures urgent[i].deadline <= urgent[j].deadline {
      assert KeyLe(DeadlineKey(urgent[i]), DeadlineKey(urgent[j]));
    }
  }

  /** `_get_urgent_assignments`: collect the urgent assignments in a loop,
      then sort them by deadline, earliest first. */
  method GetUrgentAssignments(assignments: seq<Assignment>, current: Timestamp)
    returns (urgent: seq<Assignment>)
    ensures forall a :: multiset(urgent)[a] == if IsUrgent(a, current) then multiset(assignments)[a] else 0
    ensures forall a :: a in urgent <==> a in assignments && IsUrgent(a, current)
    ensures forall i, j :: 0 <= i < j < |urgent| ==> urgent[i].deadline <= urgent[j].deadline
    ensures forall k :: WithKey(urgent, DeadlineKey, k) == WithKey(FilterUrgent(assignments, current), DeadlineKey, k)
    ensures urgent == SortBy(FilterUrgent(assignments, current), DeadlineKey)
  {
    urgent := [];
    for i := 0 to |assignments|
      invariant urgent == FilterUrgent(assignments[..i], current)
    {
      assert assignments[..i + 1][..i] == assignments[..i];
      if IsUrgent(assignments[i], current) {
        urgent := urgent + [assignments[i]];
      }
    }
    assert assignments[..|assignments|] == assignments;
    urgent := SortBy(urgent, DeadlineKey);
    SortedUrgentIsExact(assignments, current);
  }

  /** `(deadline - now).days`: whole days until the deadline, rounded down
      as `timedelta` does, so an overdue deadline gives a negative count. */
  function DaysUntil(deadline: Timestamp, now: Timestamp): (days: int)
    ensures days * SecondsPerDay <= deadline - now < (days + 1) * SecondsPerDay
    ensures deadline >= now ==> days >= 0
    ensures deadline < now ==> days < 0
  {
    (deadline - now) / SecondsPerDay
  }

  /** The urgency of an assignment topic: "high" within 2 days, "medium"
      within 5, "low" after that. The source measures from the wall clock
      `now`, not from the plan's date. */
  function UrgencyTier(deadline: Timestamp, now: Timestamp): Tier
  {
    var days := DaysUntil(deadline, now);
    if days <= 2 then High else if days <= 5 then Medium else Low
  }

  /** The tiers in seconds: "high" when less than three whole days remain,
      "medium" when less than six, "low" otherwise. */
  lemma UrgencyTierBySeconds(deadline: Timestamp, now: Timestamp)
    ensures UrgencyTier(deadline, now) == High <==> deadline - now < 3 * SecondsPerDay
    ensures UrgencyTier(deadline, now) == Medium <==>
              3 * SecondsPerDay <= deadline - now < 6 * SecondsPerDay
    ensures UrgencyTier(deadline, now) == Low <==> deadline - now >= 6 * SecondsPerDay
  {
    var d := deadline - now;
    var q := d / SecondsPerDay;
    assert q * SecondsPerDay <= d < q * SecondsPerDay + SecondsPerDay;
    if q <= 2 {
      assert q * SecondsPerDay <= 2 * SecondsPerDay;
    } else {
      assert q * SecondsPerDay >= 3 * SecondsPerDay;
    }
    if q <= 5 {
      assert q * SecondsPerDay <= 5 * SecondsPerDay;
    } else {
      assert q * SecondsPerDay >= 6 * SecondsPerDay;
    }
  }
}
