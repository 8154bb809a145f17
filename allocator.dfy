/** The time allocator of the study planner (`_allocate_time_slots`): one
    greedy pass over the prioritized topics with a running total. */
module Allocator {
  import opened Records
  import opened Arith
  import opened Sorting
  import Candidates

  /** The shortest partial slot worth scheduling, in minutes. */
  const MinSlot: int := 20

  /** The total estimated minutes of a list of topics. */
  function SumTimes(ts: seq<Topic>): int
  {
    if ts == [] then 0 else SumTimes(ts[..|ts| - 1]) + ts[|ts| - 1].estimatedTime
  }

  lemma SumTimesAppend(ts: seq<Topic>, t: Topic)
    ensures SumTimes(ts + [t]) == SumTimes(ts) + t.estimatedTime
  {
    assert (ts + [t])[..|ts|] == ts;
  }

  /** The running total after the first `k` topics. */
  function Running(ts: seq<Topic>, k: nat): int
    requires k <= |ts|
  {
    SumTimes(ts[..k])
  }

  /** The first index from `i` on at which the running total would exceed
      the budget, or the length of the list when every topic fits. */
  function FitFrom(ts: seq<Topic>, available: int, i: nat): (j: nat)
    requires i <= |ts|
    ensures i <= j <= |ts|
    ensures forall k :: i < k <= j ==> Running(ts, k) <= available
    ensures j < |ts| ==> Running(ts, j + 1) > available
    decreases |ts| - i
  {
    if i == |ts| || Running(ts, i + 1) > available then i else FitFrom(ts, available, i + 1)
  }

  /** How many topics are taken at their full estimate: the longest prefix
      whose running totals all stay within the budget. */
  function FitCount(ts: seq<Topic>, available: int): (j: nat)
    ensures j <= |ts|
    ensures forall k :: 0 < k <= j ==> Running(ts, k) <= available
    ensures j < |ts| ==> Running(ts, j + 1) > available
  {
    FitFrom(ts, available, 0)
  }

  /** The allocation: the topics that fit, then the first topic that does not
      fit, shrunk to the minutes left, if at least MinSlot of them are left.
      Nothing after that topic is taken. */
  function Allocation(ts: seq<Topic>, available: int): seq<Topic>
  {
    var j := FitCount(ts, available);
    var rest := available - SumTimes(ts[..j]);
    if j < |ts| && rest >= MinSlot then ts[..j] + [ts[j].(estimatedTime := rest)] else ts[..j]
  }

  /** The fit count is determined by where the first overflow happens. */
  lemma FitCountIs(ts: seq<Topic>, available: int, i: nat)
    requires i <= |ts|
    requires forall k :: 0 < k <= i ==> Running(ts, k) <= available
    requires i < |ts| ==> Running(ts, i + 1) > available
    ensures FitCount(ts, available) == i
  {
    var j := FitCount(ts, available);
    assert j <= i;
    assert i <= j;
  }

  /** `_allocate_time_slots`: the budget is `int(available_hours * 60)`;
      each topic that fits is taken whole, the first that does not is
      shrunk to the remaining minutes (at least 20) or dropped, and the pass
      stops there. */
  method AllocateTimeSlots(topics: seq<Topic>, availableHours: real) returns (slots: seq<Topic>)
    ensures slots == Allocation(topics, Trunc(availableHours * 60.0))
  {
    var availableMinutes := Trunc(availableHours * 60.0);
    slots := [];
    var totalAllocated := 0;
    var i := 0;
    while i < |topics|
      invariant 0 <= i <= |topics|
      invariant slots == topics[..i]
      invariant totalAllocated == Running(topics, i)
      invariant forall k :: 0 < k <= i ==> Running(topics, k) <= availableMinutes
    {
      var topic := topics[i];
      SumTimesAppend(topics[..i], topic);
      assert topics[..i] + [topic] == topics[..i + 1];
      if totalAllocated + topic.estimatedTime <= availableMinutes {
        slots := slots + [topic];
        totalAllocated := totalAllocated + topic.estimatedTime;
      } else {
        FitCountIs(topics, availableMinutes, i);
        var remainingTime := availableMinutes - totalAllocated;
        if remainingTime >= MinSlot {
          slots := slots + [topic.(estimatedTime := remainingTime)];
        }
        return;
      }
      i := i + 1;
    }
    FitCountIs(topics, availableMinutes, i);
    assert topics[..i] == topics;
  }

  /** The slots minutes never exceed the budget, except that with a
      negative budget nothing is slots and the empty total 0 is above
      it. */
  lemma AllocationWithinBudget(ts: seq<Topic>, available: int)
    ensures SumTimes(Allocation(ts, available)) <= available || Allocation(ts, available) == []
    ensures available >= 0 ==> SumTimes(Allocation(ts, available)) <= available
  {
    var j := FitCount(ts, available);
    var rest := available - SumTimes(ts[..j]);
    if j < |ts| && rest >= MinSlot {
      SumTimesAppend(ts[..j], ts[j].(estimatedTime := rest));
    } else {
      assert j > 0 ==> Running(ts, j) <= available;
    }
  }

  /** Every slots topic is the input topic at the same position; only the
      last one may have its time cut, to between MinSlot and less than its
      estimate, and only when it is the first topic that did not fit. */
  lemma AllocationTakesPrefix(ts: seq<Topic>, available: int)
    ensures var r := Allocation(ts, available);
      var j := FitCount(ts, available);
      && |r| <= |ts|
      && r[..j] == ts[..j]
      && (|r| == j || |r| == j + 1)
      && (|r| == j + 1 ==>
            && r[j] == ts[j].(estimatedTime := r[j].estimatedTime)
            && MinSlot <= r[j].estimatedTime < ts[j].estimatedTime
            && r[j].estimatedTime == available - SumTimes(ts[..j]))
  {
    var j := FitCount(ts, available);
    if j < |ts| {
      SumTimesAppend(ts[..j], ts[j]);
      assert ts[..j] + [ts[j]] == ts[..j + 1];
    }
  }

  /** Shrinking keeps the sort key, so the allocation keeps the priority
      order of its input. */
  lemma AllocationKeepsOrder(ts: seq<Topic>, available: int)
    requires SortedBy(ts, Candidates.TopicKey)
    ensures SortedBy(Allocation(ts, available), Candidates.TopicKey)
  {
    var r := Allocation(ts, available);
    AllocationTakesPrefix(ts, available);
    forall i, j | 0 <= i < j < |r|
      ensures KeyLe(Candidates.TopicKey(r[i]), Candidates.TopicKey(r[j]))
    {
      assert Candidates.TopicKey(r[i]) == Candidates.TopicKey(ts[i]);
      assert Candidates.TopicKey(r[j]) == Candidates.TopicKey(ts[j]);
    }
  }

  /** With nonnegative estimates the running total only grows. */
  lemma {:induction false} RunningMonotone(ts: seq<Topic>, k: nat, m: nat)
    requires k <= m <= |ts|
    requires forall t :: t in ts ==> t.estimatedTime >= 0
    ensures Running(ts, k) <= Running(ts, m)
    decreases m - k
  {
    if k < m {
      RunningMonotone(ts, k, m - 1);
      assert ts[..m][..m - 1] == ts[..m - 1];
      assert ts[m - 1] in ts;
    }
  }

  /** When the whole list fits in the budget it is allocated unchanged. */
  lemma AllocationAllFit(ts: seq<Topic>, available: int)
    requires forall t :: t in ts ==> t.estimatedTime >= 0
    requires SumTimes(ts) <= available
    ensures Allocation(ts, available) == ts
  {
    forall k | 0 < k <= |ts|
      ensures Running(ts, k) <= available
    {
      RunningMonotone(ts, k, |ts|);
      assert ts[..|ts|] == ts;
    }
    FitCountIs(ts, available, |ts|);
    assert ts[..|ts|] == ts;
  }

  /** A worked case: with 100 minutes, a 80-minute topic is taken whole and
      a following 30-minute topic is cut to the 20 minutes left. */
  lemma AllocationExample(a: Topic, b: Topic)
    requires a.estimatedTime == 80 && b.estimatedTime == 30
    ensures Allocation([a, b], 100) == [a, b.(estimatedTime := 20)]
  {
    var ts := [a, b];
    assert ts[..1] == [a];
    assert ts[..2] == ts;
    assert ts[..2][..1] == [a];
    SumTimesAppend([], a);
    assert [] + [a] == [a];
    SumTimesAppend([a], b);
    assert Running(ts, 1) == 80;
    assert Running(ts, 2) == 110;
    FitCountIs(ts, 100, 1);
    assert Running(ts, 1) == SumTimes(ts[..1]);
  }
}
