/** Progress-based advice on a generated plan (`suggest_plan_adjustments`). */
module Advisor {
  import opened Records
  import opened Text

  /** One suggestion, tagged by its `type` in the source. */
  datatype Suggestion =
    | Continue(message: string)
    | Review(message: string)
    | WrapUp(message: string, postponedTopics: seq<string>)

  /** The answer: either every scheduled topic is done, or how many are
      left, what to do next and the minutes that remain. */
  datatype Adjustment =
    | AllCompleted(message: string)
    | Adjust(incompleteTopics: nat, suggestions: seq<Suggestion>, remainingTime: int)

  const AllDoneMessage: string := "Great job! All topics completed."
  const ReviewMessage: string := "Perfect time for a quick review of today's completed topics."
  const WrapUpMessage: string := "Good stopping point! Plan these topics for tomorrow."

  /** The scheduled topics whose title no completed topic carries, in plan
      order. */
  function Incomplete(scheduled: seq<Topic>, completedTitles: seq<string>): (r: seq<Topic>)
    ensures |r| <= |scheduled|
  {
    if scheduled == [] then []
    else
      var rest := Incomplete(scheduled[..|scheduled| - 1], completedTitles);
      var t := scheduled[|scheduled| - 1];
      if t.title in completedTitles then rest else rest + [t]
  }

  function Titles(ts: seq<Topic>): seq<string>
  {
    seq(|ts|, i requires 0 <= i < |ts| => ts[i].title)
  }

  function ContinueMessage(remainingTime: int, title: string): string
  {
    "You have " + IntToString(remainingTime) + " minutes left. Consider working on: " + title
  }

  /** `suggest_plan_adjustments`: more than an hour left suggests the first
      incomplete topic, more than 20 minutes a review, and otherwise
      postponing the first two incomplete topics. */
  function SuggestPlanAdjustments(scheduled: seq<Topic>, completedTitles: seq<string>, remainingTime: int): Adjustment
  {
    var incomplete := Incomplete(scheduled, completedTitles);
    if incomplete == [] then AllCompleted(AllDoneMessage)
    else
      var suggestion :=
        if remainingTime > 60 then Continue(ContinueMessage(remainingTime, incomplete[0].title))
        else if remainingTime > 20 then Review(ReviewMessage)
        else WrapUp(WrapUpMessage, Titles(incomplete[..if |incomplete| < 2 then |incomplete| else 2]));
      Adjust(|incomplete|, [suggestion], remainingTime)
  }

  /** A topic is incomplete exactly when it is scheduled and its title is
      not among the completed ones; each such topic keeps its multiplicity. */
  lemma {:induction false} IncompleteCounts(scheduled: seq<Topic>, completedTitles: seq<string>)
    ensures forall t ::
              multiset(Incomplete(scheduled, completedTitles))[t]
                == if t.title in completedTitles then 0 else multiset(scheduled)[t]
  {
    if scheduled != [] {
      var init := scheduled[..|scheduled| - 1];
      var last := scheduled[|scheduled| - 1];
      IncompleteCounts(init, completedTitles);
      assert scheduled == init + [last];
    }
  }

  lemma IncompleteMembers(scheduled: seq<Topic>, completedTitles: seq<string>)
    ensures forall t ::
              t in Incomplete(scheduled, completedTitles) <==> t in scheduled && t.title !in completedTitles
  {
    IncompleteCounts(scheduled, completedTitles);
    forall t
      ensures t in Incomplete(scheduled, completedTitles) <==> t in scheduled && t.title !in completedTitles
    {
      assert t in Incomplete(scheduled, completedTitles) <==> multiset(Incomplete(scheduled, completedTitles))[t] > 0;
      assert t in scheduled <==> multiset(scheduled)[t] > 0;
    }
  }

  /** The incomplete topics keep plan order: the incomplete topics of two
      plan parts are those of the first part followed by those of the
      second. */
  lemma {:induction false} IncompleteConcat(a: seq<Topic>, b: seq<Topic>, completedTitles: seq<string>)
    ensures Incomplete(a + b, completedTitles) == Incomplete(a, completedTitles) + Incomplete(b, completedTitles)
    decreases |b|
  {
    if b == [] {
      assert a + b == a;
    } else {
      var n := |b| - 1;
      var ab := a + b;
      var t := b[n];
      assert ab[..|ab| - 1] == a + b[..n];
      assert ab[|ab| - 1] == t;
      IncompleteConcat(a, b[..n], completedTitles);
      var front := Incomplete(a, completedTitles);
      var back := Incomplete(b[..n], completedTitles);
      if t.title in completedTitles {
        assert Incomplete(ab, completedTitles) == front + back;
        assert Incomplete(b, completedTitles) == back;
      } else {
        assert Incomplete(ab, completedTitles) == (front + back) + [t];
        assert Incomplete(b, completedTitles) == back + [t];
      }
    }
  }

  /** The first incomplete topic is the first scheduled topic that is not
      completed. */
  lemma {:induction false} IncompleteHead(scheduled: seq<Topic>, completedTitles: seq<string>)
    requires Incomplete(scheduled, completedTitles) != []
    ensures exists i ::
              && 0 <= i < |scheduled|
              && Incomplete(scheduled, completedTitles)[0] == scheduled[i]
              && scheduled[i].title !in completedTitles
              && (forall k :: 0 <= k < i ==> scheduled[k].title in completedTitles)
  {
    var init := scheduled[..|scheduled| - 1];
    var last := scheduled[|scheduled| - 1];
    if Incomplete(init, completedTitles) == [] {
      var i := |scheduled| - 1;
      IncompleteMembers(init, completedTitles);
      forall k | 0 <= k < i
        ensures scheduled[k].title in completedTitles
      {
        assert scheduled[k] == init[k];
      }
    } else {
      IncompleteHead(init, completedTitles);
      var i :| 0 <= i < |init|
        && Incomplete(init, completedTitles)[0] == init[i]
        && init[i].title !in completedTitles
        && (forall k :: 0 <= k < i ==> init[k].title in completedTitles);
      assert scheduled[i] == init[i];
      assert forall k :: 0 <= k < i ==> scheduled[k] == init[k];
    }
  }

  /** The "all completed" answer comes exactly when every scheduled title
      has been completed; otherwise the exact count of incomplete topics, one
      suggestion chosen by the remaining minutes, and the remaining minutes
      themselves are reported. */
  lemma AdjustmentCases(scheduled: seq<Topic>, completedTitles: seq<string>, remainingTime: int)
    ensures var r := SuggestPlanAdjustments(scheduled, completedTitles, remainingTime);
      && (r.AllCompleted? <==> forall t :: t in scheduled ==> t.title in completedTitles)
      && (r.Adjust? ==>
            && r.incompleteTopics == |Incomplete(scheduled, completedTitles)|
            && 0 < r.incompleteTopics <= |scheduled|
            && r.remainingTime == remainingTime
            && |r.suggestions| == 1
            && (r.suggestions[0].Continue? <==> remainingTime > 60)
            && (r.suggestions[0].Review? <==> 20 < remainingTime <= 60)
            && (r.suggestions[0].WrapUp? <==> remainingTime <= 20))
  {
    var incomplete := Incomplete(scheduled, completedTitles);
    IncompleteMembers(scheduled, completedTitles);
    IncompleteCounts(scheduled, completedTitles);
    if incomplete != [] {
      var t := incomplete[0];
      assert t in incomplete;
      assert !(forall t :: t in scheduled ==> t.title in completedTitles);
    }
  }

  /** A wrap-up postpones the titles of the first two incomplete topics (or
      of the only one); a continue names the first incomplete topic. */
  lemma AdjustmentNamesFirstTopics(scheduled: seq<Topic>, completedTitles: seq<string>, remainingTime: int)
    requires Incomplete(scheduled, completedTitles) != []
    ensures var r := SuggestPlanAdjustments(scheduled, completedTitles, remainingTime);
      var incomplete := Incomplete(scheduled, completedTitles);
      && (r.suggestions[0].WrapUp? ==>
            && |r.suggestions[0].postponedTopics| == (if |incomplete| == 1 then 1 else 2)
            && (forall i :: 0 <= i < |r.suggestions[0].postponedTopics|
                  ==> r.suggestions[0].postponedTopics[i] == incomplete[i].title))
      && (r.suggestions[0].Continue? ==>
            r.suggestions[0].message == ContinueMessage(remainingTime, incomplete[0].title))
  {
  }
}
