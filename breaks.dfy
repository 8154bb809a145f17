/** The break schedule of the study planner (`_generate_break_schedule` and
    `_get_break_suggestion`). Offsets and durations are in minutes from the
    start of the study day. */
module Breaks {
  import opened Records
  import opened Arith

  /** Minutes of study before each break. */
  const BreakInterval: int := 50
  /** The default break length, and the one used from two hours on. */
  const ShortBreak: int := 15
  const LongBreak: int := 30
  /** From this offset on, breaks are long. */
  const LongBreakFrom: int := 120

  const ShortWalk: string := "Take a short walk or stretch"
  const FreshAir: string := "Get some fresh air and hydrate"
  const LongerRest: string := "Take a longer break - eat something, walk outside, or rest your eyes"

  /** The activity suggested for a break taken after `studyTime` minutes. */
  function BreakSuggestion(studyTime: int): string
  {
    if studyTime <= 60 then ShortWalk
    else if studyTime <= 120 then FreshAir
    else LongerRest
  }

  function BreakDuration(time: int): int
  {
    if time >= LongBreakFrom then LongBreak else ShortBreak
  }

  /** The breaks from offset `t` on, for a day of `m` study minutes. */
  function BreaksFrom(t: int, m: int): seq<Break>
    decreases m - t
  {
    if t < m then
      var d := BreakDuration(t);
      [Break(t, d, BreakSuggestion(t))] + BreaksFrom(t + BreakInterval + d, m)
    else []
  }

  /** The breaks for a day of `m` study minutes: the first after 50 minutes. */
  function BreakSchedule(m: int): seq<Break>
  {
    BreaksFrom(BreakInterval, m)
  }

  /** `_generate_break_schedule`: the day lasts `int(study_hours * 60)`
      minutes, and a break is placed every 50 minutes of study until that
      offset is reached. */
  method GenerateBreakSchedule(studyHours: real) returns (breaks: seq<Break>)
    ensures breaks == BreakSchedule(Trunc(studyHours * 60.0))
  {
    breaks := [];
    var studyMinutes := Trunc(studyHours * 60.0);
    var currentTime := BreakInterval;
    while currentTime < studyMinutes
      invariant breaks + BreaksFrom(currentTime, studyMinutes) == BreakSchedule(studyMinutes)
      decreases studyMinutes - currentTime
    {
      var breakDuration := ShortBreak;
      if currentTime >= LongBreakFrom {
        breakDuration := LongBreak;
      }
      var b := Break(currentTime, breakDuration, BreakSuggestion(currentTime));
      assert BreaksFrom(currentTime, studyMinutes)
          == [b] + BreaksFrom(currentTime + BreakInterval + breakDuration, studyMinutes);
      breaks := breaks + [b];
      currentTime := currentTime + BreakInterval + breakDuration;
    }
    assert BreaksFrom(currentTime, studyMinutes) == [];
  }

  /** Well-formedness of one break: its length depends on its offset, and so
      does its suggestion. */
  predicate WellFormed(b: Break)
  {
    && b.duration == (if b.time >= LongBreakFrom then LongBreak else ShortBreak)
    && b.suggestion == BreakSuggestion(b.time)
  }

  /** Every break lies in `[t, m)`, starts 50 minutes after the end of the
      one before, and the schedule stops at the first offset at or past
      `m`. */
  lemma {:induction false} BreaksFromShape(t: int, m: int)
    ensures var bs := BreaksFrom(t, m);
      && (bs == [] <==> m <= t)
      && (bs != [] ==> bs[0].time == t)
      && (forall i :: 0 <= i < |bs| ==> t <= bs[i].time < m && WellFormed(bs[i]))
      && (forall i :: 0 < i < |bs| ==> bs[i].time == bs[i - 1].time + BreakInterval + bs[i - 1].duration)
      && (bs != [] ==> bs[|bs| - 1].time + BreakInterval + bs[|bs| - 1].duration >= m)
    decreases m - t
  {
    if t < m {
      var d := BreakDuration(t);
      var next := t + BreakInterval + d;
      BreaksFromShape(next, m);
      var rest := BreaksFrom(next, m);
      var bs := BreaksFrom(t, m);
      assert bs == [Break(t, d, BreakSuggestion(t))] + rest;
      forall i | 0 < i < |bs|
        ensures bs[i].time == bs[i - 1].time + BreakInterval + bs[i - 1].duration
      {
        assert bs[i] == rest[i - 1];
        if i > 1 {
          assert bs[i - 1] == rest[i - 2];
        }
      }
    }
  }

  /** The schedule of a day: empty for a day of 50 minutes or less, otherwise
      its first break comes after 50 minutes, every break falls inside the
      day, and the offsets strictly increase. */
  lemma BreakScheduleShape(m: int)
    ensures var bs := BreakSchedule(m);
      && (bs == [] <==> m <= BreakInterval)
      && (bs != [] ==> bs[0] == Break(BreakInterval, ShortBreak, ShortWalk))
      && (forall i :: 0 <= i < |bs| ==> BreakInterval <= bs[i].time < m && WellFormed(bs[i]))
      && (forall i :: 0 < i < |bs| ==> bs[i].time >= bs[i - 1].time + BreakInterval + ShortBreak)
  {
    BreaksFromShape(BreakInterval, m);
  }

  /** A four-hour day has breaks after 50, 115 and 180 minutes. */
  lemma FourHourDay()
    ensures BreakSchedule(240) == [
      Break(50, 15, ShortWalk), Break(115, 15, FreshAir), Break(180, 30, LongerRest)]
  {
    assert BreaksFrom(260, 240) == [];
    assert BreaksFrom(180, 240) == [Break(180, 30, LongerRest)];
    assert BreaksFrom(115, 240) == [Break(115, 15, FreshAir), Break(180, 30, LongerRest)];
  }
}
