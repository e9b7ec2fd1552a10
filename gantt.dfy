/** `_split_working_segments` of src/scheduler_logic/gantt.py: a phase span
    is cut into the pieces that lie inside the 08:00-16:00 shift, so that the
    chart draws nothing overnight. The drawing itself is not modelled. */
module Gantt {
  import opened ShiftCalendar

  type Segment = (Instant, Instant)

  /** 16:00 of the day of `t` (`t.replace(hour=16, minute=0)`). */
  function DayEnd(t: Instant): Instant {
    At(Day(t), ShiftEnd)
  }

  /** 08:00 of the day after `t` (`(t + 1 day).replace(hour=8, minute=0)`). */
  function NextMorning(t: Instant): (r: Instant)
    ensures r > t
  {
    At(Day(t + MinutesInDay), ShiftStart)
  }

  /** The segments from `cursor` to `end`. */
  function Segments(cursor: Instant, end: Instant): (r: seq<Segment>)
    decreases end - cursor
  {
    if cursor >= end then []
    else if end <= DayEnd(cursor) then [(cursor, end)]
    else [(cursor, DayEnd(cursor))] + Segments(NextMorning(cursor), end)
  }

  /** The loop of `_split_working_segments`. */
  method SplitWorkingSegments(start: Instant, end: Instant) returns (segments: seq<Segment>)
    ensures segments == Segments(start, end)
  {
    segments := [];
    var cursor := start;
    while cursor < end
      invariant segments + Segments(cursor, end) == Segments(start, end)
      decreases end - cursor
    {
      var dayEnd := At(Day(cursor), ShiftEnd);
      if end <= dayEnd {
        segments := segments + [(cursor, end)];
        break;
      }
      segments := segments + [(cursor, dayEnd)];
      cursor := At(Day(cursor + MinutesInDay), ShiftStart);
    }
  }

  /** An instant between midnight of `d` and the next midnight is on day `d`. */
  lemma OnDay(t: Instant, d: int)
    requires At(d, 0) <= t < At(d + 1, 0)
    ensures Day(t) == d && TimeOfDay(t) == t - At(d, 0)
  {
  }

  lemma NextMorningDay(t: Instant)
    ensures NextMorning(t) == At(Day(t) + 1, ShiftStart)
    ensures Day(NextMorning(t)) == Day(t) + 1 && TimeOfDay(NextMorning(t)) == ShiftStart
  {
    OnDay(t + MinutesInDay, Day(t) + 1);
    DayAndTimeOfAt(Day(t) + 1, ShiftStart);
  }

  /** Segment `i`: the first starts at `start`; every segment ends by 16:00
      of the day it starts on; every segment but the last ends at exactly
      16:00 and is followed by one starting at 08:00 the next day; the last
      ends at `end`, unless `end` falls in the night after it; and every
      segment after the first starts at 08:00 and is not empty. */
  lemma {:induction false} SegmentAt(start: Instant, end: Instant, i: nat)
    requires i < |Segments(start, end)|
    ensures var segs := Segments(start, end);
      && (i == 0 ==> segs[i].0 == start)
      && segs[i].1 <= DayEnd(segs[i].0)
      && (i + 1 < |segs| ==> segs[i].1 == DayEnd(segs[i].0) && segs[i + 1].0 == At(Day(segs[i].0) + 1, ShiftStart))
      && (i + 1 == |segs| ==> segs[i].1 == end || DayEnd(segs[i].0) < end <= NextMorning(segs[i].0))
      && (i > 0 ==> TimeOfDay(segs[i].0) == ShiftStart && segs[i].0 < segs[i].1)
    decreases end - start
  {
    var segs := Segments(start, end);
    if end > DayEnd(start) {
      var next := NextMorning(start);
      NextMorningDay(start);
      if i > 0 {
        SegmentAt(next, end, i - 1);
        if i == 1 {
          DayAndTimeOfAt(Day(next), ShiftStart);
          DayAndTimeOfAt(Day(next), ShiftEnd);
        }
      } else if 1 < |segs| {
        assert segs[1] == Segments(next, end)[0];
        SegmentAt(next, end, 0);
      }
    }
  }

  /** No segments for an empty or inverted span; otherwise the segments
      start at `start` and run in order without overlap, every one ending by
      16:00 of its day. The first segment is well formed exactly when the
      span starts no later than 16:00 (it is drawn backwards otherwise). */
  lemma SegmentsShape(start: Instant, end: Instant)
    ensures Segments(start, end) == [] <==> start >= end
    ensures var segs := Segments(start, end);
      segs != [] ==>
        && segs[0].0 == start
        && (segs[0].0 <= segs[0].1 <==> TimeOfDay(start) <= ShiftEnd)
        && (forall i :: 0 <= i < |segs| ==> segs[i].1 <= DayEnd(segs[i].0))
        && (forall i :: 0 < i < |segs| ==> segs[i].0 < segs[i].1)
        && (forall i :: 0 <= i < |segs| - 1 ==> segs[i].1 < segs[i + 1].0)
  {
    var segs := Segments(start, end);
    if segs != [] {
      SegmentAt(start, end, 0);
      assert segs[0].0 <= segs[0].1 <==> TimeOfDay(start) <= ShiftEnd by {
        DayAndTimeOfAt(Day(start), ShiftEnd);
        OnDay(start, Day(start));
      }
      forall i | 0 <= i < |segs|
        ensures segs[i].1 <= DayEnd(segs[i].0)
        ensures i > 0 ==> segs[i].0 < segs[i].1
      {
        SegmentAt(start, end, i);
      }
      forall i | 0 <= i < |segs| - 1
        ensures segs[i].1 < segs[i + 1].0
      {
        SegmentAt(start, end, i);
      }
    }
  }

  /** When `end` lies inside a shift (after 08:00, by 16:00), the last
      segment ends at `end`. */
  lemma LastSegmentEnd(start: Instant, end: Instant)
    requires start < end && ShiftStart < TimeOfDay(end) <= ShiftEnd
    ensures Segments(start, end) != [] && Segments(start, end)[|Segments(start, end)| - 1].1 == end
  {
    var segs := Segments(start, end);
    SegmentAt(start, end, |segs| - 1);
    var last := segs[|segs| - 1].0;
    if segs[|segs| - 1].1 != end {
      NextMorningDay(last);
      DayAndTimeOfAt(Day(last), ShiftEnd);
      assert At(Day(last), ShiftEnd) < end <= At(Day(last) + 1, ShiftStart);
      if end < At(Day(last) + 1, 0) {
        OnDay(end, Day(last));
      } else {
        OnDay(end, Day(last) + 1);
      }
      assert false;
    }
  }

  /** Length of the segments, in minutes. */
  function Drawn(segs: seq<Segment>): int {
    if segs == [] then 0 else (segs[0].1 - segs[0].0) + Drawn(segs[1..])
  }

  /** Between two instants inside the shift, the segments cover exactly the
      working minutes in between: the shift clock difference. */
  lemma {:induction false} DrawnIsWorkingTime(start: Instant, end: Instant)
    requires InShift(start) && InShift(end) && start <= end
    ensures Drawn(Segments(start, end)) == ShiftClock(end) - ShiftClock(start)
    decreases end - start
  {
    var d := Day(start);
    OnDay(start, d);
    if start == end {
    } else if end <= DayEnd(start) {
      OnDay(end, d);
    } else {
      var next := NextMorning(start);
      NextMorningDay(start);
      OnDay(end, Day(end));
      assert Day(end) >= d + 1;
      DrawnIsWorkingTime(next, end);
    }
  }

  /** A phase placed by `add_working_minutes` from a start inside the shift
      is drawn with exactly its working minutes. */
  lemma PhaseDrawnLength(start: Instant, minutes: int)
    requires InShift(start) && minutes >= 0
    ensures Drawn(Segments(start, WorkingEnd(start, minutes))) == minutes
  {
    WorkingEndKeepsShift(start, minutes);
    DrawnIsWorkingTime(start, WorkingEnd(start, minutes));
  }

  /** Mar 01 13:18 to Mar 02 08:18 is drawn as 13:18-16:00 and 08:00-08:18. */
  lemma OvernightExample()
    ensures Segments(At(20513, 13 * 60 + 18), At(20514, 8 * 60 + 18))
         == [(At(20513, 13 * 60 + 18), At(20513, 16 * 60)), (At(20514, 8 * 60), At(20514, 8 * 60 + 18))]
  {
    var start := At(20513, 13 * 60 + 18);
    DayAndTimeOfAt(20513, 13 * 60 + 18);
    NextMorningDay(start);
  }
}
