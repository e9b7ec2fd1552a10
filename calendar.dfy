/** The working calendar of the single production line: one shift per day,
    08:00-16:00 UTC, every day of the week (src/scheduler_logic/constants.py).
    Instants are whole minutes since 1970-01-01T00:00Z; seconds are not modelled. */
module ShiftCalendar {

  type Instant = int

  const MinutesInDay: int := 1440
  const DayStartHour: int := 8
  const DayEndHour: int := 16
  /** Length of the shift in minutes (`MINUTES_PER_DAY`). */
  const MinutesPerDay: int := 480

  const ShiftStart: int := DayStartHour * 60
  const ShiftEnd: int := DayEndHour * 60

  /** 2026-02-28 08:00Z, the scenario's `TODAY`. */
  const Today: Instant := 20512 * 1440 + 480

  /** Python's `datetime.min` (0001-01-01 00:00Z), used as the missing-date value. */
  const DtMin: Instant := -719162 * 1440

  function Day(t: Instant): int {
    t / MinutesInDay
  }

  function TimeOfDay(t: Instant): (r: int)
    ensures 0 <= r < MinutesInDay
  {
    t % MinutesInDay
  }

  /** The instant `minute` minutes after midnight of `day`. */
  function At(day: int, minute: int): Instant {
    day * MinutesInDay + minute
  }

  function Hour(t: Instant): int {
    TimeOfDay(t) / 60
  }

  function Minute(t: Instant): int {
    TimeOfDay(t) % 60
  }

  /** Hours and minutes put back together give the time of day. */
  lemma HourMinute(t: Instant)
    ensures Hour(t) * 60 + Minute(t) == TimeOfDay(t)
  {
  }

  lemma DayAndTimeOfAt(day: int, minute: int)
    requires 0 <= minute < MinutesInDay
    ensures Day(At(day, minute)) == day && TimeOfDay(At(day, minute)) == minute
  {
  }

  lemma ShiftConstants()
    ensures MinutesPerDay == (DayEndHour - DayStartHour) * 60
    ensures ShiftEnd - ShiftStart == MinutesPerDay
  {
  }

  /** Inside the shift, both ends included: a phase may end at exactly 16:00. */
  predicate InShift(t: Instant) {
    ShiftStart <= TimeOfDay(t) <= ShiftEnd
  }

  /** Working minutes accrued from the epoch up to `t`: whole shifts of earlier
      days plus the part of today's shift already behind `t`. */
  function ShiftClock(t: Instant): int {
    var tod := TimeOfDay(t);
    Day(t) * MinutesPerDay + (if tod < ShiftStart then 0 else if tod > ShiftEnd then MinutesPerDay else tod - ShiftStart)
  }

  /** Where `add_working_minutes(t, m)` lands, in closed form: within today's
      shift if the request fits in what is left of it, otherwise on a later day
      after the overflow has been spread over whole 480-minute shifts. */
  function WorkingEnd(t: Instant, m: int): (r: Instant)
    ensures r >= t
    ensures m <= 0 ==> r == t
  {
    if m <= 0 then t
    else if m <= ShiftEnd - TimeOfDay(t) then t + m
    else
      var over := m - (ShiftEnd - TimeOfDay(t));
      At(Day(t) + 1 + (over - 1) / MinutesPerDay, ShiftStart + (over - 1) % MinutesPerDay + 1)
  }

  /** One rollover of the loop: consuming what is left of today's shift and
      restarting from 08:00 the next day leads to the same end. */
  lemma {:induction false} RolloverStep(t: Instant, m: int)
    requires m > 0 && m > ShiftEnd - TimeOfDay(t)
    ensures WorkingEnd(At(Day(t) + 1, ShiftStart), m - (ShiftEnd - TimeOfDay(t))) == WorkingEnd(t, m)
  {
    var over := m - (ShiftEnd - TimeOfDay(t));
    var next := At(Day(t) + 1, ShiftStart);
    DayAndTimeOfAt(Day(t) + 1, ShiftStart);
    if over > MinutesPerDay {
      var over2 := over - MinutesPerDay;
      assert (over - 1) / MinutesPerDay == (over2 - 1) / MinutesPerDay + 1;
      assert (over - 1) % MinutesPerDay == (over2 - 1) % MinutesPerDay;
    } else {
      assert (over - 1) / MinutesPerDay == 0;
      assert (over - 1) % MinutesPerDay == over - 1;
      assert WorkingEnd(next, over) == next + over;
      assert WorkingEnd(t, m) == At(Day(t) + 1 + (over - 1) / MinutesPerDay, ShiftStart + (over - 1) % MinutesPerDay + 1);
    }
  }

  /** `add_working_minutes`: the loop of src/scheduler_logic/scheduling.py
      (identical in src/step3_4_create_order_schedule.py). */
  method AddWorkingMinutes(start: Instant, minutes: int) returns (r: Instant)
    ensures r == WorkingEnd(start, minutes)
    ensures InShift(start) && minutes >= 0 ==> InShift(r) && ShiftClock(r) == ShiftClock(start) + minutes
  {
    var current := start;
    var remaining := minutes;
    while remaining > 0
      invariant WorkingEnd(current, remaining) == WorkingEnd(start, minutes)
      decreases Backlog(current, remaining)
    {
      HourMinute(current);
      var elapsedToday := (Hour(current) * 60 + Minute(current)) - DayStartHour * 60;
      var leftInShift := MinutesPerDay - elapsedToday;
      assert leftInShift == ShiftEnd - TimeOfDay(current);
      if remaining <= leftInShift {
        WithinShiftStep(current, remaining);
        current := current + remaining;
        remaining := 0;
      } else {
        RolloverStep(current, remaining);
        RolloverShrinksBacklog(current, remaining);
        remaining := remaining - leftInShift;
        current := At(Day(current) + 1, ShiftStart);
      }
    }
    r := current;
    if InShift(start) && minutes >= 0 {
      WorkingEndKeepsShift(start, minutes);
    }
  }

  /** What is left for the loop to do: the remaining minutes, and a start
      past the end of the shift still owes one rollover. */
  function Backlog(t: Instant, m: int): int {
    2 * m + (if TimeOfDay(t) >= ShiftEnd then 2 * (TimeOfDay(t) - ShiftEnd) + 1 else 0)
  }

  /** The last iteration: what is left fits in today's shift. */
  lemma WithinShiftStep(t: Instant, m: int)
    requires 0 < m <= ShiftEnd - TimeOfDay(t)
    ensures WorkingEnd(t + m, 0) == WorkingEnd(t, m)
    ensures 0 <= Backlog(t + m, 0) < Backlog(t, m)
  {
  }

  lemma RolloverShrinksBacklog(t: Instant, m: int)
    requires m > 0 && m > ShiftEnd - TimeOfDay(t)
    ensures 0 <= Backlog(At(Day(t) + 1, ShiftStart), m - (ShiftEnd - TimeOfDay(t))) < Backlog(t, m)
  {
    DayAndTimeOfAt(Day(t) + 1, ShiftStart);
  }

  /** From a start inside the shift, the result stays inside the shift and
      exactly the requested number of working minutes lie between the two. */
  lemma {:induction false} WorkingEndKeepsShift(t: Instant, m: int)
    requires InShift(t) && m >= 0
    ensures InShift(WorkingEnd(t, m))
    ensures ShiftClock(WorkingEnd(t, m)) == ShiftClock(t) + m
  {
    var r := WorkingEnd(t, m);
    if m == 0 {
    } else if m <= ShiftEnd - TimeOfDay(t) {
      assert Day(r) == Day(t) && TimeOfDay(r) == TimeOfDay(t) + m by {
        assert r == At(Day(t), TimeOfDay(t) + m);
        DayAndTimeOfAt(Day(t), TimeOfDay(t) + m);
      }
    } else {
      var over := m - (ShiftEnd - TimeOfDay(t));
      var q := (over - 1) / MinutesPerDay;
      var rem := (over - 1) % MinutesPerDay;
      DayAndTimeOfAt(Day(t) + 1 + q, ShiftStart + rem + 1);
      assert q * MinutesPerDay + rem == over - 1;
    }
  }

  /** The result is exactly 16:00 when the request fills today's remaining
      shift, or overflows it by a whole number of shifts. */
  lemma {:induction false} WorkingEndAtShiftEnd(t: Instant, m: int)
    requires InShift(t) && m > 0
    ensures TimeOfDay(WorkingEnd(t, m)) == ShiftEnd
        <==> m >= ShiftEnd - TimeOfDay(t) && (m - (ShiftEnd - TimeOfDay(t))) % MinutesPerDay == 0
  {
    var r := WorkingEnd(t, m);
    if m <= ShiftEnd - TimeOfDay(t) {
      DayAndTimeOfAt(Day(t), TimeOfDay(t) + m);
      assert r == At(Day(t), TimeOfDay(t) + m);
    } else {
      var over := m - (ShiftEnd - TimeOfDay(t));
      var q := (over - 1) / MinutesPerDay;
      var rem := (over - 1) % MinutesPerDay;
      DayAndTimeOfAt(Day(t) + 1 + q, ShiftStart + rem + 1);
      assert over % MinutesPerDay == 0 <==> rem == MinutesPerDay - 1;
    }
  }

  /** Day 1 08:00 plus 500 working minutes is day 2 08:20: 480 minutes are
      consumed on day 1 and 20 on day 2. */
  lemma FiveHundredMinutesExample(day: int)
    ensures WorkingEnd(At(day, 8 * 60), 500) == At(day + 1, 8 * 60 + 20)
  {
    DayAndTimeOfAt(day, 8 * 60);
  }

  /** Feb 28 15:00 plus 120 minutes is Mar 1 09:00 (2026 is not a leap year). */
  lemma CarryToNextMorningExample()
    ensures WorkingEnd(At(20512, 15 * 60), 120) == At(20513, 9 * 60)
  {
    DayAndTimeOfAt(20512, 15 * 60);
  }

  /** `snap_to_working_hours`: an instant before 08:00 moves to 08:00 the same
      day, one at or after 16:00 to 08:00 the next day, anything else stays. */
  function SnapToWorkingHours(t: Instant): (r: Instant)
    ensures r >= t
    ensures ShiftStart <= TimeOfDay(r) < ShiftEnd
    ensures r == t <==> ShiftStart <= TimeOfDay(t) < ShiftEnd
    ensures !(ShiftStart <= TimeOfDay(t) < ShiftEnd) ==> TimeOfDay(r) == ShiftStart
    ensures TimeOfDay(t) < ShiftStart ==> Day(r) == Day(t)
    ensures TimeOfDay(t) >= ShiftEnd ==> Day(r) == Day(t) + 1
  {
    DayAndTimeOfAt(Day(t), ShiftStart);
    DayAndTimeOfAt(Day(t) + 1, ShiftStart);
    if Hour(t) < DayStartHour then At(Day(t), ShiftStart)
    else if Hour(t) >= DayEndHour then At(Day(t) + 1, ShiftStart)
    else t
  }

  lemma SnapIdempotent(t: Instant)
    ensures SnapToWorkingHours(SnapToWorkingHours(t)) == SnapToWorkingHours(t)
  {
  }
}
