/** The date windows of weekly segment filters. */
module Weeks {
  import opened Calendar

  datatype Window = Window(start: int, end: int)

  /** The given weekday in the Sunday-to-Saturday week of `today`. */
  function DayOf(today: int, d: int): int {
    today - WeekDay(today) + d
  }

  /** `current_week` and `last_week`, for weeks that start on weekday `first`. */
  method ProcessSegmentBetweenDate(current: bool, first: nat, today: int) returns (w: Window)
    requires first < 7
    ensures w == WindowOf(current, first, today)
  {
    var last := if first == 0 then 6 else first - 1;
    var start, end := DayOf(today, first), DayOf(today, last);
    if current {
      if WeekDay(today) < first {
        start := start - 7;
      }
      if WeekDay(today) >= first {
        end := end + 7;
      }
    } else if WeekDay(today) < first {
      start, end := start - 14, end - 7;
    } else {
      start := start - 7;
    }
    w := Window(start, end);
  }

  /** The latest day up to `today` on which a week starts. */
  function WeekStart(first: nat, today: int): int {
    today - (today - first) % 7
  }

  function WindowOf(current: bool, first: nat, today: int): Window {
    var start := WeekStart(first, today);
    var late := if first == 0 then 7 else 0;
    if current then Window(start, start + 6 + late) else Window(start - 7, start - 1 + late)
  }

  /** For week starts from Monday to Saturday the current week is the seven days around today that start with the chosen
      weekday, and the last week the seven days in front of it. A week start of Sunday gives fourteen days. */
  lemma {:induction false} WindowsAreWeeks(first: nat, today: int)
    requires first < 7
    ensures var now, before := WindowOf(true, first, today), WindowOf(false, first, today);
            && now.start <= today <= now.end && WeekDay(now.start) == first
            && before.start == now.start - 7
            && (first != 0 <==> now.end - now.start == 6)
            && (first != 0 <==> before.end == now.start - 1)
            && (first == 0 ==> now.end - now.start == before.end - before.start == 13)
  {
  }
}
