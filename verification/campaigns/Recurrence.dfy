/** The next day a weekly campaign goes out. */
module Recurrence {
  import opened Arithmetic
  import opened Calendar

  function StartOfWeek(day: int): int {
    day - WeekDay(day)
  }

  /** Whole weeks between the weeks of two days. */
  function WeeksBetween(from: int, to: int): int {
    (StartOfWeek(to) - StartOfWeek(from)) / 7
  }

  datatype Search = Search(current: int, notBefore: int, weekDays: set<nat>, interval: nat) {
    /** After the current day, not in the past, on a chosen weekday, a multiple of `interval` weeks on. */
    predicate Legal(day: int)
      requires interval >= 1
    {
      && day > current && day >= notBefore
      && WeekDay(day) in weekDays
      && WeeksBetween(current, day) % interval == 0
    }

    ghost predicate Ok() {
      interval >= 1 && weekDays != {} && forall d <- weekDays :: d < 7
    }
  }

  // ---- sorting the weekdays ----

  ghost predicate Sorted(s: seq<nat>) {
    forall i, j | 0 <= i < j < |s| :: s[i] <= s[j]
  }

  function Insert(s: seq<nat>, d: nat): seq<nat> {
    if s == [] || d <= s[0] then [d] + s else [s[0]] + Insert(s[1..], d)
  }

  lemma {:induction false} InsertAdds(s: seq<nat>, d: nat)
    ensures multiset(Insert(s, d)) == multiset(s) + multiset{d}
  {
    if s != [] && d > s[0] {
      InsertAdds(s[1..], d);
      assert s == [s[0]] + s[1..];
    }
  }

  lemma {:induction false} InsertKeeps(s: seq<nat>, d: nat)
    ensures forall i | 0 <= i < |Insert(s, d)| :: Insert(s, d)[i] == d || Insert(s, d)[i] in s
  {
    if s != [] && d > s[0] {
      InsertKeeps(s[1..], d);
    }
  }

  lemma {:induction false} InsertSorts(s: seq<nat>, d: nat)
    requires Sorted(s)
    ensures Sorted(Insert(s, d))
  {
    if s != [] && d > s[0] {
      InsertSorts(s[1..], d);
      InsertKeeps(s[1..], d);
    }
  }

  method Sort(s: seq<nat>) returns (r: seq<nat>)
    ensures Sorted(r) && multiset(r) == multiset(s)
  {
    r := [];
    for i := 0 to |s|
      invariant Sorted(r) && multiset(r) == multiset(s[..i])
    {
      InsertSorts(r, s[i]);
      InsertAdds(r, s[i]);
      assert s[..i + 1] == s[..i] + [s[i]];
      r := Insert(r, s[i]);
    }
    assert s[..|s|] == s;
  }

  // ---- the search ----

  /** Somewhere ahead there is a legal day, so the search ends. */
  lemma {:induction false} LegalAhead(s: Search, d: nat) returns (day: int)
    requires s.Ok() && d in s.weekDays
    ensures s.Legal(day)
  {
    var start := StartOfWeek(s.current);
    var n := 1 + if s.notBefore > start then s.notBefore - start else 0;
    day := start + 7 * (s.interval * n) + d;
    assert s.interval * n >= n by {
      assert (s.interval - 1) * n >= 0;
    }
    WeekOf(start, s.interval * n, d);
    assert WeeksBetween(s.current, day) == s.interval * n;
    MultipleOf(s.interval, n);
  }

  lemma {:induction false} WeekOf(start: int, weeks: int, d: nat)
    requires start % 7 == 0 && d < 7
    ensures WeekDay(start + 7 * weeks + d) == d
    ensures StartOfWeek(start + 7 * weeks + d) == start + 7 * weeks
  {
  }

  lemma {:induction false} DayOfWeek(day: int, d: int)
    requires StartOfWeek(day) <= d < StartOfWeek(day) + 14
    ensures WeekDay(d) == (if d < StartOfWeek(day) + 7 then d - StartOfWeek(day) else d - StartOfWeek(day) - 7)
  {
    var x := d - StartOfWeek(day);
    assert StartOfWeek(day) % 7 == 0;
    if x < 7 {
      WeekOf(StartOfWeek(day), 0, x);
    } else {
      WeekOf(StartOfWeek(day), 1, x - 7);
    }
  }

  /** All days of one week are equally many weeks away. */
  lemma {:induction false} SameWeek(current: int, a: int, b: int)
    requires StartOfWeek(a) <= b < StartOfWeek(a) + 7
    ensures StartOfWeek(b) == StartOfWeek(a) && WeeksBetween(current, b) == WeeksBetween(current, a)
  {
  }

  /** Counting weeks: none within a week from Sunday to Saturday, one more with every Sunday. */
  lemma {:induction false} WeeksGrow(from: int, to: int)
    ensures WeeksBetween(from, from) == 0
    ensures WeeksBetween(from, to + 1) == WeeksBetween(from, to) + if (to + 1) % 7 == 0 then 1 else 0
  {
    WeekSteps(to);
    assert (StartOfWeek(to) - StartOfWeek(from)) % 7 == 0;
  }

  lemma {:induction false} WeekSteps(day: int)
    ensures StartOfWeek(day) % 7 == 0
    ensures StartOfWeek(day + 1) == StartOfWeek(day) + if (day + 1) % 7 == 0 then 7 else 0
  {
  }

  ghost predicate NoneBefore(s: Search, day: int)
    requires s.Ok()
  {
    forall d | s.Legal(d) :: day <= d
  }

  lemma {:induction false} SkipWeek(s: Search, find: int)
    requires s.Ok() && NoneBefore(s, find) && WeeksBetween(s.current, find) % s.interval != 0
    ensures NoneBefore(s, StartOfWeek(find + 7)) && StartOfWeek(find + 7) > find
  {
    assert StartOfWeek(find + 7) == StartOfWeek(find) + 7;
    forall d | s.Legal(d) ensures StartOfWeek(find) + 7 <= d {
      if d < StartOfWeek(find) + 7 {
        SameWeek(s.current, find, d);
      }
    }
  }

  /** No chosen weekday lies between `find` and the one stepped to. */
  lemma {:induction false} StepTo(s: Search, find: int, to: int)
    requires s.Ok() && NoneBefore(s, find) && !s.Legal(find) && find < to <= find + 7
    requires forall d | find < d < to :: WeekDay(d) !in s.weekDays
    ensures NoneBefore(s, to)
  {
  }

  method NextOccurrence(current: int, weekDays: seq<nat>, interval: nat, notBefore: int) returns (day: int)
    requires weekDays != [] && interval >= 1 && forall d <- weekDays :: d < 7
    ensures var s := Search(current, notBefore, (set d | d in weekDays), interval);
            s.Legal(day) && forall d | s.Legal(d) :: day <= d
  {
    ghost var s := Search(current, notBefore, (set d | d in weekDays), interval);
    var days := Sort(weekDays);
    assert forall d :: d in days <==> d in weekDays by {
      assert forall d :: d in days <==> d in multiset(days);
      assert forall d :: d in weekDays <==> d in multiset(weekDays);
    }
    assert days != [] by {
      assert weekDays[0] in days;
    }
    assert weekDays[0] in s.weekDays;
    ghost var ahead := LegalAhead(s, weekDays[0]);
    day := current + 1;
    while true
      invariant current < day && NoneBefore(s, day)
      decreases ahead - day
    {
      assert day <= ahead;
      if WeekDay(day) in days && day >= notBefore {
        if WeeksBetween(current, day) % interval == 0 { return; }
        SkipWeek(s, day);
        day := StartOfWeek(day + 7);
        continue;
      }
      var next := NextWeekDay(days, day);
      StepTo(s, day, next);
      day := next;
    }
  }

  /** The next day on one of the sorted weekdays. */
  method NextWeekDay(days: seq<nat>, day: int) returns (next: int)
    requires Sorted(days) && days != [] && forall d <- days :: d < 7
    ensures day < next <= day + 7 && WeekDay(next) in days
    ensures forall d | day < d < next :: WeekDay(d) !in days
  {
    var i := 0;
    while i < |days| && days[i] <= WeekDay(day)
      invariant i <= |days| && forall j | 0 <= j < i :: days[j] <= WeekDay(day)
    {
      i := i + 1;
    }
    if i < |days| {
      assert days[i] in days;
      next := day + (days[i] - WeekDay(day));
      DayOfWeek(day, next);
      forall d | day < d < next ensures WeekDay(d) !in days {
        DayOfWeek(day, d);
        assert forall j | i <= j < |days| :: days[i] <= days[j];
      }
    } else {
      assert days[0] in days && days[0] <= WeekDay(day);
      next := day + (7 - WeekDay(day) + days[0]);
      DayOfWeek(day, next);
      forall d | day < d < next ensures WeekDay(d) !in days {
        DayOfWeek(day, d);
        assert forall j | 0 <= j < |days| :: days[0] <= days[j];
      }
    }
  }
}
