/** Local calendar days, numbered so that day 0 is a Sunday. */
module Calendar {
  function WeekDay(day: int): (d: nat)
    ensures d < 7
  {
    day % 7
  }
}
