/** Calendar days in the business time zone, a fixed offset from UTC. */
module Calendar {
  import opened Model

  const MINUTE: Time := 60 * 1000 * 1000
  const DAY: Time := 24 * 60 * MINUTE
  /** Asia/Kathmandu, UTC+5:45 */
  const OFFSET: Time := (5 * 60 + 45) * MINUTE

  /** The day shown for an instant (formatLeadCreatedAt); days are numbered from the epoch. */
  function DayOf(t: Time): int { (t + OFFSET) / DAY }

  /** Local midnight of a day, as an instant (parseLeadAddedDay). */
  function DayStart(day: int): Time { day * DAY - OFFSET }

  /** An instant is in the half-open window of days [from, to] iff its shown day is. */
  lemma WindowIsDayRange(t: Time, from: int, to: int)
    ensures t >= DayStart(from) <==> from <= DayOf(t)
    ensures t < DayStart(to + 1) <==> DayOf(t) <= to
  {
    assert (to + 1) * DAY == to * DAY + DAY;
  }

  /** A lead date stored as local midnight is shown as that date. */
  lemma StoredDateIsShown(day: int)
    ensures DayOf(DayStart(day)) == day
  {
    assert DayStart(day) + OFFSET == day * DAY;
    assert (day * DAY) / DAY == day;
  }

  /** Local midnight is 18:15 UTC of the day before. */
  lemma MidnightIs1815(day: int)
    ensures var midnight := day * 86_400_000_000 - 20_700_000_000;
      DayStart(day) == midnight && DayOf(midnight) == day && DayOf(midnight - 1) == day - 1
  {
    StoredDateIsShown(day);
    WindowIsDayRange(DayStart(day) - 1, day - 1, day - 1);
  }
}
