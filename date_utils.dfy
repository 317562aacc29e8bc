/**
 * Calendar dates (utils/dateUtils.ts). A `YYYY-MM-DD` date is modelled as its
 * day number, so the whole-day difference dayjs computes is a subtraction.
 * Reading the clock (`getToday`) is not modelled: callers pass `today` in.
 */
module DateUtils {

  /** A calendar date as a count of days from a fixed epoch. */
  type Day = int

  /** `date` lies fewer than `days` whole days before `today`; later dates always qualify. */
  predicate IsWithinDays(date: Day, today: Day, days: int)
  {
    today - date < days
  }

  /** The comparison is strict: an entry exactly `days` old is out. */
  lemma BoundaryExcluded(today: Day, days: int)
    ensures !IsWithinDays(today - days, today, days)
    ensures IsWithinDays(today - days + 1, today, days)
  {
  }

  /** `today` itself is within any positive window. */
  lemma TodayWithin(today: Day, days: int)
    requires days > 0
    ensures IsWithinDays(today, today, days)
  {
  }

  /** Dates after `today` have a negative difference and are never pruned. */
  lemma FutureWithin(date: Day, today: Day, days: int)
    requires days > 0 && date >= today
    ensures IsWithinDays(date, today, days)
  {
  }

  /** Moving a date later never takes it out of the window. */
  lemma WithinMonotone(date: Day, later: Day, today: Day, days: int)
    requires IsWithinDays(date, today, days) && date <= later
    ensures IsWithinDays(later, today, days)
  {
  }
}
