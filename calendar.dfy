/**
 * Abstract calendar values.  The source uses Python `datetime` objects; the model keeps
 * only the fields the retention rules look at, compared lexicographically as Python does.
 * ISO week numbers are not computed here: every rule that needs one takes an
 * uninterpreted `isoWeek: Date -> int` parameter.
 */
module Calendar {

  datatype Date = Date(year: int, month: int, day: int)

  datatype DateTime = DateTime(year: int, month: int, day: int, hour: int, minute: int, second: int)

  /** `dt.date()` */
  function DateOf(t: DateTime): Date {
    Date(t.year, t.month, t.day)
  }

  /** `a < b` on dates. */
  predicate DateBefore(a: Date, b: Date) {
    a.year < b.year
    || (a.year == b.year && a.month < b.month)
    || (a.year == b.year && a.month == b.month && a.day < b.day)
  }

  /** `a < b` on datetimes: lexicographic on (date, hour, minute, second). */
  predicate Earlier(a: DateTime, b: DateTime) {
    DateBefore(DateOf(a), DateOf(b))
    || (DateOf(a) == DateOf(b) &&
        (a.hour < b.hour
         || (a.hour == b.hour && a.minute < b.minute)
         || (a.hour == b.hour && a.minute == b.minute && a.second < b.second)))
  }

  /** `a <= b` on datetimes. */
  predicate NoLater(a: DateTime, b: DateTime) {
    !Earlier(b, a)
  }

  lemma NoLaterTransitive(a: DateTime, b: DateTime, c: DateTime)
    requires NoLater(a, b) && NoLater(b, c)
    ensures NoLater(a, c)
  {
  }

  lemma NoLaterTotal(a: DateTime, b: DateTime)
    ensures NoLater(a, b) || NoLater(b, a)
  {
  }
}
