/** The lifecycle status of a course and the rule that derives it from the course's dates.
    Dates and the current time are integer timestamps (milliseconds since the epoch). */
module Lifecycle {

  /** The four values of a course's `status` field: planned, active, finished, cancelled. */
  datatype Status = Geplant | Aktiv | Beendet | Abgesagt

  /** The effective status at time `now`. A cancelled course stays cancelled; otherwise a course
      whose end lies before `now` is finished, one whose start lies after `now` is planned, and
      every other course (start <= now <= end) is active. */
  function Derive(stored: Status, startDate: int, endDate: int, now: int): (s: Status)
    ensures s == Abgesagt <==> stored == Abgesagt
    ensures s == Beendet <==> stored != Abgesagt && endDate < now
    ensures s == Geplant <==> stored != Abgesagt && now <= endDate && now < startDate
    ensures s == Aktiv <==> stored != Abgesagt && startDate <= now <= endDate
  {
    if stored == Abgesagt then Abgesagt
    else if endDate < now then Beendet
    else if startDate > now then Geplant
    else Aktiv
  }

  /** Position of a status along the date-driven lifecycle. */
  function Rank(s: Status): nat
  {
    match s
    case Geplant => 0
    case Aktiv => 1
    case Beendet => 2
    case Abgesagt => 3
  }

  /** Deriving again from a derived status changes nothing. */
  lemma DeriveIdempotent(stored: Status, startDate: int, endDate: int, now: int)
    ensures Derive(Derive(stored, startDate, endDate, now), startDate, endDate, now)
         == Derive(stored, startDate, endDate, now)
  {
  }

  /** Both ends of the date range belong to the active period. */
  lemma DeriveBoundariesInclusive(stored: Status, startDate: int, endDate: int)
    requires stored != Abgesagt && startDate <= endDate
    ensures Derive(stored, startDate, endDate, startDate) == Aktiv
    ensures Derive(stored, startDate, endDate, endDate) == Aktiv
  {
  }

  /** A course running from `t` to `t + 1` is planned at `t - 1`, active at `t` and finished at `t + 2`. */
  lemma DeriveAroundOneUnitCourse(stored: Status, t: int)
    requires stored != Abgesagt
    ensures Derive(stored, t, t + 1, t - 1) == Geplant
    ensures Derive(stored, t, t + 1, t) == Aktiv
    ensures Derive(stored, t, t + 1, t + 2) == Beendet
  {
  }

  /** For a course with a well-formed date range the derived status only moves forward
      (planned, then active, then finished) as time passes. */
  lemma DeriveMonotoneInTime(stored: Status, startDate: int, endDate: int, t1: int, t2: int)
    requires stored != Abgesagt && startDate <= endDate && t1 <= t2
    ensures Rank(Derive(stored, startDate, endDate, t1)) <= Rank(Derive(stored, startDate, endDate, t2))
    ensures Derive(stored, startDate, endDate, t2) != Abgesagt
  {
  }
}
