/** The store-wide status reconciliation: three `updateMany` passes over every course, as the
    middleware `updateCourseStatuses` and the body of the timer in `scheduleCourseStatusUpdates`
    perform them. Each pass overwrites the status of every course matching its filter, and
    later passes see earlier passes' writes. */
module CourseStatusSweep {
  import opened Lifecycle
  import opened CourseModel

  /** The three passes, in the order they run. */
  datatype Pass = EndedPass | FuturePass | CurrentPass

  /** The status a pass writes. */
  function Target(p: Pass): Status
  {
    match p
    case EndedPass => Beendet
    case FuturePass => Geplant
    case CurrentPass => Aktiv
  }

  /** The date part of a pass's filter: `endDate < now`, `startDate > now`,
      or `startDate <= now <= endDate`. */
  predicate DateFilter(p: Pass, c: Course, now: int)
  {
    match p
    case EndedPass => c.endDate < now
    case FuturePass => c.startDate > now
    case CurrentPass => c.startDate <= now && c.endDate >= now
  }

  /** A pass's whole filter: its date part and `status $nin [target, 'abgesagt']`. */
  predicate Matches(p: Pass, c: Course, now: int)
  {
    DateFilter(p, c, now) && c.status != Target(p) && c.status != Abgesagt
  }

  /** What a pass does to one course. */
  function Step(p: Pass, c: Course, now: int): Course
  {
    if Matches(p, c, now) then c.(status := Target(p)) else c
  }

  /** What a pass does to the collection. */
  function PassAll(cs: seq<Course>, p: Pass, now: int): seq<Course>
  {
    seq(|cs|, i requires 0 <= i < |cs| => Step(p, cs[i], now))
  }

  /** How many courses a pass matches (and so rewrites, since its filter excludes the target status). */
  function CountMatches(cs: seq<Course>, p: Pass, now: int): nat
  {
    if cs == [] then 0
    else CountMatches(cs[..|cs| - 1], p, now) + (if Matches(p, cs[|cs| - 1], now) then 1 else 0)
  }

  /** The three passes applied to one course. */
  function SweepCourse(c: Course, now: int): Course
  {
    Step(CurrentPass, Step(FuturePass, Step(EndedPass, c, now), now), now)
  }

  /** The three passes applied to the collection. */
  function Sweep(cs: seq<Course>, now: int): seq<Course>
  {
    PassAll(PassAll(PassAll(cs, EndedPass, now), FuturePass, now), CurrentPass, now)
  }

  /** The number of writes the three passes perform. */
  function SweepMatches(cs: seq<Course>, now: int): nat
  {
    var afterEnded := PassAll(cs, EndedPass, now);
    var afterFuture := PassAll(afterEnded, FuturePass, now);
    CountMatches(cs, EndedPass, now) + CountMatches(afterEnded, FuturePass, now)
      + CountMatches(afterFuture, CurrentPass, now)
  }

  /** A course that ended before `now` but starts after it; no cancellation. */
  predicate Inverted(c: Course, now: int)
  {
    c.status != Abgesagt && c.endDate < now < c.startDate
  }

  /** One `updateMany`: rewrites the status of every matching course and returns how many matched. */
  method ApplyPass(a: array<Course>, p: Pass, now: int) returns (matched: nat)
    modifies a
    ensures a[..] == PassAll(old(a[..]), p, now)
    ensures matched == CountMatches(old(a[..]), p, now)
  {
    matched := 0;
    var i := 0;
    while i < a.Length
      invariant 0 <= i <= a.Length
      invariant forall k :: 0 <= k < i ==> a[k] == Step(p, old(a[k]), now)
      invariant forall k :: i <= k < a.Length ==> a[k] == old(a[k])
      invariant matched == CountMatches(old(a[..])[..i], p, now)
    {
      assert old(a[..])[..i + 1][..i] == old(a[..])[..i];
      if Matches(p, a[i], now) {
        a[i] := a[i].(status := Target(p));
        matched := matched + 1;
      }
      i := i + 1;
    }
    assert old(a[..])[..a.Length] == old(a[..]);
  }

  /** The middleware `updateCourseStatuses`: ended, then future, then current courses.
      Returns the number of writes (the source discards the `updateMany` results). */
  method UpdateCourseStatuses(a: array<Course>, now: int) returns (matched: nat)
    modifies a
    ensures a[..] == Sweep(old(a[..]), now)
    ensures matched == SweepMatches(old(a[..]), now)
  {
    var ended := ApplyPass(a, EndedPass, now);
    var future := ApplyPass(a, FuturePass, now);
    var current := ApplyPass(a, CurrentPass, now);
    matched := ended + future + current;
  }

  /** One tick of the hourly timer that `scheduleCourseStatusUpdates` sets up: the same three
      passes in the same order, so it has the same specification as the middleware. */
  method ScheduledStatusUpdate(a: array<Course>, now: int) returns (matched: nat)
    modifies a
    ensures a[..] == Sweep(old(a[..]), now)
    ensures matched == SweepMatches(old(a[..]), now)
  {
    var ended := ApplyPass(a, EndedPass, now);
    var future := ApplyPass(a, FuturePass, now);
    var current := ApplyPass(a, CurrentPass, now);
    matched := ended + future + current;
  }

  /** The sweep acts on each course on its own. */
  lemma SweepPointwise(cs: seq<Course>, now: int)
    ensures |Sweep(cs, now)| == |cs|
    ensures forall i :: 0 <= i < |cs| ==> Sweep(cs, now)[i] == SweepCourse(cs[i], now)
  {
  }

  /** No pass matches a cancelled course, so the sweep leaves it exactly as it was. */
  lemma SweepLeavesCancelled(c: Course, now: int)
    requires c.status == Abgesagt
    ensures !Matches(EndedPass, c, now) && !Matches(FuturePass, c, now) && !Matches(CurrentPass, c, now)
    ensures SweepCourse(c, now) == c
  {
  }

  /** The sweep writes only the status, and a course no filter matches is left untouched. */
  lemma SweepOnlySetsStatus(c: Course, now: int)
    ensures SweepCourse(c, now) == c.(status := SweepCourse(c, now).status)
    ensures !Matches(EndedPass, c, now) && !Matches(FuturePass, c, now) && !Matches(CurrentPass, c, now)
      ==> SweepCourse(c, now) == c
  {
  }

  /** Where the sweep and the derivation part: exactly on a non-cancelled course with
      endDate < now < startDate, which pass 1 finishes and pass 2 then plans again. */
  lemma SweepDivergesIff(c: Course, now: int)
    ensures SweepCourse(c, now).status != Derive(c.status, c.startDate, c.endDate, now) <==> Inverted(c, now)
    ensures Inverted(c, now) ==>
      SweepCourse(c, now).status == Geplant && Derive(c.status, c.startDate, c.endDate, now) == Beendet
  {
  }

  /** On every course whose start is not after its end, the sweep stores the derived status. */
  lemma SweepAgreesWithDerive(cs: seq<Course>, now: int)
    requires forall i :: 0 <= i < |cs| ==> cs[i].startDate <= cs[i].endDate
    ensures |Sweep(cs, now)| == |cs|
    ensures forall i :: 0 <= i < |cs| ==>
      Sweep(cs, now)[i] == cs[i].(status := Derive(cs[i].status, cs[i].startDate, cs[i].endDate, now))
  {
    forall i | 0 <= i < |cs|
      ensures Sweep(cs, now)[i] == cs[i].(status := Derive(cs[i].status, cs[i].startDate, cs[i].endDate, now))
    {
      SweepDivergesIff(cs[i], now);
    }
  }

  /** Running the sweep twice at the same time leaves the same collection as running it once. */
  lemma SweepIdempotent(cs: seq<Course>, now: int)
    ensures Sweep(Sweep(cs, now), now) == Sweep(cs, now)
  {
    var once := Sweep(cs, now);
    var twice := Sweep(once, now);
    assert |twice| == |once|;
    forall i | 0 <= i < |once|
      ensures twice[i] == once[i]
    {
      SweepDivergesIff(cs[i], now);
    }
  }

  /** A pass matches nothing exactly when no course satisfies its filter. */
  lemma {:induction false} CountMatchesZeroIff(cs: seq<Course>, p: Pass, now: int)
    ensures CountMatches(cs, p, now) == 0 <==> forall i :: 0 <= i < |cs| ==> !Matches(p, cs[i], now)
    decreases |cs|
  {
    if cs != [] {
      var init := cs[..|cs| - 1];
      CountMatchesZeroIff(init, p, now);
      assert forall i :: 0 <= i < |init| ==> init[i] == cs[i];
    }
  }

  /** On a course the sweep has already processed, pass 1 and pass 2 match again exactly when
      its dates are inverted around `now`, and pass 3 never matches. */
  lemma ResweepCourse(c: Course, now: int)
    ensures Matches(EndedPass, SweepCourse(c, now), now) <==> Inverted(c, now)
    ensures Matches(FuturePass, Step(EndedPass, SweepCourse(c, now), now), now) <==> Inverted(c, now)
    ensures !Matches(CurrentPass, Step(FuturePass, Step(EndedPass, SweepCourse(c, now), now), now), now)
  {
  }

  /** A second sweep at the same time writes nothing exactly when no course has its dates
      inverted around `now`; such a course is rewritten on every run. */
  lemma SecondSweepIdleIff(cs: seq<Course>, now: int)
    ensures SweepMatches(Sweep(cs, now), now) == 0 <==> forall i :: 0 <= i < |cs| ==> !Inverted(cs[i], now)
  {
    var once := Sweep(cs, now);
    var afterEnded := PassAll(once, EndedPass, now);
    var afterFuture := PassAll(afterEnded, FuturePass, now);
    forall i | 0 <= i < |cs|
      ensures once[i] == SweepCourse(cs[i], now)
      ensures Matches(EndedPass, once[i], now) <==> Inverted(cs[i], now)
      ensures Matches(FuturePass, afterEnded[i], now) <==> Inverted(cs[i], now)
      ensures !Matches(CurrentPass, afterFuture[i], now)
    {
      ResweepCourse(cs[i], now);
    }
    CountMatchesZeroIff(once, EndedPass, now);
    CountMatchesZeroIff(afterEnded, FuturePass, now);
    CountMatchesZeroIff(afterFuture, CurrentPass, now);
  }
}
