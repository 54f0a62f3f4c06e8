/** The course controller: the status projection on every read path, the defaults and type
    derivation of `create` and `update`, and the read-check-mutate `join` and `leave`.
    The collection is a map from course id to stored record; `now` is a parameter. */
module CourseController {
  import opened Lifecycle
  import opened CourseModel
  import opened CourseValidators
  import opened Sequences

  type CourseId = nat

  /** What an operation reports; each value stands for one response of the controller. */
  datatype Outcome =
    | Ok                // 200 / 201
    | Unauthenticated   // 401: no caller id
    | NotFound          // 404: no course with this id
    | AlreadyEnrolled   // 400: join by a participant
    | NotJoinable       // 400: join of a finished or cancelled course
    | Full              // 400: join of a course at capacity
    | NotEnrolled       // 400: leave by a non-participant
    | ValidationFailed  // 500: the schema rejected the document

  // ---------------------------------------------------------------------------
  // Read paths

  /** The callback of `courses.map(...)` in `getAll`, `getAllCourses` and `getUserCourses`:
      a cancelled course is returned as it is, any other is copied with the status its dates give. */
  function ProjectCourse(c: Course, now: int): (r: Course)
    ensures r == c.(status := Derive(c.status, c.startDate, c.endDate, now))
  {
    if c.status == Abgesagt then c
    else if c.endDate < now then c.(status := Beendet)
    else if c.startDate > now then c.(status := Geplant)
    else c.(status := Aktiv)
  }

  /** `getAll` (and the identical `getAllCourses`): the documents `find()` returned, in its order,
      each with its effective status. */
  function GetAll(docs: seq<Course>, now: int): (r: seq<Course>)
    ensures |r| == |docs|
    ensures forall i :: 0 <= i < |docs| ==>
      r[i] == docs[i].(status := Derive(docs[i].status, docs[i].startDate, docs[i].endDate, now))
  {
    seq(|docs|, i requires 0 <= i < |docs| => ProjectCourse(docs[i], now))
  }

  /** The filter `{ participants: userId }`. */
  function EnrolledIn(uid: UserId): Course -> bool
  {
    (c: Course) => uid in c.participants
  }

  /** `getUserCourses`: the courses the caller takes part in, each with its effective status. */
  function GetUserCourses(docs: seq<Course>, uid: UserId, now: int): (r: seq<Course>)
    ensures |r| <= |docs|
    ensures forall i :: 0 <= i < |r| ==>
      uid in r[i].participants && r[i].status == Derive(r[i].status, r[i].startDate, r[i].endDate, now)
  {
    GetAll(Filter(docs, EnrolledIn(uid)), now)
  }

  /** `getUserCourses` returns every course the caller takes part in, projected, and no other,
      in the order `find()` returned them. */
  lemma GetUserCoursesExact(docs: seq<Course>, uid: UserId, now: int, d: Course)
    ensures ProjectCourse(d, now) in GetUserCourses(docs, uid, now) <== d in docs && uid in d.participants
    ensures d in GetUserCourses(docs, uid, now) ==>
      exists e :: e in docs && uid in e.participants && d == ProjectCourse(e, now)
    ensures IsSubsequence(Filter(docs, EnrolledIn(uid)), docs)
  {
    var kept := Filter(docs, EnrolledIn(uid));
    FilterMember(docs, EnrolledIn(uid), d);
    FilterIsSubsequence(docs, EnrolledIn(uid));
    if d in docs && uid in d.participants {
      var k :| 0 <= k < |kept| && kept[k] == d;
      assert GetUserCourses(docs, uid, now)[k] == ProjectCourse(d, now);
    }
    if d in GetUserCourses(docs, uid, now) {
      var k :| 0 <= k < |kept| && GetUserCourses(docs, uid, now)[k] == d;
      FilterMember(docs, EnrolledIn(uid), kept[k]);
      assert kept[k] in docs && uid in kept[k].participants && d == ProjectCourse(kept[k], now);
    }
  }

  // ---------------------------------------------------------------------------
  // Create and update

  /** The body of a create request. Absent optional fields are `None`; an empty `endDate`
      counts as absent. */
  datatype CreateRequest = CreateRequest(
    title: string,
    description: string,
    startDate: int,
    endDate: Option<int>,
    startTime: Option<string>,
    endTime: Option<string>,
    category: Category,
    location: Option<string>,
    maxParticipants: int,
    status: Option<Status>,
    youtubeUrl: Option<string>,
    thumbnailUrl: Option<string>,
    topics: Option<seq<string>>)

  /** The document `create` hands to `Course.create`, with the schema's `status` default. */
  function NewCourse(req: CreateRequest, creator: UserId): (c: Course)
    ensures c.kind == Recorded <==> req.category == Onlinekurs
    ensures c.startDate == req.startDate
    ensures c.endDate == (if req.endDate.Some? then req.endDate.value else req.startDate)
    ensures c.participants == [] && c.info.participantCount == 0
    ensures c.info.createdBy == creator
    ensures c.status == (if req.status.Some? then req.status.value else Geplant)
    ensures c.info.topics == (if req.topics.Some? then req.topics.value else [])
    ensures c.category == req.category && c.maxParticipants == req.maxParticipants
  {
    var kind := if req.category == Onlinekurs then Recorded else Live;
    Course(
      req.startDate, req.endDate.GetOr(req.startDate), req.category, req.maxParticipants,
      req.status.GetOr(Geplant), kind, [],
      CourseInfo(
        req.title, req.description, req.startTime, req.endTime, req.location, 0,
        req.youtubeUrl, req.thumbnailUrl, req.topics.GetOr([]), creator))
  }

  /** The body of an update request: each present field is written, absent ones are kept. */
  datatype CoursePatch = CoursePatch(
    title: Option<string>,
    description: Option<string>,
    startDate: Option<int>,
    endDate: Option<int>,
    startTime: Option<string>,
    endTime: Option<string>,
    category: Option<Category>,
    location: Option<string>,
    maxParticipants: Option<int>,
    participantCount: Option<int>,
    status: Option<Status>,
    kind: Option<DeliveryType>,
    youtubeUrl: Option<string>,
    thumbnailUrl: Option<string>,
    topics: Option<seq<string>>,
    participants: Option<seq<UserId>>,
    createdBy: Option<string>)

  /** A patch that writes nothing. */
  function NoChange(): CoursePatch
  {
    CoursePatch(None, None, None, None, None, None, None, None, None, None, None, None, None, None, None, None, None)
  }

  /** The `updates` object of `update`: the body, with `type` re-derived when a category is given. */
  function PrepareUpdate(u: CoursePatch): (v: CoursePatch)
    ensures u.category.Some? ==> v.kind == Some(KindOf(u.category.value))
    ensures u.category.None? ==> v.kind == u.kind
    ensures v.(kind := u.kind) == u
  {
    if u.category.Some? then u.(kind := Some(if u.category.value == Onlinekurs then Recorded else Live))
    else u
  }

  /** `findByIdAndUpdate` writes the given fields; it bypasses the save hooks. */
  function ApplyPatch(c: Course, u: CoursePatch): Course
  {
    Course(
      u.startDate.GetOr(c.startDate), u.endDate.GetOr(c.endDate), u.category.GetOr(c.category),
      u.maxParticipants.GetOr(c.maxParticipants), u.status.GetOr(c.status), u.kind.GetOr(c.kind),
      u.participants.GetOr(c.participants),
      CourseInfo(
        u.title.GetOr(c.info.title), u.description.GetOr(c.info.description),
        if u.startTime.Some? then u.startTime else c.info.startTime,
        if u.endTime.Some? then u.endTime else c.info.endTime,
        if u.location.Some? then u.location else c.info.location,
        u.participantCount.GetOr(c.info.participantCount),
        if u.youtubeUrl.Some? then u.youtubeUrl else c.info.youtubeUrl,
        if u.thumbnailUrl.Some? then u.thumbnailUrl else c.info.thumbnailUrl,
        u.topics.GetOr(c.info.topics), u.createdBy.GetOr(c.info.createdBy)))
  }

  /** The update validators (`runValidators: true`) on the fields the patch sets. */
  predicate PatchConforms(u: CoursePatch)
  {
    && TimeValid(u.startTime)
    && TimeValid(u.endTime)
    && (u.maxParticipants.Some? ==> CapacityValid(u.maxParticipants.value))
    && YoutubeUrlValid(u.youtubeUrl)
  }

  /** An update re-derives the type exactly when it carries a category; otherwise the type is
      whatever the body gave or the stored one. The status is never re-derived, so a cancellation
      is set (or lifted) only by the body, and other fields pass through. */
  lemma UpdateDerivations(c: Course, u: CoursePatch)
    ensures u.category.Some? ==> ApplyPatch(c, PrepareUpdate(u)).kind == KindOf(u.category.value)
    ensures u.category.None? ==> ApplyPatch(c, PrepareUpdate(u)).kind == u.kind.GetOr(c.kind)
    ensures ApplyPatch(c, PrepareUpdate(u)).status == u.status.GetOr(c.status)
    ensures ApplyPatch(c, PrepareUpdate(u)).(kind := c.kind) == ApplyPatch(c, u).(kind := c.kind)
  {
  }

  /** A patch that writes nothing leaves the course as it was. */
  lemma NoChangeIsIdentity(c: Course)
    ensures ApplyPatch(c, PrepareUpdate(NoChange())) == c
  {
  }

  /** A created course is recorded exactly when it is an online course, starts with no participants
      and a zero count, ends at its start unless an end was given, and carries the status its dates
      give at creation time unless the body cancelled it. */
  lemma CreatedCourse(req: CreateRequest, creator: UserId, now: int)
    ensures Saved(NewCourse(req, creator), now).kind == Recorded <==> req.category == Onlinekurs
    ensures Saved(NewCourse(req, creator), now).participants == []
    ensures Saved(NewCourse(req, creator), now).info.participantCount == 0
    ensures req.endDate.None? ==> Saved(NewCourse(req, creator), now).endDate == req.startDate
    ensures req.status != Some(Abgesagt) ==>
      Saved(NewCourse(req, creator), now).status
        == Derive(Geplant, req.startDate, req.endDate.GetOr(req.startDate), now)
  {
  }

  // ---------------------------------------------------------------------------
  // Enrollment

  /** A status that admits new participants. */
  predicate Joinable(s: Status)
  {
    s != Beendet && s != Abgesagt
  }

  /** The checks `join` makes once the course is loaded, first failure wins: membership, the
      status recomputed at call time, then capacity. */
  function JoinCheck(c: Course, uid: UserId, now: int): (r: Outcome)
    ensures r == AlreadyEnrolled <==> uid in c.participants
    ensures r == NotJoinable <==>
      uid !in c.participants && !Joinable(Derive(c.status, c.startDate, c.endDate, now))
    ensures r == Full <==>
      uid !in c.participants && Joinable(Derive(c.status, c.startDate, c.endDate, now))
      && |c.participants| >= c.maxParticipants
    ensures r == Ok <==>
      uid !in c.participants && Joinable(Derive(c.status, c.startDate, c.endDate, now))
      && |c.participants| < c.maxParticipants
  {
    if uid in c.participants then AlreadyEnrolled
    else
      var s := Derive(c.status, c.startDate, c.endDate, now);
      if s == Beendet || s == Abgesagt then NotJoinable
      else if |c.participants| >= c.maxParticipants then Full
      else Ok
  }

  /** The record a successful `join` stores: the caller appended, then saved. */
  function Enrolled(c: Course, uid: UserId, now: int): Course
  {
    Saved(c.(participants := c.participants + [uid]), now)
  }

  /** The check `leave` makes once the course is loaded. */
  function LeaveCheck(c: Course, uid: UserId): (r: Outcome)
    ensures r == Ok <==> uid in c.participants
    ensures r == NotEnrolled <==> uid !in c.participants
  {
    if uid in c.participants then Ok else NotEnrolled
  }

  /** The filter callback of `leave`: every participant other than the caller. */
  function Other(uid: UserId): UserId -> bool
  {
    (x: UserId) => x != uid
  }

  /** The participants without any entry equal to the caller. */
  function Without(s: seq<UserId>, uid: UserId): (r: seq<UserId>)
    ensures uid !in r
  {
    Filter(s, Other(uid))
  }

  /** The record a successful `leave` stores. */
  function Withdrawn(c: Course, uid: UserId, now: int): Course
  {
    Saved(c.(participants := Without(c.participants, uid)), now)
  }

  /** What a loaded `join` reports: the first failing check, else `ValidationFailed` when the
      schema rejects the document `save()` validates (validation runs before the hooks). */
  function JoinOutcome(c: Course, uid: UserId, now: int): (r: Outcome)
    ensures JoinCheck(c, uid, now) != Ok ==> r == JoinCheck(c, uid, now)
    ensures r == ValidationFailed <==> JoinCheck(c, uid, now) == Ok && !Conforms(c)
    ensures r == Ok <==> JoinCheck(c, uid, now) == Ok && Conforms(c)
  {
    var check := JoinCheck(c, uid, now);
    if check != Ok then check
    else if !Conforms(c.(participants := c.participants + [uid])) then ValidationFailed
    else Ok
  }

  /** What a loaded `leave` reports: `NotEnrolled` for a non-participant, else `ValidationFailed`
      when the schema rejects the document `save()` validates. */
  function LeaveOutcome(c: Course, uid: UserId): (r: Outcome)
    ensures r == NotEnrolled <==> LeaveCheck(c, uid) == NotEnrolled
    ensures r == ValidationFailed <==> LeaveCheck(c, uid) == Ok && !Conforms(c)
    ensures r == Ok <==> LeaveCheck(c, uid) == Ok && Conforms(c)
  {
    if LeaveCheck(c, uid) != Ok then NotEnrolled
    else if !Conforms(c.(participants := Without(c.participants, uid))) then ValidationFailed
    else Ok
  }

  /** An update that only moves a course without a location on site passes the update
      validators, yet the stored course no longer conforms, so the next `join` that passes every
      check fails at `save()`. */
  lemma OnSiteUpdateBlocksJoin(c: Course, uid: UserId, now: int)
    requires Conforms(c) && c.info.location.None? && JoinCheck(c, uid, now) == Ok
    ensures PatchConforms(PrepareUpdate(NoChange().(category := Some(Schulungszentrum))))
    ensures !Conforms(ApplyPatch(c, PrepareUpdate(NoChange().(category := Some(Schulungszentrum)))))
    ensures JoinOutcome(ApplyPatch(c, PrepareUpdate(NoChange().(category := Some(Schulungszentrum)))), uid, now)
      == ValidationFailed
  {
  }

  /** No two entries of `s` are equal. */
  predicate Distinct(s: seq<UserId>)
  {
    forall i, j :: 0 <= i < j < |s| ==> s[i] != s[j]
  }

  /** The status `join` tests is the one the list projection shows: the caller is refused as
      not joinable exactly when the projected course is finished or cancelled. */
  lemma JoinSeesProjectedStatus(c: Course, uid: UserId, now: int)
    requires uid !in c.participants
    ensures JoinCheck(c, uid, now) == NotJoinable <==>
      ProjectCourse(c, now).status == Beendet || ProjectCourse(c, now).status == Abgesagt
  {
  }

  /** A participant is told they are already enrolled even when the course is over. */
  lemma DuplicateReportedBeforeStatus(c: Course, uid: UserId, now: int)
    requires uid in c.participants && Derive(c.status, c.startDate, c.endDate, now) == Beendet
    ensures JoinCheck(c, uid, now) == AlreadyEnrolled
  {
  }

  /** A successful join appends the caller once, stays within capacity, keeps the participants
      duplicate-free, and changes nothing but participants, status and type; `participantCount`
      in particular keeps its old value. */
  lemma JoinEffect(c: Course, uid: UserId, now: int)
    requires JoinCheck(c, uid, now) == Ok
    ensures Enrolled(c, uid, now).participants == c.participants + [uid]
    ensures |Enrolled(c, uid, now).participants| <= c.maxParticipants
    ensures multiset(Enrolled(c, uid, now).participants)[uid] == 1
    ensures Distinct(c.participants) ==> Distinct(Enrolled(c, uid, now).participants)
    ensures Enrolled(c, uid, now).(participants := c.participants, status := c.status, kind := c.kind) == c
    ensures Enrolled(c, uid, now).kind == KindOf(c.category)
    ensures Enrolled(c, uid, now).status == Derive(c.status, c.startDate, c.endDate, now)
    ensures Joinable(Enrolled(c, uid, now).status)
  {
    assert uid !in multiset(c.participants);
  }

  /** Dropping the caller removes all of its entries and keeps every other entry, in order. */
  lemma WithoutKeepsOthers(s: seq<UserId>, uid: UserId, v: UserId)
    ensures uid !in Without(s, uid)
    ensures v != uid ==> multiset(Without(s, uid))[v] == multiset(s)[v]
    ensures IsSubsequence(Without(s, uid), s)
  {
    FilterCount(s, Other(uid), v);
    FilterIsSubsequence(s, Other(uid));
  }

  /** After a successful leave the caller is gone, every other participant keeps all its entries
      in their relative order, and nothing but participants, status and type changes. */
  lemma LeaveEffect(c: Course, uid: UserId, now: int, v: UserId)
    requires LeaveCheck(c, uid) == Ok
    ensures uid !in Withdrawn(c, uid, now).participants
    ensures v != uid ==> multiset(Withdrawn(c, uid, now).participants)[v] == multiset(c.participants)[v]
    ensures IsSubsequence(Withdrawn(c, uid, now).participants, c.participants)
    ensures Withdrawn(c, uid, now).(participants := c.participants, status := c.status, kind := c.kind) == c
    ensures Withdrawn(c, uid, now).kind == KindOf(c.category)
    ensures Withdrawn(c, uid, now).status == Derive(c.status, c.startDate, c.endDate, now)
  {
    WithoutKeepsOthers(c.participants, uid, v);
  }

  /** Leaving right after joining restores the participant list. */
  lemma {:induction false} LeaveUndoesJoin(c: Course, uid: UserId, now: int)
    requires JoinCheck(c, uid, now) == Ok
    ensures LeaveCheck(Enrolled(c, uid, now), uid) == Ok
    ensures Withdrawn(Enrolled(c, uid, now), uid, now).participants == c.participants
  {
    FilterAppend(c.participants, [uid], Other(uid));
    assert Filter([uid], Other(uid)) == [];
    assert forall i :: 0 <= i < |c.participants| ==> Other(uid)(c.participants[i]);
    FilterKeepsAll(c.participants, Other(uid));
  }

  /** With one seat left on an active course: the first join succeeds, the same user's second
      join is a duplicate, and another user finds the course full. */
  lemma LastSeatScenario(c: Course, a: UserId, b: UserId, now: int)
    requires c.maxParticipants == 1 && c.participants == [] && a != b
    requires Derive(c.status, c.startDate, c.endDate, now) == Aktiv
    ensures JoinCheck(c, a, now) == Ok
    ensures JoinCheck(Enrolled(c, a, now), a, now) == AlreadyEnrolled
    ensures JoinCheck(Enrolled(c, a, now), b, now) == Full
  {
    DeriveIdempotent(c.status, c.startDate, c.endDate, now);
  }

  /** A `leave` right after a `join` that answered `Ok` also answers `Ok` and restores the
      participant list: the joined course still passes validation at `save()`. */
  lemma LeaveAfterJoinSucceeds(c: Course, uid: UserId, now: int)
    requires JoinOutcome(c, uid, now) == Ok
    ensures LeaveOutcome(Enrolled(c, uid, now), uid) == Ok
    ensures Withdrawn(Enrolled(c, uid, now), uid, now).participants == c.participants
  {
    LeaveUndoesJoin(c, uid, now);
  }

  /** The last-seat scenario as `join` answers it, on a course the schema accepts: the first join
      succeeds, the same user's second join is a duplicate, and another user finds it full. */
  lemma LastSeatOutcomes(c: Course, a: UserId, b: UserId, now: int)
    requires c.maxParticipants == 1 && c.participants == [] && a != b && Conforms(c)
    requires Derive(c.status, c.startDate, c.endDate, now) == Aktiv
    ensures JoinOutcome(c, a, now) == Ok
    ensures JoinOutcome(Enrolled(c, a, now), a, now) == AlreadyEnrolled
    ensures JoinOutcome(Enrolled(c, a, now), b, now) == Full
  {
    LastSeatScenario(c, a, b, now);
  }

  // ---------------------------------------------------------------------------
  // The controller over the course collection

  /** The course collection and the next id to hand out. */
  class CourseStore {
    var courses: map<CourseId, Course>
    var nextId: CourseId

    ghost predicate Valid()
      reads this
    {
      forall id :: id in courses ==> id < nextId
    }

    constructor ()
      ensures Valid() && courses == map[] && nextId == 0
    {
      courses := map[];
      nextId := 0;
    }

    /** `getById`: the course with its effective status, computed as the list projection does. */
    method GetById(id: CourseId, now: int) returns (r: Option<Course>)
      ensures id !in courses ==> r == None
      ensures id in courses ==> r == Some(ProjectCourse(courses[id], now))
    {
      if id !in courses {
        return None;
      }
      var course := courses[id];
      var status := course.status;
      if status != Abgesagt {
        if course.endDate < now {
          status := Beendet;
        } else if course.startDate > now {
          status := Geplant;
        } else {
          status := Aktiv;
        }
      }
      r := Some(course.(status := status));
    }

    /** `create`: refuses an anonymous caller, builds the document, validates it, runs the save
      hooks and stores it under a fresh id. */
    method Create(creator: Option<UserId>, req: CreateRequest, now: int) returns (r: Outcome, id: CourseId)
      requires Valid()
      modifies this
      ensures Valid()
      ensures r == Ok || r == Unauthenticated || r == ValidationFailed
      ensures r == Unauthenticated <==> creator.None?
      ensures r == ValidationFailed <==> creator.Some? && !Conforms(NewCourse(req, creator.value))
      ensures r == Ok ==>
        id == old(nextId) && id !in old(courses) && nextId == old(nextId) + 1
        && courses == old(courses)[id := Saved(NewCourse(req, creator.value), now)]
      ensures r != Ok ==> courses == old(courses) && nextId == old(nextId)
    {
      if creator.None? {
        return Unauthenticated, 0;
      }
      var data := NewCourse(req, creator.value);
      if !Conforms(data) {
        return ValidationFailed, 0;
      }
      var doc := new CourseDocument.Load(data);
      doc.Save(now);
      id := nextId;
      courses := courses[id := doc.Record()];
      nextId := nextId + 1;
      r := Ok;
    }

    /** `update`: writes the body's fields, with the type re-derived when a category is given.
      The update validators run before the lookup; the save hooks do not run. */
    method Update(id: CourseId, u: CoursePatch) returns (r: Outcome)
      requires Valid()
      modifies this`courses
      ensures Valid()
      ensures r == Ok || r == NotFound || r == ValidationFailed
      ensures r == ValidationFailed <==> !PatchConforms(PrepareUpdate(u))
      ensures r == NotFound <==> PatchConforms(PrepareUpdate(u)) && id !in old(courses)
      ensures r == Ok ==> courses == old(courses)[id := ApplyPatch(old(courses)[id], PrepareUpdate(u))]
      ensures r != Ok ==> courses == old(courses)
    {
      var updates := u;
      if updates.category.Some? {
        updates := updates.(kind := Some(if updates.category.value == Onlinekurs then Recorded else Live));
      }
      if !PatchConforms(updates) {
        return ValidationFailed;
      }
      if id !in courses {
        return NotFound;
      }
      courses := courses[id := ApplyPatch(courses[id], updates)];
      r := Ok;
    }

    /** `updateYoutubeInfo`: an update that writes only the link (the description is not a
      schema field and is dropped). */
    method UpdateYoutubeInfo(id: CourseId, url: string) returns (r: Outcome)
      requires Valid()
      modifies this`courses
      ensures Valid()
      ensures r == ValidationFailed <==> !YoutubeUrlValid(Some(url))
      ensures r == NotFound <==> YoutubeUrlValid(Some(url)) && id !in old(courses)
      ensures r == Ok ==> courses == old(courses)[id := old(courses)[id].(info := old(courses)[id].info.(youtubeUrl := Some(url)))]
      ensures r != Ok ==> courses == old(courses)
    {
      r := Update(id, NoChange().(youtubeUrl := Some(url)));
    }

    /** `delete`: removes the course, with no effect on anything else. */
    method Delete(id: CourseId) returns (r: Outcome)
      requires Valid()
      modifies this`courses
      ensures Valid()
      ensures r == Ok <==> id in old(courses)
      ensures r == NotFound <==> id !in old(courses)
      ensures courses == old(courses) - {id}
    {
      if id !in courses {
        return NotFound;
      }
      courses := courses - {id};
      r := Ok;
    }

    /** `join`: checks in order caller, course, membership, status (recomputed on the loaded
      document), capacity; only when all pass is the caller appended and the document saved,
      and `save()` stores nothing when the schema rejects the document. */
    method Join(id: CourseId, user: Option<UserId>, now: int) returns (r: Outcome)
      requires Valid()
      modifies this`courses
      ensures Valid()
      ensures user.None? ==> r == Unauthenticated
      ensures user.Some? && id !in old(courses) ==> r == NotFound
      ensures user.Some? && id in old(courses) ==> r == JoinOutcome(old(courses)[id], user.value, now)
      ensures r == Ok ==> courses == old(courses)[id := Enrolled(old(courses)[id], user.value, now)]
      ensures r != Ok ==> courses == old(courses)
    {
      if user.None? {
        return Unauthenticated;
      }
      var uid := user.value;
      if id !in courses {
        return NotFound;
      }
      var course := new CourseDocument.Load(courses[id]);
      if uid in course.participants {
        return AlreadyEnrolled;
      }
      if course.status != Abgesagt {
        if course.endDate < now {
          course.status := Beendet;
        } else if course.startDate > now {
          course.status := Geplant;
        } else {
          course.status := Aktiv;
        }
      }
      if course.status == Beendet || course.status == Abgesagt {
        return NotJoinable;
      }
      if |course.participants| >= course.maxParticipants {
        return Full;
      }
      course.participants := course.participants + [uid];
      if !Conforms(course.Record()) {
        return ValidationFailed;
      }
      ghost var stored := courses[id];
      DeriveIdempotent(stored.status, stored.startDate, stored.endDate, now);
      course.Save(now);
      courses := courses[id := course.Record()];
      r := Ok;
    }

    /** `leave`: refuses a non-participant; otherwise drops every entry equal to the caller and
      saves the document, which stores nothing when the schema rejects it. */
    method Leave(id: CourseId, user: Option<UserId>, now: int) returns (r: Outcome)
      requires Valid()
      modifies this`courses
      ensures Valid()
      ensures user.None? ==> r == Unauthenticated
      ensures user.Some? && id !in old(courses) ==> r == NotFound
      ensures user.Some? && id in old(courses) ==> r == LeaveOutcome(old(courses)[id], user.value)
      ensures r == Ok ==> courses == old(courses)[id := Withdrawn(old(courses)[id], user.value, now)]
      ensures r != Ok ==> courses == old(courses)
    {
      if user.None? {
        return Unauthenticated;
      }
      var uid := user.value;
      if id !in courses {
        return NotFound;
      }
      var course := new CourseDocument.Load(courses[id]);
      if uid !in course.participants {
        return NotEnrolled;
      }
      course.participants := Without(course.participants, uid);
      if !Conforms(course.Record()) {
        return ValidationFailed;
      }
      course.Save(now);
      courses := courses[id := course.Record()];
      r := Ok;
    }
  }
}
