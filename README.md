# Course lifecycle and enrollment

A Dafny model of the core of a course-management backend. Administrators publish courses;
users browse them, join them and leave them. The model covers the parts of the backend that
hold logic:

- **Status derivation.** A course is `geplant` (planned), `aktiv` (active), `beendet`
  (finished) or `abgesagt` (cancelled). Every read path derives the status from `startDate`,
  `endDate` and the current time. A cancellation is never overwritten. `Lifecycle.Derive`
  states the rule once. The model then proves that each copy of it agrees with `Derive`:
  the list projection, `getById`, `join` and the status `pre('save')` hook.
- **The reconciliation sweep.** The middleware `updateCourseStatuses` runs three ordered
  `updateMany` passes over the collection, and the timer body that
  `scheduleCourseStatusUpdates` sets up runs the same three passes. Neither `app.ts` nor any router
  mounts or calls them; the model covers what they do when they run. Both are
  modelled as loops over an array of course records. The proofs show that the sweep never touches a
  cancelled course and writes only the status (of the modelled fields). On every course whose start is not after its
  end, it stores the derived status. It is idempotent. The one case where it disagrees with
  the derivation is `endDate < now < startDate`: pass 1 writes `beendet`, then pass 2 writes
  `geplant`. A course in that state is rewritten on every run.
- **Enrollment.** The collection is a map from course id to record. `join` checks, in order:
  caller, course, membership, status recomputed at call time, capacity. `leave` rejects
  non-members and drops every entry equal to the caller. Both load the document, mutate it in
  place, run the save hooks and store it. `save()` first validates the whole document, so a
  stored course the schema rejects (an update can produce one) makes `join` and `leave` fail
  with nothing stored. Failed operations leave the collection unchanged.
- **Create and update.** `create` derives the delivery type (`recorded` exactly for
  `onlinekurs`), defaults `endDate` to `startDate`, and starts with no participants and
  `participantCount` 0. It then validates the document and runs the save hooks. `update`
  re-derives the type only when the body carries a category. It bypasses the hooks, so it
  never re-derives the status.
- **Schema validators.** The `HH:mm` / `H:mm` time pattern, proved equivalent to "an hour
  0-23 and a minute 0-59". The YouTube substring check, proved equivalent to an occurrence
  at some position. `maxParticipants >= 1`. A `location` is required exactly for
  `schulungszentrum`.

Dates and `now` are integer timestamps. The clock is a parameter: every operation takes
`now`, and the save hooks use the same `now` as the request that triggers them.

Files: `lifecycle.dfy` (status rule), `sequences.dfy` (`Array.prototype.filter` and its
properties), `course_model.dfy` (the schema's record, the document class and its hooks),
`course_validators.dfy` (field validators), `course_status_sweep.dfy` (the sweep),
`course_controller.dfy` (read paths, create/update, join/leave, and the `CourseStore` class).

Facts about the code that the model keeps:
- `join` and `leave` check for a caller id before they look up the course.
- A duplicate join, a full course and a finished course all get the answer 400. The model
  keeps these apart as `AlreadyEnrolled`, `Full` and `NotJoinable`.
- The sweep does not always agree with the read-path derivation (see above).
- Capacity is not an invariant of the collection. `update` may lower `maxParticipants` or
  overwrite `participants`. Only `join` respects the capacity.
- `update` does not enforce the location requirement, so it can store an on-site course with
  no location; the next `join` or `leave` on it then fails validation at `save()`.

`getAll` and `getAllCourses` (src/controllers/courseController.ts:40-58) contain the same
projection. `GetAll` models both.

## Model

| member | source | states |
|---|---|---|
| Lifecycle.Derive | src/controllers/courseController.ts:12-25 | The status is `abgesagt` iff the stored one is. Otherwise it is `beendet` iff end < now, `geplant` iff now <= end and now < start, and `aktiv` iff start <= now <= end |
| Lifecycle.DeriveIdempotent | src/models/Course.ts:106-120 | Deriving again from a derived status yields the same status |
| Lifecycle.DeriveBoundariesInclusive | src/controllers/courseController.ts:18-24 | For start <= end, `now == start` and `now == end` both give `aktiv` |
| Lifecycle.DeriveAroundOneUnitCourse | src/controllers/courseController.ts:18-24 | A course from t to t+1 is planned at t-1, active at t and finished at t+2 |
| Lifecycle.DeriveMonotoneInTime | src/controllers/courseController.ts:18-24 | For a well-formed, uncancelled course the status only moves forward (planned, active, finished) as time passes |
| Sequences.Filter | src/controllers/courseController.ts:394 | The filtered sequence is no longer than the input, and every element satisfies the predicate |
| Sequences.FilterIsSubsequence | src/controllers/courseController.ts:394 | Filtering keeps the relative order of the kept elements |
| Sequences.FilterCount | src/controllers/courseController.ts:394 | Every copy of a kept value survives, and every copy of a dropped value is removed |
| Sequences.FilterMember | src/controllers/courseController.ts:76 | A value is in the result iff it is in the input and satisfies the predicate |
| Sequences.FilterKeepsAll | src/controllers/courseController.ts:394 | Filtering a sequence whose elements all pass returns it unchanged |
| Sequences.FilterAppend | src/controllers/courseController.ts:394 | Filtering distributes over concatenation |
| CourseModel.KindOf | src/models/Course.ts:122-125 | The type is `recorded` iff the category is `onlinekurs` |
| CourseModel.Saved | src/models/Course.ts:105-125 | The record after both pre-save hooks: the status hook, then the type hook |
| CourseModel.SavedStatus | src/models/Course.ts:106-120 | The save hooks keep a cancellation and otherwise set the status the dates give |
| CourseModel.SavedTouchesOnlyStatusAndType | src/models/Course.ts:105-125 | The hooks change only `status` and `type`, and the type is `recorded` iff the category is `onlinekurs` |
| CourseModel.SavedIdempotent | src/models/Course.ts:105-125 | Running both hooks twice at the same time gives the same record as running them once |
| CourseModel.CourseDocument.Load | src/controllers/courseController.ts:297-298 | A loaded document holds exactly the stored record |
| CourseModel.CourseDocument.StatusHook | src/models/Course.ts:106-120 | The in-place status assignment leaves the status `Derive` gives and changes no other field |
| CourseModel.CourseDocument.TypeHook | src/models/Course.ts:123-125 | The in-place type assignment leaves the type `KindOf(category)` gives and changes no other field |
| CourseModel.CourseDocument.Save | src/models/Course.ts:105-125 | Saving runs the status hook and then the type hook |
| CourseValidators.IsClockTime | src/models/Course.ts:44 | The anchored pattern: an hour `[01]?[0-9]` or `2[0-3]`, a colon, and a minute `[0-5][0-9]`, nothing else |
| CourseValidators.TimeValid | src/models/Course.ts:41-54 | A `startTime` / `endTime` passes when absent or empty, and otherwise only when it matches the pattern |
| CourseValidators.YoutubeUrlValid | src/models/Course.ts:85-91 | A link passes when absent or empty, and otherwise only when it includes `youtube.com/` or `youtu.be/` |
| CourseValidators.CapacityValid | src/models/Course.ts:66-70 | `maxParticipants` passes when it is at least 1 |
| CourseValidators.LocationValid | src/models/Course.ts:60-64 | An on-site course needs a present, non-empty location; other categories need none |
| CourseValidators.Conforms | src/models/Course.ts:41-91 | A document passes all of the field validators above |
| CourseValidators.ConformsIff | src/models/Course.ts:41-91 | The schema accepts a document iff capacity >= 1, an on-site course has a non-empty location, each time is blank or the text of an hour 0-23 and a minute 0-59, and the link is blank or has a YouTube host marker at some position |
| CourseValidators.ClockTimeIff | src/models/Course.ts:44 | The time pattern accepts a text iff it is "h:mm" or "hh:mm" for some hour 0-23 and minute 0-59 |
| CourseValidators.ClockTimeSound | src/models/Course.ts:44 | Every text the time pattern accepts is "h:mm" or "hh:mm" for an hour 0-23 and a minute 0-59 |
| CourseValidators.ClockTimeComplete | src/models/Course.ts:51 | Every hour 0-23 and minute 0-59 written "hh:mm" is accepted, and "h:mm" too for a one-digit hour |
| CourseValidators.IncludesIff | src/models/Course.ts:88 | `includes` holds iff the part occurs at some position of the string |
| CourseValidators.YoutubeUrlValidIff | src/models/Course.ts:85-91 | A non-empty link is accepted iff `youtube.com/` or `youtu.be/` occurs in it |
| CourseValidators.LocationRequiredIff | src/models/Course.ts:60-64 | Every location value passes iff the category is not `schulungszentrum` |
| CourseStatusSweep.Matches | src/middleware/courseStatus.ts:12-37 | A pass's filter: its date condition, a status other than the pass's target, and not `abgesagt` |
| CourseStatusSweep.Step | src/middleware/courseStatus.ts:12-37 | One pass on one course: a matching course gets the target status, any other is left as it is |
| CourseStatusSweep.Sweep | src/middleware/courseStatus.ts:12-37 | The three passes over the collection in order: ended, future, current |
| CourseStatusSweep.ApplyPass | src/middleware/courseStatus.ts:12-18 | One pass rewrites the status of exactly the matching courses in place, leaves all others, and returns how many matched |
| CourseStatusSweep.UpdateCourseStatuses | src/middleware/courseStatus.ts:7-44 | The request-path sweep leaves the collection equal to `Sweep` of the old one and returns its write count |
| CourseStatusSweep.ScheduledStatusUpdate | src/middleware/courseStatus.ts:49-87 | The timer's sweep has the same specification as the request-path sweep: identical filters in identical order |
| CourseStatusSweep.SweepPointwise | src/middleware/courseStatus.ts:12-37 | The sweep keeps length and order and acts on each course on its own |
| CourseStatusSweep.SweepLeavesCancelled | src/middleware/courseStatus.ts:12-37 | No filter matches a cancelled course, so the sweep leaves it unchanged |
| CourseStatusSweep.SweepOnlySetsStatus | src/middleware/courseStatus.ts:12-37 | The sweep writes only `status` of the modelled record; a course matching none of the filters is unchanged |
| CourseStatusSweep.SweepDivergesIff | src/middleware/courseStatus.ts:12-27 | The sweep's status differs from `Derive` iff the course is uncancelled and end < now < start. There it is `geplant` against the derived `beendet` |
| CourseStatusSweep.SweepAgreesWithDerive | src/middleware/courseStatus.ts:12-37 | On courses with start <= end, each swept course is the course with its derived status |
| CourseStatusSweep.SweepIdempotent | src/middleware/courseStatus.ts:12-37 | Sweeping twice at the same time leaves the same collection as sweeping once |
| CourseStatusSweep.CountMatchesZeroIff | src/middleware/courseStatus.ts:12-18 | A pass matches nothing iff no course satisfies its filter |
| CourseStatusSweep.ResweepCourse | src/middleware/courseStatus.ts:12-37 | On an already-swept course, passes 1 and 2 match again iff its dates are inverted around now, and pass 3 never matches |
| CourseStatusSweep.SecondSweepIdleIff | src/middleware/courseStatus.ts:12-37 | A second sweep at the same time writes nothing iff no course is uncancelled with end < now < start |
| CourseController.ProjectCourse | src/controllers/courseController.ts:12-25 | The projected course is the course with `status` replaced by the derived status; a cancelled course comes back unchanged |
| CourseController.GetAll | src/controllers/courseController.ts:6-25 | The list keeps length and order, and each element is the document with only its status replaced by the derived one |
| CourseController.EnrolledIn | src/controllers/courseController.ts:76 | The query `{ participants: userId }`: a course whose participants include the caller |
| CourseController.GetUserCourses | src/controllers/courseController.ts:73-92 | Every returned course lists the caller and shows a status consistent with its dates |
| CourseController.GetUserCoursesExact | src/controllers/courseController.ts:76-92 | Every course the caller takes part in is returned, projected; every returned course is such a projection; the order is kept |
| CourseController.NewCourse | src/controllers/courseController.ts:162-174 | Type is `recorded` iff the category is `onlinekurs`. `endDate` defaults to `startDate`. Participants are empty, `participantCount` is 0, `createdBy` is the caller, status defaults to `geplant` and topics to empty |
| CourseController.CreatedCourse | src/controllers/courseController.ts:162-178 | The stored created course has the derived type, no participants and a zero count. Unless the body cancelled it, its status is the one its dates give at creation |
| CourseController.PrepareUpdate | src/controllers/courseController.ts:197-201 | `type` is re-derived iff a category is given; every other body field passes through unchanged |
| CourseController.ApplyPatch | src/controllers/courseController.ts:203-207 | `findByIdAndUpdate`: each field the body gives is written, every other field keeps its stored value, and no hook runs |
| CourseController.PatchConforms | src/controllers/courseController.ts:203-207 | `runValidators`: the time, capacity and link validators on the fields the body gives |
| CourseController.UpdateDerivations | src/controllers/courseController.ts:197-207 | After an update the type is `KindOf(category)` when a category was given, else the body's or the stored type. The status is the body's or the stored one and is never re-derived |
| CourseController.NoChangeIsIdentity | src/controllers/courseController.ts:203-207 | An update with an empty body leaves the modelled record unchanged |
| CourseController.JoinCheck | src/controllers/courseController.ts:308-345 | First failure wins: `AlreadyEnrolled` iff a member. `NotJoinable` iff not a member and the derived status is finished/cancelled. `Full` iff additionally length >= max. `Ok` iff none of these |
| CourseController.Enrolled | src/controllers/courseController.ts:347-348 | The stored record of a successful join: the caller appended, then both save hooks |
| CourseController.JoinOutcome | src/controllers/courseController.ts:308-358 | The first failing check of `JoinCheck` is reported; when all pass, `save()` fails validation iff the course does not conform, and `Ok` iff it does |
| CourseController.OnSiteUpdateBlocksJoin | src/controllers/courseController.ts:197-207 | Moving a conforming course without a location on site passes the update validators, yet leaves a non-conforming course on which the next passing `join` fails validation |
| CourseController.JoinSeesProjectedStatus | src/controllers/courseController.ts:317-336 | `join` refuses a non-member as not joinable iff the list projection shows the course finished or cancelled |
| CourseController.DuplicateReportedBeforeStatus | src/controllers/courseController.ts:308-336 | A member gets the duplicate error even on a finished course |
| CourseController.JoinEffect | src/controllers/courseController.ts:338-348 | On success the participants are the old ones plus the caller, within capacity, with the caller once. Distinctness is kept. Every field other than participants, status and type is unchanged (including `participantCount`); the type is `KindOf(category)` and the status is the derived, joinable one |
| CourseController.LeaveCheck | src/controllers/courseController.ts:385-392 | `leave` proceeds iff the caller is a participant, and reports `NotEnrolled` otherwise |
| CourseController.LeaveOutcome | src/controllers/courseController.ts:385-405 | A non-participant gets `NotEnrolled`; otherwise `save()` fails validation iff the course does not conform, and `Ok` iff it does |
| CourseController.Withdrawn | src/controllers/courseController.ts:394-395 | The stored record of a successful leave: every entry equal to the caller dropped, then both save hooks |
| CourseController.Without | src/controllers/courseController.ts:394 | The caller does not occur in the filtered participants |
| CourseController.WithoutKeepsOthers | src/controllers/courseController.ts:394 | Dropping the caller keeps every other entry with its multiplicity and relative order |
| CourseController.LeaveEffect | src/controllers/courseController.ts:394-395 | After leaving, the caller is absent and others keep their entries in order. Every field other than participants, status and type is unchanged; the type is `KindOf(category)` and the status is the derived one |
| CourseController.LeaveUndoesJoin | src/controllers/courseController.ts:347-395 | After a join whose checks pass, leave's membership check passes and leaving restores the old participant list |
| CourseController.LastSeatScenario | src/controllers/courseController.ts:308-345 | With one seat on an active course the checks pass for the first join, report a repeat as a duplicate, and report another user's join as full |
| CourseController.LeaveAfterJoinSucceeds | src/controllers/courseController.ts:347-395 | After a join that answered `Ok` (validation included), `leave` by the same user also answers `Ok` and restores the old participant list |
| CourseController.LastSeatOutcomes | src/controllers/courseController.ts:286-360 | With one seat on an active course the schema accepts, the first join answers `Ok`, a repeat `AlreadyEnrolled`, and another user's join `Full` |
| CourseController.CourseStore.GetById | src/controllers/courseController.ts:107-149 | Absent id gives none. Otherwise the result is the list projection of the stored course, so `getById` shows the same status as the lists |
| CourseController.CourseStore.Create | src/controllers/courseController.ts:152-192 | No caller gives `Unauthenticated`, and a schema violation gives `ValidationFailed`. Otherwise the saved new course is stored under a fresh id; failures change nothing |
| CourseController.CourseStore.Update | src/controllers/courseController.ts:195-227 | Validation failure, then missing id, are reported in that order. Otherwise the prepared body is applied without hooks; failures change nothing |
| CourseController.CourseStore.UpdateYoutubeInfo | src/controllers/courseController.ts:255-283 | Writes only the link, after the link validator and the lookup; failures change nothing |
| CourseController.CourseStore.Delete | src/controllers/courseController.ts:230-252 | Removes the id if present (`Ok`), else `NotFound`; no other course changes |
| CourseController.CourseStore.Join | src/controllers/courseController.ts:286-360 | Checks run in order: no caller, missing course, then `JoinOutcome` (the checks, then validation at `save()`). Only `Ok` stores the enrolled course; every failure leaves the collection unchanged |
| CourseController.CourseStore.Leave | src/controllers/courseController.ts:363-407 | Checks run in order: no caller, missing course, then `LeaveOutcome` (non-member, then validation at `save()`). Only `Ok` stores the course without the caller; every failure leaves the collection unchanged |

## Left out

- HTTP handling is not modelled. Response bodies, status codes and routers are replaced by the
  `Outcome` values.
- The catch-all 500 for unexpected exceptions (persistence errors, cast errors) is not
  modelled; of the exceptions it catches, only a schema rejection at `save()` or on create
  and update is (`ValidationFailed`). The sweep's swallowing of such errors is not modelled either.
- Mongo and Mongoose are replaced by a map from course id to record, with `nextId` standing
  for ObjectId generation. `find()` is replaced by a sequence of documents, taken in the
  order the database returns them. The sweep runs over an array of the same records.
  `updateMany` is modelled as a loop, not as one database command.
- `populate` is not modelled. Participants are plain ids compared by equality. Populate's
  dropping of ids that refer to deleted users is not modelled.
- Authentication (JWT, roles, `adminAuth`) is not modelled. The caller id is an optional
  input. `create` reads `req.user.userId` and `join`/`leave` read `req.user._id`. The auth
  middleware sets both from the same token, so the model uses one id. The source treats any
  falsy id as absent, so an empty id `""` gets 401; the model's `Some("")` goes on to the
  lookup. Tokens always carry an ObjectId, so this case does not arise.
- The hourly `setInterval` timer is not modelled; one tick is `ScheduledStatusUpdate`.
  Neither `app.ts` nor any router mounts or calls the sweep functions, so no request triggers one.
  Concurrent requests are not modelled either: operations run one at a time, so the race
  between two simultaneous joins for the last seat is not represented.
- The `createdAt` and `updatedAt` fields that the schema's `timestamps: true` adds are not
  modelled. Every write also sets `updatedAt`: each sweep `updateMany` on the courses it
  matches, `save()` in `join` and `leave`, and `findByIdAndUpdate` in `update` and
  `updateYoutubeInfo`; `Course.create` sets both. The frame statements of `SweepOnlySetsStatus`,
  `SweepLeavesCancelled`, `NoChangeIsIdentity`, `JoinEffect` and `LeaveEffect` ("only the status
  changes", "every other field is unchanged") cover the modelled record only.
- The save hooks read the clock a moment after the request does. The model gives them the
  same `now`.
- Dates are integers. An invalid date, whose comparisons are all false and so give `aktiv`,
  is not represented.
- `create` treats a falsy `endDate` as absent. The model represents absence as `None`; a
  numeric timestamp 0 given as `endDate` is not treated as absent.
- Enum validators for `category`, `status` and `type` are not modelled as checks: the
  datatypes admit only the enumerated values, so those rejections cannot arise.
- The `required` checks on `title`, `description`, `startDate`, `endDate` and `createdBy`
  are not modelled, nor is the `trim` setter on `title`.
- On update, the conditional `location` requirement is not modelled. Mongoose runs it
  against the query rather than the document.
- An update body cannot clear a field (set it to null). Absent fields are kept.
- `youtubeDescription` in `updateYoutubeInfo` is not a schema field and is dropped, as the
  schema's strict mode does.
- `getUserCourses` with no caller id is not modelled. The route sits behind the auth
  middleware.
- CourseController.JoinEffect: `maxParticipants` is an integer here, while the schema's Number
  with `min: 1` also accepts a fraction such as 1.5, on which `join` lets the participant count
  exceed the capacity. The capacity bound is stated for integer capacities only.
- `participantCount` is written 0 by `create` and never maintained by `join` or `leave`.
  The model keeps it that way (`JoinEffect`, `LeaveEffect`).
- `src/validations/courseValidations.ts` is not part of this model. Its category list and
  its status list (which has `abgeschlossen`) disagree with the schema's enums.
- `src/controllers/userController.ts` and `src/controllers/statsController.ts` are not part
  of this model. They are thin database wrappers and floating-point aggregations.
- Logging is not modelled.
