/** The course document of the Mongoose schema: the stored record, the delivery-type rule,
    and a loaded document whose two `pre('save')` hooks rewrite its status and type in place. */
module CourseModel {
  import opened Lifecycle

  datatype Option<T> = None | Some(value: T) {
    function GetOr(default: T): T
    {
      if Some? then value else default
    }
  }

  /** User ids as the controller compares them (the string form of an ObjectId). */
  type UserId = string

  /** The schema's `category` enum: 'onlinekurs', 'online-live', 'schulungszentrum'. */
  datatype Category = Onlinekurs | OnlineLive | Schulungszentrum

  /** The schema's `type` enum: 'live', 'recorded'. */
  datatype DeliveryType = Live | Recorded

  /** The fields the lifecycle and enrollment logic never reads: they are validated and passed through. */
  datatype CourseInfo = CourseInfo(
    title: string,
    description: string,
    startTime: Option<string>,
    endTime: Option<string>,
    location: Option<string>,
    participantCount: int,
    youtubeUrl: Option<string>,
    thumbnailUrl: Option<string>,
    topics: seq<string>,
    createdBy: string)

  /** A stored course. `kind` is the schema's `type` field. */
  datatype Course = Course(
    startDate: int,
    endDate: int,
    category: Category,
    maxParticipants: int,
    status: Status,
    kind: DeliveryType,
    participants: seq<UserId>,
    info: CourseInfo)

  /** A course is delivered as a recording exactly when it is an online course. */
  function KindOf(category: Category): (k: DeliveryType)
    ensures k == Recorded <==> category == Onlinekurs
  {
    if category == Onlinekurs then Recorded else Live
  }

  /** The record as `save()` stores it at time `now`: the status hook has re-derived the status
      and then the type hook has set the type from the category. */
  function Saved(c: Course, now: int): Course
  {
    c.(status := Derive(c.status, c.startDate, c.endDate, now), kind := KindOf(c.category))
  }

  /** The hooks never lift a cancellation, and otherwise set the status the dates give. */
  lemma SavedStatus(c: Course, now: int)
    ensures c.status == Abgesagt ==> Saved(c, now).status == Abgesagt
    ensures c.status != Abgesagt && c.endDate < now ==> Saved(c, now).status == Beendet
    ensures c.status != Abgesagt && now <= c.endDate && c.startDate > now ==> Saved(c, now).status == Geplant
    ensures c.status != Abgesagt && c.startDate <= now <= c.endDate ==> Saved(c, now).status == Aktiv
  {
  }

  /** The hooks touch only `status` and `type`, and set `type` to 'recorded' exactly for online courses. */
  lemma SavedTouchesOnlyStatusAndType(c: Course, now: int)
    ensures Saved(c, now).(status := c.status, kind := c.kind) == c
    ensures Saved(c, now).kind == Recorded <==> c.category == Onlinekurs
  {
  }

  /** Saving twice at the same time gives the same status and type as saving once. */
  lemma SavedIdempotent(c: Course, now: int)
    ensures Saved(Saved(c, now), now) == Saved(c, now)
  {
    DeriveIdempotent(c.status, c.startDate, c.endDate, now);
  }

  /** A course document loaded into memory; the controller and the hooks assign its fields in place. */
  class CourseDocument {
    var startDate: int
    var endDate: int
    var category: Category
    var maxParticipants: int
    var status: Status
    var kind: DeliveryType
    var participants: seq<UserId>
    var info: CourseInfo

    /** Loads a stored record. */
    constructor Load(c: Course)
      ensures Record() == c
    {
      startDate := c.startDate;
      endDate := c.endDate;
      category := c.category;
      maxParticipants := c.maxParticipants;
      status := c.status;
      kind := c.kind;
      participants := c.participants;
      info := c.info;
    }

    /** The record this document would be stored as. */
    function Record(): Course
      reads this
    {
      Course(startDate, endDate, category, maxParticipants, status, kind, participants, info)
    }

    /** The first `pre('save')` hook: re-derives the status unless the course is cancelled. */
    method StatusHook(now: int)
      modifies this`status
      ensures status == Derive(old(status), startDate, endDate, now)
    {
      if status != Abgesagt {
        if endDate < now {
          status := Beendet;
        } else if startDate > now {
          status := Geplant;
        } else {
          status := Aktiv;
        }
      }
    }

    /** The second `pre('save')` hook: sets the type from the category. */
    method TypeHook()
      modifies this`kind
      ensures kind == KindOf(category)
    {
      kind := if category == Onlinekurs then Recorded else Live;
    }

    /** `save()`: runs the two hooks in the order they are registered. */
    method Save(now: int)
      modifies this`status, this`kind
      ensures Record() == Saved(old(Record()), now)
    {
      StatusHook(now);
      TypeHook();
    }
  }
}
