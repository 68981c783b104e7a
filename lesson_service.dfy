/** The lesson service (src/api/lessonService.ts): typed wrappers around the
    `/lesson` endpoints. Each call sends one request and turns any failure
    into that operation's fixed message; create and update assemble a
    multipart payload entry by entry. */
module LessonService {
  import opened Http
  import opened Enums
  import opened FormData
  import opened Messages
  import Paths

  datatype Lesson = Lesson(
    id: string,
    title: string,
    description: string,
    courseId: string,
    courseName: string,
    videoUrl: Option<string>,
    transcript: Option<string>,
    duration: int,
    order: int,
    status: LessonStatus,
    isFree: bool,
    createdAt: string,
    updatedAt: string)

  datatype LessonProgress = LessonProgress(
    userId: string,
    lessonId: string,
    isCompleted: bool,
    completedAt: Option<string>,
    watched: int)

  /** The `order` member of a payload. The declared type is a number, but
      the lesson form's number input stores its raw text there; either way
      the service appends the value's `toString()`. */
  datatype OrderValue = Number(n: int) | RawInput(text: string)

  function OrderText(o: OrderValue): string {
    match o
    case Number(n) => NumberText(n)
    case RawInput(t) => t
  }

  datatype CreateLessonData = CreateLessonData(
    title: string,
    description: string,
    courseId: string,
    video: Option<File>,
    image: Option<File>,
    transcript: Option<string>,
    order: Option<OrderValue>,
    isFree: Option<bool>,
    status: Option<LessonStatus>)

  datatype UpdateLessonData = UpdateLessonData(
    title: Option<string>,
    description: Option<string>,
    courseId: Option<string>,
    video: Option<File>,
    image: Option<File>,
    transcript: Option<string>,
    order: Option<OrderValue>,
    isFree: Option<bool>,
    status: Option<LessonStatus>)

  /** The order in which both payload builders visit the entries. */
  const FieldOrder: seq<string> :=
    ["title", "description", "courseId", "order", "isFree", "status", "transcript", "video", "image"]

  // Inclusion rules. `x !== undefined` admits every present value;
  // `if (x)` admits a present value only when it is truthy, so a string
  // must be non-empty; a `File` object is always truthy.

  function Always(name: string, text: string): Slot {
    Slot(name, Some(Text(text)))
  }

  function IfDefined(name: string, text: Option<string>): Slot {
    Slot(name, if text.Some? then Some(Text(text.value)) else None)
  }

  function IfTruthy(name: string, text: Option<string>): Slot {
    Slot(name, if text.Some? && text.value != "" then Some(Text(text.value)) else None)
  }

  function IfFile(name: string, file: Option<File>): Slot {
    Slot(name, if file.Some? then Some(Blob(file.value)) else None)
  }

  function OrderOption(o: Option<OrderValue>): Option<string> {
    if o.Some? then Some(OrderText(o.value)) else None
  }

  function BoolOption(b: Option<bool>): Option<string> {
    if b.Some? then Some(BoolText(b.value)) else None
  }

  function StatusOption(s: Option<LessonStatus>): Option<string> {
    if s.Some? then Some(StatusName(s.value)) else None
  }

  /** The nine candidate entries of `createLesson`, in its order: the
      first three always appended, the rest by their rules. */
  function CreateSlots(d: CreateLessonData): seq<Slot> {
    [Always("title", d.title), Always("description", d.description), Always("courseId", d.courseId),
     IfDefined("order", OrderOption(d.order)),
     IfDefined("isFree", BoolOption(d.isFree)),
     IfTruthy("status", StatusOption(d.status)),
     IfTruthy("transcript", d.transcript),
     IfFile("video", d.video),
     IfFile("image", d.image)]
  }

  /** The nine candidate entries of `updateLesson`: the same order, with
      the first three guarded by truthiness. */
  function UpdateSlots(d: UpdateLessonData): seq<Slot> {
    [IfTruthy("title", d.title), IfTruthy("description", d.description), IfTruthy("courseId", d.courseId),
     IfDefined("order", OrderOption(d.order)),
     IfDefined("isFree", BoolOption(d.isFree)),
     IfTruthy("status", StatusOption(d.status)),
     IfTruthy("transcript", d.transcript),
     IfFile("video", d.video),
     IfFile("image", d.image)]
  }

  /** The slots of `createLesson`, one by one. */
  lemma CreateSlotsAt(d: CreateLessonData)
    ensures |CreateSlots(d)| == 9
    ensures CreateSlots(d)[0] == Always("title", d.title)
    ensures CreateSlots(d)[1] == Always("description", d.description)
    ensures CreateSlots(d)[2] == Always("courseId", d.courseId)
    ensures CreateSlots(d)[3] == IfDefined("order", OrderOption(d.order))
    ensures CreateSlots(d)[4] == IfDefined("isFree", BoolOption(d.isFree))
    ensures CreateSlots(d)[5] == IfTruthy("status", StatusOption(d.status))
    ensures CreateSlots(d)[6] == IfTruthy("transcript", d.transcript)
    ensures CreateSlots(d)[7] == IfFile("video", d.video)
    ensures CreateSlots(d)[8] == IfFile("image", d.image)
  {
  }

  /** The slots of `updateLesson`, one by one. */
  lemma UpdateSlotsAt(d: UpdateLessonData)
    ensures |UpdateSlots(d)| == 9
    ensures UpdateSlots(d)[0] == IfTruthy("title", d.title)
    ensures UpdateSlots(d)[1] == IfTruthy("description", d.description)
    ensures UpdateSlots(d)[2] == IfTruthy("courseId", d.courseId)
    ensures UpdateSlots(d)[3] == IfDefined("order", OrderOption(d.order))
    ensures UpdateSlots(d)[4] == IfDefined("isFree", BoolOption(d.isFree))
    ensures UpdateSlots(d)[5] == IfTruthy("status", StatusOption(d.status))
    ensures UpdateSlots(d)[6] == IfTruthy("transcript", d.transcript)
    ensures UpdateSlots(d)[7] == IfFile("video", d.video)
    ensures UpdateSlots(d)[8] == IfFile("image", d.image)
  {
  }

  /** The multipart body `createLesson` sends. */
  function CreateLessonFields(d: CreateLessonData): seq<Field> {
    Present(CreateSlots(d))
  }

  /** The multipart body `updateLesson` sends. */
  function UpdateLessonFields(d: UpdateLessonData): seq<Field> {
    Present(UpdateSlots(d))
  }

  datatype Operation =
    | ListAll
    | ListByCourse(courseId: string)
    | GetOne(id: string)
    | Create(data: CreateLessonData)
    | Update(id: string, update: UpdateLessonData)
    | Remove(id: string)
    | MarkWatched(lessonId: string, watchedSeconds: int)
    | Progress(userId: string, lessonId: string)

  /** The path of each call, as the segments of its template literal. */
  function Segments(op: Operation): seq<string> {
    match op
    case ListAll => ["lesson"]
    case ListByCourse(c) => ["lesson", "course", c]
    case GetOne(id) => ["lesson", id]
    case Create(_) => ["lesson"]
    case Update(id, _) => ["lesson", id]
    case Remove(id) => ["lesson", id]
    case MarkWatched(id, _) => ["lesson", id, "watch"]
    case Progress(userId, lessonId) => ["lesson", lessonId, "progress", userId]
  }

  function RequestFor(op: Operation): Request {
    var path := Paths.Join(Segments(op));
    match op
    case ListAll => Request(Get, path, NoBody)
    case ListByCourse(_) => Request(Get, path, NoBody)
    case GetOne(_) => Request(Get, path, NoBody)
    case Create(d) => Request(Post, path, Multipart(CreateLessonFields(d)))
    case Update(_, d) => Request(Put, path, Multipart(UpdateLessonFields(d)))
    case Remove(_) => Request(Delete, path, NoBody)
    case MarkWatched(_, s) => Request(Post, path, Json([("watchedSeconds", JNumber(s))]))
    case Progress(_, _) => Request(Get, path, NoBody)
  }

  /** The one message each call throws, whatever went wrong. */
  function FailureMessage(op: Operation): (m: string)
    ensures m != ""
  {
    match op
    case ListAll => LessonsLoadFailed
    case ListByCourse(_) => CourseLessonsLoadFailed
    case GetOne(_) => LessonLoadFailed
    case Create(_) => LessonCreateFailed
    case Update(_, _) => LessonUpdateFailed
    case Remove(_) => LessonDeleteFailed
    case MarkWatched(_, _) => LessonWatchFailed
    case Progress(_, _) => LessonProgressFailed
  }

  /** The settled promise of a call, given the backend's reply. */
  function Outcome<T>(op: Operation, reply: Reply<T>): (r: Result<T>)
    ensures reply.Ok? ==> r == Success(reply.value)
    ensures reply.Fail? ==> r == Failure(Error(FailureMessage(op)))
  {
    Settle(reply, FailureMessage(op))
  }

  /** `createLesson`: appends the entries in order, then posts them. */
  method CreateLesson(data: CreateLessonData, reply: Reply<Lesson>)
    returns (sent: Request, r: Result<Lesson>)
    ensures sent == RequestFor(Create(data))
    ensures r == Outcome(Create(data), reply)
  {
    var form := AppendAll([], CreateSlots(data));
    Paths.JoinOne("lesson");
    sent := Request(Post, "/lesson", Multipart(form));
    r := Outcome(Create(data), reply);
  }

  /** `updateLesson`: appends only the entries whose rule holds, then puts
      them to the lesson's path. */
  method UpdateLesson(id: string, data: UpdateLessonData, reply: Reply<Lesson>)
    returns (sent: Request, r: Result<Lesson>)
    ensures sent == RequestFor(Update(id, data))
    ensures r == Outcome(Update(id, data), reply)
  {
    var form := AppendAll([], UpdateSlots(data));
    Paths.JoinTwo("lesson", id);
    sent := Request(Put, "/lesson/" + id, Multipart(form));
    r := Outcome(Update(id, data), reply);
  }

  // ---------------------------------------------------------------------
  // Properties of the payloads

  /** No two entries of `FieldOrder` share a name. */
  lemma FieldOrderDistinct()
    ensures Distinct(FieldOrder)
  {
    forall i, j | 0 <= i < j < |FieldOrder|
      ensures FieldOrder[i] != FieldOrder[j]
    {
      // the names already differ in length or in their first letter
      assert |FieldOrder[i]| != |FieldOrder[j]| || FieldOrder[i][0] != FieldOrder[j][0];
    }
  }

  /** Both builders visit the slots under the names of `FieldOrder`. */
  lemma SlotNamesAreFieldOrder(c: CreateLessonData, u: UpdateLessonData)
    ensures SlotNames(CreateSlots(c)) == FieldOrder
    ensures SlotNames(UpdateSlots(u)) == FieldOrder
  {
    CreateSlotsAt(c);
    UpdateSlotsAt(u);
    SpellsFieldOrder(SlotNames(CreateSlots(c)));
    SpellsFieldOrder(SlotNames(UpdateSlots(u)));
  }

  lemma SpellsFieldOrder(names: seq<string>)
    requires |names| == 9 && names[0] == "title" && names[1] == "description" && names[2] == "courseId"
    requires names[3] == "order" && names[4] == "isFree" && names[5] == "status"
    requires names[6] == "transcript" && names[7] == "video" && names[8] == "image"
    ensures names == FieldOrder
  {
  }

  /** `createLesson` always starts with title, description and courseId, in
      that order, before any optional entry. */
  lemma {:induction false} CreateLeadsWithRequired(d: CreateLessonData)
    ensures |CreateLessonFields(d)| >= 3
    ensures CreateLessonFields(d)[0] == Field("title", Text(d.title))
    ensures CreateLessonFields(d)[1] == Field("description", Text(d.description))
    ensures CreateLessonFields(d)[2] == Field("courseId", Text(d.courseId))
  {
    PresentPrefix(CreateSlots(d), 3);
  }

  /** Entries always follow `FieldOrder`, and no name is sent twice. */
  lemma PayloadOrder(c: CreateLessonData, u: UpdateLessonData)
    ensures IsSubsequence(Names(CreateLessonFields(c)), FieldOrder)
    ensures IsSubsequence(Names(UpdateLessonFields(u)), FieldOrder)
    ensures Distinct(Names(CreateLessonFields(c)))
    ensures Distinct(Names(UpdateLessonFields(u)))
  {
    SlotNamesAreFieldOrder(c, u);
    FieldOrderDistinct();
    PresentInSlotOrder(CreateSlots(c));
    PresentInSlotOrder(UpdateSlots(u));
    PresentDistinct(CreateSlots(c));
    PresentDistinct(UpdateSlots(u));
  }

  /** What each optional entry of either payload reads back as: `order` and
      `isFree` whenever they are defined (so 0 and false are sent), `status`
      whenever it is given, `transcript` only when non-empty, and the files
      whenever chosen. */
  predicate OptionalEntriesAsSent(
    fields: seq<Field>,
    order: Option<OrderValue>, isFree: Option<bool>, status: Option<LessonStatus>,
    transcript: Option<string>, video: Option<File>, image: Option<File>)
  {
    && OrderAndFlagAsSent(fields, order, isFree)
    && StatusAndTranscriptAsSent(fields, status, transcript)
    && FilesAsSent(fields, video, image)
  }

  predicate OrderAndFlagAsSent(fields: seq<Field>, order: Option<OrderValue>, isFree: Option<bool>) {
    && Lookup(fields, "order") == (if order.Some? then Some(Text(OrderText(order.value))) else None)
    && Lookup(fields, "isFree") == (if isFree.Some? then Some(Text(BoolText(isFree.value))) else None)
  }

  predicate StatusAndTranscriptAsSent(fields: seq<Field>, status: Option<LessonStatus>, transcript: Option<string>) {
    && Lookup(fields, "status") == (if status.Some? then Some(Text(StatusName(status.value))) else None)
    && Lookup(fields, "transcript") ==
         (if transcript.Some? && transcript.value != "" then Some(Text(transcript.value)) else None)
  }

  predicate FilesAsSent(fields: seq<Field>, video: Option<File>, image: Option<File>) {
    && Lookup(fields, "video") == (if video.Some? then Some(Blob(video.value)) else None)
    && Lookup(fields, "image") == (if image.Some? then Some(Blob(image.value)) else None)
  }

  /** The slot names of either builder are distinct. */
  lemma SlotNamesDistinct(c: CreateLessonData, u: UpdateLessonData)
    ensures Distinct(SlotNames(CreateSlots(c)))
    ensures Distinct(SlotNames(UpdateSlots(u)))
  {
    SlotNamesAreFieldOrder(c, u);
    FieldOrderDistinct();
  }

  lemma OrderAndFlagLookups(slots: seq<Slot>, order: Option<OrderValue>, isFree: Option<bool>)
    requires |slots| == 9 && Distinct(SlotNames(slots))
    requires slots[3] == IfDefined("order", OrderOption(order))
    requires slots[4] == IfDefined("isFree", BoolOption(isFree))
    ensures OrderAndFlagAsSent(Present(slots), order, isFree)
  {
    PresentLookup(slots, 3);
    PresentLookup(slots, 4);
  }

  lemma StatusAndTranscriptLookups(slots: seq<Slot>, status: Option<LessonStatus>, transcript: Option<string>)
    requires |slots| == 9 && Distinct(SlotNames(slots))
    requires slots[5] == IfTruthy("status", StatusOption(status))
    requires slots[6] == IfTruthy("transcript", transcript)
    ensures StatusAndTranscriptAsSent(Present(slots), status, transcript)
  {
    PresentLookup(slots, 5);
    PresentLookup(slots, 6);
  }

  lemma FileLookups(slots: seq<Slot>, video: Option<File>, image: Option<File>)
    requires |slots| == 9 && Distinct(SlotNames(slots))
    requires slots[7] == IfFile("video", video)
    requires slots[8] == IfFile("image", image)
    ensures FilesAsSent(Present(slots), video, image)
  {
    PresentLookup(slots, 7);
    PresentLookup(slots, 8);
  }

  /** Reading back a `createLesson` payload: the required entries always,
      the optional ones by their rules. */
  lemma CreateLessonLookups(d: CreateLessonData)
    ensures Lookup(CreateLessonFields(d), "title") == Some(Text(d.title))
    ensures Lookup(CreateLessonFields(d), "description") == Some(Text(d.description))
    ensures Lookup(CreateLessonFields(d), "courseId") == Some(Text(d.courseId))
    ensures OptionalEntriesAsSent(CreateLessonFields(d),
              d.order, d.isFree, d.status, d.transcript, d.video, d.image)
  {
    var slots := CreateSlots(d);
    CreateSlotsAt(d);
    SlotNamesDistinct(d, UpdateLessonData(None, None, None, None, None, None, None, None, None));
    PresentLookup(slots, 0);
    PresentLookup(slots, 1);
    PresentLookup(slots, 2);
    OrderAndFlagLookups(slots, d.order, d.isFree);
    StatusAndTranscriptLookups(slots, d.status, d.transcript);
    FileLookups(slots, d.video, d.image);
  }

  /** Reading back an `updateLesson` payload: title, description and
      courseId only when given and non-empty; the rest as for create. */
  lemma UpdateLessonLookups(d: UpdateLessonData)
    ensures Lookup(UpdateLessonFields(d), "title") ==
              (if d.title.Some? && d.title.value != "" then Some(Text(d.title.value)) else None)
    ensures Lookup(UpdateLessonFields(d), "description") ==
              (if d.description.Some? && d.description.value != "" then Some(Text(d.description.value)) else None)
    ensures Lookup(UpdateLessonFields(d), "courseId") ==
              (if d.courseId.Some? && d.courseId.value != "" then Some(Text(d.courseId.value)) else None)
    ensures OptionalEntriesAsSent(UpdateLessonFields(d),
              d.order, d.isFree, d.status, d.transcript, d.video, d.image)
  {
    var slots := UpdateSlots(d);
    UpdateSlotsAt(d);
    SlotNamesDistinct(CreateLessonData("", "", "", None, None, None, None, None, None), d);
    PresentLookup(slots, 0);
    PresentLookup(slots, 1);
    PresentLookup(slots, 2);
    OrderAndFlagLookups(slots, d.order, d.isFree);
    StatusAndTranscriptLookups(slots, d.status, d.transcript);
    FileLookups(slots, d.video, d.image);
  }

  /** An update that sets nothing sends an empty payload. */
  lemma {:induction false} EmptyUpdateSendsNothing(d: UpdateLessonData)
    requires d.title.None? && d.description.None? && d.courseId.None?
    requires d.order.None? && d.isFree.None? && d.status.None?
    requires d.transcript.None? && d.video.None? && d.image.None?
    ensures UpdateLessonFields(d) == []
  {
    var slots := UpdateSlots(d);
    forall k | 0 <= k < |slots| ensures slots[k].value.None? {
    }
    NothingPresent(slots);
  }

  lemma {:induction false} NothingPresent(slots: seq<Slot>)
    requires forall k :: 0 <= k < |slots| ==> slots[k].value.None?
    ensures Present(slots) == []
  {
    if slots != [] {
      NothingPresent(slots[1..]);
    }
  }

  // ---------------------------------------------------------------------
  // Properties of the request lines and the failure messages

  /** Which of the eight calls an operation is. */
  function Kind(op: Operation): nat {
    match op
    case ListAll => 0
    case ListByCourse(_) => 1
    case GetOne(_) => 2
    case Create(_) => 3
    case Update(_, _) => 4
    case Remove(_) => 5
    case MarkWatched(_, _) => 6
    case Progress(_, _) => 7
  }

  /** The ids an operation puts into its path carry no '/'. */
  predicate IdsSlashFree(op: Operation) {
    Paths.AllSlashFree(Segments(op))
  }

  /** Method and path identify the call and every id in its path: no two
      calls share a request line unless they are the same call on the same
      ids (create and update may still differ in their payload). */
  lemma RequestLineIdentifies(op1: Operation, op2: Operation)
    requires IdsSlashFree(op1) && IdsSlashFree(op2)
    requires RequestFor(op1).verb == RequestFor(op2).verb
    requires RequestFor(op1).path == RequestFor(op2).path
    ensures Kind(op1) == Kind(op2)
    ensures Segments(op1) == Segments(op2)
  {
    Paths.JoinInjective(Segments(op1), Segments(op2));
    var s := Segments(op1);
    if op1.GetOne? || op1.Update? || op1.Remove? {
      assert |s| == 2;
    } else if op1.ListByCourse? || op1.MarkWatched? {
      assert |s| == 3;
      if op1.ListByCourse? { assert s[1] == "course"; }
    }
  }

  /** `getLessonProgress(userId, lessonId)` puts the lesson first and the
      user last, the reverse of its argument order. */
  lemma ProgressPathOrder(userId: string, lessonId: string)
    requires Paths.SlashFree(userId) && Paths.SlashFree(lessonId)
    ensures Paths.Split(RequestFor(Progress(userId, lessonId)).path)
              == ["lesson", lessonId, "progress", userId]
    ensures RequestFor(Progress(userId, lessonId)).verb == Get
  {
    var segs := Segments(Progress(userId, lessonId));
    assert Paths.AllSlashFree(segs) by {
      assert Paths.SlashFree("lesson") && Paths.SlashFree("progress");
    }
    Paths.SplitJoin(segs);
  }

  /** The by-course listing, as a request line. */
  lemma CourseListingPath(courseId: string)
    ensures RequestFor(ListByCourse(courseId)) ==
              Request(Get, "/lesson/course/" + courseId, NoBody)
  {
    assert ["lesson", "course", courseId][1..] == ["course", courseId];
    Paths.JoinTwo("course", courseId);
  }

  /** The watch marker posts the watched seconds to the lesson's path. */
  lemma WatchPath(lessonId: string, seconds: int)
    ensures RequestFor(MarkWatched(lessonId, seconds)) ==
              Request(Post, "/lesson/" + lessonId + "/watch",
                      Json([("watchedSeconds", JNumber(seconds))]))
  {
    assert ["lesson", lessonId, "watch"][1..] == [lessonId, "watch"];
    Paths.JoinTwo(lessonId, "watch");
  }

  /** Every call fails with a message of its own: the message tells which
      call failed, and nothing else about the failure. */
  lemma FailureMessageIdentifiesCall<T>(op1: Operation, op2: Operation, r1: Reply<T>, r2: Reply<T>)
    requires r1.Fail? && r2.Fail?
    ensures Outcome(op1, r1) == Outcome(op2, r2) <==> Kind(op1) == Kind(op2)
  {
    if Kind(op1) != Kind(op2) {
      MessagesDiffer(op1, op2);
    }
  }

  lemma MessagesDiffer(op1: Operation, op2: Operation)
    requires Kind(op1) != Kind(op2)
    ensures FailureMessage(op1) != FailureMessage(op2)
  {
    var m1, m2 := FailureMessage(op1), FailureMessage(op2);
    assert |m1| != |m2| || m1[6] != m2[6] || m1[7] != m2[7];
  }
}
