/** The course service (src/api/courseService.ts): typed wrappers around the
    `/course` endpoints, with the same shape as the lesson service. */
module CourseService {
  import opened Http
  import opened Enums
  import opened FormData
  import opened Messages
  import Paths

  datatype Course = Course(
    id: string,
    title: string,
    description: string,
    subject: SubjectType,
    imageUrl: Option<string>,
    createdAt: string,
    updatedAt: string)

  datatype CreateCourseData = CreateCourseData(
    title: string,
    description: string,
    subject: SubjectType,
    image: Option<File>)

  datatype UpdateCourseData = UpdateCourseData(
    title: Option<string>,
    description: Option<string>,
    subject: Option<SubjectType>,
    image: Option<File>)

  /** The order in which both payload builders visit the entries. */
  const FieldOrder: seq<string> := ["title", "description", "subject", "image"]

  function SubjectOption(s: Option<SubjectType>): Option<string> {
    if s.Some? then Some(SubjectName(s.value)) else None
  }

  function CreateSlots(d: CreateCourseData): seq<Slot> {
    [Slot("title", Some(Text(d.title))),
     Slot("description", Some(Text(d.description))),
     Slot("subject", Some(Text(SubjectName(d.subject)))),
     Slot("image", if d.image.Some? then Some(Blob(d.image.value)) else None)]
  }

  /** Every entry of an update is guarded by `if (value)`: strings must be
      non-empty, and a subject or a file is truthy whenever given. */
  function UpdateSlots(d: UpdateCourseData): seq<Slot> {
    [Truthy("title", d.title),
     Truthy("description", d.description),
     Truthy("subject", SubjectOption(d.subject)),
     Slot("image", if d.image.Some? then Some(Blob(d.image.value)) else None)]
  }

  function Truthy(name: string, text: Option<string>): Slot {
    Slot(name, if text.Some? && text.value != "" then Some(Text(text.value)) else None)
  }

  /** The multipart body `createCourse` sends. */
  function CreateCourseFields(d: CreateCourseData): seq<Field> {
    Present(CreateSlots(d))
  }

  /** The multipart body `updateCourse` sends. */
  function UpdateCourseFields(d: UpdateCourseData): seq<Field> {
    Present(UpdateSlots(d))
  }

  datatype Operation =
    | ListAll
    | GetOne(id: string)
    | Create(data: CreateCourseData)
    | Update(id: string, update: UpdateCourseData)
    | Remove(id: string)

  /** The path of each call: the collection, then the course id when the
      call is about one course. */
  function Segments(op: Operation): (s: seq<string>)
    ensures 1 <= |s| <= 2 && s[0] == "course"
  {
    match op
    case ListAll => ["course"]
    case GetOne(id) => ["course", id]
    case Create(_) => ["course"]
    case Update(id, _) => ["course", id]
    case Remove(id) => ["course", id]
  }

  function RequestFor(op: Operation): Request {
    var path := Paths.Join(Segments(op));
    match op
    case ListAll => Request(Get, path, NoBody)
    case GetOne(_) => Request(Get, path, NoBody)
    case Create(d) => Request(Post, path, Multipart(CreateCourseFields(d)))
    case Update(_, d) => Request(Put, path, Multipart(UpdateCourseFields(d)))
    case Remove(_) => Request(Delete, path, NoBody)
  }

  /** The one message each call throws, whatever went wrong. */
  function FailureMessage(op: Operation): (m: string)
    ensures m != ""
  {
    match op
    case ListAll => CoursesLoadFailed
    case GetOne(_) => CourseLoadFailed
    case Create(_) => CourseCreateFailed
    case Update(_, _) => CourseUpdateFailed
    case Remove(_) => CourseDeleteFailed
  }

  /** The settled promise of a call, given the backend's reply. */
  function Outcome<T>(op: Operation, reply: Reply<T>): (r: Result<T>)
    ensures reply.Ok? ==> r == Success(reply.value)
    ensures reply.Fail? ==> r == Failure(Error(FailureMessage(op)))
  {
    Settle(reply, FailureMessage(op))
  }

  /** `createCourse`: appends the entries in order, then posts them. */
  method CreateCourse(data: CreateCourseData, reply: Reply<Course>)
    returns (sent: Request, r: Result<Course>)
    ensures sent == RequestFor(Create(data))
    ensures r == Outcome(Create(data), reply)
  {
    var form := AppendAll([], CreateSlots(data));
    Paths.JoinOne("course");
    sent := Request(Post, "/course", Multipart(form));
    r := Outcome(Create(data), reply);
  }

  /** `updateCourse`: appends only the truthy entries, then puts them to
      the course's path. */
  method UpdateCourse(id: string, data: UpdateCourseData, reply: Reply<Course>)
    returns (sent: Request, r: Result<Course>)
    ensures sent == RequestFor(Update(id, data))
    ensures r == Outcome(Update(id, data), reply)
  {
    var form := AppendAll([], UpdateSlots(data));
    Paths.JoinTwo("course", id);
    sent := Request(Put, "/course/" + id, Multipart(form));
    r := Outcome(Update(id, data), reply);
  }

  // ---------------------------------------------------------------------
  // Properties

  /** `createCourse` sends exactly title, description and the subject's
      string value, in that order, then the image as the last entry iff
      one was given. */
  lemma {:induction false} CreateCourseLayout(d: CreateCourseData)
    ensures CreateCourseFields(d) ==
              [Field("title", Text(d.title)),
               Field("description", Text(d.description)),
               Field("subject", Text(SubjectName(d.subject)))]
              + (if d.image.Some? then [Field("image", Blob(d.image.value))] else [])
  {
    var slots := CreateSlots(d);
    var t1 := slots[1..];
    var t2 := t1[1..];
    var t3 := t2[1..];
    assert t3[1..] == [];
    var image := Entry(slots[3]);
    assert Present(t3) == image;
    assert Present(t2) == [Field("subject", Text(SubjectName(d.subject)))] + image;
    assert Present(t1) == [Field("description", Text(d.description))] + Present(t2);
    assert Present(slots) == [Field("title", Text(d.title))] + Present(t1);
  }

  /** Reading back an `updateCourse` payload: each entry appears only when
      given and truthy, with the subject as its string value. */
  lemma UpdateCourseLookups(d: UpdateCourseData)
    ensures Lookup(UpdateCourseFields(d), "title") ==
              (if d.title.Some? && d.title.value != "" then Some(Text(d.title.value)) else None)
    ensures Lookup(UpdateCourseFields(d), "description") ==
              (if d.description.Some? && d.description.value != "" then Some(Text(d.description.value)) else None)
    ensures Lookup(UpdateCourseFields(d), "subject") ==
              (if d.subject.Some? then Some(Text(SubjectName(d.subject.value))) else None)
    ensures Lookup(UpdateCourseFields(d), "image") ==
              (if d.image.Some? then Some(Blob(d.image.value)) else None)
  {
    var slots := UpdateSlots(d);
    assert SlotNames(slots) == FieldOrder by {
      assert forall k :: 0 <= k < 4 ==> SlotNames(slots)[k] == FieldOrder[k];
    }
    PresentLookup(slots, 0);
    PresentLookup(slots, 1);
    PresentLookup(slots, 2);
    PresentLookup(slots, 3);
  }

  /** An update entries follow `FieldOrder`, and no name is sent twice. */
  lemma UpdatePayloadOrder(d: UpdateCourseData)
    ensures IsSubsequence(Names(UpdateCourseFields(d)), FieldOrder)
    ensures Distinct(Names(UpdateCourseFields(d)))
  {
    var slots := UpdateSlots(d);
    assert SlotNames(slots) == FieldOrder by {
      assert forall k :: 0 <= k < 4 ==> SlotNames(slots)[k] == FieldOrder[k];
    }
    PresentInSlotOrder(slots);
    PresentDistinct(slots);
  }

  /** An update that sets nothing (or only empty strings) sends nothing. */
  lemma {:induction false} EmptyUpdateSendsNothing(d: UpdateCourseData)
    requires d.title.None? || d.title == Some("")
    requires d.description.None? || d.description == Some("")
    requires d.subject.None? && d.image.None?
    ensures UpdateCourseFields(d) == []
  {
    var slots := UpdateSlots(d);
    assert slots[1..][1..][1..][1..] == [];
  }

  /** Listing and creating target `/course`; reading, updating and deleting
      target `/course/{id}`. */
  lemma CoursePaths(op: Operation)
    ensures (op.ListAll? || op.Create?) ==> RequestFor(op).path == "/course"
    ensures op.GetOne? ==> RequestFor(op).path == "/course/" + op.id
    ensures op.Update? ==> RequestFor(op).path == "/course/" + op.id
    ensures op.Remove? ==> RequestFor(op).path == "/course/" + op.id
  {
    Paths.JoinOne("course");
    if op.GetOne? || op.Update? || op.Remove? {
      Paths.JoinTwo("course", op.id);
    }
  }

  /** Every call fails with a message of its own. */
  lemma FailureMessageIdentifiesCall<T>(op1: Operation, op2: Operation, r1: Reply<T>, r2: Reply<T>)
    requires r1.Fail? && r2.Fail?
    ensures Outcome(op1, r1) == Outcome(op2, r2) <==> Kind(op1) == Kind(op2)
  {
    if Kind(op1) != Kind(op2) {
      var m1, m2 := FailureMessage(op1), FailureMessage(op2);
      assert |m1| != |m2| || m1[7] != m2[7];
    }
  }

  /** Which of the five calls an operation is. */
  function Kind(op: Operation): nat {
    match op
    case ListAll => 0
    case GetOne(_) => 1
    case Create(_) => 2
    case Update(_, _) => 3
    case Remove(_) => 4
  }
}
