/** The lesson list screen (src/components/lessons/LessonList.tsx): like
    the course list, plus a course filter read from and written to the
    `courseId` query parameter. */
module LessonList {
  import opened Http
  import opened Messages
  import LessonService
  import CourseService
  import Rows

  function LessonId(l: LessonService.Lesson): string { l.id }

  /** `selectedCourseId` tested for truthiness. */
  predicate Filtering(selected: Option<string>) {
    selected.Some? && selected.value != ""
  }

  /** The listing `loadLessons` asks for under a filter. */
  function ListingFor(selected: Option<string>): (op: LessonService.Operation)
    ensures Filtering(selected) ==> op == LessonService.ListByCourse(selected.value)
    ensures !Filtering(selected) ==> op == LessonService.ListAll
  {
    if selected.Some? && selected.value != "" then LessonService.ListByCourse(selected.value)
    else LessonService.ListAll
  }

  /** Where choosing `value` in the course selector navigates. */
  function FilterTarget(value: string): (path: string)
    ensures value == "" ==> path == LessonsPage
    ensures value != "" ==> path == LessonsPage + "?courseId=" + value
  {
    if value == "" then "/admin/lessons" else "/admin/lessons?courseId=" + value
  }

  class LessonListScreen {
    var lessons: seq<LessonService.Lesson>
    var courses: seq<CourseService.Course>
    var selectedCourseId: Option<string>
    var isLoading: bool
    var error: Option<string>
    var successMessage: Option<string>
    var deleteConfirmation: Option<string>
    var requests: seq<Request>
    var navigations: seq<string>

    /** The screen as first rendered; the filter starts as the `courseId`
        query parameter (absent when the query has none). */
    constructor (courseIdFromQuery: Option<string>)
      ensures selectedCourseId == courseIdFromQuery
      ensures lessons == [] && courses == [] && isLoading && error == None
      ensures successMessage == None && deleteConfirmation == None
      ensures requests == [] && navigations == []
    {
      lessons := [];
      courses := [];
      selectedCourseId := courseIdFromQuery;
      isLoading := true;
      error := None;
      successMessage := None;
      deleteConfirmation := None;
      requests := [];
      navigations := [];
    }

    predicate ShowsLoadingScreen()
      reads this
    {
      isLoading && |lessons| == 0
    }

    /** The course-options effect: a success fills the selector, a failure
        reports the course load error; nothing else changes. */
    method LoadCourses(reply: Reply<seq<CourseService.Course>>)
      modifies this
      ensures requests == old(requests) + [CourseService.RequestFor(CourseService.ListAll)]
      ensures reply.Ok? ==> courses == reply.value && error == old(error)
      ensures reply.Fail? ==> courses == old(courses) && error == Some(CoursesLoadFailed)
      ensures lessons == old(lessons) && isLoading == old(isLoading)
      ensures selectedCourseId == old(selectedCourseId) && navigations == old(navigations)
      ensures successMessage == old(successMessage) && deleteConfirmation == old(deleteConfirmation)
    {
      requests := requests + [CourseService.RequestFor(CourseService.ListAll)];
      var r := CourseService.Outcome(CourseService.ListAll, reply);
      if r.Success? {
        courses := r.value;
      } else {
        error := Some(CoursesLoadFailed);
      }
    }

    /** `loadLessons`: the by-course listing when a filter is set, the full
        listing otherwise; a success replaces the rows and clears the error. */
    method LoadLessons(reply: Reply<seq<LessonService.Lesson>>)
      modifies this
      ensures requests == old(requests) + [LessonService.RequestFor(ListingFor(selectedCourseId))]
      ensures reply.Ok? ==> lessons == reply.value && error == None
      ensures reply.Fail? ==> lessons == old(lessons) && error == Some(LessonsLoadFailed)
      ensures !isLoading
      ensures selectedCourseId == old(selectedCourseId) && courses == old(courses)
      ensures deleteConfirmation == old(deleteConfirmation) && navigations == old(navigations)
      ensures successMessage == old(successMessage)
    {
      isLoading := true;
      var r;
      if selectedCourseId.Some? && selectedCourseId.value != "" {
        var op := LessonService.ListByCourse(selectedCourseId.value);
        requests := requests + [LessonService.RequestFor(op)];
        r := LessonService.Outcome(op, reply);
      } else {
        requests := requests + [LessonService.RequestFor(LessonService.ListAll)];
        r := LessonService.Outcome(LessonService.ListAll, reply);
      }
      if r.Success? {
        lessons := r.value;
        error := None;
      } else {
        error := Some(LessonsLoadFailed);
      }
      isLoading := false;
    }

    /** `handleCourseChange`: the empty option clears the filter; the URL
        follows the choice. */
    method CourseChange(value: string)
      modifies this
      ensures selectedCourseId == (if value == "" then None else Some(value))
      ensures navigations == old(navigations) + [FilterTarget(value)]
      ensures lessons == old(lessons) && error == old(error) && requests == old(requests)
      ensures deleteConfirmation == old(deleteConfirmation) && isLoading == old(isLoading)
      ensures courses == old(courses) && successMessage == old(successMessage)
    {
      if value == "" {
        selectedCourseId := None;
        navigations := navigations + ["/admin/lessons"];
      } else {
        selectedCourseId := Some(value);
        navigations := navigations + ["/admin/lessons?courseId=" + value];
      }
    }

    method DeleteClick(id: string)
      modifies this
      ensures deleteConfirmation == Some(id)
      ensures lessons == old(lessons) && isLoading == old(isLoading) && error == old(error)
      ensures successMessage == old(successMessage) && requests == old(requests)
      ensures selectedCourseId == old(selectedCourseId) && navigations == old(navigations)
      ensures courses == old(courses)
    {
      deleteConfirmation := Some(id);
    }

    /** `handleDeleteConfirm`, as for courses. */
    method DeleteConfirm(id: string, reply: Reply<()>)
      modifies this
      ensures requests == old(requests) + [LessonService.RequestFor(LessonService.Remove(id))]
      ensures reply.Ok? ==> lessons == Rows.WithoutId(old(lessons), LessonId, id)
      ensures reply.Ok? ==> deleteConfirmation == None
      ensures reply.Ok? ==> successMessage == Some(LessonDeleted)
      ensures reply.Ok? ==> error == old(error)
      ensures reply.Fail? ==> lessons == old(lessons)
      ensures reply.Fail? ==> deleteConfirmation == old(deleteConfirmation)
      ensures reply.Fail? ==> successMessage == old(successMessage)
      ensures reply.Fail? ==> error == Some(LessonDeleteFailed)
      ensures !isLoading
      ensures selectedCourseId == old(selectedCourseId)
      ensures navigations == old(navigations)
      ensures courses == old(courses)
    {
      isLoading := true;
      var op := LessonService.Remove(id);
      requests := requests + [LessonService.RequestFor(op)];
      var r := LessonService.Outcome(op, reply);
      if r.Success? {
        lessons := Rows.WithoutId(lessons, LessonId, id);
        successMessage := Some(LessonDeleted);
        deleteConfirmation := None;
      } else {
        error := Some(LessonDeleteFailed);
      }
      isLoading := false;
    }

    method DeleteCancel()
      modifies this
      ensures deleteConfirmation == None
      ensures lessons == old(lessons) && isLoading == old(isLoading) && error == old(error)
      ensures successMessage == old(successMessage) && requests == old(requests)
      ensures selectedCourseId == old(selectedCourseId) && navigations == old(navigations)
      ensures courses == old(courses)
    {
      deleteConfirmation := None;
    }

    method SuccessTimerFired()
      modifies this
      ensures successMessage == None
      ensures lessons == old(lessons) && isLoading == old(isLoading) && error == old(error)
      ensures deleteConfirmation == old(deleteConfirmation) && requests == old(requests)
      ensures courses == old(courses) && selectedCourseId == old(selectedCourseId)
      ensures navigations == old(navigations)
    {
      successMessage := None;
    }
  }
}
