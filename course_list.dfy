/** The course list screen (src/components/courses/CourseList.tsx): the
    loaded rows, one pending delete, and the banners, as the state cells of
    the component. */
module CourseList {
  import opened Http
  import opened Messages
  import opened CourseService
  import Rows

  function CourseId(c: Course): string { c.id }

  class CourseListScreen {
    var courses: seq<Course>
    var isLoading: bool
    var error: Option<string>
    var successMessage: Option<string>
    /** The id whose delete awaits confirmation. */
    var deleteConfirmation: Option<string>
    /** The service calls made so far, oldest first. */
    var requests: seq<Request>

    constructor ()
      ensures courses == [] && isLoading && error == None
      ensures successMessage == None && deleteConfirmation == None && requests == []
    {
      courses := [];
      isLoading := true;
      error := None;
      successMessage := None;
      deleteConfirmation := None;
      requests := [];
    }

    /** The full-screen spinner replaces the table only while loading with
        no rows to show. */
    predicate ShowsLoadingScreen()
      reads this
    {
      isLoading && |courses| == 0
    }

    /** `loadCourses`: a success replaces the rows and clears the error; a
        failure keeps the rows and reports the load error. */
    method LoadCourses(reply: Reply<seq<Course>>)
      modifies this
      ensures requests == old(requests) + [RequestFor(ListAll)]
      ensures reply.Ok? ==> courses == reply.value && error == None
      ensures reply.Fail? ==> courses == old(courses) && error == Some(CoursesLoadFailed)
      ensures !isLoading
      ensures successMessage == old(successMessage) && deleteConfirmation == old(deleteConfirmation)
    {
      isLoading := true;
      requests := requests + [RequestFor(ListAll)];
      var r := Outcome(ListAll, reply);
      if r.Success? {
        courses := r.value;
        error := None;
      } else {
        error := Some(CoursesLoadFailed);
      }
      isLoading := false;
    }

    /** `handleDeleteClick`: the clicked id becomes the one pending id. */
    method DeleteClick(id: string)
      modifies this
      ensures deleteConfirmation == Some(id)
      ensures courses == old(courses) && isLoading == old(isLoading) && error == old(error)
      ensures successMessage == old(successMessage) && requests == old(requests)
    {
      deleteConfirmation := Some(id);
    }

    /** `handleDeleteConfirm`: deletes on the server; on success drops
        exactly the rows with that id, clears the pending id and shows the
        success banner; on failure keeps rows and pending id and shows the
        error. Loading ends on both paths. */
    method DeleteConfirm(id: string, reply: Reply<()>)
      modifies this
      ensures requests == old(requests) + [RequestFor(Remove(id))]
      ensures reply.Ok? ==>
                && courses == Rows.WithoutId(old(courses), CourseId, id)
                && deleteConfirmation == None
                && successMessage == Some(CourseDeleted)
                && error == old(error)
      ensures reply.Fail? ==>
                && courses == old(courses)
                && deleteConfirmation == old(deleteConfirmation)
                && successMessage == old(successMessage)
                && error == Some(CourseDeleteFailed)
      ensures !isLoading
    {
      isLoading := true;
      requests := requests + [RequestFor(Remove(id))];
      var r := Outcome(Remove(id), reply);
      if r.Success? {
        courses := Rows.WithoutId(courses, CourseId, id);
        successMessage := Some(CourseDeleted);
        deleteConfirmation := None;
      } else {
        error := Some(CourseDeleteFailed);
      }
      isLoading := false;
    }

    /** `handleDeleteCancel`: only the pending id is cleared. */
    method DeleteCancel()
      modifies this
      ensures deleteConfirmation == None
      ensures courses == old(courses) && isLoading == old(isLoading) && error == old(error)
      ensures successMessage == old(successMessage) && requests == old(requests)
    {
      deleteConfirmation := None;
    }

    /** The success banner's timer firing: the banner goes away. */
    method SuccessTimerFired()
      modifies this
      ensures successMessage == None
      ensures courses == old(courses) && isLoading == old(isLoading) && error == old(error)
      ensures deleteConfirmation == old(deleteConfirmation) && requests == old(requests)
    {
      successMessage := None;
    }
  }

  /** The rows after a confirmed delete: none carries the deleted id, all
      others keep their count and their order, and deleting an id that no
      row carries changes nothing. */
  lemma DeleteRemovesExactlyThatId(courses: seq<Course>, id: string, c: Course)
    ensures forall i :: 0 <= i < |Rows.WithoutId(courses, CourseId, id)| ==>
              Rows.WithoutId(courses, CourseId, id)[i].id != id
    ensures c.id != id ==>
              multiset(Rows.WithoutId(courses, CourseId, id))[c] == multiset(courses)[c]
    ensures Rows.Embeds(Rows.WithoutId(courses, CourseId, id), courses)
    ensures (forall i :: 0 <= i < |courses| ==> courses[i].id != id) ==>
              Rows.WithoutId(courses, CourseId, id) == courses
  {
    Rows.WithoutIdCounts(courses, CourseId, id, c);
    Rows.WithoutIdKeepsOrder(courses, CourseId, id);
    if forall i :: 0 <= i < |courses| ==> courses[i].id != id {
      Rows.WithoutAbsentId(courses, CourseId, id);
    }
  }
}
