/** The lesson editor (src/components/lessons/LessonForm.tsx): creates a
    lesson, or edits one under a route id, with an optional video. */
module LessonForm {
  import opened Http
  import opened Enums
  import opened Messages
  import opened LessonService
  import CourseService

  function IsEditMode(routeId: Option<string>): (edit: bool)
    ensures edit <==> routeId.Some? && routeId.value != ""
  {
    routeId.Some? && routeId.value != ""
  }

  /** The fields the form edits (the video is held apart). `order` is
      absent until a load or an input sets it. */
  datatype LessonFormData = LessonFormData(
    title: string,
    description: string,
    courseId: string,
    order: Option<OrderValue>,
    isFree: bool,
    status: LessonStatus)

  const InitialForm := LessonFormData("", "", "", None, false, Draft)

  /** One change event: text inputs and selectors carry their value (the
      number input its raw text), the checkbox its `checked` flag. */
  datatype LessonInput =
    | TitleInput(title: string)
    | DescriptionInput(description: string)
    | CourseSelect(courseId: string)
    | OrderInput(text: string)
    | StatusSelect(status: LessonStatus)
    | FreeCheckbox(checked: bool)

  /** The form's own check before saving: title, description and course
      must all be filled in. */
  predicate Complete(form: LessonFormData) {
    form.title != "" && form.description != "" && form.courseId != ""
  }

  /** The payload of a valid submit: the form plus the chosen video. */
  function SubmitData(form: LessonFormData, video: Option<File>): (d: CreateLessonData)
    ensures d.title == form.title && d.description == form.description && d.courseId == form.courseId
    ensures d.order == form.order && d.isFree == Some(form.isFree) && d.status == Some(form.status)
    ensures d.video == video && d.image.None? && d.transcript.None?
  {
    CreateLessonData(form.title, form.description, form.courseId, video, None, None,
                     form.order, Some(form.isFree), Some(form.status))
  }

  /** The same fields as an update: each one given. */
  function AsUpdate(d: CreateLessonData): (u: UpdateLessonData)
    ensures u.title == Some(d.title) && u.description == Some(d.description) && u.courseId == Some(d.courseId)
    ensures u.video == d.video && u.image == d.image && u.transcript == d.transcript
    ensures u.order == d.order && u.isFree == d.isFree && u.status == d.status
  {
    UpdateLessonData(Some(d.title), Some(d.description), Some(d.courseId), d.video, d.image,
                     d.transcript, d.order, d.isFree, d.status)
  }

  function SubmitOperation(routeId: Option<string>, d: CreateLessonData): (op: Operation)
    ensures IsEditMode(routeId) ==> op == Update(routeId.value, AsUpdate(d))
    ensures !IsEditMode(routeId) ==> op == Create(d)
  {
    if IsEditMode(routeId) then Update(routeId.value, AsUpdate(d)) else Create(d)
  }

  function SaveFailedMessage(edit: bool): (m: string)
    ensures edit ==> m == LessonUpdateFailed
    ensures !edit ==> m == LessonCreateFailed
  {
    if edit then LessonUpdateFailed else LessonCreateFailed
  }

  /** The course a fresh form falls back to: the first listed one, when the
      form has none yet. */
  function DefaultCourse(current: string, courses: seq<CourseService.Course>): (c: string)
    ensures current == "" && |courses| > 0 ==> c == courses[0].id
    ensures current != "" || |courses| == 0 ==> c == current
  {
    if current == "" && |courses| > 0 then courses[0].id else current
  }

  class LessonEditor {
    const routeId: Option<string>
    var formData: LessonFormData
    var courses: seq<CourseService.Course>
    var video: Option<File>
    var videoPreview: Option<string>
    var isLoading: bool
    var isSubmitting: bool
    var error: Option<string>
    var requests: seq<Request>
    var navigations: seq<string>

    constructor (routeId: Option<string>)
      ensures this.routeId == routeId
      ensures formData == InitialForm && courses == [] && video == None && videoPreview == None
      ensures !isLoading && !isSubmitting && error == None
      ensures requests == [] && navigations == []
    {
      this.routeId := routeId;
      formData := LessonFormData("", "", "", None, false, Draft);
      courses := [];
      video := None;
      videoPreview := None;
      isLoading := false;
      isSubmitting := false;
      error := None;
      requests := [];
      navigations := [];
    }

    /** The course-options effect: fills the selector and, when no course
        is chosen yet, picks the first one. */
    method LoadCourses(reply: Reply<seq<CourseService.Course>>)
      modifies this
      ensures requests == old(requests) + [CourseService.RequestFor(CourseService.ListAll)]
      ensures reply.Ok? ==>
                && courses == reply.value
                && formData == old(formData).(courseId := DefaultCourse(old(formData).courseId, reply.value))
                && error == old(error)
      ensures reply.Fail? ==>
                courses == old(courses) && formData == old(formData) && error == Some(CoursesLoadFailed)
      ensures video == old(video) && videoPreview == old(videoPreview) && navigations == old(navigations)
      ensures isLoading == old(isLoading) && isSubmitting == old(isSubmitting)
    {
      requests := requests + [CourseService.RequestFor(CourseService.ListAll)];
      var r := CourseService.Outcome(CourseService.ListAll, reply);
      if r.Success? {
        courses := r.value;
        if formData.courseId == "" && |r.value| > 0 {
          formData := formData.(courseId := r.value[0].id);
        }
      } else {
        error := Some(CoursesLoadFailed);
      }
    }

    /** The edit-mode load: copies title, description, course, the free
        flag, status and order from the fetched lesson, and shows its video
        only when it has a non-empty URL. Outside edit mode nothing
        happens. */
    method LoadLesson(reply: Reply<Lesson>)
      modifies this
      ensures !IsEditMode(routeId) ==>
                formData == old(formData) && videoPreview == old(videoPreview)
                && error == old(error) && requests == old(requests)
      ensures IsEditMode(routeId) ==> requests == old(requests) + [RequestFor(GetOne(routeId.value))]
      ensures IsEditMode(routeId) && reply.Ok? ==>
                && formData == LessonFormData(reply.value.title, reply.value.description, reply.value.courseId,
                                              Some(Number(reply.value.order)), reply.value.isFree, reply.value.status)
                && videoPreview == (if reply.value.videoUrl.Some? && reply.value.videoUrl.value != ""
                                    then reply.value.videoUrl else old(videoPreview))
                && error == None
      ensures IsEditMode(routeId) && reply.Fail? ==>
                formData == old(formData) && videoPreview == old(videoPreview) && error == Some(LessonLoadFailed)
      ensures isLoading == (old(isLoading) && !IsEditMode(routeId))
      ensures video == old(video) && courses == old(courses) && navigations == old(navigations)
      ensures isSubmitting == old(isSubmitting)
    {
      if routeId.Some? && routeId.value != "" {
        isLoading := true;
        requests := requests + [RequestFor(GetOne(routeId.value))];
        var r := Outcome(GetOne(routeId.value), reply);
        if r.Success? {
          var l := r.value;
          formData := LessonFormData(l.title, l.description, l.courseId, Some(Number(l.order)), l.isFree, l.status);
          if l.videoUrl.Some? && l.videoUrl.value != "" {
            videoPreview := l.videoUrl;
          }
          error := None;
        } else {
          error := Some(LessonLoadFailed);
        }
        isLoading := false;
      }
    }

    /** `handleChange`: the checkbox sets the free flag to `checked`; every
        other input sets its own field to its value. */
    method HandleChange(input: LessonInput)
      modifies this
      ensures input.TitleInput? ==> formData == old(formData).(title := input.title)
      ensures input.DescriptionInput? ==> formData == old(formData).(description := input.description)
      ensures input.CourseSelect? ==> formData == old(formData).(courseId := input.courseId)
      ensures input.OrderInput? ==> formData == old(formData).(order := Some(RawInput(input.text)))
      ensures input.StatusSelect? ==> formData == old(formData).(status := input.status)
      ensures input.FreeCheckbox? ==> formData == old(formData).(isFree := input.checked)
      ensures video == old(video) && videoPreview == old(videoPreview) && error == old(error)
      ensures requests == old(requests) && navigations == old(navigations) && courses == old(courses)
      ensures isLoading == old(isLoading) && isSubmitting == old(isSubmitting)
    {
      match input
      case TitleInput(t) => formData := formData.(title := t);
      case DescriptionInput(d) => formData := formData.(description := d);
      case CourseSelect(c) => formData := formData.(courseId := c);
      case OrderInput(t) => formData := formData.(order := Some(RawInput(t)));
      case StatusSelect(s) => formData := formData.(status := s);
      case FreeCheckbox(checked) => formData := formData.(isFree := checked);
    }

    /** `handleVideoChange`: a chosen file becomes the video and its object
        URL the preview; an empty choice changes nothing. */
    method VideoChange(file: Option<File>, objectUrl: string)
      modifies this
      ensures file.Some? ==> video == file && videoPreview == Some(objectUrl)
      ensures file.None? ==> video == old(video) && videoPreview == old(videoPreview)
      ensures formData == old(formData) && error == old(error)
      ensures requests == old(requests) && navigations == old(navigations)
      ensures courses == old(courses)
      ensures isLoading == old(isLoading) && isSubmitting == old(isSubmitting)
    {
      if file.Some? {
        video := file;
        videoPreview := Some(objectUrl);
      }
    }

    /** `handleSubmit`: an empty title, description or course is refused
        with the required-fields error before any request; otherwise the
        form is saved. */
    method HandleSubmit(reply: Reply<Lesson>)
      modifies this
      ensures !Complete(old(formData)) ==> error == Some(RequiredFields)
      ensures !Complete(old(formData)) ==> requests == old(requests)
      ensures !Complete(old(formData)) ==> navigations == old(navigations)
      ensures !Complete(old(formData)) ==> isSubmitting == old(isSubmitting)
      ensures Complete(old(formData)) ==>
                requests == old(requests) + [RequestFor(SubmitOperation(routeId, SubmitData(old(formData), old(video))))]
      ensures Complete(old(formData)) ==> !isSubmitting
      ensures Complete(old(formData)) && reply.Ok? ==> navigations == old(navigations) + [LessonsPage]
      ensures Complete(old(formData)) && reply.Ok? ==> error == None
      ensures Complete(old(formData)) && reply.Fail? ==> navigations == old(navigations)
      ensures Complete(old(formData)) && reply.Fail? ==> error == Some(SaveFailedMessage(IsEditMode(routeId)))
      ensures formData == old(formData)
      ensures video == old(video) && videoPreview == old(videoPreview)
      ensures courses == old(courses)
      ensures isLoading == old(isLoading)
    {
      if !Complete(formData) {
        error := Some(RequiredFields);
        return;
      }
      Save(reply);
    }

    /** The `try` block of `handleSubmit`: the form plus the chosen video is
        sent as an update in edit mode and a create otherwise; success
        returns to the lesson list, failure shows the mode's error, and
        submitting ends either way. */
    method Save(reply: Reply<Lesson>)
      modifies this
      ensures requests == old(requests) + [RequestFor(SubmitOperation(routeId, SubmitData(old(formData), old(video))))]
      ensures !isSubmitting
      ensures reply.Ok? ==> navigations == old(navigations) + [LessonsPage]
      ensures reply.Ok? ==> error == None
      ensures reply.Fail? ==> navigations == old(navigations)
      ensures reply.Fail? ==> error == Some(SaveFailedMessage(IsEditMode(routeId)))
      ensures formData == old(formData)
      ensures video == old(video) && videoPreview == old(videoPreview)
      ensures courses == old(courses)
      ensures isLoading == old(isLoading)
    {
      isSubmitting := true;
      error := None;
      var data := CreateLessonData(formData.title, formData.description, formData.courseId, None, None, None,
                                   formData.order, Some(formData.isFree), Some(formData.status));
      if video.Some? {
        data := data.(video := video);
      }
      ghost var op := SubmitOperation(routeId, SubmitData(formData, video));
      var sent, r;
      if routeId.Some? && routeId.value != "" {
        assert op == Update(routeId.value, AsUpdate(data));
        sent, r := UpdateLesson(routeId.value, AsUpdate(data), reply);
      } else {
        assert op == Create(data);
        sent, r := CreateLesson(data, reply);
      }
      requests := requests + [sent];
      if r.Success? {
        navigations := navigations + ["/admin/lessons"];
      } else {
        error := Some(if routeId.Some? && routeId.value != "" then LessonUpdateFailed else LessonCreateFailed);
      }
      isSubmitting := false;
    }

    /** The cancel button returns to the lesson list. */
    method Cancel()
      modifies this
      ensures navigations == old(navigations) + [LessonsPage]
      ensures formData == old(formData) && requests == old(requests) && error == old(error)
      ensures courses == old(courses)
      ensures video == old(video) && videoPreview == old(videoPreview)
      ensures isLoading == old(isLoading) && isSubmitting == old(isSubmitting)
    {
      navigations := navigations + ["/admin/lessons"];
    }
  }

  /** What a create from the form sends: the video exactly when one was
      chosen, the free flag and the status always (the form always holds
      them), and never a transcript or an image. */
  lemma SubmittedLessonPayload(form: LessonFormData, video: Option<File>)
    ensures Lookup(CreateLessonFields(SubmitData(form, video)), "video") ==
              (if video.Some? then Some(Blob(video.value)) else None)
    ensures Lookup(CreateLessonFields(SubmitData(form, video)), "isFree") == Some(Text(BoolText(form.isFree)))
    ensures Lookup(CreateLessonFields(SubmitData(form, video)), "status") == Some(Text(StatusName(form.status)))
    ensures Lookup(CreateLessonFields(SubmitData(form, video)), "transcript") == None
    ensures Lookup(CreateLessonFields(SubmitData(form, video)), "image") == None
  {
    CreateLessonLookups(SubmitData(form, video));
  }

  /** An edit of a valid form sends the same entries a create would. */
  lemma EditSendsCreatePayload(form: LessonFormData, video: Option<File>)
    requires Complete(form)
    ensures UpdateLessonFields(AsUpdate(SubmitData(form, video))) == CreateLessonFields(SubmitData(form, video))
  {
    var d := SubmitData(form, video);
    assert UpdateSlots(AsUpdate(d)) == CreateSlots(d);
  }
}
