/** The course editor (src/components/courses/CourseForm.tsx): one screen
    for creating a course and, under a route id, for editing one. */
module CourseForm {
  import opened Http
  import opened Enums
  import opened Messages
  import opened CourseService

  /** `!!id`: the screen edits when the route carries a non-empty id. */
  function IsEditMode(routeId: Option<string>): (edit: bool)
    ensures edit <==> routeId.Some? && routeId.value != ""
  {
    routeId.Some? && routeId.value != ""
  }

  /** The fields the form edits (the image is held apart). */
  datatype CourseFormData = CourseFormData(title: string, description: string, subject: SubjectType)

  /** The form fields before any load or input. */
  const InitialForm := CourseFormData("", "", Math)

  /** One change event of the form: the text inputs carry what was typed,
      the subject selector one of the enumeration's values. */
  datatype CourseInput = TitleInput(title: string) | DescriptionInput(description: string) | SubjectInput(subject: SubjectType)

  /** The form's own check before saving: title and description must be
      filled in. */
  predicate Complete(form: CourseFormData) {
    form.title != "" && form.description != ""
  }

  /** The payload of a valid submit: the form plus the chosen image. */
  function SubmitData(form: CourseFormData, image: Option<File>): (d: CreateCourseData)
    ensures d.title == form.title && d.description == form.description && d.subject == form.subject
    ensures d.image == image
  {
    CreateCourseData(form.title, form.description, form.subject, image)
  }

  /** The same fields as an update: each one given. */
  function AsUpdate(d: CreateCourseData): (u: UpdateCourseData)
    ensures u.title == Some(d.title) && u.description == Some(d.description)
    ensures u.subject == Some(d.subject) && u.image == d.image
  {
    UpdateCourseData(Some(d.title), Some(d.description), Some(d.subject), d.image)
  }

  /** The request a valid submit sends in each mode. */
  function SubmitOperation(routeId: Option<string>, d: CreateCourseData): (op: Operation)
    ensures IsEditMode(routeId) ==> op == Update(routeId.value, AsUpdate(d))
    ensures !IsEditMode(routeId) ==> op == Create(d)
  {
    if IsEditMode(routeId) then Update(routeId.value, AsUpdate(d)) else Create(d)
  }

  /** The error a failed save shows, by mode. */
  function SaveFailedMessage(edit: bool): (m: string)
    ensures edit ==> m == CourseUpdateFailed
    ensures !edit ==> m == CourseCreateFailed
  {
    if edit then CourseUpdateFailed else CourseCreateFailed
  }

  class CourseEditor {
    const routeId: Option<string>
    var formData: CourseFormData
    var image: Option<File>
    var imagePreview: Option<string>
    var isLoading: bool
    var isSubmitting: bool
    var error: Option<string>
    var requests: seq<Request>
    var navigations: seq<string>

    constructor (routeId: Option<string>)
      ensures this.routeId == routeId
      ensures formData == InitialForm && image == None && imagePreview == None
      ensures !isLoading && !isSubmitting && error == None
      ensures requests == [] && navigations == []
    {
      this.routeId := routeId;
      formData := CourseFormData("", "", Math);
      image := None;
      imagePreview := None;
      isLoading := false;
      isSubmitting := false;
      error := None;
      requests := [];
      navigations := [];
    }

    /** The edit-mode load: copies title, description and subject from the
        fetched course, shows its image only when it has a non-empty URL,
        and clears or sets the error. Outside edit mode nothing happens. */
    method LoadCourse(reply: Reply<Course>)
      modifies this
      ensures !IsEditMode(routeId) ==>
                formData == old(formData) && imagePreview == old(imagePreview)
                && error == old(error) && requests == old(requests)
      ensures IsEditMode(routeId) ==> requests == old(requests) + [RequestFor(GetOne(routeId.value))]
      ensures IsEditMode(routeId) && reply.Ok? ==>
                && formData == CourseFormData(reply.value.title, reply.value.description, reply.value.subject)
                && imagePreview == (if reply.value.imageUrl.Some? && reply.value.imageUrl.value != ""
                                    then reply.value.imageUrl else old(imagePreview))
                && error == None
      ensures IsEditMode(routeId) && reply.Fail? ==>
                formData == old(formData) && imagePreview == old(imagePreview) && error == Some(CourseLoadFailed)
      ensures isLoading == (old(isLoading) && !IsEditMode(routeId))
      ensures image == old(image) && isSubmitting == old(isSubmitting) && navigations == old(navigations)
    {
      if routeId.Some? && routeId.value != "" {
        isLoading := true;
        requests := requests + [RequestFor(GetOne(routeId.value))];
        var r := Outcome(GetOne(routeId.value), reply);
        if r.Success? {
          var course := r.value;
          formData := CourseFormData(course.title, course.description, course.subject);
          if course.imageUrl.Some? && course.imageUrl.value != "" {
            imagePreview := course.imageUrl;
          }
          error := None;
        } else {
          error := Some(CourseLoadFailed);
        }
        isLoading := false;
      }
    }

    /** `handleChange`: only the named field changes. */
    method HandleChange(input: CourseInput)
      modifies this
      ensures input.TitleInput? ==> formData == old(formData).(title := input.title)
      ensures input.DescriptionInput? ==> formData == old(formData).(description := input.description)
      ensures input.SubjectInput? ==> formData == old(formData).(subject := input.subject)
      ensures image == old(image) && imagePreview == old(imagePreview) && error == old(error)
      ensures requests == old(requests) && navigations == old(navigations)
      ensures isSubmitting == old(isSubmitting) && isLoading == old(isLoading)
    {
      match input
      case TitleInput(t) => formData := formData.(title := t);
      case DescriptionInput(d) => formData := formData.(description := d);
      case SubjectInput(s) => formData := formData.(subject := s);
    }

    /** `handleImageChange`: a chosen file becomes the image and its data
        URL the preview; an empty choice changes nothing. */
    method ImageChange(file: Option<File>, dataUrl: string)
      modifies this
      ensures file.Some? ==> image == file && imagePreview == Some(dataUrl)
      ensures file.None? ==> image == old(image) && imagePreview == old(imagePreview)
      ensures formData == old(formData) && error == old(error)
      ensures requests == old(requests) && navigations == old(navigations)
      ensures isLoading == old(isLoading) && isSubmitting == old(isSubmitting)
    {
      if file.Some? {
        image := file;
        imagePreview := Some(dataUrl);
      }
    }

    /** `handleSubmit`: an empty title or description is refused with the
        required-fields error before any request; otherwise the form plus
        the chosen image is sent as an update in edit mode and a create
        otherwise, success returns to the course list, and failure shows
        the mode's error. */
    method HandleSubmit(reply: Reply<Course>)
      modifies this
      ensures !Complete(old(formData)) ==> error == Some(RequiredFields)
      ensures !Complete(old(formData)) ==> requests == old(requests)
      ensures !Complete(old(formData)) ==> navigations == old(navigations)
      ensures !Complete(old(formData)) ==> isSubmitting == old(isSubmitting)
      ensures Complete(old(formData)) ==>
                requests == old(requests) + [RequestFor(SubmitOperation(routeId, SubmitData(old(formData), old(image))))]
      ensures Complete(old(formData)) ==> !isSubmitting
      ensures Complete(old(formData)) && reply.Ok? ==> navigations == old(navigations) + [CoursesPage]
      ensures Complete(old(formData)) && reply.Ok? ==> error == None
      ensures Complete(old(formData)) && reply.Fail? ==> navigations == old(navigations)
      ensures Complete(old(formData)) && reply.Fail? ==> error == Some(SaveFailedMessage(IsEditMode(routeId)))
      ensures formData == old(formData)
      ensures image == old(image) && imagePreview == old(imagePreview)
      ensures isLoading == old(isLoading)
    {
      if !Complete(formData) {
        error := Some(RequiredFields);
        return;
      }
      isSubmitting := true;
      error := None;
      var data := CreateCourseData(formData.title, formData.description, formData.subject, None);
      if image.Some? {
        data := data.(image := image);
      }
      var sent, r;
      if routeId.Some? && routeId.value != "" {
        sent, r := UpdateCourse(routeId.value, AsUpdate(data), reply);
      } else {
        sent, r := CreateCourse(data, reply);
      }
      requests := requests + [sent];
      if r.Success? {
        navigations := navigations + ["/admin/courses"];
      } else {
        error := Some(if routeId.Some? && routeId.value != "" then CourseUpdateFailed else CourseCreateFailed);
      }
      isSubmitting := false;
    }

    /** The cancel button returns to the course list. */
    method Cancel()
      modifies this
      ensures navigations == old(navigations) + [CoursesPage]
      ensures formData == old(formData) && requests == old(requests) && error == old(error)
      ensures image == old(image) && imagePreview == old(imagePreview)
      ensures isLoading == old(isLoading) && isSubmitting == old(isSubmitting)
    {
      navigations := navigations + ["/admin/courses"];
    }
  }

  /** A create from the form always carries title, description and subject,
      and the image exactly when one was chosen; an edit sends the same
      entries. */
  lemma SubmittedCoursePayload(form: CourseFormData, image: Option<File>)
    ensures CreateCourseFields(SubmitData(form, image)) ==
              [Field("title", Text(form.title)),
               Field("description", Text(form.description)),
               Field("subject", Text(SubjectName(form.subject)))]
              + (if image.Some? then [Field("image", Blob(image.value))] else [])
    ensures Complete(form) ==>
              UpdateCourseFields(AsUpdate(SubmitData(form, image))) == CreateCourseFields(SubmitData(form, image))
  {
    CreateCourseLayout(SubmitData(form, image));
    if Complete(form) {
      var d := SubmitData(form, image);
      var u := AsUpdate(d);
      assert UpdateSlots(u) == CreateSlots(d);
    }
  }
}
