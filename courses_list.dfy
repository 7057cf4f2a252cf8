/**
 * The course list backed by the courses service: lecturers see and manage
 * their own courses, everyone else sees all courses read-only.
 */
module CoursesList {
  import opened Common

  /** A course as the service returns it; the description may be null. */
  datatype ListedCourse = ListedCourse(
    id: int,
    title: string,
    description: Option<string>,
    lecturerId: int,
    createdAt: string,
    updatedAt: string)

  datatype CourseForm = CourseForm(title: string, description: string)

  datatype FormField = Title | Description

  /** Which list the page asks the service for. */
  datatype CourseSource = LecturerCourses | AllCourses

  /** What a submit sends. */
  datatype CourseRequest = UpdateCourse(courseId: int, form: CourseForm) | CreateCourse(form: CourseForm)

  datatype Control = AddButton | EditButton | DeleteButton

  const LoadFailed: string := "Failed to load courses. Please try again later."
  const Deleted: string := "Course deleted successfully!"
  const DeleteFailed: string := "Failed to delete course"
  const NoDescription: string := "No description available"

  /** Lecturers fetch only their own courses; everyone else fetches all courses. */
  function FetchSource(isLecturer: bool): (s: CourseSource)
    ensures s == LecturerCourses <==> isLecturer
  {
    if isLecturer then LecturerCourses else AllCourses
  }

  /** `course.description || ''`: a null or empty description gives ''. */
  function DescriptionOrEmpty(d: Option<string>): (r: string)
    ensures d.Some? ==> r == d.value
    ensures d.None? ==> r == ""
  {
    if d.Some? then d.value else ""
  }

  /** The form the dialog opens with: the course's title and description, or both empty. */
  function FormFor(c: Option<ListedCourse>): (f: CourseForm)
    ensures c.None? ==> f == CourseForm("", "")
    ensures c.Some? ==> f.title == c.value.title && f.description == DescriptionOrEmpty(c.value.description)
  {
    match c
    case None => CourseForm("", "")
    case Some(x) => CourseForm(x.title, DescriptionOrEmpty(x.description))
  }

  /** Reopening an edited course on the form's own result gives the same form back. */
  lemma FormForRoundTrip(c: ListedCourse, f: CourseForm)
    requires FormFor(Some(c)) == f
    ensures FormFor(Some(c.(title := f.title, description := Some(f.description)))) == f
  {
  }

  /** `{...prev, [name]: value}`: only the named field changes. */
  function SetField(f: CourseForm, field: FormField, value: string): (g: CourseForm)
    ensures field == Title ==> g == f.(title := value)
    ensures field == Description ==> g == f.(description := value)
  {
    match field
    case Title => f.(title := value)
    case Description => f.(description := value)
  }

  /** The card text: the description when truthy, else the placeholder. */
  function CardDescription(c: ListedCourse): (text: string)
    ensures c.description.Some? && c.description.value != "" ==> text == c.description.value
    ensures c.description.None? || c.description.value == "" ==> text == NoDescription
  {
    if c.description.Some? && c.description.value != "" then c.description.value else NoDescription
  }

  /** The heading: 'My Courses' for lecturers, 'Available Courses' otherwise. */
  function Heading(isLecturer: bool): (text: string)
    ensures isLecturer ==> text == "My Courses"
    ensures !isLecturer ==> text == "Available Courses"
  {
    if isLecturer then "My Courses" else "Available Courses"
  }

  /** The dialog's title: editing an existing course, or adding a new one. */
  function DialogTitle(editing: Option<ListedCourse>): (title: string)
    ensures editing.Some? ==> title == "Edit Course"
    ensures editing.None? ==> title == "Add New Course"
  {
    if editing.Some? then "Edit Course" else "Add New Course"
  }

  /** Add, edit and delete appear exactly for lecturers. */
  function Controls(isLecturer: bool): (cs: set<Control>)
    ensures isLecturer ==> cs == {AddButton, EditButton, DeleteButton}
    ensures !isLecturer ==> cs == {}
  {
    if isLecturer then {AddButton, EditButton, DeleteButton} else {}
  }

  /** The request a submit sends: an update when a course is being edited, a creation otherwise. */
  function SubmitRequest(editing: Option<ListedCourse>, form: CourseForm): (r: CourseRequest)
    ensures r.UpdateCourse? <==> editing.Some?
    ensures r.UpdateCourse? ==> r.courseId == editing.value.id
    ensures r.form == form
  {
    if editing.Some? then UpdateCourse(editing.value.id, form) else CreateCourse(form)
  }

  /** The snackbar after a submit, by request kind and outcome. */
  function SubmitMessage(r: CourseRequest, accepted: bool): (n: Notice)
    ensures n.success == accepted
    ensures r.UpdateCourse? && accepted ==> n.text == "Course updated successfully!"
    ensures r.CreateCourse? && accepted ==> n.text == "Course created successfully!"
    ensures r.UpdateCourse? && !accepted ==> n.text == "Failed to update course"
    ensures r.CreateCourse? && !accepted ==> n.text == "Failed to create course"
  {
    match r
    case UpdateCourse(_, _) =>
      if accepted then Notice("Course updated successfully!", true) else Notice("Failed to update course", false)
    case CreateCourse(_) =>
      if accepted then Notice("Course created successfully!", true) else Notice("Failed to create course", false)
  }

  class CoursesListPage {
    const isLecturer: bool
    var courses: seq<ListedCourse>
    var loading: bool
    var error: Option<string>
    var openDialog: bool
    var editingCourse: Option<ListedCourse>
    var courseForm: CourseForm
    var showMessage: bool
    var message: Notice

    constructor (isLecturer: bool)
      ensures this.isLecturer == isLecturer && courses == [] && loading && error == None
      ensures !openDialog && editingCourse == None && courseForm == CourseForm("", "")
      ensures !showMessage && message == Notice("", true)
    {
      this.isLecturer := isLecturer;
      courses := [];
      loading := true;
      error := None;
      openDialog := false;
      editingCourse := None;
      courseForm := CourseForm("", "");
      showMessage := false;
      message := Notice("", true);
    }

    /**
     * `fetchCourses`: asks the service for the list `FetchSource` names;
     * `fetched` is its answer, None when the call failed.
     */
    method FetchCourses(fetched: Option<seq<ListedCourse>>) returns (source: CourseSource)
      modifies this`loading, this`error, this`courses
      ensures source == FetchSource(isLecturer)
      ensures !loading
      ensures fetched.Some? ==> courses == fetched.value && error == None
      ensures fetched.None? ==> courses == old(courses) && error == Some(LoadFailed)
    {
      loading := true;
      error := None;
      source := FetchSource(isLecturer);
      if fetched.Some? {
        courses := fetched.value;
      } else {
        error := Some(LoadFailed);
      }
      loading := false;
    }

    /** `handleOpenDialog`: edit the given course, or add a new one with an empty form. */
    method OpenDialog(c: Option<ListedCourse>)
      modifies this`editingCourse, this`courseForm, this`openDialog
      ensures editingCourse == c && courseForm == FormFor(c) && openDialog
    {
      editingCourse := c;
      courseForm := FormFor(c);
      openDialog := true;
    }

    /** `handleCloseDialog`: only the dialog closes; the course being edited is kept. */
    method CloseDialog()
      modifies this`openDialog
      ensures !openDialog
    {
      openDialog := false;
    }

    method FormChange(field: FormField, value: string)
      modifies this`courseForm
      ensures courseForm == SetField(old(courseForm), field, value)
    {
      courseForm := SetField(courseForm, field, value);
    }

    /**
     * `handleSubmit`: sends the request and reports the outcome; the dialog
     * closes only on success (the list is then fetched again by the caller).
     */
    method Submit(accepted: bool) returns (sent: CourseRequest)
      modifies this`message, this`showMessage, this`openDialog
      ensures sent == SubmitRequest(editingCourse, courseForm)
      ensures message == SubmitMessage(sent, accepted) && showMessage
      ensures openDialog == (old(openDialog) && !accepted)
    {
      sent := SubmitRequest(editingCourse, courseForm);
      message := SubmitMessage(sent, accepted);
      showMessage := true;
      if accepted {
        CloseDialog();
      }
    }

    /** `handleDeleteCourse`: nothing unless confirmed; then the id is sent and the outcome reported. */
    method DeleteCourse(courseId: int, confirmed: bool, accepted: bool) returns (sent: Option<int>)
      modifies this`message, this`showMessage
      ensures sent.Some? <==> confirmed
      ensures sent.Some? ==> sent.value == courseId
      ensures !confirmed ==> message == old(message) && showMessage == old(showMessage)
      ensures confirmed ==> showMessage && message == (if accepted then Notice(Deleted, true) else Notice(DeleteFailed, false))
    {
      if !confirmed {
        return None;
      }
      sent := Some(courseId);
      message := if accepted then Notice(Deleted, true) else Notice(DeleteFailed, false);
      showMessage := true;
    }

    method CloseMessage()
      modifies this`showMessage
      ensures !showMessage
    {
      showMessage := false;
    }
  }
}
