/**
 * The administrator's course table: courses are added, edited and deleted
 * in memory, and the page shows the number of active courses, the total
 * enrolment and a capacity chip per course.
 */
module CourseManagement {
  import opened Common
  import opened Records

  /** A course row. `maxStudents` comes from `parseInt`, so it may be NaN, written None. */
  datatype Course = Course(
    id: int,
    name: string,
    description: string,
    instructor: string,
    status: string,
    enrolledStudents: int,
    maxStudents: Option<int>,
    startDate: string,
    endDate: string)

  /** The dialog's fields: everything but the id and the enrolment. */
  datatype CourseForm = CourseForm(
    name: string,
    description: string,
    instructor: string,
    status: string,
    maxStudents: Option<int>,
    startDate: string,
    endDate: string)

  function CourseId(c: Course): int
  {
    c.id
  }

  /** The form of the "add" dialog: active, at most fifty students, all else empty. */
  const BlankForm: CourseForm := CourseForm("", "", "", "Active", Some(50), "", "")

  /** The two courses the page starts with. */
  const InitialCourses: seq<Course> := [
    Course(1, "Introduction to Programming", "Learn the basics of programming with Python", "John Doe",
           "Active", 45, Some(50), "2024-03-01", "2024-06-30"),
    Course(2, "Web Development Fundamentals", "Master HTML, CSS, and JavaScript", "Jane Smith",
           "Active", 38, Some(40), "2024-03-15", "2024-07-15")]

  /** The form the dialog opens with: the course's fields, or the blank form. */
  function FormFor(c: Option<Course>): (f: CourseForm)
    ensures c.None? ==> f == BlankForm
    ensures c.Some? ==>
      f.name == c.value.name && f.description == c.value.description &&
      f.instructor == c.value.instructor && f.status == c.value.status &&
      f.maxStudents == c.value.maxStudents && f.startDate == c.value.startDate && f.endDate == c.value.endDate
  {
    match c
    case None => BlankForm
    case Some(x) => CourseForm(x.name, x.description, x.instructor, x.status, x.maxStudents, x.startDate, x.endDate)
  }

  /** `{...course, ...formData}`: the form's fields win; id and enrolment are the course's. */
  function Merge(c: Course, f: CourseForm): (r: Course)
    ensures r.id == c.id && r.enrolledStudents == c.enrolledStudents
    ensures FormFor(Some(r)) == f
  {
    Course(c.id, f.name, f.description, f.instructor, f.status, c.enrolledStudents, f.maxStudents,
           f.startDate, f.endDate)
  }

  /** A new course with id `id` and the form's fields, with nobody enrolled yet. */
  function NewCourse(id: int, f: CourseForm): (r: Course)
    ensures r.id == id && r.enrolledStudents == 0
    ensures FormFor(Some(r)) == f
  {
    Course(id, f.name, f.description, f.instructor, f.status, 0, f.maxStudents, f.startDate, f.endDate)
  }

  /** The edit branch of `handleSubmit`: every course with the id takes the form's fields. */
  function UpdateCourse(courses: seq<Course>, id: int, f: CourseForm): (r: seq<Course>)
    ensures |r| == |courses|
    ensures forall i :: 0 <= i < |r| ==> r[i].id == courses[i].id && r[i].enrolledStudents == courses[i].enrolledStudents
    ensures forall i :: 0 <= i < |r| && courses[i].id == id ==> FormFor(Some(r[i])) == f
    ensures forall i :: 0 <= i < |r| && courses[i].id != id ==> r[i] == courses[i]
  {
    UpdateWhere(courses, CourseId, id, c => Merge(c, f))
  }

  /**
   * The add branch of `handleSubmit` as written: the new course goes at the
   * end, with the form's fields, nobody enrolled, and the id one past the
   * number of rows.
   */
  function AddCourseAsWritten(courses: seq<Course>, f: CourseForm): (r: seq<Course>)
    ensures |r| == |courses| + 1 && r[..|courses|] == courses
    ensures r[|courses|].id == |courses| + 1 && r[|courses|].enrolledStudents == 0
    ensures FormFor(Some(r[|courses|])) == f
  {
    assert (courses + [NewCourse(|courses| + 1, f)])[..|courses|] == courses;
    courses + [NewCourse(|courses| + 1, f)]
  }

  /**
   * Counting rows is safe while no id exceeds the number of rows, as holds
   * before anything is deleted: the new id is then unused.
   */
  lemma AddAsWrittenKeepsUniqueWhileIdsWithinCount(courses: seq<Course>, f: CourseForm)
    requires UniqueIds(courses, CourseId)
    requires forall i :: 0 <= i < |courses| ==> courses[i].id <= |courses|
    ensures UniqueIds(AddCourseAsWritten(courses, f), CourseId)
  {
    var x := NewCourse(|courses| + 1, f);
    assert !HasId(courses, CourseId, CourseId(x));
    AppendFreshKeepsUnique(courses, CourseId, x);
    assert AddCourseAsWritten(courses, f) == courses + [x];
  }

  /** `handleDeleteCourse`: the courses with the id are removed, the rest kept in order. */
  function DeleteCourse(courses: seq<Course>, id: int): (r: seq<Course>)
    ensures |r| <= |courses|
    ensures forall i :: 0 <= i < |r| ==> r[i] in courses && r[i].id != id
    ensures forall i :: 0 <= i < |courses| && courses[i].id != id ==> courses[i] in r
  {
    Without(courses, CourseId, id)
  }

  /**
   * Counting rows gives an id already in use once a row other than the last
   * has been deleted: deleting course 1 of the initial table and adding a
   * course yields two courses with id 2.
   */
  lemma AddAfterDeleteDuplicatesId()
    ensures UniqueIds(InitialCourses, CourseId)
    ensures !UniqueIds(AddCourseAsWritten(DeleteCourse(InitialCourses, 1), BlankForm), CourseId)
  {
    var rest := DeleteCourse(InitialCourses, 1);
    DeleteFirstDemoCourse();
    var t := AddCourseAsWritten(rest, BlankForm);
    assert t[..1] == rest;
    assert t[0] == rest[0];
    assert t[0].id == 2 && t[1].id == 2;
  }

  /** Deleting course 1 of the demo table leaves course 2. */
  lemma DeleteFirstDemoCourse()
    ensures DeleteCourse(InitialCourses, 1) == [InitialCourses[1]]
  {
    assert InitialCourses == [InitialCourses[0]] + [InitialCourses[1]];
    WithoutAppend([InitialCourses[0]], [InitialCourses[1]], CourseId, 1);
  }

  /** The id a new course gets: one past the largest id, so it is never in use. */
  function NextCourseId(courses: seq<Course>): (r: int)
    ensures r >= 1
    ensures forall i :: 0 <= i < |courses| ==> courses[i].id != r
  {
    FreshId(courses, CourseId)
  }

  /** The add branch with a fresh id: one new course at the end, nobody enrolled. */
  function AddCourse(courses: seq<Course>, f: CourseForm): (r: seq<Course>)
    ensures |r| == |courses| + 1 && r[..|courses|] == courses
    ensures r[|courses|].enrolledStudents == 0 && FormFor(Some(r[|courses|])) == f
    ensures forall i :: 0 <= i < |courses| ==> courses[i].id != r[|courses|].id
  {
    assert (courses + [NewCourse(NextCourseId(courses), f)])[..|courses|] == courses;
    courses + [NewCourse(NextCourseId(courses), f)]
  }

  /** Adding, editing and deleting all keep the course ids unique. */
  lemma OperationsKeepIdsUnique(courses: seq<Course>, id: int, f: CourseForm)
    requires UniqueIds(courses, CourseId)
    ensures UniqueIds(AddCourse(courses, f), CourseId)
    ensures UniqueIds(UpdateCourse(courses, id, f), CourseId)
    ensures UniqueIds(DeleteCourse(courses, id), CourseId)
  {
    AppendFreshKeepsUnique(courses, CourseId, NewCourse(NextCourseId(courses), f));
    UpdateKeepsUnique(courses, CourseId, id, c => Merge(c, f));
    WithoutKeepsUnique(courses, CourseId, id);
  }

  /** The "Active Courses" card: the number of courses whose status is 'Active'. */
  function ActiveCount(courses: seq<Course>): (n: nat)
    ensures n <= |courses|
  {
    if courses == [] then 0
    else (if courses[0].status == "Active" then 1 else 0) + ActiveCount(courses[1..])
  }

  /** The "Total Enrollments" card: the sum of the enrolments. */
  function TotalEnrolled(courses: seq<Course>): int
  {
    if courses == [] then 0 else courses[0].enrolledStudents + TotalEnrolled(courses[1..])
  }

  lemma {:induction false} StatsAppend(a: seq<Course>, b: seq<Course>)
    ensures ActiveCount(a + b) == ActiveCount(a) + ActiveCount(b)
    ensures TotalEnrolled(a + b) == TotalEnrolled(a) + TotalEnrolled(b)
  {
    if a == [] {
      assert a + b == b;
    } else {
      assert (a + b)[1..] == a[1..] + b;
      StatsAppend(a[1..], b);
    }
  }

  /** A new course adds nothing to the enrolment and counts as active iff its form says so. */
  lemma AddCourseStats(courses: seq<Course>, f: CourseForm)
    ensures TotalEnrolled(AddCourse(courses, f)) == TotalEnrolled(courses)
    ensures ActiveCount(AddCourse(courses, f)) == ActiveCount(courses) + (if f.status == "Active" then 1 else 0)
  {
    var x := NewCourse(NextCourseId(courses), f);
    StatsAppend(courses, [x]);
    assert [x][1..] == [];
  }

  /** Editing never changes the total enrolment. */
  lemma {:induction false} UpdateKeepsEnrolment(courses: seq<Course>, id: int, f: CourseForm)
    ensures TotalEnrolled(UpdateCourse(courses, id, f)) == TotalEnrolled(courses)
  {
    if courses != [] {
      var r := UpdateCourse(courses, id, f);
      UpdateKeepsEnrolment(courses[1..], id, f);
      assert r[1..] == UpdateCourse(courses[1..], id, f);
    }
  }

  /** The capacity chip: red once enrolment reaches the maximum, green otherwise (also for NaN). */
  function CapacityChip(c: Course): (color: ChipColor)
    ensures color == Error <==> c.maxStudents.Some? && c.enrolledStudents >= c.maxStudents.value
    ensures color != Error ==> color == Success
  {
    if c.maxStudents.Some? && c.enrolledStudents >= c.maxStudents.value then Error else Success
  }

  /** The status switch is on exactly for 'Active'. */
  predicate SwitchChecked(status: string)
  {
    status == "Active"
  }

  /** The status the switch writes: 'Active' when checked, 'Inactive' otherwise. */
  function StatusFromSwitch(checked: bool): (status: string)
    ensures SwitchChecked(status) <==> checked
    ensures status in {"Active", "Inactive"}
  {
    if checked then "Active" else "Inactive"
  }

  class CourseManagementPage {
    var courses: seq<Course>
    var openDialog: bool
    var selectedCourse: Option<Course>
    var formData: CourseForm

    /** Course ids are unique. */
    ghost predicate Valid()
      reads this
    {
      UniqueIds(courses, CourseId)
    }

    constructor ()
      ensures Valid()
      ensures courses == InitialCourses && !openDialog && selectedCourse == None && formData == BlankForm
    {
      courses := InitialCourses;
      openDialog := false;
      selectedCourse := None;
      formData := BlankForm;
    }

    /** `handleOpenDialog`: edit the given course, or add a new one. */
    method OpenDialog(c: Option<Course>)
      modifies this`selectedCourse, this`formData, this`openDialog
      ensures selectedCourse == c && formData == FormFor(c) && openDialog
    {
      selectedCourse := c;
      formData := FormFor(c);
      openDialog := true;
    }

    /** `handleCloseDialog`: closing also forgets the course being edited. */
    method CloseDialog()
      modifies this`selectedCourse, this`openDialog
      ensures selectedCourse == None && !openDialog
    {
      openDialog := false;
      selectedCourse := None;
    }

    /** The text fields and the instructor select. */
    method ChangeText(name: string, description: string, instructor: string, startDate: string, endDate: string)
      modifies this`formData
      ensures formData == old(formData).(name := name, description := description, instructor := instructor,
                                         startDate := startDate, endDate := endDate)
    {
      formData := formData.(name := name, description := description, instructor := instructor,
                            startDate := startDate, endDate := endDate);
    }

    method ToggleStatus(checked: bool)
      modifies this`formData
      ensures formData == old(formData).(status := StatusFromSwitch(checked))
    {
      formData := formData.(status := StatusFromSwitch(checked));
    }

    /** The maximum field stores `parseInt` of what was typed, NaN included. */
    method ChangeMaxStudents(text: string)
      modifies this`formData
      ensures formData == old(formData).(maxStudents := ParseInt(text))
    {
      formData := formData.(maxStudents := ParseInt(text));
    }

    /** `handleSubmit`: edit the selected course or add a new one, then close. */
    method Submit()
      requires Valid()
      modifies this
      ensures Valid()
      ensures courses == (if old(selectedCourse).Some? then UpdateCourse(old(courses), old(selectedCourse).value.id, old(formData))
                          else AddCourse(old(courses), old(formData)))
      ensures selectedCourse == None && !openDialog && formData == old(formData)
    {
      OperationsKeepIdsUnique(courses, if selectedCourse.Some? then selectedCourse.value.id else 0, formData);
      if selectedCourse.Some? {
        courses := UpdateCourse(courses, selectedCourse.value.id, formData);
      } else {
        courses := AddCourse(courses, formData);
      }
      CloseDialog();
    }

    method Delete(id: int)
      requires Valid()
      modifies this`courses
      ensures Valid()
      ensures courses == DeleteCourse(old(courses), id)
    {
      OperationsKeepIdsUnique(courses, id, formData);
      courses := DeleteCourse(courses, id);
    }
  }
}
