/**
 * The student's course catalog: a search box and two drop-downs narrow the
 * list of courses, a full course cannot be enrolled in, and confirming an
 * enrolment only closes the dialog.
 */
module CourseCatalog {
  import opened Common

  /** A catalog entry; the star rating (a float) and the prerequisites are display-only and omitted. */
  datatype CatalogCourse = CatalogCourse(
    id: int,
    name: string,
    instructor: string,
    subject: string,
    level: string,
    duration: string,
    enrolled: int,
    capacity: int,
    description: string)

  /** The filter a drop-down set to this value applies: none at all. */
  const All: string := "All"

  const Subjects: seq<string> := [All, "Mathematics", "Physics", "Chemistry", "Biology"]
  const Levels: seq<string> := [All, "Beginner", "Intermediate", "Advanced"]

  /** The search matches when the lower-cased query occurs in the lower-cased name or instructor. */
  predicate MatchesSearch(c: CatalogCourse, query: string)
  {
    Contains(Lower(c.name), Lower(query)) || Contains(Lower(c.instructor), Lower(query))
  }

  /** A course is listed iff the search, the subject filter and the level filter all accept it. */
  predicate Matches(c: CatalogCourse, query: string, subject: string, level: string)
  {
    MatchesSearch(c, query) &&
    (subject == All || c.subject == subject) &&
    (level == All || c.level == level)
  }

  /** `filteredCourses`: the listed courses are exactly those of `courses` that match. */
  function FilteredCourses(courses: seq<CatalogCourse>, query: string, subject: string, level: string)
    : (r: seq<CatalogCourse>)
    ensures |r| <= |courses|
    ensures forall i :: 0 <= i < |r| ==> r[i] in courses && Matches(r[i], query, subject, level)
    ensures forall i :: 0 <= i < |courses| && Matches(courses[i], query, subject, level) ==> courses[i] in r
  {
    Filter(courses, c => Matches(c, query, subject, level))
  }

  /** Filtering a list made of two parts filters each part and keeps them in order. */
  lemma FilterKeepsOrder(a: seq<CatalogCourse>, b: seq<CatalogCourse>, query: string, subject: string, level: string)
    ensures FilteredCourses(a + b, query, subject, level) ==
            FilteredCourses(a, query, subject, level) + FilteredCourses(b, query, subject, level)
  {
    FilterAppend(a, b, c => Matches(c, query, subject, level));
  }

  /** With an empty search and both drop-downs on 'All', every course is listed, in order. */
  lemma NoFilterListsAll(courses: seq<CatalogCourse>)
    ensures FilteredCourses(courses, "", All, All) == courses
  {
    forall i | 0 <= i < |courses| ensures Matches(courses[i], "", All, All) {
      EmptyNeedleOccurs(Lower(courses[i].name));
    }
    FilterAll(courses, c => Matches(c, "", All, All));
  }

  /** The enrol button is disabled exactly when the course is full. */
  predicate EnrollDisabled(c: CatalogCourse)
  {
    c.enrolled >= c.capacity
  }

  /** The enrol button reads 'Full' iff it is disabled, and 'Enroll Now' otherwise. */
  function EnrollLabel(c: CatalogCourse): (text: string)
    ensures text == "Full" <==> EnrollDisabled(c)
    ensures text != "Full" ==> text == "Enroll Now"
  {
    if c.enrolled >= c.capacity then "Full" else "Enroll Now"
  }

  class CourseCatalogPage {
    const courses: seq<CatalogCourse>
    var searchQuery: string
    var selectedSubject: string
    var selectedLevel: string
    var openDialog: bool
    var selectedCourse: Option<CatalogCourse>

    constructor (courses: seq<CatalogCourse>)
      ensures this.courses == courses
      ensures searchQuery == "" && selectedSubject == All && selectedLevel == All
      ensures !openDialog && selectedCourse == None
      ensures Listed() == courses
    {
      this.courses := courses;
      searchQuery := "";
      selectedSubject := All;
      selectedLevel := All;
      openDialog := false;
      selectedCourse := None;
      new;
      NoFilterListsAll(courses);
    }

    /** The cards on screen. */
    function Listed(): seq<CatalogCourse>
      reads this
    {
      FilteredCourses(courses, searchQuery, selectedSubject, selectedLevel)
    }

    method ChangeSearch(query: string)
      modifies this`searchQuery
      ensures searchQuery == query
    {
      searchQuery := query;
    }

    method ChangeSubject(subject: string)
      modifies this`selectedSubject
      ensures selectedSubject == subject
    {
      selectedSubject := subject;
    }

    method ChangeLevel(level: string)
      modifies this`selectedLevel
      ensures selectedLevel == level
    {
      selectedLevel := level;
    }

    /** `handleEnrollClick`: the course is selected and the confirmation opens. */
    method EnrollClick(c: CatalogCourse)
      modifies this`selectedCourse, this`openDialog
      ensures selectedCourse == Some(c) && openDialog
    {
      selectedCourse := Some(c);
      openDialog := true;
    }

    /** `handleEnrollConfirm`: the dialog closes; no course, filter or selection changes. */
    method EnrollConfirm()
      modifies this`openDialog
      ensures !openDialog
    {
      openDialog := false;
    }

    /** Cancel, or clicking outside the dialog. */
    method CancelEnroll()
      modifies this`openDialog
      ensures !openDialog
    {
      openDialog := false;
    }
  }
}
