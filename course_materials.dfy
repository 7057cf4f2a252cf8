/**
 * The lecturer's course-materials page: it loads a course and its weeks,
 * shows the weeks in order of their week number as tabs, and renders the
 * materials of the selected week.
 */
module CourseMaterials {
  import opened Common

  datatype CourseInfo = CourseInfo(id: int, title: string, description: string)

  datatype CourseWeek = CourseWeek(
    id: int,
    courseId: int,
    title: string,
    description: string,
    weekNumber: int,
    createdAt: string,
    updatedAt: string)

  /** The answer of one back-end call: it failed, or it returned data. */
  datatype Reply<T> = Failed | Received(data: T)

  const MissingInfo: string := "Authentication or course information missing"
  const LoadFailed: string := "Failed to load course information. Please try again later."

  // ---------------------------------------------------------------------
  // Ordering the weeks
  // ---------------------------------------------------------------------

  /** Ascending week numbers, as the comparator `a.week_number - b.week_number` orders them. */
  predicate SortedByWeek(ws: seq<CourseWeek>)
  {
    forall i, j :: 0 <= i < j < |ws| ==> ws[i].weekNumber <= ws[j].weekNumber
  }

  /** `w` placed before the first week whose number is not smaller. */
  function InsertWeek(w: CourseWeek, ws: seq<CourseWeek>): (r: seq<CourseWeek>)
    ensures multiset(r) == multiset(ws) + multiset{w}
    ensures |r| == |ws| + 1
  {
    if ws == [] then [w]
    else if w.weekNumber <= ws[0].weekNumber then [w] + ws
    else
      assert ws == [ws[0]] + ws[1..];
      [ws[0]] + InsertWeek(w, ws[1..])
  }

  /** A week numbered no higher than every week of an ordered list may go in front of it. */
  lemma ConsSorted(x: CourseWeek, ws: seq<CourseWeek>)
    requires SortedByWeek(ws)
    requires forall i :: 0 <= i < |ws| ==> x.weekNumber <= ws[i].weekNumber
    ensures SortedByWeek([x] + ws)
  {
  }

  /** Inserting into weeks in order keeps them in order. */
  lemma {:induction false} InsertWeekSorted(w: CourseWeek, ws: seq<CourseWeek>)
    requires SortedByWeek(ws)
    ensures SortedByWeek(InsertWeek(w, ws))
  {
    if ws == [] {
    } else if w.weekNumber <= ws[0].weekNumber {
      ConsSorted(w, ws);
    } else {
      var rest := InsertWeek(w, ws[1..]);
      InsertWeekSorted(w, ws[1..]);
      forall i | 0 <= i < |rest|
        ensures ws[0].weekNumber <= rest[i].weekNumber
      {
        assert rest[i] in multiset(rest);
        assert rest[i] == w || rest[i] in multiset(ws[1..]);
        if rest[i] != w {
          var k :| 0 <= k < |ws[1..]| && ws[1..][k] == rest[i];
          assert ws[k + 1] == rest[i];
        }
      }
      ConsSorted(ws[0], rest);
    }
  }

  /** The fetched weeks in ascending week order: sorted, and a permutation of what was fetched. */
  function SortWeeks(ws: seq<CourseWeek>): (r: seq<CourseWeek>)
    ensures SortedByWeek(r)
    ensures multiset(r) == multiset(ws)
    ensures |r| == |ws|
  {
    if ws == [] then []
    else
      assert ws == [ws[0]] + ws[1..];
      InsertWeekSorted(ws[0], SortWeeks(ws[1..]));
      InsertWeek(ws[0], SortWeeks(ws[1..]))
  }

  /** Weeks that already arrive in order are left exactly as they are. */
  lemma {:induction false} SortWeeksOfSorted(ws: seq<CourseWeek>)
    requires SortedByWeek(ws)
    ensures SortWeeks(ws) == ws
  {
    if ws != [] {
      SortWeeksOfSorted(ws[1..]);
      assert SortWeeks(ws[1..]) == ws[1..];
      if |ws| > 1 {
        assert ws[0].weekNumber <= ws[1..][0].weekNumber;
      }
    }
  }

  // ---------------------------------------------------------------------
  // Tabs
  // ---------------------------------------------------------------------

  /** The attributes `a11yProps` gives the tab at `index`. */
  datatype TabProps = TabProps(id: string, ariaControls: string)

  /** What a `TabPanel` renders. */
  datatype Panel = Panel(hidden: bool, id: string, ariaLabelledBy: string, showsChildren: bool)

  const TabPrefix: string := "course-week-tab-"
  const PanelPrefix: string := "course-week-tabpanel-"

  function A11yProps(index: nat): (p: TabProps)
    ensures p.id == TabPrefix + NatToString(index)
    ensures p.ariaControls == PanelPrefix + NatToString(index)
  {
    TabProps(TabPrefix + NatToString(index), PanelPrefix + NatToString(index))
  }

  /** `TabPanel`: hidden, and without its children, unless it is the selected one. */
  function TabPanel(value: int, index: nat): (p: Panel)
    ensures p.showsChildren <==> value == index
    ensures p.hidden <==> !p.showsChildren
    ensures p.id == PanelPrefix + NatToString(index) && p.ariaLabelledBy == TabPrefix + NatToString(index)
  {
    Panel(value != index, PanelPrefix + NatToString(index), TabPrefix + NatToString(index), value == index)
  }

  /** At most one panel shows its children: the one whose index is the selected tab. */
  lemma OnePanelShown(value: int, i: nat, j: nat)
    requires TabPanel(value, i).showsChildren && TabPanel(value, j).showsChildren
    ensures i == j
  {
  }

  /** A tab and the panel with the same index point at each other. */
  lemma TabAndPanelLinked(index: nat, value: int)
    ensures A11yProps(index).ariaControls == TabPanel(value, index).id
    ensures TabPanel(value, index).ariaLabelledBy == A11yProps(index).id
  {
  }

  /** The index can be read back from a tab's id, so different tabs get different ids. */
  lemma TabIdsDistinct(i: nat, j: nat)
    ensures ParseInt(A11yProps(i).id[|TabPrefix|..]) == Some(i)
    ensures i != j ==> A11yProps(i).id != A11yProps(j).id
  {
    assert A11yProps(i).id[|TabPrefix|..] == NatToString(i);
    assert A11yProps(j).id[|TabPrefix|..] == NatToString(j);
    ParseIntOfNatToString(i);
    if A11yProps(i).id == A11yProps(j).id {
      NatToStringInjective(i, j);
    }
  }

  // ---------------------------------------------------------------------
  // The page
  // ---------------------------------------------------------------------

  /** What `renderContent` shows, checked in this order. */
  datatype Screen =
    | Spinner
    | ErrorAlert(text: string)
    | NotFoundWarning
    | NoWeeks(showHint: bool)
    | WeekTabs(weeks: seq<CourseWeek>, selected: int)

  function RenderContent(loading: bool, error: Option<string>, course: Option<CourseInfo>,
                         weeks: seq<CourseWeek>, selected: int, isLecturer: bool): (s: Screen)
    ensures s == Spinner <==> loading
    ensures s.ErrorAlert? <==> !loading && error.Some? && error.value != ""
    ensures s.ErrorAlert? ==> s.text == error.value
    ensures s == NotFoundWarning <==> !loading && (error.None? || error.value == "") && course.None?
    ensures s.NoWeeks? ==> s.showHint == isLecturer && weeks == []
    ensures s.WeekTabs? ==> s.weeks == weeks && s.selected == selected && weeks != []
  {
    if loading then Spinner
    else if error.Some? && error.value != "" then ErrorAlert(error.value)
    else if course.None? then NotFoundWarning
    else if weeks == [] then NoWeeks(isLecturer)
    else WeekTabs(weeks, selected)
  }

  class CourseMaterialsPage {
    const isLecturer: bool
    var loading: bool
    var error: Option<string>
    var course: Option<CourseInfo>
    var weeks: seq<CourseWeek>
    var selectedTab: int

    /** The weeks kept on the page are always in week order. */
    ghost predicate Valid()
      reads this
    {
      SortedByWeek(weeks)
    }

    constructor (isLecturer: bool)
      ensures Valid()
      ensures this.isLecturer == isLecturer && loading && error == None && course == None
      ensures weeks == [] && selectedTab == 0
    {
      this.isLecturer := isLecturer;
      loading := true;
      error := None;
      course := None;
      weeks := [];
      selectedTab := 0;
    }

    function Screen(): Screen
      reads this
    {
      RenderContent(loading, error, course, weeks, selectedTab, isLecturer)
    }

    /**
     * `fetchCourseData`. A missing or empty token or course id stops before
     * any call; otherwise the course and then its weeks are asked for, and
     * `requests` says how many calls were made. Loading ends either way.
     */
    method FetchCourseData(token: Option<string>, courseId: Option<string>,
                           courseReply: Reply<Option<CourseInfo>>, weeksReply: Reply<seq<CourseWeek>>)
      returns (requests: nat)
      requires Valid()
      modifies this`loading, this`error, this`course, this`weeks
      ensures Valid()
      ensures !loading
      ensures var missing := token.None? || token.value == "" || courseId.None? || courseId.value == "";
        (missing ==> requests == 0 && error == Some(MissingInfo) && course == old(course) && weeks == old(weeks)) &&
        (!missing && courseReply.Failed? ==> requests == 1 && error == Some(LoadFailed) &&
                                              course == old(course) && weeks == old(weeks)) &&
        (!missing && courseReply.Received? ==> requests == 2 && course == courseReply.data) &&
        (!missing && courseReply.Received? && weeksReply.Failed? ==> error == Some(LoadFailed) && weeks == old(weeks)) &&
        (!missing && courseReply.Received? && weeksReply.Received? ==>
           error == None && weeks == SortWeeks(weeksReply.data))
    {
      loading := true;
      if token.None? || token.value == "" || courseId.None? || courseId.value == "" {
        error := Some(MissingInfo);
        loading := false;
        return 0;
      }
      if courseReply.Failed? {
        error := Some(LoadFailed);
        loading := false;
        return 1;
      }
      course := courseReply.data;
      requests := 2;
      if weeksReply.Failed? {
        error := Some(LoadFailed);
      } else {
        weeks := SortWeeks(weeksReply.data);
        error := None;
      }
      loading := false;
    }

    /** `handleTabChange`. */
    method TabChange(value: int)
      modifies this`selectedTab
      ensures selectedTab == value
    {
      selectedTab := value;
    }
  }

  /** A missing token or course id ends on the error alert, never on the weeks. */
  lemma MissingInfoShowsError(course: Option<CourseInfo>, weeks: seq<CourseWeek>, selected: int, isLecturer: bool)
    ensures RenderContent(false, Some(MissingInfo), course, weeks, selected, isLecturer) == ErrorAlert(MissingInfo)
  {
  }
}
