/**
 * The lecturer's exam list: exams are active, completed or drafts, and the
 * "create" dialog appends a new active exam with no submissions.
 */
module TeacherExams {
  import opened Common

  datatype ExamStatus = Active | Completed | Draft

  datatype Exam = Exam(
    id: string,
    courseName: string,
    title: string,
    description: string,
    examUrl: string,
    dueDate: string,
    status: ExamStatus,
    submissions: nat)

  /** The five fields of the "create exam" dialog. */
  datatype NewExamForm = NewExamForm(
    courseName: string,
    title: string,
    description: string,
    examUrl: string,
    dueDate: string)

  const BlankForm: NewExamForm := NewExamForm("", "", "", "", "")

  function StatusText(s: ExamStatus): (text: string)
    ensures text in {"active", "completed", "draft"}
  {
    match s
    case Active => "active"
    case Completed => "completed"
    case Draft => "draft"
  }

  /** The chip colour of a status string: green, blue, amber, and grey for anything else. */
  function ExamStatusColor(status: string): (c: ChipColor)
    ensures c == Success <==> status == "active"
    ensures c == Info <==> status == "completed"
    ensures c == Warning <==> status == "draft"
    ensures c == Default <==> status !in {"active", "completed", "draft"}
  {
    match status
    case "active" => Success
    case "completed" => Info
    case "draft" => Warning
    case _ => Default
  }

  /** The exam built from the form at time `now` (milliseconds), whose decimal form is its id. */
  function NewExam(form: NewExamForm, now: nat): (e: Exam)
    ensures e.status == Active && e.submissions == 0
    ensures ParseInt(e.id) == Some(now)
    ensures e.courseName == form.courseName && e.title == form.title && e.description == form.description
    ensures e.examUrl == form.examUrl && e.dueDate == form.dueDate
  {
    ParseIntOfNatToString(now);
    Exam(NatToString(now), form.courseName, form.title, form.description, form.examUrl, form.dueDate, Active, 0)
  }

  /** Exams created at different instants get different ids. */
  lemma NewExamIdsDistinct(f: NewExamForm, g: NewExamForm, t: nat, u: nat)
    requires t != u
    ensures NewExam(f, t).id != NewExam(g, u).id
  {
    if NewExam(f, t).id == NewExam(g, u).id {
      NatToStringInjective(t, u);
    }
  }

  class TeacherExamsPage {
    var exams: seq<Exam>
    var openDialog: bool
    var newExam: NewExamForm

    constructor (initial: seq<Exam>)
      ensures exams == initial && !openDialog && newExam == BlankForm
    {
      exams := initial;
      openDialog := false;
      newExam := BlankForm;
    }

    method OpenCreateDialog()
      modifies this`openDialog
      ensures openDialog
    {
      openDialog := true;
    }

    /** Cancel or closing: the dialog closes and the form is kept. */
    method CloseDialog()
      modifies this`openDialog
      ensures !openDialog
    {
      openDialog := false;
    }

    method ChangeForm(form: NewExamForm)
      modifies this`newExam
      ensures newExam == form
    {
      newExam := form;
    }

    /**
     * `handleCreateExam` at time `now`: exactly one exam is appended, the
     * existing ones are kept in place, the dialog closes and the form is blanked.
     */
    method CreateExam(now: nat)
      modifies this
      ensures exams == old(exams) + [NewExam(old(newExam), now)]
      ensures |exams| == |old(exams)| + 1 && exams[..|old(exams)|] == old(exams)
      ensures !openDialog && newExam == BlankForm
    {
      exams := exams + [NewExam(newExam, now)];
      openDialog := false;
      newExam := BlankForm;
    }
  }
}
