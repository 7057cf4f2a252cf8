/**
 * The student's exam list: each exam is pending, submitted or graded; a
 * pending exam offers an upload dialog whose submission marks that exam as
 * submitted. Grading happens elsewhere, so "graded" is only ever displayed.
 */
module StudentExams {
  import opened Common

  datatype ExamStatus = Pending | Submitted | Graded

  datatype Exam = Exam(
    id: string,
    courseName: string,
    title: string,
    description: string,
    examUrl: string,
    dueDate: string,
    status: ExamStatus,
    grade: Option<string>,
    feedback: Option<string>)

  /** The status as the chip prints it. */
  function StatusText(s: ExamStatus): (text: string)
    ensures text in {"pending", "submitted", "graded"}
  {
    match s
    case Pending => "pending"
    case Submitted => "submitted"
    case Graded => "graded"
  }

  /** The chip colour of a status string: amber, blue, green, and grey for anything else. */
  function ExamStatusColor(status: string): (c: ChipColor)
    ensures c == Warning <==> status == "pending"
    ensures c == Info <==> status == "submitted"
    ensures c == Success <==> status == "graded"
    ensures c == Default <==> status !in {"pending", "submitted", "graded"}
  {
    match status
    case "pending" => Warning
    case "submitted" => Info
    case "graded" => Success
    case _ => Default
  }

  /** Every status an exam can have gets its own colour; none falls to the default. */
  lemma StatusColorsDistinct(s: ExamStatus, t: ExamStatus)
    ensures ExamStatusColor(StatusText(s)) != Default
    ensures s != t ==> ExamStatusColor(StatusText(s)) != ExamStatusColor(StatusText(t))
  {
  }

  /** The grade cell: `grade || '-'`, so a missing or empty grade shows a dash. */
  function GradeCell(grade: Option<string>): (text: string)
    ensures grade.Some? && grade.value != "" ==> text == grade.value
    ensures grade.None? || grade.value == "" ==> text == "-"
  {
    if grade.Some? && grade.value != "" then grade.value else "-"
  }

  /** The upload action is offered exactly for pending exams. */
  predicate UploadOffered(e: Exam)
  {
    e.status == Pending
  }

  /** Submit is enabled once a submission URL has been typed; its shape is not checked. */
  predicate SubmitEnabled(submissionUrl: string)
  {
    submissionUrl != ""
  }

  /** The table after the exams carrying `id` are marked submitted; all else is kept. */
  function MarkSubmitted(exams: seq<Exam>, id: string): (r: seq<Exam>)
    ensures |r| == |exams|
    ensures forall i :: 0 <= i < |exams| && exams[i].id != id ==> r[i] == exams[i]
    ensures forall i :: 0 <= i < |exams| && exams[i].id == id ==>
      r[i] == exams[i].(status := Submitted)
  {
    if exams == [] then []
    else [if exams[0].id == id then exams[0].(status := Submitted) else exams[0]] + MarkSubmitted(exams[1..], id)
  }

  /** No two exams share an id. */
  predicate UniqueIds(exams: seq<Exam>)
  {
    forall i, j :: 0 <= i < j < |exams| ==> exams[i].id != exams[j].id
  }

  /** The number of exams in status `s`. */
  function CountStatus(exams: seq<Exam>, s: ExamStatus): (n: nat)
    ensures n <= |exams|
  {
    if exams == [] then 0 else (if exams[0].status == s then 1 else 0) + CountStatus(exams[1..], s)
  }

  /**
   * Submitting a pending exam of a table with distinct ids moves exactly one
   * exam from pending to submitted and leaves the graded ones alone: the only
   * transition the page makes is pending to submitted.
   */
  lemma {:induction false} SubmitMovesOnePending(exams: seq<Exam>, k: int)
    requires UniqueIds(exams)
    requires 0 <= k < |exams| && exams[k].status == Pending
    ensures CountStatus(MarkSubmitted(exams, exams[k].id), Pending) == CountStatus(exams, Pending) - 1
    ensures CountStatus(MarkSubmitted(exams, exams[k].id), Submitted) == CountStatus(exams, Submitted) + 1
    ensures CountStatus(MarkSubmitted(exams, exams[k].id), Graded) == CountStatus(exams, Graded)
  {
    var id := exams[k].id;
    var r := MarkSubmitted(exams, id);
    assert r[1..] == MarkSubmitted(exams[1..], id);
    if k == 0 {
      assert forall i :: 0 <= i < |exams[1..]| ==> exams[1..][i].id != id;
      assert MarkSubmitted(exams[1..], id) == exams[1..];
    } else {
      SubmitMovesOnePending(exams[1..], k - 1);
    }
  }

  /** Marking is a no-op on a table without the id. */
  lemma MarkAbsentIsIdentity(exams: seq<Exam>, id: string)
    requires forall i :: 0 <= i < |exams| ==> exams[i].id != id
    ensures MarkSubmitted(exams, id) == exams
  {
  }

  /** Marking an exam submitted twice is the same as once. */
  lemma MarkSubmittedIdempotent(exams: seq<Exam>, id: string)
    ensures MarkSubmitted(MarkSubmitted(exams, id), id) == MarkSubmitted(exams, id)
  {
  }

  class StudentExamsPage {
    var exams: seq<Exam>
    var openSubmitDialog: bool
    var selectedExam: Option<Exam>
    var submissionUrl: string

    /**
     * The submit dialog is open exactly while an exam is selected, and the
     * selected exam is a pending exam of the table.
     */
    ghost predicate Valid()
      reads this
    {
      (openSubmitDialog <==> selectedExam.Some?) &&
      (selectedExam.Some? ==> selectedExam.value in exams && selectedExam.value.status == Pending)
    }

    /** The page starts on the given exams with the dialog closed. */
    constructor (initial: seq<Exam>)
      ensures Valid()
      ensures exams == initial && !openSubmitDialog && selectedExam == None && submissionUrl == ""
    {
      exams := initial;
      openSubmitDialog := false;
      selectedExam := None;
      submissionUrl := "";
    }

    /** The upload button of row `i`, which is rendered only for pending exams. */
    method OpenUpload(i: int)
      requires Valid()
      requires 0 <= i < |exams| && UploadOffered(exams[i])
      modifies this`selectedExam, this`openSubmitDialog
      ensures Valid()
      ensures selectedExam == Some(exams[i]) && openSubmitDialog
    {
      selectedExam := Some(exams[i]);
      openSubmitDialog := true;
    }

    method ChangeSubmissionUrl(url: string)
      modifies this`submissionUrl
      ensures submissionUrl == url
    {
      submissionUrl := url;
    }

    /** Cancel, or closing the dialog: selection and URL are cleared, exams untouched. */
    method CancelDialog()
      requires Valid()
      modifies this`openSubmitDialog, this`selectedExam, this`submissionUrl
      ensures Valid()
      ensures !openSubmitDialog && selectedExam == None && submissionUrl == ""
    {
      openSubmitDialog := false;
      selectedExam := None;
      submissionUrl := "";
    }

    /**
     * `handleSubmitExam`: with no selection nothing changes; otherwise the
     * selected exam is marked submitted (the URL is not stored on it), the
     * dialog closes and the selection and URL are cleared.
     */
    method SubmitExam()
      requires Valid()
      modifies this
      ensures Valid()
      ensures old(selectedExam).None? ==>
        exams == old(exams) && openSubmitDialog == old(openSubmitDialog) &&
        selectedExam == old(selectedExam) && submissionUrl == old(submissionUrl)
      ensures old(selectedExam).Some? ==>
        exams == MarkSubmitted(old(exams), old(selectedExam).value.id) &&
        !openSubmitDialog && selectedExam == None && submissionUrl == ""
    {
      if selectedExam.Some? {
        exams := MarkSubmitted(exams, selectedExam.value.id);
        openSubmitDialog := false;
        submissionUrl := "";
        selectedExam := None;
      }
    }
  }
}
