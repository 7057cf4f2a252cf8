/**
 * The student's payment page: the list of payment announcements, the
 * student's own submissions, the "Submit Payment" form and the dialog that
 * shows an earlier submission. The client lets a student submit once per
 * announcement: opening an announcement that already has a submission shows
 * that submission instead of the form.
 */
module StudentPayments {
  import opened Common
  import opened Finance

  /** The editable fields of the submit form. */
  datatype SubmissionForm = SubmissionForm(
    paymentSlipUrl: string,
    amountPaid: string,
    paymentDate: string,
    notes: string)

  /** The fields a text input of the submit form is bound to by its `name`. */
  datatype FormField = PaymentSlipUrl | AmountPaid | Notes

  /** What the page sends to the payment service: the form plus the announcement id. */
  datatype SubmissionPayload = SubmissionPayload(
    paymentSlipUrl: string,
    amountPaid: string,
    paymentDate: string,
    notes: string,
    announcementId: int)

  /** Entry `i` is the first of `subs` that belongs to announcement `a`. */
  ghost predicate IsFirstFor(subs: seq<PaymentSubmission>, a: int, i: int)
  {
    0 <= i < |subs| && subs[i].announcementId == a &&
    forall j :: 0 <= j < i ==> subs[j].announcementId != a
  }

  /** Whether the student already has a submission for announcement `a`. */
  function HasSubmittedFor(subs: seq<PaymentSubmission>, a: int): (b: bool)
    ensures b <==> exists i :: 0 <= i < |subs| && subs[i].announcementId == a
  {
    if subs == [] then false
    else subs[0].announcementId == a || HasSubmittedFor(subs[1..], a)
  }

  /** `mySubmissions.find(...)`: the first submission for announcement `a`. */
  function FindSubmission(subs: seq<PaymentSubmission>, a: int): (r: Option<PaymentSubmission>)
    ensures r.None? <==> !HasSubmittedFor(subs, a)
    ensures r.Some? ==> exists i :: IsFirstFor(subs, a, i) && subs[i] == r.value
  {
    if subs == [] then None
    else if subs[0].announcementId == a then
      assert IsFirstFor(subs, a, 0);
      Some(subs[0])
    else
      var r := FindSubmission(subs[1..], a);
      assert forall i :: IsFirstFor(subs[1..], a, i) ==> IsFirstFor(subs, a, i + 1);
      r
  }

  /** The status of the first submission for `a`, or null when there is none. */
  function SubmissionStatus(subs: seq<PaymentSubmission>, a: int): (r: Option<string>)
    ensures r.None? <==> !HasSubmittedFor(subs, a)
    ensures r.Some? ==> exists i :: IsFirstFor(subs, a, i) && subs[i].status == r.value
  {
    match FindSubmission(subs, a)
    case None => None
    case Some(s) => Some(s.status)
  }

  /** The chip text on an announcement card: the status upper-cased, 'PENDING' for none. */
  function StatusChipLabel(status: Option<string>): (text: string)
    ensures status.None? ==> text == "PENDING"
    ensures status.Some? && status.value != "" ==> text == Upper(status.value)
    ensures text != ""
  {
    if status.Some? && Upper(status.value) != "" then Upper(status.value) else "PENDING"
  }

  /** The chip colour on an announcement card: a missing status counts as 'pending'. */
  function StatusChipColor(status: Option<string>): (c: ChipColor)
    ensures status.None? ==> c == Warning
    ensures status.Some? ==> c == PaymentStatusColor(status.value)
  {
    PaymentStatusColor(if status.Some? && status.value != "" then status.value else "pending")
  }

  /** The Submit button is enabled when a slip URL and an amount are filled in. */
  function SubmitEnabled(f: SubmissionForm): (b: bool)
    ensures b <==> f.paymentSlipUrl != "" && f.amountPaid != ""
  {
    f.paymentSlipUrl != "" && f.amountPaid != ""
  }

  /** The form as it is opened for announcement `a` at time `now`. */
  function FreshForm(a: Announcement, now: string): (f: SubmissionForm)
    ensures f.paymentSlipUrl == "" && f.notes == "" && f.amountPaid == a.amount
    ensures f.paymentDate == now
    ensures !SubmitEnabled(f)
  {
    SubmissionForm("", a.amount, now, "")
  }

  /** The request body: the form fields together with the announcement's id. */
  function Payload(f: SubmissionForm, a: Announcement): (p: SubmissionPayload)
    ensures p.announcementId == a.id
    ensures p.paymentSlipUrl == f.paymentSlipUrl && p.amountPaid == f.amountPaid
    ensures p.paymentDate == f.paymentDate && p.notes == f.notes
  {
    SubmissionPayload(f.paymentSlipUrl, f.amountPaid, f.paymentDate, f.notes, a.id)
  }

  function SetField(f: SubmissionForm, field: FormField, value: string): (g: SubmissionForm)
    ensures g.paymentDate == f.paymentDate
    ensures g.paymentSlipUrl == (if field == PaymentSlipUrl then value else f.paymentSlipUrl)
    ensures g.amountPaid == (if field == AmountPaid then value else f.amountPaid)
    ensures g.notes == (if field == Notes then value else f.notes)
  {
    match field
    case PaymentSlipUrl => f.(paymentSlipUrl := value)
    case AmountPaid => f.(amountPaid := value)
    case Notes => f.(notes := value)
  }

  class StudentPaymentsPage {
    var announcements: seq<Announcement>
    var mySubmissions: seq<PaymentSubmission>
    var loading: bool
    var error: Option<string>
    var openDialog: bool
    var openViewDialog: bool
    var selectedAnnouncement: Option<Announcement>
    var selectedSubmission: Option<PaymentSubmission>
    var form: SubmissionForm
    var showMessage: bool
    var message: Notice

    /** Each dialog is open exactly when it has something selected. */
    ghost predicate Valid()
      reads this
    {
      (openDialog <==> selectedAnnouncement.Some?) &&
      (openViewDialog <==> selectedSubmission.Some?)
    }

    constructor (now: string)
      ensures Valid()
      ensures announcements == [] && mySubmissions == [] && loading && error == None
      ensures !openDialog && !openViewDialog && !showMessage
      ensures form == SubmissionForm("", "", now, "")
    {
      announcements, mySubmissions := [], [];
      loading, error := true, None;
      openDialog, openViewDialog := false, false;
      selectedAnnouncement, selectedSubmission := None, None;
      form := SubmissionForm("", "", now, "");
      showMessage, message := false, Notice("", true);
    }

    /** `fetchAnnouncements`: `fetched` is the service's reply, None when the call failed. */
    method LoadAnnouncements(fetched: Option<seq<Announcement>>)
      requires Valid()
      modifies this
      ensures Valid() && !loading
      ensures announcements == (if fetched.Some? then fetched.value else old(announcements))
      ensures error == (if fetched.Some? then None
                        else Some("Failed to load payment announcements. Please try again later."))
      ensures mySubmissions == old(mySubmissions) && form == old(form)
      ensures openDialog == old(openDialog) && selectedAnnouncement == old(selectedAnnouncement)
      ensures openViewDialog == old(openViewDialog) && selectedSubmission == old(selectedSubmission)
      ensures showMessage == old(showMessage) && message == old(message)
    {
      error := None;
      if fetched.Some? {
        announcements := fetched.value;
      } else {
        error := Some("Failed to load payment announcements. Please try again later.");
      }
      loading := false;
    }

    /** `fetchMySubmissions`: a failure is reported in the snackbar, not as a page error. */
    method LoadMySubmissions(fetched: Option<seq<PaymentSubmission>>)
      requires Valid()
      modifies this
      ensures Valid()
      ensures mySubmissions == (if fetched.Some? then fetched.value else old(mySubmissions))
      ensures fetched.None? ==>
        showMessage && message == Notice("Failed to load your submissions. Please try again later.", false)
      ensures fetched.Some? ==> showMessage == old(showMessage) && message == old(message)
      ensures announcements == old(announcements) && loading == old(loading) && error == old(error)
      ensures form == old(form)
      ensures openDialog == old(openDialog) && selectedAnnouncement == old(selectedAnnouncement)
      ensures openViewDialog == old(openViewDialog) && selectedSubmission == old(selectedSubmission)
    {
      if fetched.Some? {
        mySubmissions := fetched.value;
      } else {
        message := Notice("Failed to load your submissions. Please try again later.", false);
        showMessage := true;
      }
    }

    /**
     * `handleOpenSubmitDialog`: an announcement that already has a submission
     * opens that submission in the view dialog and leaves the form alone;
     * otherwise the form is reset for `a` and opened.
     */
    method OpenSubmitDialog(a: Announcement, now: string)
      requires Valid()
      modifies this
      ensures Valid()
      ensures HasSubmittedFor(mySubmissions, a.id) ==>
        openViewDialog && selectedSubmission == FindSubmission(mySubmissions, a.id) &&
        openDialog == old(openDialog) && selectedAnnouncement == old(selectedAnnouncement) &&
        form == old(form)
      ensures !HasSubmittedFor(mySubmissions, a.id) ==>
        openDialog && selectedAnnouncement == Some(a) && form == FreshForm(a, now) &&
        openViewDialog == old(openViewDialog) && selectedSubmission == old(selectedSubmission)
      ensures announcements == old(announcements) && mySubmissions == old(mySubmissions)
      ensures loading == old(loading) && error == old(error)
      ensures showMessage == old(showMessage) && message == old(message)
    {
      var existing := FindSubmission(mySubmissions, a.id);
      if existing.Some? {
        selectedSubmission := existing;
        openViewDialog := true;
        return;
      }
      selectedAnnouncement := Some(a);
      form := FreshForm(a, now);
      openDialog := true;
    }

    /** `handleCloseDialog`. */
    method CloseDialog()
      requires Valid()
      modifies this
      ensures Valid() && !openDialog && selectedAnnouncement == None
      ensures announcements == old(announcements) && mySubmissions == old(mySubmissions)
      ensures loading == old(loading) && error == old(error) && form == old(form)
      ensures openViewDialog == old(openViewDialog) && selectedSubmission == old(selectedSubmission)
      ensures showMessage == old(showMessage) && message == old(message)
    {
      openDialog := false;
      selectedAnnouncement := None;
    }

    /** `handleCloseViewDialog`. */
    method CloseViewDialog()
      requires Valid()
      modifies this
      ensures Valid() && !openViewDialog && selectedSubmission == None
      ensures announcements == old(announcements) && mySubmissions == old(mySubmissions)
      ensures loading == old(loading) && error == old(error) && form == old(form)
      ensures openDialog == old(openDialog) && selectedAnnouncement == old(selectedAnnouncement)
      ensures showMessage == old(showMessage) && message == old(message)
    {
      openViewDialog := false;
      selectedSubmission := None;
    }

    /** `handleFormChange` for one named text input. */
    method ChangeForm(field: FormField, value: string)
      requires Valid()
      modifies this`form
      ensures form == SetField(old(form), field, value)
    {
      form := SetField(form, field, value);
    }

    /** `handleDateChange`: a cleared date picker leaves the date as it was. */
    method ChangeDate(date: Option<string>)
      requires Valid()
      modifies this`form
      ensures form == if date.Some? then old(form).(paymentDate := date.value) else old(form)
    {
      if date.Some? {
        form := form.(paymentDate := date.value);
      }
    }

    /**
     * `handleSubmit`: without a selected announcement nothing is sent;
     * otherwise the form is sent with the announcement's id. `accepted` is the
     * service's answer. On success the form dialog closes; the list of the
     * student's submissions is then re-fetched by `LoadMySubmissions`.
     */
    method Submit(accepted: bool) returns (sent: Option<SubmissionPayload>)
      requires Valid()
      modifies this
      ensures Valid()
      ensures old(selectedAnnouncement).None? ==>
        sent == None && openDialog == old(openDialog) && showMessage == old(showMessage) &&
        message == old(message)
      ensures old(selectedAnnouncement).Some? ==>
        sent == Some(Payload(old(form), old(selectedAnnouncement).value)) && showMessage
      ensures old(selectedAnnouncement).Some? && accepted ==>
        !openDialog && selectedAnnouncement == None &&
        message == Notice("Payment submitted successfully!", true)
      ensures old(selectedAnnouncement).Some? && !accepted ==>
        openDialog == old(openDialog) && selectedAnnouncement == old(selectedAnnouncement) &&
        message == Notice("Failed to submit payment. Please try again.", false)
      ensures announcements == old(announcements) && mySubmissions == old(mySubmissions)
      ensures loading == old(loading) && error == old(error) && form == old(form)
      ensures openViewDialog == old(openViewDialog) && selectedSubmission == old(selectedSubmission)
    {
      if selectedAnnouncement.None? {
        return None;
      }
      sent := Some(Payload(form, selectedAnnouncement.value));
      if accepted {
        message := Notice("Payment submitted successfully!", true);
        showMessage := true;
        CloseDialog();
      } else {
        message := Notice("Failed to submit payment. Please try again.", false);
        showMessage := true;
      }
    }
  }
}
