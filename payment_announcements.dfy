/**
 * The lecturer's payment-announcement page: creating and editing
 * announcements, listing the submissions made against one announcement, and
 * the verification dialog in which a submission's status and notes are set.
 * Every control that changes data is shown to lecturers only.
 */
module PaymentAnnouncements {
  import opened Common
  import opened Finance

  /** The five editable fields of an announcement. */
  datatype AnnouncementForm = AnnouncementForm(
    title: string,
    description: string,
    amount: string,
    paymentDetails: string,
    dueDate: string)

  /** The text inputs of the announcement dialog, by their `name`. */
  datatype AnnouncementField = Title | Description | Amount | PaymentDetails

  /** `{...prev, [name]: value}` on the announcement form: only the named field changes. */
  function SetAnnouncementField(f: AnnouncementForm, field: AnnouncementField, value: string): (g: AnnouncementForm)
    ensures g.title == (if field == Title then value else f.title)
    ensures g.description == (if field == Description then value else f.description)
    ensures g.amount == (if field == Amount then value else f.amount)
    ensures g.paymentDetails == (if field == PaymentDetails then value else f.paymentDetails)
    ensures g.dueDate == f.dueDate
  {
    match field
    case Title => f.(title := value)
    case Description => f.(description := value)
    case Amount => f.(amount := value)
    case PaymentDetails => f.(paymentDetails := value)
  }

  /** The verification form: the status to set and the reviewer's notes. */
  datatype VerificationForm = VerificationForm(status: string, verificationNotes: string)

  /** The request `handleSubmit` sends for the announcement dialog. */
  datatype AnnouncementRequest =
    | CreateAnnouncement(form: AnnouncementForm)
    | UpdateAnnouncement(announcementId: int, form: AnnouncementForm)

  /** The request `handleVerifySubmission` sends. */
  datatype VerifyRequest = VerifyRequest(submissionId: int, form: VerificationForm)

  /** The buttons of the page that act on announcements and submissions. */
  datatype Control = CreateButton | EditButton | DeleteButton | ViewSubmissionsButton | UpdateStatusButton

  /** A status the verifier can pick: one of the three options of the select. */
  predicate IsStatusOption(s: string)
  {
    s in StatusOptions
  }

  /** The controls shown to a user: announcement management for lecturers only. */
  function VisibleControls(isLecturer: bool): (cs: set<Control>)
    ensures isLecturer ==> {CreateButton, EditButton, DeleteButton, ViewSubmissionsButton} <= cs
    ensures !isLecturer ==> cs * {CreateButton, EditButton, DeleteButton, ViewSubmissionsButton} == {}
  {
    if isLecturer then {CreateButton, EditButton, DeleteButton, ViewSubmissionsButton, UpdateStatusButton}
    else {}
  }

  /**
   * The submissions offered the "Update Status" button: every listed one,
   * whatever its current status, so a decided submission can be re-verified.
   */
  function UpdatableSubmissions(subs: seq<PaymentSubmission>): (ids: seq<int>)
    ensures |ids| == |subs|
    ensures forall i :: 0 <= i < |subs| ==> ids[i] == subs[i].id
  {
    if subs == [] then [] else [subs[0].id] + UpdatableSubmissions(subs[1..])
  }

  /** The verification form opened on a submission: its status, and its notes or ''. */
  function VerificationFormFor(s: PaymentSubmission): (f: VerificationForm)
    ensures f.status == s.status
    ensures s.verificationNotes.None? ==> f.verificationNotes == ""
    ensures s.verificationNotes.Some? ==> f.verificationNotes == s.verificationNotes.value
  {
    VerificationForm(s.status, if s.verificationNotes.Some? then s.verificationNotes.value else "")
  }

  /** The announcement form opened on `a` for editing. */
  function EditForm(a: Announcement): (f: AnnouncementForm)
    ensures f.title == a.title && f.description == a.description && f.amount == a.amount
    ensures f.paymentDetails == a.paymentDetails && f.dueDate == a.dueDate
  {
    AnnouncementForm(a.title, a.description, a.amount, a.paymentDetails, a.dueDate)
  }

  /** The empty announcement form, due now. */
  function BlankForm(now: string): (f: AnnouncementForm)
    ensures f.title == "" && f.description == "" && f.amount == "" && f.paymentDetails == ""
    ensures f.dueDate == now
  {
    AnnouncementForm("", "", "", "", now)
  }

  /** Whether the editing dialog's request updates (an announcement is being edited) or creates. */
  function SaveRequest(editing: Option<Announcement>, f: AnnouncementForm): (r: AnnouncementRequest)
    ensures r.form == f
    ensures r.UpdateAnnouncement? <==> editing.Some?
    ensures r.UpdateAnnouncement? ==> r.announcementId == editing.value.id
  {
    if editing.Some? then UpdateAnnouncement(editing.value.id, f) else CreateAnnouncement(f)
  }

  /** The snackbar text after saving an announcement, by request kind and outcome. */
  function SaveMessage(r: AnnouncementRequest, accepted: bool): (text: string)
    ensures text == "Payment announcement updated successfully!" <==> r.UpdateAnnouncement? && accepted
    ensures text == "Payment announcement created successfully!" <==> r.CreateAnnouncement? && accepted
    ensures text == "Failed to update announcement" <==> r.UpdateAnnouncement? && !accepted
    ensures text == "Failed to create announcement" <==> r.CreateAnnouncement? && !accepted
  {
    match (r, accepted)
    case (UpdateAnnouncement(_, _), true) => "Payment announcement updated successfully!"
    case (CreateAnnouncement(_), true) => "Payment announcement created successfully!"
    case (UpdateAnnouncement(_, _), false) => "Failed to update announcement"
    case (CreateAnnouncement(_), false) => "Failed to create announcement"
  }

  /** JavaScript truthiness of `selectedAnnouncementId`: null and 0 are both false. */
  predicate IdIsSet(id: Option<int>)
  {
    id.Some? && id.value != 0
  }

  class PaymentAnnouncementsPage {
    const isLecturer: bool
    var announcements: seq<Announcement>
    var submissions: seq<PaymentSubmission>
    var loading: bool
    var error: Option<string>
    var openDialog: bool
    var openSubmissionsDialog: bool
    var openVerifyDialog: bool
    var editingAnnouncement: Option<Announcement>
    var verifyingSubmission: Option<PaymentSubmission>
    var selectedAnnouncementId: Option<int>
    var announcementForm: AnnouncementForm
    var verificationForm: VerificationForm
    var showMessage: bool
    var message: Notice

    /** The verification dialog is open exactly when a submission is being verified. */
    ghost predicate Valid()
      reads this
    {
      openVerifyDialog <==> verifyingSubmission.Some?
    }

    constructor (isLecturer: bool, now: string)
      ensures Valid() && this.isLecturer == isLecturer
      ensures announcements == [] && submissions == [] && loading && error == None
      ensures !openDialog && !openSubmissionsDialog && !openVerifyDialog
      ensures editingAnnouncement == None && selectedAnnouncementId == None
      ensures announcementForm == BlankForm(now)
      ensures verificationForm == VerificationForm("pending", "")
    {
      this.isLecturer := isLecturer;
      announcements, submissions := [], [];
      loading, error := true, None;
      openDialog, openSubmissionsDialog, openVerifyDialog := false, false, false;
      editingAnnouncement, verifyingSubmission, selectedAnnouncementId := None, None, None;
      announcementForm := BlankForm(now);
      verificationForm := VerificationForm("pending", "");
      showMessage, message := false, Notice("", true);
    }

    /** `fetchAnnouncements`, with the service's reply (None when it failed). */
    method LoadAnnouncements(fetched: Option<seq<Announcement>>)
      requires Valid()
      modifies this
      ensures Valid() && !loading
      ensures announcements == (if fetched.Some? then fetched.value else old(announcements))
      ensures error == (if fetched.Some? then None
                        else Some("Failed to load payment announcements. Please try again later."))
      ensures submissions == old(submissions) && selectedAnnouncementId == old(selectedAnnouncementId)
      ensures openDialog == old(openDialog) && openSubmissionsDialog == old(openSubmissionsDialog)
      ensures openVerifyDialog == old(openVerifyDialog) && verifyingSubmission == old(verifyingSubmission)
      ensures editingAnnouncement == old(editingAnnouncement)
      ensures announcementForm == old(announcementForm) && verificationForm == old(verificationForm)
      ensures showMessage == old(showMessage) && message == old(message)
    {
      error := None;
      if fetched.Some? {
        announcements := fetched.value;
      } else {
        error := Some("Failed to load payment announcements. Please try again later.");
      }
      loading := false;
    }

    /**
     * `fetchSubmissions(announcementId)`: on success the list is replaced,
     * the announcement is remembered and the submissions dialog opens.
     */
    method LoadSubmissions(announcementId: int, fetched: Option<seq<PaymentSubmission>>)
      requires Valid()
      modifies this`loading, this`error, this`submissions, this`selectedAnnouncementId
      modifies this`openSubmissionsDialog, this`showMessage, this`message
      ensures Valid() && !loading && error == None
      ensures submissions == (if fetched.Some? then fetched.value else old(submissions))
      ensures selectedAnnouncementId == (if fetched.Some? then Some(announcementId) else old(selectedAnnouncementId))
      ensures openSubmissionsDialog == (fetched.Some? || old(openSubmissionsDialog))
      ensures showMessage == (fetched.None? || old(showMessage))
      ensures message == (if fetched.Some? then old(message)
                          else Notice("Failed to load submissions. Please try again later.", false))
    {
      error := None;
      if fetched.Some? {
        submissions, selectedAnnouncementId, openSubmissionsDialog := fetched.value, Some(announcementId), true;
      } else {
        message, showMessage := Notice("Failed to load submissions. Please try again later.", false), true;
      }
      loading := false;
    }

    /** `handleOpenDialog`: edit mode copies the announcement's fields; create mode blanks them. */
    method OpenDialog(a: Option<Announcement>, now: string)
      requires Valid()
      modifies this
      ensures Valid() && openDialog
      ensures editingAnnouncement == a
      ensures announcementForm == (if a.Some? then EditForm(a.value) else BlankForm(now))
      ensures announcements == old(announcements) && submissions == old(submissions)
      ensures loading == old(loading) && error == old(error)
      ensures openSubmissionsDialog == old(openSubmissionsDialog) && selectedAnnouncementId == old(selectedAnnouncementId)
      ensures openVerifyDialog == old(openVerifyDialog) && verifyingSubmission == old(verifyingSubmission)
      ensures verificationForm == old(verificationForm)
      ensures showMessage == old(showMessage) && message == old(message)
    {
      if a.Some? {
        editingAnnouncement := a;
        announcementForm := EditForm(a.value);
      } else {
        editingAnnouncement := None;
        announcementForm := BlankForm(now);
      }
      openDialog := true;
    }

    /** `handleCloseDialog`: only the dialog closes; the form and edit target stay. */
    method CloseDialog()
      modifies this`openDialog
      ensures !openDialog
    {
      openDialog := false;
    }

    /** `handleCloseSubmissionsDialog`: the list is emptied and the announcement forgotten. */
    method CloseSubmissionsDialog()
      requires Valid()
      modifies this`openSubmissionsDialog, this`submissions, this`selectedAnnouncementId
      ensures Valid()
      ensures !openSubmissionsDialog && submissions == [] && selectedAnnouncementId == None
    {
      openSubmissionsDialog := false;
      submissions := [];
      selectedAnnouncementId := None;
    }

    /** `handleFormChange`: one text input of the announcement dialog. */
    method ChangeForm(field: AnnouncementField, value: string)
      modifies this`announcementForm
      ensures announcementForm == SetAnnouncementField(old(announcementForm), field, value)
    {
      announcementForm := SetAnnouncementField(announcementForm, field, value);
    }

    /** `handleDateChange`: a cleared date picker leaves the due date as it was. */
    method ChangeDate(date: Option<string>)
      modifies this`announcementForm
      ensures announcementForm == if date.Some? then old(announcementForm).(dueDate := date.value) else old(announcementForm)
    {
      if date.Some? {
        announcementForm := announcementForm.(dueDate := date.value);
      }
    }

    /**
     * `handleSubmit` of the announcement dialog: an update when an
     * announcement is being edited, a creation otherwise. `accepted` is the
     * service's answer; on success the dialog closes (the list is then
     * re-fetched with `LoadAnnouncements`).
     */
    method SaveAnnouncement(accepted: bool) returns (sent: AnnouncementRequest)
      modifies this`message, this`showMessage, this`openDialog
      ensures sent == SaveRequest(editingAnnouncement, announcementForm)
      ensures showMessage
      ensures openDialog == (!accepted && old(openDialog))
      ensures message == Notice(SaveMessage(sent, accepted), accepted)
    {
      sent := SaveRequest(editingAnnouncement, announcementForm);
      message := Notice(SaveMessage(sent, accepted), accepted);
      showMessage := true;
      if accepted {
        openDialog := false;
      }
    }

    /**
     * `handleDeleteAnnouncement`: nothing happens unless the user confirms;
     * otherwise the outcome is reported (a success re-fetches the list).
     */
    method DeleteAnnouncement(confirmed: bool, accepted: bool)
      modifies this`showMessage, this`message
      ensures !confirmed ==> showMessage == old(showMessage) && message == old(message)
      ensures confirmed ==>
        showMessage && message == (if accepted then Notice("Payment announcement deleted successfully!", true)
                    else Notice("Failed to delete announcement", false))
    {
      if !confirmed {
        return;
      }
      if accepted {
        message := Notice("Payment announcement deleted successfully!", true);
      } else {
        message := Notice("Failed to delete announcement", false);
      }
      showMessage := true;
    }

    /** `handleOpenVerifyDialog`: offered for every listed submission, whatever its status. */
    method OpenVerifyDialog(s: PaymentSubmission)
      requires Valid()
      modifies this`verifyingSubmission, this`verificationForm, this`openVerifyDialog
      ensures Valid() && openVerifyDialog
      ensures verifyingSubmission == Some(s) && verificationForm == VerificationFormFor(s)
    {
      verifyingSubmission := Some(s);
      verificationForm := VerificationFormFor(s);
      openVerifyDialog := true;
    }

    /** `handleCloseVerifyDialog`. */
    method CloseVerifyDialog()
      modifies this`verifyingSubmission, this`openVerifyDialog
      ensures !openVerifyDialog && verifyingSubmission == None
    {
      openVerifyDialog := false;
      verifyingSubmission := None;
    }

    /** The status select of the verification dialog, which lists `StatusOptions` only. */
    method ChooseStatus(option: int)
      requires 0 <= option < |StatusOptions|
      modifies this`verificationForm
      ensures verificationForm == old(verificationForm).(status := StatusOptions[option])
      ensures IsStatusOption(verificationForm.status)
    {
      verificationForm := verificationForm.(status := StatusOptions[option]);
    }

    /** The notes field of the verification dialog. */
    method ChangeVerificationNotes(notes: string)
      modifies this`verificationForm
      ensures verificationForm == old(verificationForm).(verificationNotes := notes)
    {
      verificationForm := verificationForm.(verificationNotes := notes);
    }

    /**
     * `handleVerifySubmission`: with no submission selected nothing is sent.
     * Otherwise the form is sent for that submission; on success the dialog
     * closes and `refetch` names the announcement whose list is re-fetched,
     * which happens only when `selectedAnnouncementId` is set (and non-zero).
     */
    method VerifySubmission(accepted: bool) returns (sent: Option<VerifyRequest>, refetch: Option<int>)
      requires Valid()
      modifies this
      ensures Valid()
      ensures old(verifyingSubmission).None? ==>
        sent == None && refetch == None && showMessage == old(showMessage) && message == old(message) &&
        openVerifyDialog == old(openVerifyDialog)
      ensures old(verifyingSubmission).Some? ==>
        sent == Some(VerifyRequest(old(verifyingSubmission).value.id, old(verificationForm))) && showMessage
      ensures old(verifyingSubmission).Some? && accepted ==>
        !openVerifyDialog && verifyingSubmission == None &&
        message == Notice("Payment verification updated successfully!", true) &&
        refetch == (if IdIsSet(old(selectedAnnouncementId)) then old(selectedAnnouncementId) else None)
      ensures old(verifyingSubmission).Some? && !accepted ==>
        openVerifyDialog == old(openVerifyDialog) && verifyingSubmission == old(verifyingSubmission) &&
        message == Notice("Failed to update verification status", false) && refetch == None
      ensures announcements == old(announcements) && submissions == old(submissions)
      ensures loading == old(loading) && error == old(error)
      ensures openDialog == old(openDialog) && editingAnnouncement == old(editingAnnouncement)
      ensures announcementForm == old(announcementForm) && verificationForm == old(verificationForm)
      ensures openSubmissionsDialog == old(openSubmissionsDialog) && selectedAnnouncementId == old(selectedAnnouncementId)
    {
      refetch := None;
      if verifyingSubmission.None? {
        return None, None;
      }
      sent := Some(VerifyRequest(verifyingSubmission.value.id, verificationForm));
      if accepted {
        message := Notice("Payment verification updated successfully!", true);
        showMessage := true;
        CloseVerifyDialog();
        if IdIsSet(selectedAnnouncementId) {
          refetch := selectedAnnouncementId;
        }
      } else {
        message := Notice("Failed to update verification status", false);
        showMessage := true;
      }
    }
  }
}
