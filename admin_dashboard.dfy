/**
 * The administrator's user-management dashboard: a table of accounts and a
 * dialog that adds or edits one. The dialog's form is a record whose fields
 * are set by name from input events, so it is modelled as a map from field
 * name to value; a missing key is JavaScript's `undefined`.
 */
module AdminDashboard {
  import opened Common

  /** A form value: text from an input, a boolean from the active select, or a number. */
  datatype FormValue = Str(s: string) | Bool(b: bool) | Num(n: int)

  /** The named fields of the form, `email` … `qualification`. */
  datatype Key =
    | Email | Username | Password | ConfirmPassword | Role | FirstName | LastName | IsActive
    | EnrollmentNumber | Semester | Program | Department | Bio | Qualification

  type Form = map<Key, FormValue>

  /** The top-level fields of the request body: a form field or one of the two profiles. */
  datatype PayloadKey = FieldKey(key: Key) | StudentProfile | LecturerProfile

  /** A value of the request body: a plain field or a nested profile object. */
  datatype PayloadValue = Field(v: FormValue) | Object(fields: map<Key, FormValue>)

  type Payload = map<PayloadKey, PayloadValue>

  datatype Mode = Add | Edit

  datatype Profile = Profile(
    enrollmentNumber: Option<string>,
    semester: Option<int>,
    program: Option<string>,
    department: Option<string>,
    bio: Option<string>,
    qualification: Option<string>)

  datatype AdminUser = AdminUser(
    id: int,
    email: string,
    username: string,
    role: string,
    firstName: string,
    lastName: string,
    isActive: bool,
    lecturerProfile: Option<Profile>,
    studentProfile: Option<Profile>)

  /** What `handleSubmit` sends: a creation, or an update of the account with `id`. */
  datatype SaveRequest = CreateUser(payload: Payload) | UpdateUser(id: int, payload: Payload)

  /** The field `k` of the form, None when it is undefined. */
  function Get(form: Form, k: Key): (v: Option<FormValue>)
    ensures v.Some? <==> k in form
    ensures v.Some? ==> v.value == form[k]
  {
    if k in form then Some(form[k]) else None
  }

  /** JavaScript truthiness of a form value: undefined, '', false and 0 are false. */
  predicate Truthy(v: Option<FormValue>)
  {
    match v
    case None => false
    case Some(Str(s)) => s != ""
    case Some(Bool(b)) => b
    case Some(Num(n)) => n != 0
  }

  /** The form's role field equals `role`. */
  predicate HasRole(form: Form, role: string)
  {
    Get(form, Role) == Some(Str(role))
  }

  /** The fields every payload carries. */
  const BaseKeys: set<Key> := {Email, Username, Role, FirstName, LastName, IsActive}

  /** The fields `validateForm` can report. */
  const ValidatedKeys: set<Key> :=
    {Email, Username, Password, ConfirmPassword, FirstName, LastName,
     EnrollmentNumber, Program, Department}

  /** The form the add dialog starts from. */
  const InitialForm: Form := map[
    Email := Str(""), Username := Str(""), Password := Str(""), ConfirmPassword := Str(""),
    Role := Str("student"), FirstName := Str(""), LastName := Str(""), IsActive := Bool(true)]

  /** The error text of each validated field. */
  function Message(k: Key): string
  {
    match k
    case Email => "Email is required"
    case Username => "Username is required"
    case Password => "Password is required"
    case ConfirmPassword => "Passwords do not match"
    case FirstName => "First name is required"
    case LastName => "Last name is required"
    case EnrollmentNumber => "Enrollment number is required"
    case Program => "Program is required"
    case Department => "Department is required"
    case _ => ""
  }

  /** Whether field `k` fails its rule: the rule of each field, stated on its own. */
  predicate Fails(form: Form, mode: Mode, k: Key)
  {
    match k
    case Email => !Truthy(Get(form, k))
    case Username => !Truthy(Get(form, k))
    case Password => mode == Add && !Truthy(Get(form, k))
    case ConfirmPassword => mode == Add && Get(form, Password) != Get(form, ConfirmPassword)
    case FirstName => !Truthy(Get(form, k))
    case LastName => !Truthy(Get(form, k))
    case EnrollmentNumber => HasRole(form, "student") && !Truthy(Get(form, k))
    case Program => HasRole(form, "student") && !Truthy(Get(form, k))
    case Department => HasRole(form, "lecturer") && !Truthy(Get(form, k))
    case _ => false
  }

  /**
   * A form the dialog accepts: email, username and both names are given; in
   * add mode a password is given and confirmed; a student has an enrolment
   * number and a programme, a lecturer a department, and an administrator
   * needs no profile field.
   */
  predicate Acceptable(form: Form, mode: Mode)
  {
    Truthy(Get(form, Email)) && Truthy(Get(form, Username)) &&
    Truthy(Get(form, FirstName)) && Truthy(Get(form, LastName)) &&
    (mode == Add ==> Truthy(Get(form, Password)) && Get(form, Password) == Get(form, ConfirmPassword)) &&
    (HasRole(form, "student") ==> Truthy(Get(form, EnrollmentNumber)) && Truthy(Get(form, Program))) &&
    (HasRole(form, "lecturer") ==> Truthy(Get(form, Department)))
  }

  /** The fields of the basic rules, checked whatever the role. */
  const BasicKeys: set<Key> := {Email, Username, Password, ConfirmPassword, FirstName, LastName}

  /** The fields of the role-specific rules. */
  const RoleKeys: set<Key> := {EnrollmentNumber, Program, Department}

  /** The basic rules of `validateForm`, in its order. */
  method BasicFailures(form: Form, mode: Mode) returns (failed: set<Key>)
    ensures forall k :: k in failed <==> k in BasicKeys && Fails(form, mode, k)
  {
    failed := {};
    if !Truthy(Get(form, Email)) { failed := failed + {Email}; }
    if !Truthy(Get(form, Username)) { failed := failed + {Username}; }
    if mode == Add && !Truthy(Get(form, Password)) { failed := failed + {Password}; }
    if mode == Add && Get(form, Password) != Get(form, ConfirmPassword) {
      failed := failed + {ConfirmPassword};
    }
    if !Truthy(Get(form, FirstName)) { failed := failed + {FirstName}; }
    if !Truthy(Get(form, LastName)) { failed := failed + {LastName}; }
  }

  /** The role-specific rules of `validateForm`: students, then lecturers. */
  method RoleFailures(form: Form, mode: Mode) returns (failed: set<Key>)
    ensures forall k :: k in failed <==> k in RoleKeys && Fails(form, mode, k)
  {
    failed := {};
    if HasRole(form, "student") {
      if !Truthy(Get(form, EnrollmentNumber)) { failed := failed + {EnrollmentNumber}; }
      if !Truthy(Get(form, Program)) { failed := failed + {Program}; }
    }
    if HasRole(form, "lecturer") {
      if !Truthy(Get(form, Department)) { failed := failed + {Department}; }
    }
  }

  /** The fields `validateForm` reports: exactly those that fail their rule. */
  method FailingFields(form: Form, mode: Mode) returns (failed: set<Key>)
    ensures failed <= ValidatedKeys
    ensures forall k :: k in failed <==> Fails(form, mode, k)
  {
    var basic := BasicFailures(form, mode);
    var role := RoleFailures(form, mode);
    failed := basic + role;
  }

  /** The error record of the failing fields: each carries its own message. */
  function ErrorRecord(failed: set<Key>): (errors: map<Key, string>)
    ensures errors.Keys == failed
    ensures forall k :: k in errors ==> errors[k] == Message(k)
  {
    map k | k in failed :: Message(k)
  }

  /** The form validates (no field fails) exactly when it is acceptable. */
  lemma NoFailureIffAcceptable(form: Form, mode: Mode)
    ensures (forall k :: !Fails(form, mode, k)) <==> Acceptable(form, mode)
  {
    if forall k :: !Fails(form, mode, k) {
      assert !Fails(form, mode, Email) && !Fails(form, mode, Username);
      assert !Fails(form, mode, Password) && !Fails(form, mode, ConfirmPassword);
      assert !Fails(form, mode, FirstName) && !Fails(form, mode, LastName);
      assert !Fails(form, mode, EnrollmentNumber) && !Fails(form, mode, Program);
      assert !Fails(form, mode, Department);
    }
  }

  /** In edit mode neither the password nor its confirmation affects validation. */
  lemma EditIgnoresPassword(form: Form, pw: FormValue, confirm: FormValue, k: Key)
    ensures Fails(form[Password := pw][ConfirmPassword := confirm], Edit, k) <==> Fails(form, Edit, k)
  {
  }

  /** The form fields named by `keys` that are defined. */
  function Pick(form: Form, keys: set<Key>): (m: map<Key, FormValue>)
    ensures m.Keys == keys * form.Keys
    ensures forall k :: k in m ==> m[k] == form[k]
  {
    map k | k in keys && k in form :: form[k]
  }

  /** The defined form fields among `keys`, as top-level body fields. */
  function Fields(form: Form, keys: set<Key>): (p: Payload)
    ensures forall k :: FieldKey(k) in p <==> k in keys && k in form
    ensures forall k :: FieldKey(k) in p ==> p[FieldKey(k)] == Field(form[k])
    ensures StudentProfile !in p && LecturerProfile !in p
  {
    map k | k in keys && k in form :: FieldKey(k) := Field(form[k])
  }

  /** The top-level form fields of a request body: the defined base fields, and the password in add mode only. */
  ghost predicate FieldsFor(payload: Payload, form: Form, mode: Mode)
  {
    (forall k :: k in BaseKeys && k in form ==> FieldKey(k) in payload && payload[FieldKey(k)] == Field(form[k])) &&
    (FieldKey(Password) in payload <==> mode == Add && Password in form) &&
    (FieldKey(Password) in payload ==> payload[FieldKey(Password)] == Field(form[Password])) &&
    (forall k :: FieldKey(k) in payload ==> k in BaseKeys || k == Password)
  }

  /** The profiles of a request body: a student or else lecturer profile according to the role, each holding its three defined fields. */
  ghost predicate ProfilesFor(payload: Payload, form: Form)
  {
    (StudentProfile in payload <==> HasRole(form, "student")) &&
    (StudentProfile in payload ==>
      payload[StudentProfile] == Object(Pick(form, {EnrollmentNumber, Semester, Program}))) &&
    (LecturerProfile in payload <==> HasRole(form, "lecturer")) &&
    (LecturerProfile in payload ==>
      payload[LecturerProfile] == Object(Pick(form, {Department, Bio, Qualification})))
  }

  /**
   * What the request body of `handleSubmit` holds: its form fields and its
   * profiles as above. Undefined fields are left out, as JSON does.
   */
  ghost predicate IsPayloadFor(payload: Payload, form: Form, mode: Mode)
  {
    FieldsFor(payload, form, mode) && ProfilesFor(payload, form)
  }

  /** Adding a profile leaves the top-level form fields as they were. */
  lemma ProfileKeepsFields(payload: Payload, form: Form, mode: Mode, key: PayloadKey, v: PayloadValue)
    requires FieldsFor(payload, form, mode) && !key.FieldKey?
    ensures FieldsFor(payload[key := v], form, mode)
  {
  }

  /** `handleSubmit`'s request body, built step by step. */
  method BuildPayload(form: Form, mode: Mode) returns (payload: Payload)
    ensures IsPayloadFor(payload, form, mode)
  {
    payload := Fields(form, BaseKeys);
    if mode == Add && Password in form {
      payload := payload[FieldKey(Password) := Field(form[Password])];
    }
    assert FieldsFor(payload, form, mode);
    assert StudentProfile !in payload && LecturerProfile !in payload;
    if HasRole(form, "student") {
      ProfileKeepsFields(payload, form, mode, StudentProfile, Object(Pick(form, {EnrollmentNumber, Semester, Program})));
      payload := payload[StudentProfile := Object(Pick(form, {EnrollmentNumber, Semester, Program}))];
    } else if HasRole(form, "lecturer") {
      ProfileKeepsFields(payload, form, mode, LecturerProfile, Object(Pick(form, {Department, Bio, Qualification})));
      payload := payload[LecturerProfile := Object(Pick(form, {Department, Bio, Qualification}))];
    }
  }

  /** The account's own fields, with empty password and confirmation. */
  function BaseForm(u: AdminUser): (f: Form)
  {
    map[Email := Str(u.email), Username := Str(u.username), Password := Str(""),
        ConfirmPassword := Str(""), Role := Str(u.role), FirstName := Str(u.firstName),
        LastName := Str(u.lastName), IsActive := Bool(u.isActive)]
  }

  /** A text field of a profile as a form value; an absent one stays undefined. */
  function TextValue(o: Option<string>): (v: Option<FormValue>)
    ensures v.Some? <==> o.Some?
  {
    if o.Some? then Some(Str(o.value)) else None
  }

  /** `form[k] = v`, where assigning undefined leaves the field undefined. */
  function Assign(form: Form, k: Key, v: Option<FormValue>): (r: Form)
    ensures Get(r, k) == (if v.Some? then v else Get(form, k))
    ensures forall j :: j != k ==> Get(r, j) == Get(form, j)
  {
    if v.Some? then form[k := v.value] else form
  }

  /** The student profile is copied into the edit form: the account is a student and has one. */
  predicate ShowsStudentProfile(u: AdminUser)
  {
    u.role == "student" && u.studentProfile.Some?
  }

  /** The lecturer profile is copied into the edit form: the account is a lecturer and has one. */
  predicate ShowsLecturerProfile(u: AdminUser)
  {
    u.role == "lecturer" && u.lecturerProfile.Some?
  }

  /** The student profile's fields written over `form`; the others are kept. */
  function WithStudentProfile(form: Form, p: Profile): (r: Form)
    ensures Get(r, EnrollmentNumber) == (if p.enrollmentNumber.Some? then TextValue(p.enrollmentNumber) else Get(form, EnrollmentNumber))
    ensures Get(r, Program) == (if p.program.Some? then TextValue(p.program) else Get(form, Program))
    ensures p.semester.None? ==> Get(r, Semester) == Get(form, Semester)
    ensures forall k :: k != EnrollmentNumber && k != Semester && k != Program ==> Get(r, k) == Get(form, k)
  {
    var f1 := Assign(form, EnrollmentNumber, TextValue(p.enrollmentNumber));
    var f2 := Assign(f1, Semester, if p.semester.Some? then Some(Num(p.semester.value)) else None);
    Assign(f2, Program, TextValue(p.program))
  }

  /** The lecturer profile's fields written over `form`; the others are kept. */
  function WithLecturerProfile(form: Form, p: Profile): (r: Form)
    ensures Get(r, Department) == (if p.department.Some? then TextValue(p.department) else Get(form, Department))
    ensures p.bio.None? ==> Get(r, Bio) == Get(form, Bio)
    ensures p.qualification.None? ==> Get(r, Qualification) == Get(form, Qualification)
    ensures forall k :: k != Department && k != Bio && k != Qualification ==> Get(r, k) == Get(form, k)
  {
    var f1 := Assign(form, Department, TextValue(p.department));
    var f2 := Assign(f1, Bio, TextValue(p.bio));
    Assign(f2, Qualification, TextValue(p.qualification))
  }

  /**
   * The form the edit dialog opens with for `u`: its own fields, no password,
   * and the profile fields of its role only when it has that profile.
   */
  function EditForm(u: AdminUser): (f: Form)
  {
    if ShowsStudentProfile(u) then WithStudentProfile(BaseForm(u), u.studentProfile.value)
    else if ShowsLecturerProfile(u) then WithLecturerProfile(BaseForm(u), u.lecturerProfile.value)
    else BaseForm(u)
  }

  /** The edit form carries the account's own fields and an empty password and confirmation. */
  lemma EditFormKeepsAccount(u: AdminUser)
    ensures forall k :: k in BaseForm(u) ==> Get(EditForm(u), k) == Some(BaseForm(u)[k])
  {
    var base := BaseForm(u);
    forall k | k in base ensures Get(EditForm(u), k) == Some(base[k]) {
      assert k != EnrollmentNumber && k != Semester && k != Program;
      assert k != Department && k != Bio && k != Qualification;
    }
  }

  /** The student profile fields are filled only for a student with a profile. */
  lemma EditFormStudentProfile(u: AdminUser)
    ensures Get(EditForm(u), EnrollmentNumber) ==
      (if ShowsStudentProfile(u) then TextValue(u.studentProfile.value.enrollmentNumber) else None)
    ensures Get(EditForm(u), Program) ==
      (if ShowsStudentProfile(u) then TextValue(u.studentProfile.value.program) else None)
    ensures !ShowsStudentProfile(u) ==> Get(EditForm(u), Semester) == None
  {
    var base := BaseForm(u);
    assert Get(base, EnrollmentNumber) == None && Get(base, Program) == None && Get(base, Semester) == None;
  }

  /** The lecturer profile fields are filled only for a lecturer with a profile. */
  lemma EditFormLecturerProfile(u: AdminUser)
    ensures Get(EditForm(u), Department) ==
      (if ShowsLecturerProfile(u) then TextValue(u.lecturerProfile.value.department) else None)
    ensures !ShowsLecturerProfile(u) ==> Get(EditForm(u), Bio) == None && Get(EditForm(u), Qualification) == None
  {
    var base := BaseForm(u);
    assert Get(base, Department) == None && Get(base, Bio) == None && Get(base, Qualification) == None;
  }

  /** An edited account's form has no password, so in edit mode it validates without one. */
  lemma EditFormValidatesWithoutPassword(u: AdminUser)
    requires u.email != "" && u.username != "" && u.firstName != "" && u.lastName != ""
    requires u.role == "admin"
    ensures Acceptable(EditForm(u), Edit)
    ensures !Acceptable(EditForm(u), Add)
  {
  }

  /** The select handler's value: 'true' and 'false' become booleans, anything else stays text. */
  function SelectValue(value: string): (v: FormValue)
    ensures value == "true" ==> v == Bool(true)
    ensures value == "false" ==> v == Bool(false)
    ensures value != "true" && value != "false" ==> v == Str(value)
  {
    if value == "true" then Bool(true) else if value == "false" then Bool(false) else Str(value)
  }

  /** The error record after editing field `name`: a non-empty error of that field is blanked. */
  function ClearError(errors: map<Key, string>, name: Key): (r: map<Key, string>)
    ensures r.Keys == errors.Keys
    ensures forall k :: k in r && k != name ==> r[k] == errors[k]
    ensures name in r ==> r[name] == ""
  {
    if name in errors && errors[name] != "" then errors[name := ""] else errors
  }

  /** Administrators cannot be deleted from the table. */
  predicate DeleteEnabled(u: AdminUser)
  {
    u.role != "admin"
  }

  /** The role is chosen when an account is added and fixed while it is edited. */
  predicate RoleSelectEnabled(mode: Mode)
  {
    mode == Add
  }

  class AdminDashboardPage {
    const isAdmin: bool
    var users: seq<AdminUser>
    var loading: bool
    var error: Option<string>
    var dialogOpen: bool
    var dialogMode: Mode
    var selectedUser: Option<AdminUser>
    var formData: Form
    var formErrors: map<Key, string>
    var alertOpen: bool
    var alertMessage: string
    var alertSuccess: bool
    var deleteDialogOpen: bool
    var userToDelete: Option<AdminUser>

    constructor (isAdmin: bool)
      ensures this.isAdmin == isAdmin && users == [] && !loading && error == None
      ensures !dialogOpen && dialogMode == Add && selectedUser == None
      ensures formData == InitialForm && formErrors == map[]
      ensures !deleteDialogOpen && userToDelete == None
    {
      this.isAdmin := isAdmin;
      users, loading, error := [], false, None;
      dialogOpen, dialogMode, selectedUser := false, Add, None;
      formData, formErrors := InitialForm, map[];
      alertOpen, alertMessage, alertSuccess := false, "", true;
      deleteDialogOpen, userToDelete := false, None;
    }

    /** Non-administrators see only an access-denied notice, none of the table or its controls. */
    predicate ShowsTable()
    {
      isAdmin
    }

    /** `fetchUsers`, with the service's answer (None when it failed). */
    method LoadUsers(fetched: Option<seq<AdminUser>>)
      modifies this`users, this`error, this`loading
      ensures !loading
      ensures users == (if fetched.Some? then fetched.value else old(users))
      ensures error == (if fetched.Some? then None else Some("Failed to load users. Please try again later."))
    {
      loading := true;
      if fetched.Some? {
        users := fetched.value;
        error := None;
      } else {
        error := Some("Failed to load users. Please try again later.");
      }
      loading := false;
    }

    method OpenAddDialog()
      modifies this`dialogMode, this`selectedUser, this`formData, this`formErrors, this`dialogOpen
      ensures dialogMode == Add && selectedUser == None && formData == InitialForm
      ensures formErrors == map[] && dialogOpen
    {
      dialogMode := Add;
      selectedUser := None;
      formData := InitialForm;
      formErrors := map[];
      dialogOpen := true;
    }

    method OpenEditDialog(u: AdminUser)
      modifies this`dialogMode, this`selectedUser, this`formData, this`formErrors, this`dialogOpen
      ensures dialogMode == Edit && selectedUser == Some(u) && formData == EditForm(u)
      ensures formErrors == map[] && dialogOpen
    {
      dialogMode := Edit;
      selectedUser := Some(u);
      formData := EditForm(u);
      formErrors := map[];
      dialogOpen := true;
    }

    method CloseDialog()
      modifies this`dialogOpen
      ensures !dialogOpen
    {
      dialogOpen := false;
    }

    /** `handleInputChange`: the named field takes the value and only its own error is blanked. */
    method InputChange(name: Key, value: FormValue)
      modifies this`formData, this`formErrors
      ensures formData == old(formData)[name := value]
      ensures formErrors == ClearError(old(formErrors), name)
    {
      formData := formData[name := value];
      formErrors := ClearError(formErrors, name);
    }

    /** `handleSelectChange`: as an input change, with 'true'/'false' read as booleans. */
    method SelectChange(name: Key, value: string)
      modifies this`formData, this`formErrors
      ensures formData == old(formData)[name := SelectValue(value)]
      ensures formErrors == ClearError(old(formErrors), name)
    {
      InputChange(name, SelectValue(value));
    }

    /**
     * `handleSubmit`. An invalid form records its errors and sends nothing.
     * A valid one is sent as a creation in add mode, or as an update of the
     * selected account in edit mode (nothing is sent in edit mode without a
     * selection). `accepted` is the service's answer to a request that was
     * sent; when none was sent nothing can fail, so success is reported
     * with the message left as it was.
     */
    method Submit(accepted: bool) returns (sent: Option<SaveRequest>)
      modifies this`formErrors, this`alertMessage, this`alertSuccess, this`alertOpen, this`dialogOpen
      ensures forall k :: k in formErrors <==> Fails(old(formData), old(dialogMode), k)
      ensures forall k :: k in formErrors ==> formErrors[k] == Message(k)
      ensures !Acceptable(old(formData), old(dialogMode)) ==>
        sent == None && alertOpen == old(alertOpen) && alertMessage == old(alertMessage) &&
        alertSuccess == old(alertSuccess) && dialogOpen == old(dialogOpen)
      ensures sent.Some? ==> IsPayloadFor(sent.value.payload, old(formData), old(dialogMode))
      ensures Acceptable(old(formData), old(dialogMode)) && dialogMode == Add ==>
        sent.Some? && sent.value.CreateUser?
      ensures Acceptable(old(formData), old(dialogMode)) && dialogMode == Edit ==>
        (sent.Some? <==> selectedUser.Some?) &&
        (sent.Some? ==> sent.value.UpdateUser? && sent.value.id == selectedUser.value.id)
      ensures Acceptable(old(formData), old(dialogMode)) ==> IsSaveReport(old(alertMessage), old(dialogOpen), sent, accepted)
    {
      var failed := FailingFields(formData, dialogMode);
      formErrors := ErrorRecord(failed);
      NoFailureIffAcceptable(formData, dialogMode);
      if failed != {} {
        assert exists k :: k in failed;
        return None;
      }
      var payload := BuildPayload(formData, dialogMode);
      sent := None;
      if dialogMode == Add {
        sent := Some(CreateUser(payload));
      } else if selectedUser.Some? {
        sent := Some(UpdateUser(selectedUser.value.id, payload));
      }
      ReportSave(sent, accepted);
    }

    /**
     * How a save ends: the alert opens; it reports success, with the text of
     * the request sent, unless a sent request was refused, and the dialog
     * closes exactly on success.
     */
    ghost predicate IsSaveReport(oldMessage: string, oldDialogOpen: bool, sent: Option<SaveRequest>, accepted: bool)
      reads this
    {
      var success := accepted || sent.None?;
      alertOpen && alertSuccess == success && dialogOpen == (!success && oldDialogOpen) &&
      alertMessage == (if !success then "Failed to save user. Please try again."
                       else if sent.None? then oldMessage
                       else if sent.value.CreateUser? then "User created successfully!"
                       else "User updated successfully!")
    }

    /** The tail of `handleSubmit` once the request is settled. */
    method ReportSave(sent: Option<SaveRequest>, accepted: bool)
      modifies this`alertMessage, this`alertSuccess, this`alertOpen, this`dialogOpen
      ensures IsSaveReport(old(alertMessage), old(dialogOpen), sent, accepted)
    {
      if accepted || sent.None? {
        if sent.Some? {
          alertMessage := if sent.value.CreateUser? then "User created successfully!" else "User updated successfully!";
        }
        alertSuccess := true;
        alertOpen := true;
        dialogOpen := false;
      } else {
        alertMessage := "Failed to save user. Please try again.";
        alertSuccess := false;
        alertOpen := true;
      }
    }

    /** `handleAlertClose`. */
    method AlertClose()
      modifies this`alertOpen
      ensures !alertOpen
    {
      alertOpen := false;
    }

    /** The delete button of a row; it is disabled for administrators. */
    method OpenDeleteDialog(u: AdminUser)
      requires DeleteEnabled(u)
      modifies this`userToDelete, this`deleteDialogOpen
      ensures userToDelete == Some(u) && deleteDialogOpen
    {
      userToDelete := Some(u);
      deleteDialogOpen := true;
    }

    method CloseDeleteDialog()
      modifies this`userToDelete, this`deleteDialogOpen
      ensures userToDelete == None && !deleteDialogOpen
    {
      deleteDialogOpen := false;
      userToDelete := None;
    }

    /**
     * `handleDeleteUser`: nothing without a pending deletion; otherwise the
     * account's id is sent and the outcome reported, the dialog closing on success.
     */
    method DeleteUser(accepted: bool) returns (sent: Option<int>)
      modifies this`userToDelete, this`deleteDialogOpen, this`alertMessage, this`alertSuccess, this`alertOpen
      ensures old(userToDelete).None? ==>
        sent == None && alertOpen == old(alertOpen) &&
        alertMessage == old(alertMessage) && alertSuccess == old(alertSuccess) &&
        userToDelete == old(userToDelete) && deleteDialogOpen == old(deleteDialogOpen)
      ensures old(userToDelete).Some? ==>
        sent == Some(old(userToDelete).value.id) && alertOpen && alertSuccess == accepted
      ensures old(userToDelete).Some? && accepted ==>
        alertMessage == "User deleted successfully!" && userToDelete == None && !deleteDialogOpen
      ensures old(userToDelete).Some? && !accepted ==>
        alertMessage == "Failed to delete user. Please try again." &&
        userToDelete == old(userToDelete) && deleteDialogOpen == old(deleteDialogOpen)
    {
      if userToDelete.None? {
        return None;
      }
      sent := Some(userToDelete.value.id);
      if accepted {
        alertMessage := "User deleted successfully!";
        alertSuccess := true;
        alertOpen := true;
        CloseDeleteDialog();
      } else {
        alertMessage := "Failed to delete user. Please try again.";
        alertSuccess := false;
        alertOpen := true;
      }
    }
  }
}
