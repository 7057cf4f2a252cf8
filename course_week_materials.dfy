/**
 * The materials of one course week: a list of links fetched for the week,
 * and, for lecturers, an add/edit dialog and a delete action that send
 * requests to the back end and report the outcome in a snackbar.
 */
module CourseWeekMaterials {
  import opened Common

  datatype Material = Material(id: int, title: string, description: string, materialType: string, content: string)

  datatype CourseWeek = CourseWeek(id: int, title: string, description: string, weekNumber: int)

  /** The dialog's four fields. */
  datatype MaterialForm = MaterialForm(title: string, description: string, materialType: string, content: string)

  /** The field an input event names. */
  datatype FormField = Title | Description | MaterialType | Content

  datatype DialogMode = Add | Edit

  /** What a submit sends: a new material for the week, or the form to an existing material's id. */
  datatype MaterialRequest =
    | CreateMaterial(form: MaterialForm, weekId: int)
    | UpdateMaterial(materialId: Option<int>, form: MaterialForm)

  /** The lecturer-only controls. */
  datatype Control = AddButton | EditButton | DeleteButton

  /** `resetForm`: empty text fields and the 'link' type. */
  const BlankForm: MaterialForm := MaterialForm("", "", "link", "")

  const LoadFailed: string := "Failed to load course materials. Please try again later."
  const SaveFailed: string := "Failed to save course material. Please try again."
  const Deleted: string := "Course material deleted successfully!"
  const DeleteFailed: string := "Failed to delete course material. Please try again."

  /** The form an edit dialog opens with: the material's four fields. */
  function EditForm(m: Material): (f: MaterialForm)
    ensures f.title == m.title && f.description == m.description
    ensures f.materialType == m.materialType && f.content == m.content
  {
    MaterialForm(m.title, m.description, m.materialType, m.content)
  }

  /** `{...formData, [name]: value}`: only the named field changes. */
  function SetField(f: MaterialForm, field: FormField, value: string): (g: MaterialForm)
    ensures field == Title ==> g == f.(title := value)
    ensures field == Description ==> g == f.(description := value)
    ensures field == MaterialType ==> g == f.(materialType := value)
    ensures field == Content ==> g == f.(content := value)
  {
    match field
    case Title => f.(title := value)
    case Description => f.(description := value)
    case MaterialType => f.(materialType := value)
    case Content => f.(content := value)
  }

  /** `type.charAt(0).toUpperCase() + type.slice(1)`: the first character upper-cased, the rest kept. */
  function Capitalize(s: string): (r: string)
    ensures |r| == |s|
    ensures s != [] ==> r[0] == UpperChar(s[0]) && r[1..] == s[1..]
  {
    if s == [] then [] else [UpperChar(s[0])] + s[1..]
  }

  /** `getMaterialTypeLabel`: the two known types get their names, any other is capitalised. */
  function TypeLabel(materialType: string): (text: string)
    ensures materialType == "link" ==> text == "Web Link"
    ensures materialType in {"drive_url", "gdrive"} ==> text == "Google Drive"
    ensures materialType !in {"link", "drive_url", "gdrive"} ==> text == Capitalize(materialType)
  {
    if materialType == "link" then "Web Link"
    else if materialType == "drive_url" || materialType == "gdrive" then "Google Drive"
    else Capitalize(materialType)
  }

  /** The content field is labelled 'URL' iff the type is 'link', and 'Google Drive Link' otherwise. */
  function ContentLabel(materialType: string): (text: string)
    ensures text == "URL" <==> materialType == "link"
    ensures text != "URL" ==> text == "Google Drive Link"
  {
    if materialType == "link" then "URL" else "Google Drive Link"
  }

  /** The controls on screen: add, edit and delete appear exactly for lecturers. */
  function Controls(isLecturer: bool): (cs: set<Control>)
    ensures isLecturer ==> cs == {AddButton, EditButton, DeleteButton}
    ensures !isLecturer ==> cs == {}
  {
    if isLecturer then {AddButton, EditButton, DeleteButton} else {}
  }

  /** The request a submit sends in a mode: create for the week, or update the material being edited. */
  function SubmitRequest(mode: DialogMode, form: MaterialForm, weekId: int, current: Option<Material>)
    : (r: MaterialRequest)
    ensures r.CreateMaterial? <==> mode == Add
    ensures r.CreateMaterial? ==> r.form == form && r.weekId == weekId
    ensures r.UpdateMaterial? ==> r.form == form && r.materialId == (if current.Some? then Some(current.value.id) else None)
  {
    if mode == Add then CreateMaterial(form, weekId)
    else UpdateMaterial(if current.Some? then Some(current.value.id) else None, form)
  }

  /** The snackbar after a successful save, per mode. */
  function SavedMessage(mode: DialogMode): (text: string)
    ensures mode == Add ==> text == "Course material added successfully!"
    ensures mode == Edit ==> text == "Course material updated successfully!"
  {
    if mode == Add then "Course material added successfully!" else "Course material updated successfully!"
  }

  class CourseWeekMaterialsPage {
    const weekId: int
    const isLecturer: bool
    var materials: seq<Material>
    var courseWeek: Option<CourseWeek>
    var loading: bool
    var error: Option<string>
    var openDialog: bool
    var dialogMode: DialogMode
    var currentMaterial: Option<Material>
    var formData: MaterialForm
    var alertOpen: bool
    var alertMessage: string
    var alertSuccess: bool

    constructor (weekId: int, isLecturer: bool)
      ensures this.weekId == weekId && this.isLecturer == isLecturer
      ensures materials == [] && courseWeek == None && loading && error == None
      ensures !openDialog && dialogMode == Add && currentMaterial == None && formData == BlankForm
      ensures !alertOpen && alertMessage == "" && alertSuccess
    {
      this.weekId := weekId;
      this.isLecturer := isLecturer;
      materials := [];
      courseWeek := None;
      loading := true;
      error := None;
      openDialog := false;
      dialogMode := Add;
      currentMaterial := None;
      formData := BlankForm;
      alertOpen := false;
      alertMessage := "";
      alertSuccess := true;
    }

    /**
     * `fetchMaterials`, given the answers of its two calls (None for a
     * failed call; the materials are asked for only once the week has
     * arrived). Loading ends either way.
     */
    method FetchMaterials(week: Option<CourseWeek>, fetched: Option<seq<Material>>)
      modifies this`loading, this`courseWeek, this`materials, this`error
      ensures !loading
      ensures courseWeek == (if week.Some? then week else old(courseWeek))
      ensures week.Some? && fetched.Some? ==> materials == fetched.value && error == None
      ensures week.None? || fetched.None? ==> materials == old(materials) && error == Some(LoadFailed)
    {
      loading := true;
      if week.None? {
        error := Some(LoadFailed);
      } else {
        courseWeek := week;
        if fetched.None? {
          error := Some(LoadFailed);
        } else {
          materials := fetched.value;
          error := None;
        }
      }
      loading := false;
    }

    /** The mount effect: the fetch runs only for a truthy week id, otherwise the spinner stays. */
    method Mount(week: Option<CourseWeek>, fetched: Option<seq<Material>>)
      modifies this`loading, this`courseWeek, this`materials, this`error
      ensures weekId == 0 ==> loading == old(loading) && materials == old(materials) && error == old(error)
      ensures weekId != 0 ==> !loading
    {
      if weekId != 0 {
        FetchMaterials(week, fetched);
      }
    }

    /** `handleOpenAddDialog`: add mode with a blank form. */
    method OpenAddDialog()
      modifies this`dialogMode, this`formData, this`openDialog
      ensures dialogMode == Add && formData == BlankForm && openDialog
    {
      dialogMode := Add;
      formData := BlankForm;
      openDialog := true;
    }

    /** `handleOpenEditDialog`: edit mode on the material, with its four fields in the form. */
    method OpenEditDialog(m: Material)
      modifies this`dialogMode, this`currentMaterial, this`formData, this`openDialog
      ensures dialogMode == Edit && currentMaterial == Some(m) && formData == EditForm(m) && openDialog
    {
      dialogMode := Edit;
      currentMaterial := Some(m);
      formData := EditForm(m);
      openDialog := true;
    }

    /** `handleCloseDialog`: the dialog closes and the form is reset. */
    method CloseDialog()
      modifies this`openDialog, this`formData
      ensures !openDialog && formData == BlankForm
    {
      openDialog := false;
      formData := BlankForm;
    }

    /** The text inputs and the type select. */
    method ChangeField(field: FormField, value: string)
      modifies this`formData
      ensures formData == SetField(old(formData), field, value)
    {
      formData := SetField(formData, field, value);
    }

    /**
     * `handleSubmit`: sends the request for the mode; `accepted` is the
     * back end's answer. On success the dialog closes with a reset form;
     * on failure it stays as it was. A snackbar reports the outcome.
     */
    method Submit(accepted: bool) returns (sent: MaterialRequest)
      modifies this`openDialog, this`formData, this`alertOpen, this`alertMessage, this`alertSuccess
      ensures sent == SubmitRequest(dialogMode, old(formData), weekId, currentMaterial)
      ensures accepted ==> !openDialog && formData == BlankForm && alertMessage == SavedMessage(dialogMode)
      ensures !accepted ==> openDialog == old(openDialog) && formData == old(formData) && alertMessage == SaveFailed
      ensures alertOpen && alertSuccess == accepted
    {
      sent := SubmitRequest(dialogMode, formData, weekId, currentMaterial);
      if accepted {
        alertMessage := SavedMessage(dialogMode);
        alertSuccess := true;
        CloseDialog();
      } else {
        alertMessage := SaveFailed;
        alertSuccess := false;
      }
      alertOpen := true;
    }

    /** `handleDeleteMaterial`: nothing unless confirmed; then the id is sent and the outcome reported. */
    method DeleteMaterial(materialId: int, confirmed: bool, accepted: bool) returns (sent: Option<int>)
      modifies this`alertOpen, this`alertMessage, this`alertSuccess
      ensures sent.Some? <==> confirmed
      ensures sent.Some? ==> sent.value == materialId
      ensures !confirmed ==> alertOpen == old(alertOpen) && alertMessage == old(alertMessage) && alertSuccess == old(alertSuccess)
      ensures confirmed ==> alertOpen && alertSuccess == accepted && alertMessage == (if accepted then Deleted else DeleteFailed)
    {
      sent := None;
      if confirmed {
        sent := Some(materialId);
        if accepted {
          alertMessage := Deleted;
          alertSuccess := true;
        } else {
          alertMessage := DeleteFailed;
          alertSuccess := false;
        }
        alertOpen := true;
      }
    }

    method AlertClose()
      modifies this`alertOpen
      ensures !alertOpen
    {
      alertOpen := false;
    }
  }
}
