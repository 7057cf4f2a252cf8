/**
 * The lecturer's study-materials browser: the same folder navigation as the
 * student's, plus a folder dialog with a name, description and access form,
 * and an actions menu on every entry.
 */
module TeacherMaterials {
  import opened Common
  import opened MaterialTree

  /** An item of a list of materials, with its size and its access level. */
  datatype TeacherItem = TeacherItem(id: int, name: string, kind: string, size: string, access: string)

  function ItemName(m: TeacherItem): string
  {
    m.name
  }

  /** The folder dialog's fields. */
  datatype FolderForm = FolderForm(name: string, description: string, access: string)

  /** The form the dialog starts and is reset to: empty name and description, public access. */
  const BlankForm: FolderForm := FolderForm("", "", "public")

  /** The access chip of a list: green for 'public', amber for anything else. */
  function AccessColor(access: string): (c: ChipColor)
    ensures c == Success <==> access == "public"
    ensures c != Success ==> c == Warning
  {
    if access == "public" then Success else Warning
  }

  /** The dialog's title: details of a selected material, otherwise a new folder. */
  function DialogTitle(selected: Option<Selection<TeacherItem>>): (title: string)
    ensures selected.Some? <==> title == "Material Details"
    ensures selected.None? <==> title == "Create New Folder"
  {
    if selected.Some? then "Material Details" else "Create New Folder"
  }

  /**
   * What the actions menu is opened on: `{ name, ...(Array.isArray(content) ? content[0] : {}) }`,
   * so a folder gives just its name.
   */
  function MenuSelection(e: Entry<TeacherItem>): (s: Selection<TeacherItem>)
    ensures e.node.Folder? ==> s == Selection(e.name, None)
    ensures e.node.Items? ==> s == Spread(e.name, e.node.items, ItemName)
  {
    match e.node
    case Folder(_) => Selection(e.name, None)
    case Items(items) => Spread(e.name, items, ItemName)
  }

  class TeacherMaterialsPage {
    const root: Node<TeacherItem>
    var currentPath: seq<string>
    var openDialog: bool
    /** Whether the actions menu has an anchor element, that is, is open. */
    var menuOpen: bool
    var selectedMaterial: Option<Selection<TeacherItem>>
    var formData: FolderForm

    /** The materials object is well-formed and the path leads to one of its folders. */
    ghost predicate Valid()
      reads this
    {
      WellFormed(root) && IsFolderPath(root, currentPath)
    }

    constructor (root: Node<TeacherItem>)
      requires WellFormed(root) && root.Folder?
      ensures Valid()
      ensures this.root == root && currentPath == [] && !openDialog && !menuOpen
      ensures selectedMaterial == None && formData == BlankForm
    {
      this.root := root;
      currentPath := [];
      openDialog := false;
      menuOpen := false;
      selectedMaterial := None;
      formData := BlankForm;
    }

    /** The entries on screen: every entry of the current folder, in key order. */
    function Shown(): seq<Entry<TeacherItem>>
      reads this
    {
      EntriesAt(root, currentPath)
    }

    /** `getCurrentContent` run on the page's own path. */
    method Content() returns (content: Option<Node<TeacherItem>>)
      requires Valid()
      ensures content.Some? && content.value == Folder(Shown())
    {
      content := CurrentContent(root, currentPath);
    }

    /** The New Folder button. */
    method OpenDialog()
      modifies this`openDialog
      ensures openDialog
    {
      openDialog := true;
    }

    /** `handleCloseDialog`: the dialog closes and the form goes back to blank, public access. */
    method CloseDialog()
      modifies this`openDialog, this`formData
      ensures !openDialog && formData == BlankForm
    {
      openDialog := false;
      formData := BlankForm;
    }

    method ChangeForm(form: FolderForm)
      modifies this`formData
      ensures formData == form
    {
      formData := form;
    }

    /** `handleMenuClick` on an entry of the folder on screen. */
    method MenuClick(e: Entry<TeacherItem>)
      modifies this`menuOpen, this`selectedMaterial
      ensures menuOpen && selectedMaterial == Some(MenuSelection(e))
    {
      menuOpen := true;
      selectedMaterial := Some(MenuSelection(e));
    }

    /** `handleMenuClose`, which every menu item also calls: no anchor and no selection. */
    method MenuClose()
      modifies this`menuOpen, this`selectedMaterial
      ensures !menuOpen && selectedMaterial == None
      ensures DialogTitle(selectedMaterial) == "Create New Folder"
    {
      menuOpen := false;
      selectedMaterial := None;
    }

    /** `handleFolderClick`: the name is appended to the path. */
    method FolderClick(folder: string)
      modifies this`currentPath
      ensures currentPath == old(currentPath) + [folder]
    {
      currentPath := currentPath + [folder];
    }

    /**
     * Clicking an entry: a list opens the dialog on its first item; a folder
     * is descended into, and the path then leads to that very folder.
     */
    method ClickEntry(e: Entry<TeacherItem>)
      requires Valid() && e in Shown()
      modifies this`currentPath, this`selectedMaterial, this`openDialog
      ensures Valid()
      ensures e.node.Folder? ==>
        currentPath == old(currentPath) + [e.name] && Resolve(root, currentPath) == Some(e.node) &&
        selectedMaterial == old(selectedMaterial) && openDialog == old(openDialog)
      ensures e.node.Items? ==>
        currentPath == old(currentPath) && openDialog &&
        selectedMaterial == Some(Spread(e.name, e.node.items, ItemName)) &&
        DialogTitle(selectedMaterial) == "Material Details"
    {
      match EntryClick(e, ItemName)
      case Open(m) =>
        selectedMaterial := Some(m);
        openDialog := true;
      case Descend(folder) =>
        DescendIntoEntry(root, currentPath, e);
        FolderClick(folder);
    }

    /** `handleBreadcrumbClick`: the path is cut back to its first `index + 1` names. */
    method BreadcrumbClick(index: nat)
      requires Valid()
      modifies this`currentPath
      ensures Valid()
      ensures currentPath == Breadcrumb(old(currentPath), index)
    {
      BreadcrumbIsFolderPath(root, currentPath, index);
      currentPath := Breadcrumb(currentPath, index);
    }

    /** The Home link: back to the root folder. */
    method Home()
      requires Valid()
      modifies this`currentPath
      ensures Valid()
      ensures currentPath == [] && Shown() == root.entries
    {
      currentPath := [];
    }
  }
}
