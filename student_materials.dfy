/**
 * The student's study-materials browser: a searchable list of the entries
 * of the current folder, breadcrumbs back up the path, and a details
 * dialog for the first item of a list.
 */
module StudentMaterials {
  import opened Common
  import opened MaterialTree

  /** An item of a list of materials, with whether the student has completed it. */
  datatype StudentItem = StudentItem(id: int, name: string, kind: string, completed: bool)

  function ItemName(m: StudentItem): string
  {
    m.name
  }

  /** The completion chip of a list: its first item's state decides label and colour. */
  function CompletionChip(m: StudentItem): (chip: (string, ChipColor))
    ensures m.completed <==> chip == ("Completed", Success)
    ensures !m.completed <==> chip == ("Not Completed", Default)
  {
    if m.completed then ("Completed", Success) else ("Not Completed", Default)
  }

  class StudentMaterialsPage {
    const root: Node<StudentItem>
    var searchQuery: string
    var currentPath: seq<string>
    var selectedMaterial: Option<Selection<StudentItem>>
    var openDialog: bool

    /** The materials object is well-formed and the path leads to one of its folders. */
    ghost predicate Valid()
      reads this
    {
      WellFormed(root) && IsFolderPath(root, currentPath)
    }

    constructor (root: Node<StudentItem>)
      requires WellFormed(root) && root.Folder?
      ensures Valid()
      ensures this.root == root && searchQuery == "" && currentPath == []
      ensures selectedMaterial == None && !openDialog
      ensures Shown() == root.entries
    {
      this.root := root;
      searchQuery := "";
      currentPath := [];
      selectedMaterial := None;
      openDialog := false;
      new;
      EmptySearchShowsAll(root.entries);
    }

    /** The list on screen: the entries of the current folder that match the search. */
    function Shown(): seq<Entry<StudentItem>>
      reads this
    {
      FilteredContent(EntriesAt(root, currentPath), searchQuery)
    }

    /** `getCurrentContent` run on the page's own path. */
    method Content() returns (content: Option<Node<StudentItem>>)
      requires Valid()
      ensures content.Some? && content.value == Folder(EntriesAt(root, currentPath))
    {
      content := CurrentContent(root, currentPath);
    }

    method ChangeSearch(query: string)
      modifies this`searchQuery
      ensures searchQuery == query
    {
      searchQuery := query;
    }

    /** `handleFolderClick`: the name is appended to the path. */
    method FolderClick(folder: string)
      modifies this`currentPath
      ensures currentPath == old(currentPath) + [folder]
    {
      currentPath := currentPath + [folder];
    }

    /** `handleFileClick`: the dialog opens on the material. */
    method FileClick(m: Selection<StudentItem>)
      modifies this`selectedMaterial, this`openDialog
      ensures selectedMaterial == Some(m) && openDialog
    {
      selectedMaterial := Some(m);
      openDialog := true;
    }

    /**
     * Clicking a listed entry: a list opens its first item; a folder is
     * descended into, and the path then leads to that very folder.
     */
    method ClickEntry(e: Entry<StudentItem>)
      requires Valid() && e in Shown()
      modifies this`currentPath, this`selectedMaterial, this`openDialog
      ensures Valid()
      ensures e.node.Folder? ==>
        currentPath == old(currentPath) + [e.name] && Resolve(root, currentPath) == Some(e.node) &&
        selectedMaterial == old(selectedMaterial) && openDialog == old(openDialog)
      ensures e.node.Items? ==>
        currentPath == old(currentPath) && openDialog &&
        selectedMaterial == Some(Spread(e.name, e.node.items, ItemName))
    {
      match EntryClick(e, ItemName)
      case Open(m) =>
        FileClick(m);
      case Descend(folder) =>
        DescendIntoEntry(root, currentPath, e);
        FolderClick(folder);
    }

    /** `handleBreadcrumbClick`: the path is cut back to its first `index + 1` names. */
    method BreadcrumbClick(index: nat)
      requires Valid()
      modifies this`currentPath
      ensures Valid()
      ensures currentPath == Breadcrumb(old(currentPath), index)
    {
      BreadcrumbIsFolderPath(root, currentPath, index);
      currentPath := Breadcrumb(currentPath, index);
    }

    /** The Home breadcrumb: back to the root folder. */
    method Home()
      requires Valid()
      modifies this`currentPath
      ensures Valid()
      ensures currentPath == [] && EntriesAt(root, currentPath) == root.entries
    {
      currentPath := [];
    }

    /** Closing the details dialog; the selection stays. */
    method CloseDialog()
      modifies this`openDialog
      ensures !openDialog
    {
      openDialog := false;
    }
  }
}
