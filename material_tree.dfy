/**
 * The nested materials object both study-material pages browse: folders map
 * names to sub-folders or to lists of items. A page keeps the path of names
 * it has descended along; the folder shown is found by walking that path
 * from the root, and breadcrumbs cut the path back.
 */
module MaterialTree {
  import opened Common

  /** A value of the materials object: a folder of named entries, or a list of items. */
  datatype Node<T> = Folder(entries: seq<Entry<T>>) | Items(items: seq<T>)

  /** One key of a folder and the value stored under it, in the object's key order. */
  datatype Entry<T> = Entry(name: string, node: Node<T>)

  /** No folder, at any depth, holds two entries with the same name, as in any object. */
  ghost predicate WellFormed<T>(n: Node<T>)
    decreases n
  {
    match n
    case Items(_) => true
    case Folder(es) =>
      (forall i, j :: 0 <= i < j < |es| ==> es[i].name != es[j].name) &&
      forall i :: 0 <= i < |es| ==> WellFormed(es[i].node)
  }

  /** `folder[name]`: the value stored under the first entry with that name, if any. */
  function Lookup<T(==)>(es: seq<Entry<T>>, name: string): (r: Option<Node<T>>)
    ensures r.None? <==> forall i :: 0 <= i < |es| ==> es[i].name != name
    ensures r.Some? ==>
      exists i :: 0 <= i < |es| && es[i].name == name && es[i].node == r.value &&
                  forall j :: 0 <= j < i ==> es[j].name != name
  {
    if es == [] then None
    else if es[0].name == name then Some(es[0].node)
    else
      var r := Lookup(es[1..], name);
      assert forall i :: 1 <= i < |es| ==> es[1..][i - 1] == es[i];
      if r.Some? then
        ghost var k :| 0 <= k < |es[1..]| && es[1..][k].name == name && es[1..][k].node == r.value &&
                       forall j :: 0 <= j < k ==> es[1..][j].name != name;
        assert forall j :: 0 <= j < k + 1 ==> es[j].name != name by {
          forall j | 0 <= j < k + 1 ensures es[j].name != name {
            if j > 0 {
              assert es[j] == es[1..][j - 1];
            }
          }
        }
        r
      else r
  }

  /** In a folder with distinct names, looking up an entry's name finds that entry's value. */
  lemma LookupEntry<T>(es: seq<Entry<T>>, i: int)
    requires WellFormed(Folder(es)) && 0 <= i < |es|
    ensures Lookup(es, es[i].name) == Some(es[i].node)
    ensures WellFormed(es[i].node)
  {
    var r := Lookup(es, es[i].name);
    var k :| 0 <= k < |es| && es[k].name == es[i].name && es[k].node == r.value &&
             forall j :: 0 <= j < k ==> es[j].name != es[i].name;
    assert k == i;
  }

  /**
   * `getCurrentContent` as a function: the value reached by looking up the
   * names of `path` one after another, starting at `n`; None once a name is
   * missing or a list of items is reached before the path ends.
   */
  function Resolve<T(==)>(n: Node<T>, path: seq<string>): (r: Option<Node<T>>)
    ensures path == [] ==> r == Some(n)
    ensures path != [] && r.Some? ==> n.Folder?
    decreases |path|
  {
    if path == [] then Some(n)
    else
      match n
      case Items(_) => None
      case Folder(es) =>
        match Lookup(es, path[0])
        case None => None
        case Some(child) => Resolve(child, path[1..])
  }

  /** `getCurrentContent`: a loop reassigning `content` once per name of the path. */
  method CurrentContent<T(==)>(root: Node<T>, path: seq<string>) returns (content: Option<Node<T>>)
    ensures content == Resolve(root, path)
  {
    content := Some(root);
    var i := 0;
    while i < |path|
      invariant 0 <= i <= |path|
      invariant content.None? ==> Resolve(root, path) == None
      invariant content.Some? ==> Resolve(root, path) == Resolve(content.value, path[i..])
    {
      assert path[i..][0] == path[i] && path[i..][1..] == path[i + 1..];
      if content.Some? && content.value.Folder? {
        content := Lookup(content.value.entries, path[i]);
      } else {
        content := None;
      }
      i := i + 1;
    }
  }

  /** The path leads to a folder: the state every reachable page is in. */
  predicate IsFolderPath<T(==)>(root: Node<T>, path: seq<string>)
  {
    Resolve(root, path).Some? && Resolve(root, path).value.Folder?
  }

  /** The entries of the folder a path leads to; none when it leads nowhere. */
  function EntriesAt<T(==)>(root: Node<T>, path: seq<string>): (es: seq<Entry<T>>)
    ensures IsFolderPath(root, path) ==> Folder(es) == Resolve(root, path).value
  {
    if IsFolderPath(root, path) then Resolve(root, path).value.entries else []
  }

  /** Descending by a name of the folder at `p` leads to the value stored under that name. */
  lemma {:induction false} ResolveAppend<T>(n: Node<T>, p: seq<string>, name: string)
    requires IsFolderPath(n, p)
    requires Lookup(EntriesAt(n, p), name).Some?
    ensures Resolve(n, p + [name]) == Lookup(EntriesAt(n, p), name)
    decreases |p|
  {
    if p == [] {
      assert (p + [name])[1..] == [];
    } else {
      var child := Lookup(n.entries, p[0]).value;
      assert (p + [name])[0] == p[0] && (p + [name])[1..] == p[1..] + [name];
      assert Resolve(n, p) == Resolve(child, p[1..]);
      ResolveAppend(child, p[1..], name);
    }
  }

  /** Every proper prefix of a path that leads somewhere leads to a folder. */
  lemma {:induction false} PrefixIsFolderPath<T>(n: Node<T>, p: seq<string>, k: int)
    requires Resolve(n, p).Some? && 0 <= k < |p|
    ensures IsFolderPath(n, p[..k])
    decreases |p|
  {
    if k > 0 {
      var child := Lookup(n.entries, p[0]).value;
      assert p[..k][0] == p[0] && p[..k][1..] == p[1..][..k - 1];
      PrefixIsFolderPath(child, p[1..], k - 1);
    }
  }

  /** Whatever a path leads to inside a well-formed tree is itself well-formed. */
  lemma {:induction false} ResolveWellFormed<T>(n: Node<T>, p: seq<string>)
    requires WellFormed(n) && Resolve(n, p).Some?
    ensures WellFormed(Resolve(n, p).value)
    decreases |p|
  {
    if p != [] {
      var es := n.entries;
      var r := Lookup(es, p[0]);
      var i :| 0 <= i < |es| && es[i].name == p[0] && es[i].node == r.value &&
               forall j :: 0 <= j < i ==> es[j].name != p[0];
      LookupEntry(es, i);
      ResolveWellFormed(es[i].node, p[1..]);
    }
  }

  /**
   * Clicking a folder entry of the folder on screen keeps the page on a
   * folder, and the path then leads to exactly that entry's folder.
   */
  lemma DescendIntoEntry<T>(root: Node<T>, p: seq<string>, e: Entry<T>)
    requires WellFormed(root) && IsFolderPath(root, p)
    requires e in EntriesAt(root, p) && e.node.Folder?
    ensures Resolve(root, p + [e.name]) == Some(e.node)
    ensures IsFolderPath(root, p + [e.name])
  {
    var es := EntriesAt(root, p);
    var i :| 0 <= i < |es| && es[i] == e;
    ResolveWellFormed(root, p);
    LookupEntry(es, i);
    ResolveAppend(root, p, e.name);
  }

  /** `currentPath.slice(0, index + 1)`: the breadcrumb keeps the first `index + 1` names. */
  function Breadcrumb(path: seq<string>, index: nat): (r: seq<string>)
    ensures |r| == if index + 1 <= |path| then index + 1 else |path|
    ensures r == path[..|r|]
  {
    if index + 1 <= |path| then path[..index + 1] else path
  }

  /** A breadcrumb or Home from a folder path lands on a folder path again. */
  lemma BreadcrumbIsFolderPath<T>(root: Node<T>, p: seq<string>, index: nat)
    requires IsFolderPath(root, p) && root.Folder?
    ensures IsFolderPath(root, Breadcrumb(p, index))
    ensures IsFolderPath(root, [])
  {
    if index + 1 < |p| {
      PrefixIsFolderPath(root, p, index + 1);
    } else {
      assert p[..|p|] == p;
    }
  }

  /** `filteredContent`: the entries whose lower-cased name contains the lower-cased query, in order. */
  function FilteredContent<T(==)>(es: seq<Entry<T>>, query: string): (r: seq<Entry<T>>)
    ensures |r| <= |es|
    ensures forall i :: 0 <= i < |r| ==> r[i] in es && Contains(Lower(r[i].name), Lower(query))
    ensures forall i :: 0 <= i < |es| && Contains(Lower(es[i].name), Lower(query)) ==> es[i] in r
  {
    Filter(es, (e: Entry<T>) => Contains(Lower(e.name), Lower(query)))
  }

  /** An empty search shows every entry of the folder, in order. */
  lemma EmptySearchShowsAll<T>(es: seq<Entry<T>>)
    ensures FilteredContent(es, "") == es
  {
    forall i | 0 <= i < |es| ensures Contains(Lower(es[i].name), Lower("")) {
      EmptyNeedleOccurs(Lower(es[i].name));
    }
    FilterAll(es, (e: Entry<T>) => Contains(Lower(e.name), Lower("")));
  }

  /** The material a dialog or menu is opened on: a name and possibly the item it came from. */
  datatype Selection<T> = Selection(name: string, item: Option<T>)

  /**
   * `{ name, ...content[0] }`: the first item's own name overrides the entry's
   * name; spreading the missing first item of an empty list keeps the entry's name.
   */
  function Spread<T>(name: string, items: seq<T>, itemName: T -> string): (s: Selection<T>)
    ensures items == [] ==> s.name == name && s.item.None?
    ensures items != [] ==> s.name == itemName(items[0]) && s.item == Some(items[0])
  {
    if items == [] then Selection(name, None) else Selection(itemName(items[0]), Some(items[0]))
  }

  /** What clicking an entry does: open a list's first item, or descend into a folder. */
  datatype Click<T> = Open(selection: Selection<T>) | Descend(folder: string)

  function EntryClick<T>(e: Entry<T>, itemName: T -> string): (c: Click<T>)
    ensures c.Descend? <==> e.node.Folder?
    ensures c.Descend? ==> c.folder == e.name
    ensures c.Open? ==> c.selection == Spread(e.name, e.node.items, itemName)
  {
    match e.node
    case Folder(_) => Descend(e.name)
    case Items(items) => Open(Spread(e.name, items, itemName))
  }
}
