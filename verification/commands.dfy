/**
 * What a rendered node hands to its collaborators when the user acts on it.
 * The collaborators (the on* callbacks) are not modelled: a command is only
 * the callback it goes to and the arguments it is called with.
 */
module Commands {
  import opened Options
  import opened Paths
  import opened TemplateTree
  import opened Rendering

  /** A call of one of the optional callbacks, with its arguments. */
  datatype Command =
    | SelectFile(file: FileItem)
    | AddFile(file: FileItem, parentPath: string)
    | AddFolder(folder: FolderItem, parentPath: string)
    | DeleteFile(file: FileItem, parentPath: string)
    | DeleteFolder(folder: FolderItem, parentPath: string)
    | RenameFile(file: FileItem, newFilename: string, newExtension: string, parentPath: string)
    | RenameFolder(folder: FolderItem, newFolderName: string, parentPath: string)
  {
    predicate IsAdd() {
      AddFile? || AddFolder?
    }

    /** Deleting or renaming names an existing node. */
    predicate IsEdit() {
      DeleteFile? || DeleteFolder? || RenameFile? || RenameFolder?
    }

    /** The existing node a delete or rename is about. */
    function Target(): Item
      requires IsEdit()
    {
      if DeleteFile? || RenameFile? then file else folder
    }
  }

  /** The callbacks a node may be given; each is optional. */
  datatype Callback =
    | OnFileSelect | OnAddFile | OnAddFolder | OnDeleteFile | OnDeleteFolder | OnRenameFile | OnRenameFolder

  /** The callback that receives a command. */
  function Handler(c: Command): Callback {
    match c
    case SelectFile(_) => OnFileSelect
    case AddFile(_, _) => OnAddFile
    case AddFolder(_, _) => OnAddFolder
    case DeleteFile(_, _) => OnDeleteFile
    case DeleteFolder(_, _) => OnDeleteFolder
    case RenameFile(_, _, _, _) => OnRenameFile
    case RenameFolder(_, _, _) => OnRenameFolder
  }

  /** What the user does to a node: click it, confirm a delete, or submit a dialog. */
  datatype Action =
    | Click
    | ConfirmDelete
    | SubmitFileRename(newFilename: string, newExtension: string)
    | SubmitFolderRename(newFolderName: string)
    | CreateFile(filename: string, extension: string)
    | CreateFolder(folderName: string)

  /** A new file as entered in the new-file dialog: the given names and no content. */
  function NewFileDraft(filename: string, extension: string): (f: FileItem)
    ensures f.filename == filename && f.fileExtension == extension && f.content == ""
  {
    File(filename, extension, "")
  }

  /** A new folder as entered in the new-folder dialog: the given name and no children. */
  function NewFolderDraft(folderName: string): (d: FolderItem)
    ensures d.folderName == folderName && d.items == []
  {
    Folder(folderName, [])
  }

  /** The command a file node means to emit; a file offers no create actions. */
  function FileCommand(file: FileItem, path: string, action: Action): (cmd: Option<Command>)
    ensures cmd.Some? <==> Offered(file, action)
    ensures cmd.Some? ==> Answers(action, cmd.value)
    ensures cmd.Some? && cmd.value.IsEdit() ==> cmd.value.parentPath == path && cmd.value.Target() == file
    ensures cmd.Some? && cmd.value.SelectFile? ==> cmd.value.file == file
  {
    match action
    case Click => Some(SelectFile(file))
    case ConfirmDelete => Some(DeleteFile(file, path))
    case SubmitFileRename(n, e) => Some(RenameFile(file, n, e, path))
    case _ => None
  }

  /**
   * The command a folder node means to emit: creations go below the folder's
   * own path, delete and rename go with the incoming path. A click only folds.
   */
  function FolderCommand(folder: FolderItem, path: string, action: Action): (cmd: Option<Command>)
    ensures cmd.Some? <==> Offered(folder, action)
    ensures cmd.Some? ==> Answers(action, cmd.value)
    ensures cmd.Some? && cmd.value.IsAdd() ==> cmd.value.parentPath == ChildPath(path, folder.folderName)
    ensures cmd.Some? && cmd.value.IsEdit() ==> cmd.value.parentPath == path && cmd.value.Target() == folder
    ensures cmd.Some? ==> !cmd.value.SelectFile?
  {
    var currentPath := ChildPath(path, folder.folderName);
    match action
    case ConfirmDelete => Some(DeleteFolder(folder, path))
    case SubmitFolderRename(n) => Some(RenameFolder(folder, n, path))
    case CreateFile(n, e) => Some(AddFile(NewFileDraft(n, e), currentPath))
    case CreateFolder(n) => Some(AddFolder(NewFolderDraft(n), currentPath))
    case _ => None
  }

  /** The action offered by the node's menus, dialogs or button. */
  predicate Offered(item: Item, action: Action) {
    if item.File? then action.Click? || action.ConfirmDelete? || action.SubmitFileRename?
    else !action.Click? && !action.SubmitFileRename?
  }

  /** The command the node means to emit for an action, whatever callbacks it was handed. */
  function Intended(node: Rendered, action: Action): (cmd: Option<Command>)
    ensures cmd.Some? <==> Offered(node.item, action)
    ensures cmd.Some? ==> Answers(action, cmd.value)
  {
    if node.item.File? then FileCommand(node.item, node.path, action)
    else FolderCommand(node.item, node.path, action)
  }

  /**
   * The command is the one the action asks for: a click selects, a confirmed
   * delete deletes, a submitted dialog renames or creates with the entered fields.
   */
  predicate Answers(action: Action, cmd: Command) {
    match action
    case Click => cmd.SelectFile?
    case ConfirmDelete => cmd.DeleteFile? || cmd.DeleteFolder?
    case SubmitFileRename(n, e) => cmd.RenameFile? && cmd.newFilename == n && cmd.newExtension == e
    case SubmitFolderRename(n) => cmd.RenameFolder? && cmd.newFolderName == n
    case CreateFile(n, e) => cmd.AddFile? && cmd.file == File(n, e, "")
    case CreateFolder(n) => cmd.AddFolder? && cmd.folder == Folder(n, [])
  }

  /**
   * The command a rendered node emits for an action, given the callbacks it was
   * handed: nothing when the action is not offered or its callback is missing.
   */
  function Respond(node: Rendered, action: Action, wired: set<Callback>): (emitted: Option<Command>)
    ensures emitted.Some? ==> Offered(node.item, action) && Handler(emitted.value) in wired
    ensures emitted.Some? ==> Answers(action, emitted.value)
    ensures emitted.Some? && emitted.value.IsAdd() ==>
      node.item.Folder? && emitted.value.parentPath == ChildPath(node.path, node.item.folderName)
    ensures emitted.Some? && emitted.value.IsEdit() ==>
      emitted.value.parentPath == node.path && emitted.value.Target() == node.item
    ensures emitted.Some? && emitted.value.SelectFile? ==> emitted.value.file == node.item
  {
    var intended := Intended(node, action);
    if intended.Some? && Handler(intended.value) in wired then intended else None
  }

  /** Every callback handed down. */
  const AllCallbacks: set<Callback> :=
    {OnFileSelect, OnAddFile, OnAddFolder, OnDeleteFile, OnDeleteFolder, OnRenameFile, OnRenameFolder}

  // ---------------------------------------------------------------------
  // Properties
  // ---------------------------------------------------------------------

  /**
   * An offered action always has a command it means to emit, and that command
   * is emitted exactly when the callback it goes to was handed down.
   */
  lemma OfferedActionEmits(node: Rendered, action: Action, wired: set<Callback>)
    requires Offered(node.item, action)
    ensures Intended(node, action).Some?
    ensures Respond(node, action, wired) ==
      if Handler(Intended(node, action).value) in wired then Intended(node, action) else None
  {
  }

  /**
   * Confirming a delete emits the delete for the node's own kind, with the
   * node as it is and the incoming path, when that callback was handed down.
   */
  lemma DeleteCarriesNode(node: Rendered, wired: set<Callback>)
    ensures Respond(node, ConfirmDelete, wired) ==
      if node.item.File? then
        (if OnDeleteFile in wired then Some(DeleteFile(node.item, node.path)) else None)
      else
        (if OnDeleteFolder in wired then Some(DeleteFolder(node.item, node.path)) else None)
  {
  }

  /**
   * Creating in a folder emits a draft with the entered fields, empty content or
   * no children, and the folder's own path, which is the path its children get.
   */
  lemma CreateTargetsChildrenPath(name: string, children: seq<Item>, path: string, level: int,
                                  action: Action, wired: set<Callback>)
    requires action.CreateFile? || action.CreateFolder?
    requires (if action.CreateFile? then OnAddFile else OnAddFolder) in wired
    ensures var cmd := Respond(Rendered(path, level, Folder(name, children)), action, wired);
      && cmd.Some?
      && (action.CreateFile? ==> cmd.value == AddFile(File(action.filename, action.extension, ""), cmd.value.parentPath))
      && (action.CreateFolder? ==> cmd.value == AddFolder(Folder(action.folderName, []), cmd.value.parentPath))
      && forall i :: 0 <= i < |children| ==>
           Rendered(cmd.value.parentPath, level + 1, children[i]) in Annotate(Folder(name, children), path, level)
  {
    forall i | 0 <= i < |children|
      ensures Rendered(ChildPath(path, name), level + 1, children[i]) in Annotate(Folder(name, children), path, level)
    {
      ChildrenGetFolderPath(name, children, path, level, i);
    }
  }

  /**
   * A delete or rename never carries the node's own path: it carries its
   * parent's, unless a top-level folder has an empty name.
   */
  lemma EditNeverOwnPath(node: Rendered, action: Action, wired: set<Callback>)
    requires node.item.Folder? ==> node.path != "" || node.item.folderName != ""
    ensures var cmd := Respond(node, action, wired);
      cmd.Some? && cmd.value.IsEdit() && node.item.Folder? ==>
        cmd.value.parentPath != ChildPath(node.path, node.item.folderName)
  {
  }

  /** A top-level folder with an empty name is deleted and renamed with its own path. */
  lemma EmptyTopFolderDeletesOwnPath(children: seq<Item>, level: int, newName: string, wired: set<Callback>)
    ensures var f := Folder("", children);
      && (OnDeleteFolder in wired ==>
            Respond(Rendered("", level, f), ConfirmDelete, wired) == Some(DeleteFolder(f, ChildPath("", f.folderName))))
      && (OnRenameFolder in wired ==>
            Respond(Rendered("", level, f), SubmitFolderRename(newName), wired)
              == Some(RenameFolder(f, newName, ChildPath("", f.folderName))))
  {
  }

  /**
   * A file rename carries the file as it was and the two entered names and
   * nothing else: files that differ only in content ask for the same rename.
   */
  lemma RenameCarriesNoContent(f: FileItem, c: string, path: string, level: int,
                               newFilename: string, newExtension: string, wired: set<Callback>)
    requires OnRenameFile in wired
    ensures var cmd := Respond(Rendered(path, level, f), SubmitFileRename(newFilename, newExtension), wired);
      var twin := Respond(Rendered(path, level, f.(content := c)), SubmitFileRename(newFilename, newExtension), wired);
      && cmd == Some(RenameFile(f, newFilename, newExtension, path))
      && twin.Some? && twin.value == cmd.value.(file := f.(content := c))
  {
  }

  /** A folder rename carries the folder as it was, children included, and the entered name. */
  lemma RenameFolderCarriesOriginal(d: FolderItem, path: string, level: int, newName: string, wired: set<Callback>)
    requires OnRenameFolder in wired
    ensures Respond(Rendered(path, level, d), SubmitFolderRename(newName), wired)
      == Some(RenameFolder(d, newName, path))
  {
  }

  /** Clicking a file selects it, and every file that differs from it only in content. */
  lemma ClickSelects(f: FileItem, path: string, level: int, g: FileItem, wired: set<Callback>)
    requires OnFileSelect in wired
    requires g == f.(content := g.content)
    ensures var cmd := Respond(Rendered(path, level, f), Click, wired);
      cmd == Some(SelectFile(f)) && IsSelected(Some(cmd.value.file), f) && IsSelected(Some(cmd.value.file), g)
  {
  }

  lemma JoinNonEmpty(names: seq<string>)
    requires |names| >= 1 && WellFormedNames(names)
    ensures Join(names) != ""
  {
    SplitJoin(names);
  }

  /**
   * From the top-level call, in a tree whose folder names are non-empty and
   * slash-free, the path of every emitted command splits into the names of
   * the folders it addresses: the node's own folder for a creation, and the
   * node's parent for a delete or rename (the empty path at the top).
   */
  lemma CommandsAddressTree(root: Item, level: int, k: int, action: Action, wired: set<Callback>)
    requires WellNamed(root)
    requires 0 <= k < Size(root)
    ensures var node := AnnotateTop(root, None, level)[k];
      var anc := Nodes(root)[k].ancestors;
      var cmd := Respond(node, action, wired);
      && (cmd.Some? && cmd.value.IsAdd() ==> Split(cmd.value.parentPath) == anc + [node.item.folderName])
      && (cmd.Some? && cmd.value.IsEdit() && |anc| >= 1 ==> Split(cmd.value.parentPath) == anc)
      && (cmd.Some? && cmd.value.IsEdit() && |anc| == 0 ==> cmd.value.parentPath == "")
  {
    RenderedFromTop(root, level, k);
    NodesAncestorsWellFormed(root);
    var node := AnnotateTop(root, None, level)[k];
    var anc := Nodes(root)[k].ancestors;
    var cmd := Respond(node, action, wired);
    if cmd.Some? && cmd.value.IsAdd() {
      WellNamedNode(root, k);
      var name := node.item.folderName;
      if |anc| == 0 {
        SplitSlashFree(name);
      } else {
        JoinNonEmpty(anc);
        SplitChildPath(node.path, name);
      }
    }
  }
}
