# Template file tree addressing

A model of how the playground's file-tree component (`TemplateNode`) addresses
the nodes of a project template. A template is a tree of items: a file carries
a name, an extension and its text; a folder carries a name and an ordered list
of children. The component walks the tree recursively. It hands every node the
slash-joined path of the folder it sits in and a nesting level. It shows a
file's name with its extension, and it marks a file as selected. When the user
acts on a node, it hands a command to one of its optional callbacks (add,
delete or rename a file or folder, or select a file). Each add, delete and
rename command carries a parent path; a selection carries only the file.

The model is pure and functional:

- `TemplateTree` holds the tree datatype `Item`. It also holds the file/folder
  shape test on raw values, the display name, the selection test and the
  "starts expanded" rule.
- `Paths` derives a child's path from its parent's path. It relates that path
  to the slash-join of the ancestor folder names, and splits paths back into
  names the way `split("/")` does.
- `Rendering` models the recursive walk as `Annotate`, which lists the path and
  level every node is rendered with once the folders above it are open.
  `Rendering.AnnotateIsPlace` proves the walk equal to `Place(Nodes(item), path, level)`.
  Here `Nodes` independently lists every node with the names of the folders above it.
- `Commands` models what each user action emits: a `Command` value for the
  callback it goes to, or nothing when that callback was not handed down.

The callbacks themselves are not modelled; the model does not say what a
collaborator does with a command.

## Model

| member | source | states |
|---|---|---|
| TemplateTree.Classify | features/playground/components/TemplateNode.tsx:102-111 | a missing or non-object value renders nothing; an object is a folder exactly when it has a `folderName` key, and otherwise a file |
| TemplateTree.ClassifyItem | features/playground/components/TemplateNode.tsx:102-103 | every well-formed file is classified as a file, and every well-formed folder as a folder |
| TemplateTree.DisplayName | features/playground/components/TemplateNode.tsx:114-116 | the shown name starts with the file name and is longer than it exactly when the extension is non-empty; its full shape is stated by DisplayNameParts and its meaning by DisplayNameInjective |
| TemplateTree.DisplayNameParts | features/playground/components/TemplateNode.tsx:114-116 | the shown name is the file name alone when the extension is empty, and otherwise the file name, one dot and the extension; it has exactly one dot more than its parts only for a non-empty extension |
| TemplateTree.DisplayNameInjective | features/playground/components/TemplateNode.tsx:114-116 | for dot-free file names, two files show the same name exactly when their names and extensions agree, whatever dots the extensions hold |
| TemplateTree.DisplayNameCollision | features/playground/components/TemplateNode.tsx:114-116 | a dot inside a file name makes two different files ("a.b" with no extension, "a" with extension "b") show the same name |
| TemplateTree.IsSelected | features/playground/components/TemplateNode.tsx:118-121 | with no selected file nothing is selected, and the selected file itself is always selected |
| TemplateTree.SelectedIffSameButContent | features/playground/components/TemplateNode.tsx:118-121 | a file is selected exactly when it equals the selected file up to its content |
| TemplateTree.SelectionIgnoresContent | features/playground/components/TemplateNode.tsx:118-121 | changing the content of either the selected file or the shown file never changes the selection |
| TemplateTree.SelectedSharesDisplayName | features/playground/components/TemplateNode.tsx:114-121 | a selected file shows the same name as the selected file |
| TemplateTree.ContentTwinsBothSelected | features/playground/components/TemplateNode.tsx:118-121 | two files that differ only in content are both shown as selected |
| Paths.ChildPath | features/playground/components/TemplateNode.tsx:217 | a folder's own path: its name below the empty path, otherwise the incoming path, one slash and its name; the contract spells out line 217, and SplitChildPath and PathFromTop give it meaning |
| Paths.SplitChildPath | features/playground/components/TemplateNode.tsx:217 | for a slash-free name, a folder's own path splits into the incoming path's segments plus its name (just the name below the empty path) |
| Paths.PathFromNonEmpty | features/playground/components/TemplateNode.tsx:217 | below a non-empty path, descending through folders gives that path slash-joined with every folder name, empty ones included |
| Paths.PathFromTop | features/playground/components/TemplateNode.tsx:217 | from the empty path, descending gives the slash-join of the folder names once the empty names at the front are dropped |
| Paths.PathFromTopIsJoin | features/playground/components/TemplateNode.tsx:217 | from the empty path with non-empty folder names, the derived path is exactly the slash-join of the names |
| Paths.SplitRecoversAncestors | features/playground/components/TemplateNode.tsx:217 | splitting a path derived from the top on slashes recovers the folder names when they are non-empty and slash-free |
| Paths.NoLeadingSep | features/playground/components/TemplateNode.tsx:217 | starting from the empty path, a derived path never starts with a slash unless a folder name does |
| Paths.EmptyNameEffects | features/playground/components/TemplateNode.tsx:217 | for every list of names, a leading empty folder name vanishes from the path; below any non-empty path an empty name leaves a trailing slash, and the next name follows a doubled slash |
| Rendering.IncomingPath | features/playground/components/TemplateNode.tsx:94 | a path the caller leaves out is the empty path |
| Rendering.Annotate | features/playground/components/TemplateNode.tsx:323-330 | the walk lists each node of the subtree once, starting with the node itself at the incoming path and level; each node is rendered with the listed path and level once the folders above it are open |
| Rendering.AnnotateTop | features/playground/components/TemplateNode.tsx:89-94 | a top-level call without a path renders the root at the empty path |
| Rendering.AnnotateIsPlace | features/playground/components/TemplateNode.tsx:323-330 | each rendered node gets the path reached by descending through the folders above it, and the start level plus its depth |
| Rendering.ChildrenGetFolderPath | features/playground/components/TemplateNode.tsx:323-330 | every direct child of a folder is rendered with the folder's own path and the next level |
| Rendering.RenderedFromTop | features/playground/components/TemplateNode.tsx:94-330 | from the top-level call, a node below well-named folders gets the slash-join of its ancestors' names as its path, which splits back into them, and the top level plus its depth as its level |
| TemplateTree.StartsOpen | features/playground/components/TemplateNode.tsx:109 | a node starts expanded exactly when its level is at most 1; the contract restates line 109, and OpenExactlyTopTwoLayers gives it meaning over a walk |
| Rendering.OpenExactlyTopTwoLayers | features/playground/components/TemplateNode.tsx:109 | walking from level 0, a node starts expanded exactly when it is the root or a child of the root |
| Commands.NewFileDraft | features/playground/components/TemplateNode.tsx:242-246 | a new-file draft has the entered name and extension and empty content; the contract restates the object literal, and CreateTargetsChildrenPath ties it to the emitted add |
| Commands.NewFolderDraft | features/playground/components/TemplateNode.tsx:254-257 | a new-folder draft has the entered name and no children; the contract restates the object literal, and CreateTargetsChildrenPath ties it to the emitted add |
| Commands.FileCommand | features/playground/components/TemplateNode.tsx:131-146 | a file node means to emit a command exactly for a click, a confirmed delete or a submitted rename: a select of the file, or a delete or rename carrying the file and the incoming path |
| Commands.FolderCommand | features/playground/components/TemplateNode.tsx:231-264 | a folder node means to emit a command exactly for a confirmed delete, a submitted rename or a create; delete and rename carry the folder and the incoming path, and adds carry the folder's own path; it never selects |
| Commands.Intended | features/playground/components/TemplateNode.tsx:131-264 | a node means to emit a command exactly for the actions it offers, and that command is the one the action asks for |
| Commands.Respond | features/playground/components/TemplateNode.tsx:131-264 | a command is emitted only for an action the node offers and only to a callback that was handed down; adds carry the folder's own path; deletes and renames carry the incoming path and the node itself; every command is the one its action asks for (a click selects, a confirmed delete deletes, a submitted dialog renames or creates with the entered fields) |
| Commands.OfferedActionEmits | features/playground/components/TemplateNode.tsx:131-264 | an action the node offers always has a command it means to emit, and emits it exactly when its callback was handed down |
| Commands.DeleteCarriesNode | features/playground/components/TemplateNode.tsx:131-232 | confirming a delete emits a file delete for a file and a folder delete for a folder, with the node unchanged and the incoming path, exactly when that callback was handed down |
| Commands.CreateTargetsChildrenPath | features/playground/components/TemplateNode.tsx:240-261 | creating in a folder emits the draft with the entered fields and the folder's own path, the path every child of that folder is rendered with |
| Commands.EditNeverOwnPath | features/playground/components/TemplateNode.tsx:231-264 | a folder delete or rename carries a path different from the folder's own path, unless a top-level folder has an empty name |
| Commands.EmptyTopFolderDeletesOwnPath | features/playground/components/TemplateNode.tsx:217-264 | a top-level folder with an empty name, whatever its children, level and new name, is deleted and renamed with a path equal to its own |
| Commands.RenameCarriesNoContent | features/playground/components/TemplateNode.tsx:136-137 | a file rename carries the unchanged file, the entered name and extension and the incoming path; files that differ only in content ask for the same rename |
| Commands.RenameFolderCarriesOriginal | features/playground/components/TemplateNode.tsx:263-264 | a folder rename carries the unchanged folder, the entered name and the incoming path |
| Commands.ClickSelects | features/playground/components/TemplateNode.tsx:146 | clicking a file selects it, and every file that differs from it only in content is then shown as selected too |
| Commands.CommandsAddressTree | features/playground/components/TemplateNode.tsx:217-264 | in a well-named tree walked from the top, an add's path splits into the names down to the node's own folder; a delete's or rename's path splits into the names down to the node's parent, and is empty at the top |

## Left out

- The React rendering is left out: icons, menus, dialogs, the collapsible's open state after the user toggles it, and list keys. Only the rule that a node starts expanded below level 2 is kept.
- The callbacks (`onAddFile`, `onDeleteFolder`, `onRenameFile` and the others) are left out. Their implementations are not part of this model. The model produces the command they would receive. It claims nothing about duplicate-name checks, cascading deletes, atomicity or path resolution.
- Applying a command to the tree is left out: resolving the path, rejecting duplicate names, removing subtrees and reporting errors. The component does none of this; it only forwards commands.
- Rendering.Annotate: it lists every node whether or not it is currently shown. In the source a folder's children are mounted only while its collapsible is open, and from a level-0 call folders at depth 2 or more start closed, so their children appear only after the user opens them. The open state is not modelled beyond its start value. It also walks a well-formed `Item` tree. In the source, a child that is missing or not an object renders nothing. That rule is modelled by `TemplateTree.Classify` on its own, because the tree datatype cannot hold such a child.
- Rendering.IncomingPath: a JavaScript default parameter applies only to `undefined`. The TypeScript types rule out other non-string paths, so they are not modelled.
- Commands carry node values, not object identity. The source hands its callbacks the very object it was given, so a collaborator can tell two equal sibling files apart with `===`. The model emits the same value for both.
- Nesting levels are JavaScript numbers (floating point). They are modelled as unbounded integers.
- `features/dashboard/components/AddNewButton.tsx` is left out. It is UI wiring around an asynchronous server call, navigation and notifications.
- `features/dashboard/actions/index.ts` is left out. It is database calls, an authentication lookup and cache revalidation. That includes the " (Copy)" title suffix used when a playground is duplicated.
- `app/(auth)/auth/sign-in/page.tsx` is left out. It is a page layout.
- `Paths.Split` models JavaScript's `split("/")`. The model uses it only to state that paths can be read back. The component never splits paths.
