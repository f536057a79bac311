/**
 * The items of a playground template: files and folders, how a file's name
 * is shown, when a file counts as selected, and how a raw value is told to be
 * a file, a folder or nothing at all.
 */
module TemplateTree {
  import opened Options

  /** A file (name, extension, text) or a folder (name and ordered children). */
  datatype Item =
    | File(filename: string, fileExtension: string, content: string)
    | Folder(folderName: string, items: seq<Item>)

  type FileItem = i: Item | i.File? witness File("", "", "")
  type FolderItem = i: Item | i.Folder? witness Folder("", [])

  /** The number of items in the subtree rooted at `item`, `item` included. */
  function Size(item: Item): (n: nat)
    ensures n >= 1
    decreases item
  {
    match item
    case File(_, _, _) => 1
    case Folder(_, children) => 1 + SizeAll(children)
  }

  function SizeAll(items: seq<Item>): nat
    decreases items
  {
    if |items| == 0 then 0 else Size(items[0]) + SizeAll(items[1..])
  }

  // ---------------------------------------------------------------------
  // Telling files from folders
  // ---------------------------------------------------------------------

  /**
   * A value handed to the component as an item, seen only as far as the
   * component looks at it: absent, a non-object, or an object with its keys.
   */
  datatype RawValue = Undefined | Null | Primitive | Object(keys: set<string>)

  datatype Shape = RendersNothing | RendersFile | RendersFolder

  /**
   * Truthy objects render; an object with a `folderName` key is a folder and
   * any other object is taken for a file.
   */
  function Classify(v: RawValue): (s: Shape)
    ensures s == RendersNothing <==> !v.Object?
    ensures s == RendersFolder <==> v.Object? && "folderName" in v.keys
  {
    if !v.Object? then RendersNothing
    else if "folderName" in v.keys then RendersFolder
    else RendersFile
  }

  /** The keys an item has when it is written out as a plain object. */
  function Keys(item: Item): set<string> {
    match item
    case File(_, _, _) => {"filename", "fileExtension", "content"}
    case Folder(_, _) => {"folderName", "items"}
  }

  /** Every well-formed item is classified as what it is. */
  lemma ClassifyItem(item: Item)
    ensures item.File? ==> Classify(Object(Keys(item))) == RendersFile
    ensures item.Folder? ==> Classify(Object(Keys(item))) == RendersFolder
  {
  }

  // ---------------------------------------------------------------------
  // Display name
  // ---------------------------------------------------------------------

  /** The shown name: the extension, when non-empty, follows a dot. */
  function DisplayName(f: FileItem): (name: string)
    ensures |name| >= |f.filename| && name[..|f.filename|] == f.filename
    ensures |name| == |f.filename| <==> f.fileExtension == ""
  {
    if f.fileExtension == "" then f.filename
    else f.filename + "." + f.fileExtension
  }

  /** The number of dots in `s`. */
  function Dots(s: string): nat
    decreases |s|
  {
    if |s| == 0 then 0 else (if s[0] == '.' then 1 else 0) + Dots(s[1..])
  }

  predicate DotFree(s: string) {
    forall i :: 0 <= i < |s| ==> s[i] != '.'
  }

  lemma {:induction false} DotsAppend(a: string, b: string)
    ensures Dots(a + b) == Dots(a) + Dots(b)
    decreases |a|
  {
    if |a| > 0 {
      assert (a + b)[1..] == a[1..] + b;
      DotsAppend(a[1..], b);
    } else {
      assert a + b == b;
    }
  }

  /**
   * The shown name is the file name, then, only for a non-empty extension,
   * exactly one added dot and the extension.
   */
  lemma DisplayNameParts(f: FileItem)
    ensures f.fileExtension == "" ==> DisplayName(f) == f.filename
    ensures f.fileExtension != "" ==>
      && |DisplayName(f)| == |f.filename| + 1 + |f.fileExtension|
      && DisplayName(f)[..|f.filename|] == f.filename
      && DisplayName(f)[|f.filename|] == '.'
      && DisplayName(f)[|f.filename| + 1..] == f.fileExtension
    ensures Dots(DisplayName(f)) ==
      Dots(f.filename) + (if f.fileExtension == "" then 0 else 1 + Dots(f.fileExtension))
  {
    if f.fileExtension != "" {
      DotsAppend(f.filename + ".", f.fileExtension);
      DotsAppend(f.filename, ".");
      assert Dots(".") == 1;
    }
  }

  lemma {:induction false} DotFreeHasNoDots(s: string)
    requires DotFree(s)
    ensures Dots(s) == 0
    decreases |s|
  {
    if |s| > 0 {
      DotFreeHasNoDots(s[1..]);
    }
  }

  /** The index of the first dot in `s`, or `|s|` when there is none. */
  function FirstDot(s: string): (i: nat)
    ensures i <= |s|
    decreases |s|
  {
    if |s| == 0 then 0 else if s[0] == '.' then 0 else 1 + FirstDot(s[1..])
  }

  lemma {:induction false} FirstDotAfter(a: string, c: string)
    requires DotFree(a)
    ensures FirstDot(a + "." + c) == |a|
    decreases |a|
  {
    if |a| > 0 {
      assert (a + "." + c)[1..] == a[1..] + "." + c;
      FirstDotAfter(a[1..], c);
    }
  }

  lemma SplitAtDot(a: string, c: string, b: string, d: string)
    requires DotFree(a) && DotFree(b)
    requires a + "." + c == b + "." + d
    ensures a == b && c == d
  {
    var s := a + "." + c;
    FirstDotAfter(a, c);
    FirstDotAfter(b, d);
    assert a == s[..|a|] == b;
    assert c == s[|a| + 1..] == d;
  }

  /** For dot-free file names, different files show different names, whatever the extensions. */
  lemma DisplayNameInjective(f: FileItem, g: FileItem)
    requires DotFree(f.filename) && DotFree(g.filename)
    ensures DisplayName(f) == DisplayName(g) <==>
      f.filename == g.filename && f.fileExtension == g.fileExtension
  {
    if DisplayName(f) == DisplayName(g) {
      DisplayNameParts(f);
      DisplayNameParts(g);
      DotFreeHasNoDots(f.filename);
      DotFreeHasNoDots(g.filename);
      if f.fileExtension != "" && g.fileExtension != "" {
        SplitAtDot(f.filename, f.fileExtension, g.filename, g.fileExtension);
      }
    }
  }

  /** A dot in the file name makes two different files show the same name. */
  lemma DisplayNameCollision()
    ensures var f := File("a.b", "", ""); var g := File("a", "b", "");
      f != g && DisplayName(f) == DisplayName(g)
  {
    var f: FileItem := File("a.b", "", "");
    var g: FileItem := File("a", "b", "");
    assert DisplayName(g) == "a" + "." + "b";
  }

  // ---------------------------------------------------------------------
  // Selection
  // ---------------------------------------------------------------------

  /** A file is shown as selected when its name and extension match the selected file's. */
  function IsSelected(selected: Option<FileItem>, f: FileItem): (r: bool)
    ensures selected == None ==> !r
    ensures selected == Some(f) ==> r
  {
    match selected
    case None => false
    case Some(s) => s.filename == f.filename && s.fileExtension == f.fileExtension
  }

  /** Selection never looks at the content, of either file. */
  lemma SelectionIgnoresContent(s: FileItem, f: FileItem, c: string, d: string)
    ensures IsSelected(Some(s), f) == IsSelected(Some(s.(content := c)), f.(content := d))
  {
  }

  /** A file is selected exactly when it differs from the selected file at most in content. */
  lemma SelectedIffSameButContent(s: FileItem, f: FileItem)
    ensures IsSelected(Some(s), f) <==> f == s.(content := f.content)
  {
  }

  /** A selected file shows the same name as the selected one. */
  lemma SelectedSharesDisplayName(s: FileItem, f: FileItem)
    requires IsSelected(Some(s), f)
    ensures DisplayName(s) == DisplayName(f)
  {
  }

  /** Two files that differ only in content are both shown as selected. */
  lemma ContentTwinsBothSelected(f: FileItem, c: string)
    ensures IsSelected(Some(f), f) && IsSelected(Some(f), f.(content := c))
  {
  }

  // ---------------------------------------------------------------------
  // Folding
  // ---------------------------------------------------------------------

  /** A node starts expanded exactly when it is rendered at a level below 2. */
  function StartsOpen(level: int): (open: bool)
    ensures open <==> level <= 1
  {
    level < 2
  }
}
