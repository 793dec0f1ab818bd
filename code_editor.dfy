/** The code editor of the IDE (src/components/ide/CodeEditor.tsx): which
    text the editor shows for the active file, the file name in the header and
    the terminal, the line-number gutter, the explorer highlight, and the
    editor's own view state. */
module CodeEditor {
  import opened Options
  import opened Strings

  datatype File = File(name: string, path: string, language: string, content: string)

  /** `files.find((file) => file.path === activeFile)`: the first file with that path. */
  function FindByPath(files: seq<File>, path: string): (r: Option<File>)
    ensures r.None? <==> forall k :: 0 <= k < |files| ==> files[k].path != path
    ensures r.Some? ==> exists k :: 0 <= k < |files| && files[k] == r.value && r.value.path == path
                                    && forall j :: 0 <= j < k ==> files[j].path != path
  {
    if files == [] then None
    else if files[0].path == path then Some(files[0])
    else
      var r := FindByPath(files[1..], path);
      assert forall k :: 1 <= k < |files| ==> files[k] == files[1..][k - 1];
      r
  }

  /** With distinct paths, the file found is the one that has the path. */
  lemma {:induction false} FindByPathUnique(files: seq<File>, k: nat)
    requires k < |files|
    requires forall i, j :: 0 <= i < j < |files| ==> files[i].path != files[j].path
    ensures FindByPath(files, files[k].path) == Some(files[k])
  {
    if k > 0 {
      FindByPathUnique(files[1..], k - 1);
      assert files[1..][k - 1] == files[k];
    }
  }

  /** `activeFileContent`: the active file's content, or the `code` prop when no
      file has the active path or when that file's content is empty (`||`
      treats "" as missing). */
  function ActiveFileContent(files: seq<File>, activeFile: string, code: string): (r: string)
    ensures r == code || exists k :: 0 <= k < |files| && files[k].path == activeFile && r == files[k].content
    ensures (forall k :: 0 <= k < |files| ==> files[k].path != activeFile) ==> r == code
    ensures r != code ==> r != ""
    ensures FindByPath(files, activeFile).Some? && FindByPath(files, activeFile).value.content != "" ==>
      r == FindByPath(files, activeFile).value.content
    ensures FindByPath(files, activeFile).Some? && FindByPath(files, activeFile).value.content == "" ==> r == code
  {
    match FindByPath(files, activeFile)
    case Some(f) => if f.content != "" then f.content else code
    case None => code
  }

  /** The one case the fallback hides: an active file that exists but is
      empty shows the `code` prop instead of an empty editor. */
  lemma EmptyActiveFileShowsCode(files: seq<File>, k: nat, code: string)
    requires k < |files| && files[k].content == ""
    requires forall i, j :: 0 <= i < j < |files| ==> files[i].path != files[j].path
    ensures ActiveFileContent(files, files[k].path, code) == code
  {
    FindByPathUnique(files, k);
  }

  /** A non-empty active file is shown as it is. */
  lemma ActiveFileShown(files: seq<File>, k: nat, code: string)
    requires k < |files| && files[k].content != ""
    requires forall i, j :: 0 <= i < j < |files| ==> files[i].path != files[j].path
    ensures ActiveFileContent(files, files[k].path, code) == files[k].content
  {
    FindByPathUnique(files, k);
  }

  /** `find(...)?.name || fallback`: the found file's name, or `fallback`
      when there is none or its name is empty. */
  function ActiveFileName(files: seq<File>, activeFile: string, fallback: string): (r: string)
    ensures r == fallback || exists k :: 0 <= k < |files| && files[k].path == activeFile && r == files[k].name
    ensures (forall k :: 0 <= k < |files| ==> files[k].path != activeFile) ==> r == fallback
    ensures r != fallback ==> r != ""
  {
    match FindByPath(files, activeFile)
    case Some(f) => if f.name != "" then f.name else fallback
    case None => fallback
  }

  /** The toolbar title falls back to "untitled". */
  function HeaderName(files: seq<File>, activeFile: string): string {
    ActiveFileName(files, activeFile, "untitled")
  }

  /** The terminal's `$ node` line falls back to "index.js". */
  function TerminalName(files: seq<File>, activeFile: string): string {
    ActiveFileName(files, activeFile, "index.js")
  }

  /** Header and terminal name the same file and differ only in the fallback. */
  lemma HeaderAndTerminalAgree(files: seq<File>, activeFile: string)
    ensures FindByPath(files, activeFile).Some? && FindByPath(files, activeFile).value.name != "" ==>
      HeaderName(files, activeFile) == TerminalName(files, activeFile) == FindByPath(files, activeFile).value.name
    ensures FindByPath(files, activeFile).None? || FindByPath(files, activeFile).value.name == "" ==>
      HeaderName(files, activeFile) == "untitled" && TerminalName(files, activeFile) == "index.js"
  {
  }

  /** The gutter: `split("\n")` gives one line per newline plus one, numbered
      from 1 without gaps. */
  function LineNumbers(content: string): (r: seq<nat>)
    ensures |r| == CountChar(content, '\n') + 1
    ensures forall i :: 0 <= i < |r| ==> r[i] == i + 1
  {
    SplitCount(content, '\n');
    seq(|Split(content, '\n')|, i => i + 1)
  }

  /** The explorer entry's class: highlighted when it is the active file. */
  function EntryClass(file: File, activeFile: string): (r: string)
    ensures r == "bg-[#37373d] text-white" <==> file.path == activeFile
    ensures r == "text-gray-400 hover:bg-[#2a2d2e]" <==> file.path != activeFile
  {
    if activeFile == file.path then "bg-[#37373d] text-white" else "text-gray-400 hover:bg-[#2a2d2e]"
  }

  /** The indices of the highlighted explorer entries. */
  function Highlighted(files: seq<File>, activeFile: string): (r: set<nat>)
    ensures forall k :: k in r ==> k < |files|
    ensures forall k :: 0 <= k < |files| ==> (k in r <==> files[k].path == activeFile)
  {
    set k: nat | k < |files| && EntryClass(files[k], activeFile) == "bg-[#37373d] text-white"
  }

  /** With distinct paths at most one entry is highlighted, and it is the file
      whose name the header shows (when that name is not empty). */
  lemma HighlightMatchesHeader(files: seq<File>, activeFile: string)
    requires forall i, j :: 0 <= i < j < |files| ==> files[i].path != files[j].path
    ensures forall i, j :: i in Highlighted(files, activeFile) && j in Highlighted(files, activeFile) ==> i == j
    ensures forall k :: k in Highlighted(files, activeFile) && files[k].name != "" ==>
      HeaderName(files, activeFile) == files[k].name
  {
    forall k | k in Highlighted(files, activeFile) && files[k].name != ""
      ensures HeaderName(files, activeFile) == files[k].name
    {
      FindByPathUnique(files, k);
    }
  }

  /** The component's own state: the tab and whether the explorer is open. */
  class EditorView {
    var currentTab: string
    var showFileTree: bool

    constructor()
      ensures currentTab == "editor" && showFileTree
    {
      currentTab := "editor";
      showFileTree := true;
    }

    /** The folder button. */
    method ToggleFileTree()
      modifies this
      ensures showFileTree == !old(showFileTree) && currentTab == old(currentTab)
    {
      showFileTree := !showFileTree;
    }

    /** The Editor / Terminal tabs. */
    method SetCurrentTab(tab: string)
      modifies this
      ensures currentTab == tab && showFileTree == old(showFileTree)
    {
      currentTab := tab;
    }
  }

  /** Pressing the folder button twice leaves the explorer as it was. */
  method ToggleTwice(view: EditorView)
    modifies view
    ensures view.showFileTree == old(view.showFileTree) && view.currentTab == old(view.currentTab)
  {
    view.ToggleFileTree();
    view.ToggleFileTree();
  }

  /** The default `files` prop; the three sample texts are parameters. */
  function DefaultFiles(indexJs: string, utilsJs: string, dataJson: string): seq<File> {
    [ File("index.js", "/index.js", "javascript", indexJs),
      File("utils.js", "/utils.js", "javascript", utilsJs),
      File("data.json", "/data.json", "json", dataJson) ]
  }

  /** With the default files the editor opens "index.js" and highlights
      entry 0; an active path outside the list shows the two fallbacks. */
  lemma DefaultEditor(indexJs: string, utilsJs: string, dataJson: string, code: string)
    requires indexJs != ""
    ensures ActiveFileContent(DefaultFiles(indexJs, utilsJs, dataJson), "/index.js", code) == indexJs
    ensures HeaderName(DefaultFiles(indexJs, utilsJs, dataJson), "/index.js") == "index.js"
    ensures Highlighted(DefaultFiles(indexJs, utilsJs, dataJson), "/index.js") == {0}
    ensures HeaderName(DefaultFiles(indexJs, utilsJs, dataJson), "/main.js") == "untitled"
    ensures TerminalName(DefaultFiles(indexJs, utilsJs, dataJson), "/main.js") == "index.js"
  {
    var fs := DefaultFiles(indexJs, utilsJs, dataJson);
    assert fs[1].path != "/index.js" && fs[2].path != "/index.js";
    assert fs[0].path != "/main.js" && fs[1].path != "/main.js" && fs[2].path != "/main.js";
  }
}
