/**
 * The second in-memory file system, the store of ndi-app/stores/useFileTree.ts:
 * a tree of `FileNode`s whose directories hold their children in a list, and
 * a current directory given as the array of names leading to it from the
 * root. `.` and `..` have no special meaning here.
 *
 * Every mutation of the store edits a deep copy of the root and stores the
 * copy; here the tree is a value, so an edit builds the new tree and the old
 * one is never touched. Each action of the store is a `*Step` function from
 * the store state to its answer and the new state, and the class
 * `FileTreeStore` holds the fields and performs the actions, each method proved
 * to agree with its step function. Fresh node ids (`nanoid()`) are
 * parameters.
 */
module FileTree {
  import opened Wrappers
  import opened Strings

  datatype FileType = FileKind | DirectoryKind

  /** `FileNode`; `children` and `content` are optional, as in the type. */
  datatype FileNode = FileNode(id: string, name: string, kind: FileType, children: Option<seq<FileNode>>, content: Option<string>)

  /** A new directory, as `mkdir` pushes it. */
  function NewDirectory(id: string, name: string): FileNode {
    FileNode(id, name, DirectoryKind, Some([]), None)
  }

  /** A new file, as `touch` pushes it. */
  function NewFile(id: string, name: string, content: string): FileNode {
    FileNode(id, name, FileKind, None, Some(content))
  }

  /** Index of the first child called `name` (`children.find(c => c.name === name)`), or `|cs|`. */
  function FindNamed(cs: seq<FileNode>, name: string): (k: nat)
    ensures k <= |cs|
    ensures k < |cs| ==> cs[k].name == name
    ensures forall i :: 0 <= i < k ==> cs[i].name != name
  {
    if |cs| == 0 then 0
    else if cs[0].name == name then 0
    else 1 + FindNamed(cs[1..], name)
  }

  /** Index of the first child called `name` of kind `kind`, or `|cs|`. */
  function FindOfKind(cs: seq<FileNode>, name: string, kind: FileType): (k: nat)
    ensures k <= |cs|
    ensures k < |cs| ==> cs[k].name == name && cs[k].kind == kind
    ensures forall i :: 0 <= i < k ==> !(cs[i].name == name && cs[i].kind == kind)
  {
    if |cs| == 0 then 0
    else if cs[0].name == name && cs[0].kind == kind then 0
    else 1 + FindOfKind(cs[1..], name, kind)
  }

  /** `children.filter(c => !(c.name === name && c.type === kind))`. */
  function WithoutNamed(cs: seq<FileNode>, name: string, kind: FileType): (r: seq<FileNode>)
    ensures |r| <= |cs|
    ensures forall c :: c in r <==> c in cs && !(c.name == name && c.kind == kind)
  {
    if |cs| == 0 then []
    else if cs[0].name == name && cs[0].kind == kind then WithoutNamed(cs[1..], name, kind)
    else [cs[0]] + WithoutNamed(cs[1..], name, kind)
  }

  /** `node.children ?? []`. */
  function ChildrenOf(n: FileNode): seq<FileNode> {
    if n.children.Some? then n.children.value else []
  }

  /** What `getNodeAtPathHelper(root, path)` returns: `None` for `null`. */
  function NodeAt(n: FileNode, path: seq<string>): Option<FileNode>
    decreases |path|
  {
    if |path| == 0 then Some(n)
    else if n.kind != DirectoryKind || n.children.None? then None
    else
      var cs := n.children.value;
      var k := FindNamed(cs, path[0]);
      if k < |cs| then NodeAt(cs[k], path[1..]) else None
  }

  /** `getNodeAtPathHelper`: walks `path` from `root` one name at a time. */
  method GetNodeAtPathHelper(root: FileNode, path: seq<string>) returns (r: Option<FileNode>)
    ensures r == NodeAt(root, path)
  {
    var node := root;
    var i := 0;
    while i < |path|
      invariant 0 <= i <= |path|
      invariant NodeAt(root, path) == NodeAt(node, path[i..])
    {
      assert path[i..][0] == path[i];
      assert path[i..][1..] == path[i + 1..];
      if node.kind != DirectoryKind {
        return None;
      }
      if node.children.None? {
        return None;
      }
      var cs := node.children.value;
      var k := FindNamed(cs, path[i]);
      if k == |cs| {
        return None;
      }
      node := cs[k];
      i := i + 1;
    }
    assert path[i..] == [];
    return Some(node);
  }

  /** The tree with the node at `path` replaced by `m`; the tree itself when `path` leads nowhere. */
  function ReplaceNode(n: FileNode, path: seq<string>, m: FileNode): FileNode
    decreases |path|
  {
    if |path| == 0 then m
    else if n.kind != DirectoryKind || n.children.None? then n
    else
      var cs := n.children.value;
      var k := FindNamed(cs, path[0]);
      if k < |cs| then n.(children := Some(cs[k := ReplaceNode(cs[k], path[1..], m)])) else n
  }

  /** The store's fields; `error` is the key `mkdir` and `touch` merge into the store on a duplicate name. */
  datatype TreeState = TreeState(
    root: FileNode,
    currentPath: seq<string>,
    currentNode: Option<FileNode>,
    selectedNodeId: Option<string>,
    error: Option<string>)

  /** The store as created, with an empty root directory named `/`. */
  function InitialTree(rootId: string): TreeState {
    TreeState(FileNode(rootId, "/", DirectoryKind, Some([]), None), [], None, None, None)
  }

  /** The invariant of the store: the current path leads to a directory. */
  predicate ValidTree(s: TreeState) {
    NodeAt(s.root, s.currentPath).Some? && NodeAt(s.root, s.currentPath).value.kind == DirectoryKind
  }

  // ---------------------------------------------------------------------
  // help

  const HelpNames: seq<string> := ["help", "cd", "ls", "mkdir", "touch", "rename", "rm", "rmdir", "cat"]

  const HelpLines: seq<string> := [
    "help [cmd]                \U{2014} show help",
    "cd <path>                 \U{2014} change directory",
    "ls                        \U{2014} list directory",
    "mkdir <name>              \U{2014} create directory",
    "touch <name> [content]    \U{2014} create file",
    "rename <old> <new>        \U{2014} rename file or directory",
    "rm <name>                 \U{2014} delete file",
    "rmdir <name>              \U{2014} delete directory",
    "cat <name>                \U{2014} show file content"]

  /** Index of `cmd` among the help entries, or 9. */
  function HelpIndex(cmd: string): (k: nat)
    ensures k <= |HelpNames|
    ensures k < |HelpNames| ==> HelpNames[k] == cmd
    ensures k == |HelpNames| ==> cmd !in HelpNames
  {
    if cmd == "help" then 0 else if cmd == "cd" then 1 else if cmd == "ls" then 2
    else if cmd == "mkdir" then 3 else if cmd == "touch" then 4 else if cmd == "rename" then 5
    else if cmd == "rm" then 6 else if cmd == "rmdir" then 7 else if cmd == "cat" then 8
    else 9
  }

  /** `help(args)`: one entry for a single argument, every entry otherwise. */
  function Help(args: seq<string>): string {
    if |args| == 1 then
      var k := HelpIndex(args[0]);
      if k < |HelpLines| then HelpLines[k] else "Unknown command: " + args[0]
    else Join(HelpLines, "\n")
  }

  // ---------------------------------------------------------------------
  // The actions as functions of the store state

  /** `getCurrentDirectory()`: the node of the current path, the root when there is none. */
  function CurrentDirectory(s: TreeState): FileNode {
    match NodeAt(s.root, s.currentPath)
    case Some(n) => n
    case None => s.root
  }

  /** The path `cd` tries: the non-empty pieces of `pathStr`, after the current path unless it is absolute. */
  function CdTargetPath(s: TreeState, pathStr: string): seq<string> {
    var parts := NonEmpty(Split(pathStr, '/'));
    if StartsWith(pathStr, "/") then parts else s.currentPath + parts
  }

  /** `cd(args)`: `None` stands for the `void` of a success. */
  function CdStep(s: TreeState, args: seq<string>): (Option<string>, TreeState) {
    if |args| < 1 then (Some(Help(["cd"])), s)
    else
      var newPath := CdTargetPath(s, args[0]);
      match NodeAt(s.root, newPath)
      case None => (Some("cd: not a directory"), s)
      case Some(node) =>
        if node.kind != DirectoryKind then (Some("cd: not a directory"), s)
        else (None, s.(currentPath := newPath, currentNode := Some(node)))
  }

  /** `ls()`: the children of the current directory. */
  function LsNodes(s: TreeState): seq<FileNode> {
    ChildrenOf(CurrentDirectory(s))
  }

  /** The store after `dir`, the node of the current path, is replaced by `dir2`. */
  function EditCwd(s: TreeState, dir2: FileNode): TreeState {
    s.(root := ReplaceNode(s.root, s.currentPath, dir2))
  }

  /** `mkdir(args)`, with `freshId` for the new node's id. */
  function MkdirStep(s: TreeState, args: seq<string>, freshId: string): (Option<string>, TreeState) {
    if |args| < 1 then (Some(Help(["mkdir"])), s)
    else
      var name := args[0];
      match NodeAt(s.root, s.currentPath)
      case None => (None, s)
      case Some(dir) =>
        var cs := ChildrenOf(dir);
        if FindNamed(cs, name) < |cs| then (None, s.(error := Some("mkdir: already exists")))
        else (None, EditCwd(s, dir.(children := Some(cs + [NewDirectory(freshId, name)]))))
  }

  /** `touch(args)`: the arguments after the name, joined by spaces, are the content. */
  function TouchStep(s: TreeState, args: seq<string>, freshId: string): (Option<string>, TreeState) {
    if |args| < 1 then (Some(Help(["touch"])), s)
    else
      var name := args[0];
      var content := Join(args[1..], " ");
      match NodeAt(s.root, s.currentPath)
      case None => (None, s)
      case Some(dir) =>
        var cs := ChildrenOf(dir);
        if FindNamed(cs, name) < |cs| then (None, s.(error := Some("touch: already exists")))
        else (None, EditCwd(s, dir.(children := Some(cs + [NewFile(freshId, name, content)]))))
  }

  /** `rename(args)`: the first child called `args[0]` takes the name `args[1]`. */
  function RenameStep(s: TreeState, args: seq<string>): (Option<string>, TreeState) {
    if |args| < 2 then (Some(Help(["rename"])), s)
    else
      var oldName := args[0];
      var newName := args[1];
      match NodeAt(s.root, s.currentPath)
      case None => (None, s)
      case Some(dir) =>
        if dir.children.None? then (None, s)
        else
          var cs := dir.children.value;
          var k := FindNamed(cs, oldName);
          if k == |cs| then (None, s)
          else (None, EditCwd(s, dir.(children := Some(cs[k := cs[k].(name := newName)]))))
  }

  /** `rm(args)` and `rmdir(args)`: drops every child called `args[0]` of the given kind. */
  function RemoveStep(s: TreeState, args: seq<string>, kind: FileType): (Option<string>, TreeState) {
    if |args| < 1 then (Some(Help([if kind == FileKind then "rm" else "rmdir"])), s)
    else
      match NodeAt(s.root, s.currentPath)
      case None => (None, s)
      case Some(dir) =>
        if dir.children.None? then (None, s)
        else (None, EditCwd(s, dir.(children := Some(WithoutNamed(dir.children.value, args[0], kind)))))
  }

  /** `writeFile(name, content)`: only an existing file called `name` gets the content. */
  function WriteFileStep(s: TreeState, name: string, content: string): TreeState {
    match NodeAt(s.root, s.currentPath)
    case None => s
    case Some(dir) =>
      if dir.children.None? then s
      else
        var cs := dir.children.value;
        var k := FindNamed(cs, name);
        if k == |cs| || cs[k].kind != FileKind then s
        else EditCwd(s, dir.(children := Some(cs[k := cs[k].(content := Some(content))])))
  }

  /** `cat(args)`: the content of the first file called `args[0]`, `""` for none or an empty one. */
  function CatText(s: TreeState, args: seq<string>): string {
    if |args| < 1 then Help(["cat"])
    else
      var name := args[0];
      var cs := ChildrenOf(CurrentDirectory(s));
      var k := FindOfKind(cs, name, FileKind);
      if CurrentDirectory(s).children.None? || k == |cs| then "cat: file not found: " + name
      else if cs[k].content.None? then "" else cs[k].content.value
  }

  // ---------------------------------------------------------------------
  // The store

  class FileTreeStore {
    var root: FileNode
    var currentPath: seq<string>
    var currentNode: Option<FileNode>
    var selectedNodeId: Option<string>
    var error: Option<string>

    function St(): TreeState
      reads this
    {
      TreeState(root, currentPath, currentNode, selectedNodeId, error)
    }

    predicate Valid()
      reads this
    {
      ValidTree(St())
    }

    constructor(rootId: string)
      ensures St() == InitialTree(rootId)
      ensures Valid()
    {
      root := FileNode(rootId, "/", DirectoryKind, Some([]), None);
      currentPath := [];
      currentNode := None;
      selectedNodeId := None;
      error := None;
    }

    method GetNodeAtPath(path: seq<string>) returns (r: Option<FileNode>)
      ensures r == NodeAt(root, path)
    {
      r := GetNodeAtPathHelper(root, path);
    }

    /** `getCurrentDirectory()`; the fall-back to the root is never taken while the store is valid. */
    method GetCurrentDirectory() returns (d: FileNode)
      requires Valid()
      ensures d == CurrentDirectory(St())
      ensures NodeAt(root, currentPath) == Some(d) && d.kind == DirectoryKind
    {
      var n := GetNodeAtPath(currentPath);
      d := n.value;
    }

    method Cd(args: seq<string>) returns (r: Option<string>)
      requires Valid()
      modifies this
      ensures Valid()
      ensures (r, St()) == CdStep(old(St()), args)
    {
      if |args| < 1 {
        return Some(Help(["cd"]));
      }
      var newPath := CdTargetPath(St(), args[0]);
      var node := GetNodeAtPath(newPath);
      if node.None? || node.value.kind != DirectoryKind {
        return Some("cd: not a directory");
      }
      currentPath := newPath;
      currentNode := node;
      r := None;
    }

    method Ls() returns (r: seq<FileNode>)
      requires Valid()
      ensures r == LsNodes(St())
    {
      var dir := GetCurrentDirectory();
      r := ChildrenOf(dir);
    }

    method Mkdir(args: seq<string>, freshId: string) returns (r: Option<string>)
      requires Valid()
      modifies this
      ensures Valid()
      ensures (r, St()) == MkdirStep(old(St()), args, freshId)
    {
      if |args| < 1 {
        return Some(Help(["mkdir"]));
      }
      var name := args[0];
      var dir := GetNodeAtPathHelper(root, currentPath);
      var cs := ChildrenOf(dir.value);
      if FindNamed(cs, name) < |cs| {
        error := Some("mkdir: already exists");
        return None;
      }
      var dir2 := dir.value.(children := Some(cs + [NewDirectory(freshId, name)]));
      EditCwdValid(St(), dir2);
      root := ReplaceNode(root, currentPath, dir2);
      r := None;
    }

    method Touch(args: seq<string>, freshId: string) returns (r: Option<string>)
      requires Valid()
      modifies this
      ensures Valid()
      ensures (r, St()) == TouchStep(old(St()), args, freshId)
    {
      if |args| < 1 {
        return Some(Help(["touch"]));
      }
      var name := args[0];
      var content := Join(args[1..], " ");
      var dir := GetNodeAtPathHelper(root, currentPath);
      var cs := ChildrenOf(dir.value);
      if FindNamed(cs, name) < |cs| {
        error := Some("touch: already exists");
        return None;
      }
      var dir2 := dir.value.(children := Some(cs + [NewFile(freshId, name, content)]));
      EditCwdValid(St(), dir2);
      root := ReplaceNode(root, currentPath, dir2);
      r := None;
    }

    method Rename(args: seq<string>) returns (r: Option<string>)
      requires Valid()
      modifies this
      ensures Valid()
      ensures (r, St()) == RenameStep(old(St()), args)
    {
      if |args| < 2 {
        return Some(Help(["rename"]));
      }
      var dir := GetNodeAtPathHelper(root, currentPath);
      if dir.value.children.None? {
        return None;
      }
      var cs := dir.value.children.value;
      var k := FindNamed(cs, args[0]);
      if k == |cs| {
        return None;
      }
      var dir2 := dir.value.(children := Some(cs[k := cs[k].(name := args[1])]));
      EditCwdValid(St(), dir2);
      root := ReplaceNode(root, currentPath, dir2);
      r := None;
    }

    /** `rm(args)` for `FileKind`, `rmdir(args)` for `DirectoryKind`. */
    method Remove(args: seq<string>, kind: FileType) returns (r: Option<string>)
      requires Valid()
      modifies this
      ensures Valid()
      ensures (r, St()) == RemoveStep(old(St()), args, kind)
    {
      if |args| < 1 {
        return Some(Help([if kind == FileKind then "rm" else "rmdir"]));
      }
      var dir := GetNodeAtPathHelper(root, currentPath);
      if dir.value.children.None? {
        return None;
      }
      var dir2 := dir.value.(children := Some(WithoutNamed(dir.value.children.value, args[0], kind)));
      EditCwdValid(St(), dir2);
      root := ReplaceNode(root, currentPath, dir2);
      r := None;
    }

    method WriteFile(name: string, content: string)
      requires Valid()
      modifies this
      ensures Valid()
      ensures St() == WriteFileStep(old(St()), name, content)
    {
      var dir := GetNodeAtPathHelper(root, currentPath);
      if dir.value.children.None? {
        return;
      }
      var cs := dir.value.children.value;
      var k := FindNamed(cs, name);
      if k == |cs| || cs[k].kind != FileKind {
        return;
      }
      var dir2 := dir.value.(children := Some(cs[k := cs[k].(content := Some(content))]));
      EditCwdValid(St(), dir2);
      root := ReplaceNode(root, currentPath, dir2);
    }

    method Cat(args: seq<string>) returns (r: string)
      requires Valid()
      ensures r == CatText(St(), args)
    {
      if |args| < 1 {
        return Help(["cat"]);
      }
      var dir := GetCurrentDirectory();
      var cs := ChildrenOf(dir);
      var k := FindOfKind(cs, args[0], FileKind);
      if dir.children.None? || k == |cs| {
        return "cat: file not found: " + args[0];
      }
      r := if cs[k].content.None? then "" else cs[k].content.value;
    }

    method SelectNode(id: Option<string>)
      modifies this
      ensures St() == old(St()).(selectedNodeId := id)
    {
      selectedNodeId := id;
    }
  }

  // ---------------------------------------------------------------------
  // Lemmas the store's methods rely on

  /** A node found by a non-empty path carries the path's last name. */
  lemma {:induction false} NodeAtName(n: FileNode, p: seq<string>)
    requires p != [] && NodeAt(n, p).Some?
    ensures NodeAt(n, p).value.name == p[|p| - 1]
    decreases |p|
  {
    var cs := n.children.value;
    var k := FindNamed(cs, p[0]);
    if |p| > 1 {
      NodeAtName(cs[k], p[1..]);
    }
  }

  /** Two child lists with the same names find the same first index for every name. */
  lemma {:induction false} FindSameNames(cs: seq<FileNode>, ds: seq<FileNode>, name: string)
    requires |cs| == |ds|
    requires forall i :: 0 <= i < |cs| ==> cs[i].name == ds[i].name
    ensures FindNamed(cs, name) == FindNamed(ds, name)
  {
    if |cs| > 0 && cs[0].name != name {
      FindSameNames(cs[1..], ds[1..], name);
    }
  }

  /** With a non-empty path, the replacement keeps the name and the kind of the root. */
  lemma ReplaceNodeShape(n: FileNode, p: seq<string>, m: FileNode)
    requires p != []
    ensures ReplaceNode(n, p, m).name == n.name && ReplaceNode(n, p, m).kind == n.kind
  {
  }

  /** After replacing the node found at `p` by `m`, which carries the same name, `p` leads to `m`. */
  lemma {:induction false} NodeAtReplaced(n: FileNode, p: seq<string>, m: FileNode)
    requires NodeAt(n, p).Some?
    requires p != [] ==> m.name == p[|p| - 1]
    ensures NodeAt(ReplaceNode(n, p, m), p) == Some(m)
    decreases |p|
  {
    if |p| > 0 {
      var cs := n.children.value;
      var k := FindNamed(cs, p[0]);
      var c := ReplaceNode(cs[k], p[1..], m);
      var ds := cs[k := c];
      if |p| > 1 {
        ReplaceNodeShape(cs[k], p[1..], m);
        assert p[1..][|p[1..]| - 1] == p[|p| - 1];
      }
      FindSameNames(cs, ds, p[0]);
      NodeAtReplaced(cs[k], p[1..], m);
    }
  }

  /** Replacing the current directory by a directory keeps the store valid, and the current path leads to the replacement. */
  lemma EditCwdValid(s: TreeState, dir2: FileNode)
    requires ValidTree(s)
    requires dir2.kind == DirectoryKind && dir2.name == NodeAt(s.root, s.currentPath).value.name
    ensures ValidTree(EditCwd(s, dir2))
    ensures NodeAt(EditCwd(s, dir2).root, s.currentPath) == Some(dir2)
  {
    if s.currentPath != [] {
      NodeAtName(s.root, s.currentPath);
    }
    NodeAtReplaced(s.root, s.currentPath, dir2);
  }
}
