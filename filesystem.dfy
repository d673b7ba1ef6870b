/**
 * The virtual file system of src/lib/fileSystem.ts: path normalisation, the
 * seed tree, the shell-level operations (`cd`, `ls`, `pwd`, `cat`, `mkdir`,
 * `touch`, `rm`, `getFileContent`, `setFileContent`, `listDirectory`) and the
 * `VirtualFileSystem` object that owns a tree and a current directory.
 *
 * Each operation that changes the object is specified by a `...Step` function
 * from the old `State` to a result and the new `State`; the queries are
 * functions of the `State`. The methods of `VirtualFileSystem` follow the
 * source's own steps (normalise, split, pop, look the parent up again by its
 * path) and are proved to agree with those functions.
 */
module FileSystem {
  import opened Wrappers
  import opened Strings
  import opened FsTree
  import opened Sorting

  const Home: string := "/home/user"
  const HomeSegs: seq<string> := ["home", "user"]
  const ESC: char := '\U{1B}'

  /** `{ success, output?, error? }`: a success carries its output ("" when there is none). */
  datatype FsResult = Ok(output: string) | Err(error: string)

  /** The observable state of a `VirtualFileSystem`. */
  datatype State = State(root: Node, cwd: string)

  datatype Entry = Entry(name: string, kind: Kind)

  // ---------------------------------------------------------------------
  // The seed tree

  function F(name: string, content: string): Node { File(name, content) }
  function D(name: string, children: seq<Node>): Node { Dir(name, children) }

  const UserDir: Node :=
    D("user", [
      D("Desktop", [
        F("readme.txt", "Bienvenue sur Linux Simulator!\n\nCe simulateur vous permet de découvrir Linux de manière interactive.\n\nAmusez-vous bien!")]),
      D("Documents", [
        F("notes.txt", "Mes notes personnelles\n\n- Apprendre les commandes Linux\n- Explorer le terminal\n- Découvrir Linux"),
        F("todo.txt", "TODO List:\n\n[ ] Maîtriser la commande ls\n[ ] Comprendre cd et pwd\n[ ] Créer des fichiers avec touch\n[ ] Lire des fichiers avec cat")]),
      D("Downloads", []),
      D("Pictures", [D("wallpapers", [])]),
      D("Music", []),
      D("Videos", []),
      F(".bashrc", "# ~/.bashrc: executed by bash(1) for non-login shells.\n\n# If not running interactively, don't do anything\ncase $- in\n    *i*) ;;\n      *) return;;\nesac\n\n# Alias definitions\nalias ll='ls -la'\nalias la='ls -A'\nalias l='ls -CF'"),
      F(".profile", "# ~/.profile: executed by the command interpreter for login shells.\n\n# set PATH so it includes user's private bin if it exists\nif [ -d \"$HOME/bin\" ] ; then\n    PATH=\"$HOME/bin:$PATH\"\nfi")])

  const EtcDir: Node :=
    D("etc", [
      F("hostname", "linux-sim"),
      F("passwd", "root:x:0:0:root:/root:/bin/bash\nuser:x:1000:1000:User:/home/user:/bin/bash"),
      F("os-release", "NAME=\"Linux Simulator\"\nVERSION=\"24.04 LTS (Noble Numbat)\"\nID=linux\nID_LIKE=linux\nPRETTY_NAME=\"Linux Simulator\"\nVERSION_ID=\"24.04\"\nHOME_URL=\"https://www.linux.org/\"\nSUPPORT_URL=\"https://help.linux.org/\"")])

  const VarDir: Node :=
    D("var", [
      D("log", [
        F("syslog", "Dec  5 10:00:00 linux-sim systemd[1]: Started Linux Simulator.\nDec  5 10:00:01 linux-sim kernel: Welcome to Linux Simulator!")])])

  const UsrDir: Node :=
    D("usr", [
      D("bin", []),
      D("share", [D("doc", [])])])

  /** `initialFileSystem`, children in the order the source lists them. */
  const InitialTree: Node :=
    D("/", [D("home", [UserDir]), EtcDir, VarDir, UsrDir, D("tmp", [])])

  const Initial: State := State(InitialTree, Home)

  // ---------------------------------------------------------------------
  // Paths

  /** One step of the normalisation loop: `.` is skipped, `..` pops (nothing at the root), a name is pushed. */
  function ResolveStep(acc: seq<string>, part: string): seq<string> {
    if part == "." then acc
    else if part == ".." then (if |acc| == 0 then acc else acc[..|acc| - 1])
    else acc + [part]
  }

  function Resolve(acc: seq<string>, parts: seq<string>): seq<string>
    decreases |parts|
  {
    if |parts| == 0 then acc else Resolve(ResolveStep(acc, parts[0]), parts[1..])
  }

  /** Segments of a normalised path: real names, no `.` and no `..`. */
  predicate Canonical(segs: seq<string>) {
    forall i :: 0 <= i < |segs| ==> IsSegment(segs[i]) && segs[i] != "." && segs[i] != ".."
  }

  /** The path made absolute: `~` expands to the home directory, a relative path hangs off `cwd`. */
  function Absolute(path: string, cwd: string): string {
    var p := if StartsWith(path, "~") then Home + path[1..] else path;
    if StartsWith(p, "/") then p else cwd + "/" + p
  }

  /** The segments of the normalised path. */
  function NormSegs(path: string, cwd: string): seq<string> {
    Resolve([], Segments(Absolute(path, cwd)))
  }

  /** `normalizePath`. */
  function NormalizePath(path: string, cwd: string): string {
    "/" + Join(NormSegs(path, cwd), "/")
  }

  /** A path `normalizePath` can return. */
  predicate Normalized(p: string) {
    Canonical(Segments(p)) && p == "/" + Join(Segments(p), "/")
  }

  /** `getNode`: the node a path names, if any. */
  function GetNode(root: Node, cwd: string, path: string): Option<Node> {
    var normalized := NormalizePath(path, cwd);
    if normalized == "/" then Some(root) else GetAt(root, Segments(normalized))
  }

  lemma {:induction false} SegmentsAreSegments(s: string)
    ensures forall i :: 0 <= i < |Segments(s)| ==> IsSegment(Segments(s)[i])
  {
    var parts := Split(s, '/');
    forall i | 0 <= i < |Segments(s)|
      ensures IsSegment(Segments(s)[i])
    {
      var x := Segments(s)[i];
      assert x in parts;
      var j :| 0 <= j < |parts| && parts[j] == x;
    }
  }

  lemma {:induction false} ResolveCanonical(acc: seq<string>, parts: seq<string>)
    requires Canonical(acc)
    requires forall i :: 0 <= i < |parts| ==> IsSegment(parts[i])
    ensures Canonical(Resolve(acc, parts))
    decreases |parts|
  {
    if |parts| > 0 {
      ResolveCanonical(ResolveStep(acc, parts[0]), parts[1..]);
    }
  }

  lemma {:induction false} ResolveOfCanonical(acc: seq<string>, parts: seq<string>)
    requires Canonical(parts)
    ensures Resolve(acc, parts) == acc + parts
    decreases |parts|
  {
    if |parts| == 0 {
      assert acc + parts == acc;
    } else {
      ResolveOfCanonical(acc + [parts[0]], parts[1..]);
      assert acc + [parts[0]] + parts[1..] == acc + parts;
    }
  }

  lemma {:induction false} ResolveAppend(acc: seq<string>, a: seq<string>, b: seq<string>)
    ensures Resolve(acc, a + b) == Resolve(Resolve(acc, a), b)
    decreases |a|
  {
    if |a| == 0 {
      assert a + b == b;
    } else {
      assert (a + b)[0] == a[0];
      assert (a + b)[1..] == a[1..] + b;
      ResolveAppend(ResolveStep(acc, a[0]), a[1..], b);
    }
  }

  /** The normalised path is made of canonical segments, which splitting it gives back. */
  lemma NormalizeShape(path: string, cwd: string)
    ensures Canonical(NormSegs(path, cwd))
    ensures Segments(NormalizePath(path, cwd)) == NormSegs(path, cwd)
    ensures Normalized(NormalizePath(path, cwd))
  {
    SegmentsAreSegments(Absolute(path, cwd));
    ResolveCanonical([], Segments(Absolute(path, cwd)));
    SegmentsOfJoin(NormSegs(path, cwd));
  }

  /** A normalised path is its own normalisation, whatever the current directory. */
  lemma NormalizedFixpoint(p: string, cwd: string)
    requires Normalized(p)
    ensures NormSegs(p, cwd) == Segments(p)
    ensures NormalizePath(p, cwd) == p
  {
    assert p[0] == '/';
    assert !StartsWith(p, "~");
    assert StartsWith(p, "/");
    ResolveOfCanonical([], Segments(p));
  }

  /** `normalizePath` is idempotent. */
  lemma NormalizeIdempotent(path: string, cwd: string, cwd2: string)
    ensures NormalizePath(NormalizePath(path, cwd), cwd2) == NormalizePath(path, cwd)
    ensures NormSegs(NormalizePath(path, cwd), cwd2) == NormSegs(path, cwd)
  {
    NormalizeShape(path, cwd);
    NormalizedFixpoint(NormalizePath(path, cwd), cwd2);
  }

  /** `getNode` follows the segments of the normalised path from the root. */
  lemma GetNodeSegs(root: Node, cwd: string, path: string)
    ensures GetNode(root, cwd, path) == GetAt(root, NormSegs(path, cwd))
  {
    NormalizeShape(path, cwd);
    if NormalizePath(path, cwd) == "/" {
      assert Split("/", '/') == ["", ""];
    }
  }

  /** A relative path is resolved against the segments of the current directory. */
  lemma NormalizeRelative(path: string, cwd: string)
    requires Normalized(cwd)
    requires !StartsWith(path, "~") && !StartsWith(path, "/")
    ensures NormSegs(path, cwd) == Resolve(Segments(cwd), Segments(path))
  {
    assert Absolute(path, cwd) == cwd + "/" + path;
    var sc := Segments(cwd);
    var sp := Segments(path);
    SegmentsConcat(cwd, path);
    assert Segments(cwd + "/" + path) == sc + sp;
    ResolveAppend([], sc, sp);
    ResolveOfCanonical([], sc);
    assert [] + sc == sc;
  }

  /** `..` names the parent of the current directory, and the root is its own parent. */
  lemma ParentOfCwd(cwd: string)
    requires Normalized(cwd)
    ensures var segs := Segments(cwd);
      NormSegs("..", cwd) == if segs == [] then [] else segs[..|segs| - 1]
  {
    assert ".."[0] == '.';
    NormalizeRelative("..", cwd);
    SplitNoSep("..", '/');
    assert Segments("..") == [".."];
  }

  lemma HomeSegments()
    ensures Segments(Home) == HomeSegs
    ensures Normalized(Home)
  {
    assert Join(HomeSegs, "/") == "home/user";
    SegmentsOfJoin(HomeSegs);
    assert "/" + Join(HomeSegs, "/") == Home;
  }

  /** `~` alone names the home directory, from anywhere. */
  lemma TildeIsHome(cwd: string)
    ensures NormSegs("~", cwd) == HomeSegs
  {
    assert "~"[1..] == "";
    assert Home + "" == Home;
    assert Home[0] == '/';
    assert Absolute("~", cwd) == Home;
    HomeSegments();
    ResolveOfCanonical([], HomeSegs);
  }

  // ---------------------------------------------------------------------
  // Operations, as functions of the state

  /** `cd`. */
  function CdStep(s: State, path: string): (FsResult, State) {
    match GetAt(s.root, NormSegs(path, s.cwd))
    case None => (Err("cd: " + path + ": No such file or directory"), s)
    case Some(File(_, _)) => (Err("cd: " + path + ": Not a directory"), s)
    case Some(Dir(_, _)) => (Ok(""), s.(cwd := NormalizePath(path, s.cwd)))
  }

  function Colored(name: string): string {
    [ESC] + "[34m" + name + [ESC] + "[0m"
  }

  function DisplayName(c: Node): string {
    if c.Dir? then Colored(c.name) else c.name
  }

  function SizeField(c: Node): string {
    if c.File? then PadStart(NatToString(Utf16Length(c.content)), 8) else "    4096"
  }

  function LongLine(c: Node): string {
    (if c.Dir? then "d" else "-") + "rwxr-xr-x 1 user user " + SizeField(c) + " Dec  5 10:00 " + DisplayName(c)
  }

  /** Names not starting with a dot. */
  function Visible(names: seq<string>): seq<string> {
    if |names| == 0 then []
    else if StartsWith(names[0], ".") then Visible(names[1..])
    else [names[0]] + Visible(names[1..])
  }

  /** Without `-a`, `ls` keeps each name not starting with a dot as often as it occurs, and drops the others. */
  lemma {:induction false} VisibleCounts(names: seq<string>, x: string)
    ensures multiset(Visible(names))[x] == if StartsWith(x, ".") then 0 else multiset(names)[x]
  {
    if |names| > 0 {
      VisibleCounts(names[1..], x);
      assert names == [names[0]] + names[1..];
    }
  }

  /** The names `ls` lists, in the order it lists them. */
  function LsNames(cs: seq<Node>, showHidden: bool): seq<string> {
    Sort(if showHidden then Names(cs) else Visible(Names(cs)), StrLe)
  }

  /** The child a name stands for (the name is one of the children's). */
  function Lookup(cs: seq<Node>, name: string): Node {
    var k := IndexOf(cs, name);
    if k < |cs| then cs[k] else File(name, "")
  }

  function LsItems(cs: seq<Node>, names: seq<string>, longFormat: bool): (r: seq<string>)
    ensures |r| == |names|
  {
    if |names| == 0 then []
    else
      var c := Lookup(cs, names[0]);
      [if longFormat then LongLine(c) else DisplayName(c)] + LsItems(cs, names[1..], longFormat)
  }

  /** `ls`: an empty `path` stands for the current directory, as `path || currentPath` does. */
  function LsOutput(s: State, path: string, showHidden: bool, longFormat: bool): FsResult {
    var target := if path == "" then s.cwd else path;
    match GetNode(s.root, s.cwd, target)
    case None => Err("ls: cannot access '" + target + "': No such file or directory")
    case Some(File(name, _)) => Ok(name)
    case Some(Dir(_, cs)) =>
      Ok(Join(LsItems(cs, LsNames(cs, showHidden), longFormat), if longFormat then "\n" else "  "))
  }

  /** `cat`. */
  function CatOutput(s: State, path: string): FsResult {
    match GetNode(s.root, s.cwd, path)
    case None => Err("cat: " + path + ": No such file or directory")
    case Some(Dir(_, _)) => Err("cat: " + path + ": Is a directory")
    case Some(File(_, content)) => Ok(content)
  }

  /** `mkdir`. */
  function MkdirStep(s: State, path: string): (FsResult, State) {
    var segs := NormSegs(path, s.cwd);
    if |segs| == 0 then (Err("mkdir: missing operand"), s)
    else
      var parent := segs[..|segs| - 1];
      var name := segs[|segs| - 1];
      var fail := "mkdir: cannot create directory '" + path + "': ";
      match GetAt(s.root, parent)
      case None => (Err(fail + "No such file or directory"), s)
      case Some(File(_, _)) => (Err(fail + "Not a directory"), s)
      case Some(Dir(pn, cs)) =>
        if HasChild(cs, name) then (Err(fail + "File exists"), s)
        else (Ok(""), s.(root := ReplaceAt(s.root, parent, Dir(pn, cs + [Dir(name, [])]))))
  }

  /** `touch`: creates an empty file unless the name is already taken, and succeeds either way. */
  function TouchStep(s: State, path: string): (FsResult, State) {
    var segs := NormSegs(path, s.cwd);
    if |segs| == 0 then (Err("touch: missing file operand"), s)
    else
      var parent := segs[..|segs| - 1];
      var name := segs[|segs| - 1];
      var fail := "touch: cannot touch '" + path + "': ";
      match GetAt(s.root, parent)
      case None => (Err(fail + "No such file or directory"), s)
      case Some(File(_, _)) => (Err(fail + "Not a directory"), s)
      case Some(Dir(pn, cs)) =>
        if HasChild(cs, name) then (Ok(""), s)
        else (Ok(""), s.(root := ReplaceAt(s.root, parent, Dir(pn, cs + [File(name, "")]))))
  }

  /** `rm`: a directory goes only with `recursive`. */
  function RmStep(s: State, path: string, recursive: bool): (FsResult, State) {
    var segs := NormSegs(path, s.cwd);
    if |segs| == 0 then (Err("rm: missing operand"), s)
    else
      var parent := segs[..|segs| - 1];
      var name := segs[|segs| - 1];
      var fail := "rm: cannot remove '" + path + "': ";
      var found := GetAt(s.root, parent);
      if found.None? || !found.value.Dir? then (Err(fail + "No such file or directory"), s)
      else
        var cs := found.value.children;
        var k := IndexOf(cs, name);
        if k == |cs| then (Err(fail + "No such file or directory"), s)
        else if cs[k].Dir? && !recursive then (Err(fail + "Is a directory"), s)
        else (Ok(""), s.(root := ReplaceAt(s.root, parent, Dir(found.value.name, cs[..k] + cs[k + 1..]))))
  }

  /** `getFileContent`: the content of a file, `None` for a directory or a missing path. */
  function FileContent(s: State, path: string): Option<string> {
    match GetNode(s.root, s.cwd, path)
    case Some(File(_, content)) => Some(content)
    case _ => None
  }

  /** `setFileContent`: overwrites an existing file only. */
  function SetContentStep(s: State, path: string, content: string): (bool, State) {
    var segs := NormSegs(path, s.cwd);
    match GetAt(s.root, segs)
    case Some(File(name, _)) => (true, s.(root := ReplaceAt(s.root, segs, File(name, content))))
    case _ => (false, s)
  }

  function Entries(cs: seq<Node>): (r: seq<Entry>)
    ensures |r| == |cs|
    ensures forall i :: 0 <= i < |cs| ==> r[i] == Entry(cs[i].name, KindOf(cs[i]))
  {
    if |cs| == 0 then [] else [Entry(cs[0].name, KindOf(cs[0]))] + Entries(cs[1..])
  }

  /** `listDirectory`: the entries of a directory in insertion order, `[]` for anything else. */
  function Listing(s: State, path: string): seq<Entry> {
    var target := if path == "" then s.cwd else path;
    match GetNode(s.root, s.cwd, target)
    case Some(Dir(_, cs)) => Entries(cs)
    case _ => []
  }

  /** The invariant of a `VirtualFileSystem`: a well-formed directory tree and a normalised current path. */
  predicate ValidState(s: State) {
    s.root.Dir? && WellFormed(s.root) && Normalized(s.cwd)
  }

  // ---------------------------------------------------------------------
  // The object

  class VirtualFileSystem {
    var root: Node
    var currentPath: string

    ghost predicate Valid()
      reads this
    {
      ValidState(St())
    }

    function St(): State
      reads this
    {
      State(root, currentPath)
    }

    constructor()
      ensures Valid()
      ensures St() == Initial
    {
      root := InitialTree;
      currentPath := Home;
      new;
      InitialValid();
    }

    /** `pwd` / `getCurrentPath`. */
    method Pwd() returns (r: string)
      requires Valid()
      ensures r == currentPath
      ensures Normalized(r)
    {
      r := currentPath;
    }

    method Cd(path: string) returns (r: FsResult)
      requires Valid()
      modifies this
      ensures Valid()
      ensures (r, St()) == CdStep(old(St()), path)
    {
      var normalizedPath := NormalizePath(path, currentPath);
      var node := GetNode(root, currentPath, normalizedPath);
      GetNodeSegs(root, currentPath, normalizedPath);
      NormalizeIdempotent(path, currentPath, currentPath);
      NormalizeShape(path, currentPath);
      match node {
        case None =>
          r := Err("cd: " + path + ": No such file or directory");
        case Some(File(_, _)) =>
          r := Err("cd: " + path + ": Not a directory");
        case Some(Dir(_, _)) =>
          currentPath := normalizedPath;
          r := Ok("");
      }
    }

    /** The steps `mkdir`, `touch` and `rm` share: the new entry's name and its parent's path. */
    method SplitLast(path: string) returns (name: string, parts: seq<string>, parentPath: string)
      requires Valid()
      requires NormSegs(path, currentPath) != []
      ensures var segs := NormSegs(path, currentPath);
        name == segs[|segs| - 1] && parts == segs[..|segs| - 1]
        && GetNode(root, currentPath, parentPath) == GetAt(root, parts)
    {
      var normalizedPath := NormalizePath(path, currentPath);
      NormalizeShape(path, currentPath);
      parts := Segments(normalizedPath);
      name := parts[|parts| - 1];
      parts := parts[..|parts| - 1];
      assert Canonical(parts);
      parentPath := "/" + Join(parts, "/");
      SegmentsOfJoin(parts);
      assert Normalized(parentPath);
      NormalizedFixpoint(parentPath, currentPath);
      GetNodeSegs(root, currentPath, parentPath);
    }

    method Mkdir(path: string) returns (r: FsResult)
      requires Valid()
      modifies this
      ensures Valid()
      ensures (r, St()) == MkdirStep(old(St()), path)
    {
      if NormSegs(path, currentPath) == [] {
        return Err("mkdir: missing operand");
      }
      var dirName, parts, parentPath := SplitLast(path);
      var fail := "mkdir: cannot create directory '" + path + "': ";
      match GetNode(root, currentPath, parentPath) {
        case None =>
          r := Err(fail + "No such file or directory");
        case Some(File(_, _)) =>
          r := Err(fail + "Not a directory");
        case Some(Dir(pn, cs)) =>
          if HasChild(cs, dirName) {
            r := Err(fail + "File exists");
          } else {
            AddChildValid(St(), parts, Dir(dirName, []));
            root := ReplaceAt(root, parts, Dir(pn, cs + [Dir(dirName, [])]));
            r := Ok("");
          }
      }
    }

    method Touch(path: string) returns (r: FsResult)
      requires Valid()
      modifies this
      ensures Valid()
      ensures (r, St()) == TouchStep(old(St()), path)
    {
      if NormSegs(path, currentPath) == [] {
        return Err("touch: missing file operand");
      }
      var fileName, parts, parentPath := SplitLast(path);
      var fail := "touch: cannot touch '" + path + "': ";
      match GetNode(root, currentPath, parentPath) {
        case None =>
          r := Err(fail + "No such file or directory");
        case Some(File(_, _)) =>
          r := Err(fail + "Not a directory");
        case Some(Dir(pn, cs)) =>
          if !HasChild(cs, fileName) {
            AddChildValid(St(), parts, File(fileName, ""));
            root := ReplaceAt(root, parts, Dir(pn, cs + [File(fileName, "")]));
          }
          r := Ok("");
      }
    }

    method Rm(path: string, recursive: bool) returns (r: FsResult)
      requires Valid()
      modifies this
      ensures Valid()
      ensures (r, St()) == RmStep(old(St()), path, recursive)
    {
      if NormSegs(path, currentPath) == [] {
        return Err("rm: missing operand");
      }
      var targetName, parts, parentPath := SplitLast(path);
      var fail := "rm: cannot remove '" + path + "': ";
      var parent := GetNode(root, currentPath, parentPath);
      assert parent == GetAt(root, parts);
      if parent.None? || !parent.value.Dir? {
        return Err(fail + "No such file or directory");
      }
      var cs := parent.value.children;
      var k := IndexOf(cs, targetName);
      if k == |cs| {
        return Err(fail + "No such file or directory");
      }
      if cs[k].Dir? && !recursive {
        return Err(fail + "Is a directory");
      }
      RemoveChildValid(St(), parts, k);
      root := ReplaceAt(root, parts, Dir(parent.value.name, cs[..k] + cs[k + 1..]));
      r := Ok("");
    }

    method SetFileContent(path: string, content: string) returns (r: bool)
      requires Valid()
      modifies this
      ensures Valid()
      ensures (r, St()) == SetContentStep(old(St()), path, content)
    {
      GetNodeSegs(root, currentPath, path);
      NormalizeShape(path, currentPath);
      var segs := Segments(NormalizePath(path, currentPath));
      match GetNode(root, currentPath, path) {
        case Some(File(name, _)) =>
          SetContentValid(St(), segs, content);
          root := ReplaceAt(root, segs, File(name, content));
          r := true;
        case _ =>
          r := false;
      }
    }
  }

  // ---------------------------------------------------------------------
  // Invariant preservation

  lemma InitialValid()
    ensures ValidState(Initial)
  {
    InitialTreeWellFormed();
    HomeSegments();
  }

  lemma InitialTreeWellFormed()
    ensures WellFormed(InitialTree)
  {
    UserDirWellFormed();
    SystemDirsWellFormed();
    TopNamesDistinct();
    assert WellFormed(D("home", [UserDir]));
  }

  lemma SystemDirsWellFormed()
    ensures WellFormed(EtcDir) && WellFormed(VarDir) && WellFormed(UsrDir)
  {
  }

  lemma UserDirWellFormed()
    ensures WellFormed(UserDir)
  {
    UserChildrenWellFormed();
    UserNamesDistinct();
  }

  lemma UserChildrenWellFormed()
    ensures forall i :: 0 <= i < |UserDir.children| ==> WellFormed(UserDir.children[i])
  {
  }

  lemma UserNamesDistinct()
    ensures DistinctNames(UserDir.children)
  {
    var us := UserDir.children;
    var names := ["Desktop", "Documents", "Downloads", "Pictures", "Music", "Videos", ".bashrc", ".profile"];
    assert forall i :: 0 <= i < |us| ==> us[i].name == names[i];
    assert forall i, j :: 0 <= i < j < |names| ==> names[i] != names[j];
  }

  lemma TopNamesDistinct()
    ensures DistinctNames(InitialTree.children)
  {
    var ts := InitialTree.children;
    var names := ["home", "etc", "var", "usr", "tmp"];
    assert forall i :: 0 <= i < |ts| ==> ts[i].name == names[i];
    assert forall i, j :: 0 <= i < j < |names| ==> names[i] != names[j];
  }

  /** Adding a child with a fresh name to a directory keeps the state valid. */
  lemma AddChildValid(s: State, parent: seq<string>, c: Node)
    requires ValidState(s)
    requires WellFormed(c)
    requires GetAt(s.root, parent).Some? && GetAt(s.root, parent).value.Dir?
    requires !HasChild(GetAt(s.root, parent).value.children, c.name)
    ensures var p := GetAt(s.root, parent).value;
      ValidState(s.(root := ReplaceAt(s.root, parent, Dir(p.name, p.children + [c]))))
  {
    var p := GetAt(s.root, parent).value;
    WellFormedGetAt(s.root, parent);
    if parent != [] {
      GetAtName(s.root, parent);
    }
    var cs := p.children + [c];
    assert forall i :: 0 <= i < |p.children| ==> cs[i] == p.children[i];
    ReplaceAtWellFormed(s.root, parent, Dir(p.name, cs));
  }

  /** Removing a child from a directory keeps the state valid. */
  lemma RemoveChildValid(s: State, parent: seq<string>, k: nat)
    requires ValidState(s)
    requires GetAt(s.root, parent).Some? && GetAt(s.root, parent).value.Dir?
    requires k < |GetAt(s.root, parent).value.children|
    ensures var p := GetAt(s.root, parent).value;
      ValidState(s.(root := ReplaceAt(s.root, parent, Dir(p.name, p.children[..k] + p.children[k + 1..]))))
  {
    var p := GetAt(s.root, parent).value;
    WellFormedGetAt(s.root, parent);
    if parent != [] {
      GetAtName(s.root, parent);
    }
    var cs := p.children[..k] + p.children[k + 1..];
    assert forall i :: 0 <= i < |cs| ==> cs[i] == p.children[if i < k then i else i + 1];
    ReplaceAtWellFormed(s.root, parent, Dir(p.name, cs));
  }

  /** Overwriting a file keeps the state valid. */
  lemma SetContentValid(s: State, segs: seq<string>, content: string)
    requires ValidState(s)
    requires GetAt(s.root, segs).Some? && GetAt(s.root, segs).value.File?
    ensures ValidState(s.(root := ReplaceAt(s.root, segs, File(GetAt(s.root, segs).value.name, content))))
  {
    if segs != [] {
      GetAtName(s.root, segs);
    }
    ReplaceAtWellFormed(s.root, segs, File(GetAt(s.root, segs).value.name, content));
  }

  /** Every node of a well-formed tree is well formed. */
  lemma {:induction false} WellFormedGetAt(n: Node, p: seq<string>)
    requires WellFormed(n) && GetAt(n, p).Some?
    ensures WellFormed(GetAt(n, p).value)
    decreases |p|
  {
    if |p| > 0 {
      WellFormedGetAt(n.children[IndexOf(n.children, p[0])], p[1..]);
    }
  }
}
