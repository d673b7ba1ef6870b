/**
 * What the store of ndi-app/stores/useFileTree.ts guarantees, stated over its
 * step functions.
 */
module FileTreeFacts {
  import opened Wrappers
  import opened Strings
  import opened FileTree

  // ---------------------------------------------------------------------
  // Paths

  /** Walking `p + q` is walking `p`, then `q`. */
  lemma {:induction false} NodeAtAppend(n: FileNode, p: seq<string>, q: seq<string>)
    ensures NodeAt(n, p + q) == match NodeAt(n, p) case None => None case Some(x) => NodeAt(x, q)
    decreases |p|
  {
    if |p| == 0 {
      assert p + q == q;
    } else if n.kind == DirectoryKind && n.children.Some? {
      var cs := n.children.value;
      var k := FindNamed(cs, p[0]);
      assert (p + q)[0] == p[0];
      assert (p + q)[1..] == p[1..] + q;
      if k < |cs| {
        NodeAtAppend(cs[k], p[1..], q);
      }
    }
  }

  /** The walk gives up for good once a step finds nothing or finds a file. */
  lemma NodeAtStops(n: FileNode, p: seq<string>, q: seq<string>)
    requires q != []
    requires NodeAt(n, p).None? || NodeAt(n, p).value.kind != DirectoryKind
    ensures NodeAt(n, p + q).None?
  {
    NodeAtAppend(n, p, q);
  }

  /** Replacing the node at `p` leaves every path that neither extends nor is extended by `p` alone. */
  lemma {:induction false} NodeAtElsewhere(n: FileNode, p: seq<string>, m: FileNode, q: seq<string>)
    requires p != [] ==> m.name == p[|p| - 1]
    requires !(p <= q) && !(q <= p)
    ensures NodeAt(ReplaceNode(n, p, m), q) == NodeAt(n, q)
    decreases |p|
  {
    assert p != [] && q != [];
    if n.kind == DirectoryKind && n.children.Some? {
      var cs := n.children.value;
      var k := FindNamed(cs, p[0]);
      if k < |cs| {
        var c := ReplaceNode(cs[k], p[1..], m);
        var ds := cs[k := c];
        if |p| > 1 {
          ReplaceNodeShape(cs[k], p[1..], m);
          assert p[1..][|p[1..]| - 1] == p[|p| - 1];
        }
        assert forall i :: 0 <= i < |cs| ==> cs[i].name == ds[i].name;
        FindSameNames(cs, ds, q[0]);
        var j := FindNamed(cs, q[0]);
        if p[0] == q[0] {
          assert !(p[1..] <= q[1..]) && !(q[1..] <= p[1..]);
          NodeAtElsewhere(cs[k], p[1..], m, q[1..]);
        } else if j < |cs| {
          assert j != k;
        }
      }
    }
  }

  /** Editing the current directory changes nothing outside it: paths that neither extend nor are extended by the current path lead where they did. */
  lemma EditCwdElsewhere(s: TreeState, dir2: FileNode, q: seq<string>)
    requires ValidTree(s) && dir2.name == NodeAt(s.root, s.currentPath).value.name
    requires !(s.currentPath <= q) && !(q <= s.currentPath)
    ensures NodeAt(EditCwd(s, dir2).root, q) == NodeAt(s.root, q)
  {
    if s.currentPath != [] {
      NodeAtName(s.root, s.currentPath);
    }
    NodeAtElsewhere(s.root, s.currentPath, dir2, q);
  }

  /** While the store is valid, `getCurrentDirectory()` never falls back to the root: it is the directory of the current path. */
  lemma CurrentDirectoryResolves(s: TreeState)
    requires ValidTree(s)
    ensures Some(CurrentDirectory(s)) == NodeAt(s.root, s.currentPath)
    ensures CurrentDirectory(s).kind == DirectoryKind
  {
  }

  // ---------------------------------------------------------------------
  // cd

  /** `cd` with a path moves exactly when the path leads to a directory; otherwise it answers `cd: not a directory` and changes nothing. */
  lemma CdOutcome(s: TreeState, args: seq<string>)
    requires |args| >= 1
    ensures var target := CdTargetPath(s, args[0]);
      var ok := NodeAt(s.root, target).Some? && NodeAt(s.root, target).value.kind == DirectoryKind;
      var (r, s2) := CdStep(s, args);
      (ok ==> r.None? && s2 == s.(currentPath := target, currentNode := NodeAt(s.root, target)) && ValidTree(s2))
      && (!ok ==> r == Some("cd: not a directory") && s2 == s)
  {
  }

  /** `cd` without arguments prints its help line. */
  lemma CdHelp(s: TreeState)
    ensures CdStep(s, []) == (Some("cd <path>                 \U{2014} change directory"), s)
  {
  }

  /** A name without `/` is looked up below the current directory, `.` and `..` included: `cd ..` never climbs. */
  lemma CdPlainName(s: TreeState, name: string)
    requires name != "" && '/' !in name
    ensures CdTargetPath(s, name) == s.currentPath + [name]
    ensures CdStep(s, [name]).0.None? ==> |CdStep(s, [name]).1.currentPath| == |s.currentPath| + 1
  {
    SplitNoSep(name, '/');
    assert Split(name, '/') == [name];
    assert NonEmpty([name]) == [name] + NonEmpty([]);
    assert !StartsWith(name, "/") by {
      assert name[0] != '/';
    }
  }

  /** An absolute path does not depend on the current directory. */
  lemma CdAbsolute(s: TreeState, t: TreeState, pathStr: string)
    requires StartsWith(pathStr, "/") && s.root == t.root
    ensures CdTargetPath(s, pathStr) == CdTargetPath(t, pathStr)
    ensures CdStep(s, [pathStr]).0 == CdStep(t, [pathStr]).0
  {
  }

  // ---------------------------------------------------------------------
  // mkdir and touch

  /** `mkdir name` with `name` absent appends exactly one empty directory at the end of the current directory and keeps the store valid. */
  lemma MkdirAppends(s: TreeState, args: seq<string>, freshId: string)
    requires ValidTree(s) && |args| >= 1
    requires FindNamed(LsNodes(s), args[0]) == |LsNodes(s)|
    ensures var (r, s2) := MkdirStep(s, args, freshId);
      r.None? && ValidTree(s2) && s2.currentPath == s.currentPath && s2.error == s.error
      && LsNodes(s2) == LsNodes(s) + [NewDirectory(freshId, args[0])]
  {
    var dir := NodeAt(s.root, s.currentPath).value;
    var dir2 := dir.(children := Some(ChildrenOf(dir) + [NewDirectory(freshId, args[0])]));
    EditCwdValid(s, dir2);
  }

  /** `mkdir` of a name already present leaves the tree alone, records the error in the store and answers nothing. */
  lemma MkdirDuplicate(s: TreeState, args: seq<string>, freshId: string)
    requires ValidTree(s) && |args| >= 1
    requires FindNamed(LsNodes(s), args[0]) < |LsNodes(s)|
    ensures MkdirStep(s, args, freshId) == (None, s.(error := Some("mkdir: already exists")))
  {
  }

  /** `touch name w1 w2 …` with `name` absent appends one file whose content is the words after the name, joined by single spaces. */
  lemma TouchAppends(s: TreeState, args: seq<string>, freshId: string)
    requires ValidTree(s) && |args| >= 1
    requires FindNamed(LsNodes(s), args[0]) == |LsNodes(s)|
    ensures var (r, s2) := TouchStep(s, args, freshId);
      r.None? && ValidTree(s2) && s2.currentPath == s.currentPath && s2.error == s.error
      && LsNodes(s2) == LsNodes(s) + [NewFile(freshId, args[0], Join(args[1..], " "))]
  {
    var dir := NodeAt(s.root, s.currentPath).value;
    var dir2 := dir.(children := Some(ChildrenOf(dir) + [NewFile(freshId, args[0], Join(args[1..], " "))]));
    EditCwdValid(s, dir2);
  }

  /** `touch` of a name already present, file or directory, leaves the tree alone and records the error. */
  lemma TouchDuplicate(s: TreeState, args: seq<string>, freshId: string)
    requires ValidTree(s) && |args| >= 1
    requires FindNamed(LsNodes(s), args[0]) < |LsNodes(s)|
    ensures TouchStep(s, args, freshId) == (None, s.(error := Some("touch: already exists")))
  {
  }

  /** A name absent from a list is found in the list extended by one entry of that name, at its end. */
  lemma {:induction false} FindOfKindAppended(cs: seq<FileNode>, c: FileNode, name: string)
    requires FindNamed(cs, name) == |cs| && c.name == name && c.kind == FileKind
    ensures FindOfKind(cs + [c], name, FileKind) == |cs|
  {
    if |cs| > 0 {
      assert (cs + [c])[1..] == cs[1..] + [c];
      FindOfKindAppended(cs[1..], c, name);
    }
  }

  /** A file made by `touch` is shown by `cat` with the content it was given. */
  lemma TouchThenCat(s: TreeState, args: seq<string>, freshId: string)
    requires ValidTree(s) && |args| >= 1
    requires FindNamed(LsNodes(s), args[0]) == |LsNodes(s)|
    ensures CatText(TouchStep(s, args, freshId).1, [args[0]]) == Join(args[1..], " ")
  {
    TouchAppends(s, args, freshId);
    var s2 := TouchStep(s, args, freshId).1;
    CurrentDirectoryResolves(s2);
    FindOfKindAppended(LsNodes(s), NewFile(freshId, args[0], Join(args[1..], " ")), args[0]);
  }

  // ---------------------------------------------------------------------
  // rename

  /** `rename old new` renames the first child called `old` and nothing else; without such a child it changes nothing. */
  lemma RenameEffect(s: TreeState, oldName: string, newName: string)
    requires ValidTree(s)
    ensures var cs := LsNodes(s);
      var k := FindNamed(cs, oldName);
      var (r, s2) := RenameStep(s, [oldName, newName]);
      r.None? && ValidTree(s2) && s2.currentPath == s.currentPath
      && (k == |cs| ==> s2 == s)
      && (k < |cs| ==> LsNodes(s2) == cs[k := cs[k].(name := newName)])
  {
    var dir := NodeAt(s.root, s.currentPath).value;
    if dir.children.Some? {
      var cs := dir.children.value;
      var k := FindNamed(cs, oldName);
      if k < |cs| {
        EditCwdValid(s, dir.(children := Some(cs[k := cs[k].(name := newName)])));
      }
    }
  }

  /** `rename` does not look at the other children: renaming onto a sibling's name leaves two children with that name. */
  lemma RenameCollides(s: TreeState, oldName: string, newName: string, j: nat)
    requires ValidTree(s)
    requires FindNamed(LsNodes(s), oldName) < |LsNodes(s)|
    requires j < |LsNodes(s)| && j != FindNamed(LsNodes(s), oldName) && LsNodes(s)[j].name == newName
    ensures var ds := LsNodes(RenameStep(s, [oldName, newName]).1);
      |ds| == |LsNodes(s)| && ds[j].name == newName && ds[FindNamed(LsNodes(s), oldName)].name == newName
  {
    RenameEffect(s, oldName, newName);
  }

  // ---------------------------------------------------------------------
  // rm and rmdir

  /** `rm name` drops the files called `name` and `rmdir name` the directories; the other children stay, in their order. */
  lemma RemoveEffect(s: TreeState, name: string, kind: FileType)
    requires ValidTree(s) && NodeAt(s.root, s.currentPath).value.children.Some?
    ensures var (r, s2) := RemoveStep(s, [name], kind);
      r.None? && ValidTree(s2) && s2.currentPath == s.currentPath
      && LsNodes(s2) == WithoutNamed(LsNodes(s), name, kind)
  {
    var dir := NodeAt(s.root, s.currentPath).value;
    EditCwdValid(s, dir.(children := Some(WithoutNamed(dir.children.value, name, kind))));
  }

  /** Filtering distributes over concatenation, so it keeps the order of what it keeps. */
  lemma {:induction false} WithoutNamedAppend(cs: seq<FileNode>, ds: seq<FileNode>, name: string, kind: FileType)
    ensures WithoutNamed(cs + ds, name, kind) == WithoutNamed(cs, name, kind) + WithoutNamed(ds, name, kind)
  {
    if |cs| == 0 {
      assert cs + ds == ds;
    } else {
      assert (cs + ds)[0] == cs[0];
      assert (cs + ds)[1..] == cs[1..] + ds;
      WithoutNamedAppend(cs[1..], ds, name, kind);
    }
  }

  /** With no child to drop, the children are kept as they are. */
  lemma {:induction false} WithoutNamedNone(cs: seq<FileNode>, name: string, kind: FileType)
    requires FindOfKind(cs, name, kind) == |cs|
    ensures WithoutNamed(cs, name, kind) == cs
  {
    if |cs| > 0 {
      WithoutNamedNone(cs[1..], name, kind);
      assert cs == [cs[0]] + cs[1..];
    }
  }

  /** Removing twice is removing once. */
  lemma {:induction false} WithoutNamedIdempotent(cs: seq<FileNode>, name: string, kind: FileType)
    ensures WithoutNamed(WithoutNamed(cs, name, kind), name, kind) == WithoutNamed(cs, name, kind)
  {
    if |cs| > 0 {
      WithoutNamedIdempotent(cs[1..], name, kind);
    }
  }

  /** `rm` never drops a directory and `rmdir` never a file. */
  lemma RemoveKeepsOtherKind(s: TreeState, name: string, kind: FileType, c: FileNode)
    requires ValidTree(s) && NodeAt(s.root, s.currentPath).value.children.Some?
    requires c in LsNodes(s) && c.kind != kind
    ensures c in LsNodes(RemoveStep(s, [name], kind).1)
  {
    RemoveEffect(s, name, kind);
  }

  // ---------------------------------------------------------------------
  // writeFile and cat

  /** The first child called `name` is the first file called `name` when it is a file. */
  lemma {:induction false} FindFirstFile(cs: seq<FileNode>, name: string)
    requires FindNamed(cs, name) < |cs| && cs[FindNamed(cs, name)].kind == FileKind
    ensures FindOfKind(cs, name, FileKind) == FindNamed(cs, name)
  {
    if cs[0].name != name {
      FindFirstFile(cs[1..], name);
    }
  }

  /** Two child lists with the same names and kinds find the same first file of every name. */
  lemma {:induction false} FindOfKindSame(cs: seq<FileNode>, ds: seq<FileNode>, name: string, kind: FileType)
    requires |cs| == |ds|
    requires forall i :: 0 <= i < |cs| ==> cs[i].name == ds[i].name && cs[i].kind == ds[i].kind
    ensures FindOfKind(cs, name, kind) == FindOfKind(ds, name, kind)
  {
    if |cs| > 0 && !(cs[0].name == name && cs[0].kind == kind) {
      FindOfKindSame(cs[1..], ds[1..], name, kind);
    }
  }

  /** `writeFile` changes only the content of the first child called `name`, and only when that child is a file. */
  lemma WriteFileEffect(s: TreeState, name: string, content: string)
    requires ValidTree(s)
    ensures var cs := LsNodes(s);
      var k := FindNamed(cs, name);
      var s2 := WriteFileStep(s, name, content);
      ValidTree(s2) && s2.currentPath == s.currentPath
      && (k == |cs| || cs[k].kind != FileKind ==> s2 == s)
      && (k < |cs| && cs[k].kind == FileKind ==> LsNodes(s2) == cs[k := cs[k].(content := Some(content))])
  {
    var dir := NodeAt(s.root, s.currentPath).value;
    if dir.children.Some? {
      var cs := dir.children.value;
      var k := FindNamed(cs, name);
      if k < |cs| && cs[k].kind == FileKind {
        EditCwdValid(s, dir.(children := Some(cs[k := cs[k].(content := Some(content))])));
      }
    }
  }

  /** What `writeFile` stores, `cat` shows. */
  lemma WriteThenCat(s: TreeState, name: string, content: string)
    requires ValidTree(s)
    requires FindNamed(LsNodes(s), name) < |LsNodes(s)| && LsNodes(s)[FindNamed(LsNodes(s), name)].kind == FileKind
    ensures CatText(WriteFileStep(s, name, content), [name]) == content
  {
    WriteFileEffect(s, name, content);
    var cs := LsNodes(s);
    var k := FindNamed(cs, name);
    var ds := cs[k := cs[k].(content := Some(content))];
    var s2 := WriteFileStep(s, name, content);
    CurrentDirectoryResolves(s);
    CurrentDirectoryResolves(s2);
    FindFirstFile(cs, name);
    FindOfKindSame(cs, ds, name, FileKind);
  }

  /** `cat` of a name with no file behind it, a directory of that name included, reports it missing. */
  lemma CatMissing(s: TreeState, name: string)
    requires FindOfKind(LsNodes(s), name, FileKind) == |LsNodes(s)|
    ensures CatText(s, [name]) == "cat: file not found: " + name
  {
  }

  // ---------------------------------------------------------------------
  // The invariant

  /** Every action keeps the current path leading to a directory. */
  lemma ActionsKeepValid(s: TreeState, args: seq<string>, freshId: string, kind: FileType, name: string, content: string)
    requires ValidTree(s)
    ensures ValidTree(CdStep(s, args).1)
    ensures ValidTree(MkdirStep(s, args, freshId).1)
    ensures ValidTree(TouchStep(s, args, freshId).1)
    ensures ValidTree(RenameStep(s, args).1)
    ensures ValidTree(RemoveStep(s, args, kind).1)
    ensures ValidTree(WriteFileStep(s, name, content))
  {
    var dir := NodeAt(s.root, s.currentPath).value;
    var cs := ChildrenOf(dir);
    if |args| >= 1 {
      EditCwdValid(s, dir.(children := Some(cs + [NewDirectory(freshId, args[0])])));
      EditCwdValid(s, dir.(children := Some(cs + [NewFile(freshId, args[0], Join(args[1..], " "))])));
      if dir.children.Some? {
        EditCwdValid(s, dir.(children := Some(WithoutNamed(cs, args[0], kind))));
      }
    }
    if |args| >= 2 && dir.children.Some? {
      var k := FindNamed(cs, args[0]);
      if k < |cs| {
        EditCwdValid(s, dir.(children := Some(cs[k := cs[k].(name := args[1])])));
      }
    }
    WriteFileEffect(s, name, content);
  }

  /** A fresh store is valid and lists nothing. */
  lemma InitialTreeEmpty(rootId: string)
    ensures ValidTree(InitialTree(rootId)) && LsNodes(InitialTree(rootId)) == []
  {
  }
}
