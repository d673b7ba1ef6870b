/**
 * What the operations of the virtual file system guarantee, stated over the
 * specification functions of module FileSystem.
 */
module FileSystemFacts {
  import opened Wrappers
  import opened Strings
  import opened Sorting
  import opened FsTree
  import opened FileSystem

  /** `cd` succeeds exactly on directories; afterwards the current path is normalised and names that directory. */
  lemma CdOutcome(s: State, path: string)
    ensures var (r, s2) := CdStep(s, path);
      (r.Ok? <==> (GetAt(s.root, NormSegs(path, s.cwd)).Some? && GetAt(s.root, NormSegs(path, s.cwd)).value.Dir?))
      && (r.Ok? ==> s2.root == s.root && Normalized(s2.cwd)
                    && GetNode(s2.root, s2.cwd, s2.cwd) == GetAt(s.root, NormSegs(path, s.cwd)))
      && (r.Err? ==> s2 == s)
  {
    NormalizeShape(path, s.cwd);
    var n := NormalizePath(path, s.cwd);
    GetNodeSegs(s.root, n, n);
    NormalizedFixpoint(n, n);
  }

  /** `cd ..` at the root stays at the root. */
  lemma CdParentAtRoot(root: Node)
    requires root.Dir?
    ensures CdStep(State(root, "/"), "..") == (Ok(""), State(root, "/"))
  {
    assert Split("/", '/') == ["", ""];
    assert Join([], "/") == "";
    assert Normalized("/");
    ParentOfCwd("/");
  }

  /** `cd ..` moves to the parent directory. */
  lemma CdParent(s: State)
    requires ValidState(s)
    requires Segments(s.cwd) != []
    requires GetAt(s.root, Segments(s.cwd)).Some?
    ensures var segs := Segments(s.cwd);
      CdStep(s, "..") == (Ok(""), s.(cwd := "/" + Join(segs[..|segs| - 1], "/")))
  {
    CdUp(s, "..");
  }

  lemma CdUp(s: State, up: string)
    requires ValidState(s) && up == ".."
    requires Segments(s.cwd) != []
    requires GetAt(s.root, Segments(s.cwd)).Some?
    ensures var segs := Segments(s.cwd);
      CdStep(s, up) == (Ok(""), s.(cwd := "/" + Join(segs[..|segs| - 1], "/")))
  {
    var segs := Segments(s.cwd);
    var parent := segs[..|segs| - 1];
    assert NormSegs(up, s.cwd) == parent by {
      ParentOfCwd(s.cwd);
    }
    assert GetAt(s.root, parent).Some? && GetAt(s.root, parent).value.Dir? by {
      assert segs == parent + [segs[|segs| - 1]];
      GetAtAppend(s.root, parent, [segs[|segs| - 1]]);
    }
    assert NormalizePath(up, s.cwd) == "/" + Join(parent, "/");
  }

  /** `mkdir` succeeds exactly when the parent is a directory without that name; a failure changes nothing. */
  lemma MkdirSucceeds(s: State, path: string)
    ensures var segs := NormSegs(path, s.cwd);
      var (r, s2) := MkdirStep(s, path);
      (r.Ok? <==> segs != [] && GetAt(s.root, segs[..|segs| - 1]).Some?
                  && GetAt(s.root, segs[..|segs| - 1]).value.Dir? && GetAt(s.root, segs).None?)
      && (r.Err? ==> s2 == s)
  {
    var segs := NormSegs(path, s.cwd);
    if segs != [] {
      var parent := segs[..|segs| - 1];
      assert segs == parent + [segs[|segs| - 1]];
      GetAtAppend(s.root, parent, [segs[|segs| - 1]]);
    }
  }

  /** What a successful `mkdir` is made of: a parent directory at `parent` that gains the child `name`. */
  lemma MkdirShape(s: State, path: string) returns (parent: seq<string>, name: string, p: Node)
    requires MkdirStep(s, path).0.Ok?
    ensures NormSegs(path, s.cwd) == parent + [name]
    ensures GetAt(s.root, parent) == Some(p) && p.Dir? && !HasChild(p.children, name)
    ensures parent != [] ==> p.name == parent[|parent| - 1]
    ensures Canonical(parent) && IsSegment(name)
    ensures MkdirStep(s, path).1 == s.(root := ReplaceAt(s.root, parent, Dir(p.name, p.children + [Dir(name, [])])))
  {
    var segs := NormSegs(path, s.cwd);
    NormalizeShape(path, s.cwd);
    parent := segs[..|segs| - 1];
    name := segs[|segs| - 1];
    assert segs == parent + [name];
    p := GetAt(s.root, parent).value;
    ParentName(s.root, parent);
  }

  /** After `mkdir`, the path names a new empty directory, and the state stays valid. */
  lemma MkdirCreates(s: State, path: string)
    requires ValidState(s)
    requires MkdirStep(s, path).0.Ok?
    ensures var s2 := MkdirStep(s, path).1;
      GetAt(s2.root, NormSegs(path, s.cwd)) == Some(Dir(NormSegs(path, s.cwd)[|NormSegs(path, s.cwd)| - 1], []))
      && s2.cwd == s.cwd && ValidState(s2)
  {
    var parent, name, p := MkdirShape(s, path);
    AddChildAt(s.root, parent, p, Dir(name, []));
    AddChildValid(s, parent, Dir(name, []));
  }

  /** After `mkdir`, the parent lists its old entries followed by the new directory. */
  lemma MkdirListing(s: State, path: string)
    requires MkdirStep(s, path).0.Ok?
    ensures var segs := NormSegs(path, s.cwd);
      var parentPath := "/" + Join(segs[..|segs| - 1], "/");
      Listing(MkdirStep(s, path).1, parentPath) == Listing(s, parentPath) + [Entry(segs[|segs| - 1], DirKind)]
  {
    var parent, name, p := MkdirShape(s, path);
    var s2 := MkdirStep(s, path).1;
    var cs := p.children + [Dir(name, [])];
    GetReplaced(s.root, parent, Dir(p.name, cs), []);
    assert parent + [] == parent;
    ListingOfParent(s, parent);
    ListingOfParent(s2, parent);
    assert NormSegs(path, s.cwd)[..|NormSegs(path, s.cwd)| - 1] == parent;
    assert Entries(cs) == Entries(p.children) + [Entry(name, DirKind)];
  }

  /** `mkdir` touches nothing outside the parent directory and its ancestors. */
  lemma MkdirElsewhere(s: State, path: string, q: seq<string>)
    requires MkdirStep(s, path).0.Ok?
    requires var segs := NormSegs(path, s.cwd);
      !IsPrefix(segs[..|segs| - 1], q) && !IsPrefix(q, segs[..|segs| - 1])
    ensures GetAt(MkdirStep(s, path).1.root, q) == GetAt(s.root, q)
  {
    var parent, name, p := MkdirShape(s, path);
    assert NormSegs(path, s.cwd)[..|NormSegs(path, s.cwd)| - 1] == parent;
    GetElsewhere(s.root, parent, Dir(p.name, p.children + [Dir(name, [])]), q);
  }

  /** `mkdir` on a name that is taken reports "File exists". */
  lemma MkdirExisting(s: State, path: string)
    requires ValidState(s)
    requires NormSegs(path, s.cwd) != [] && GetAt(s.root, NormSegs(path, s.cwd)).Some?
    ensures MkdirStep(s, path) == (Err("mkdir: cannot create directory '" + path + "': " + "File exists"), s)
  {
    var segs := NormSegs(path, s.cwd);
    var parent := segs[..|segs| - 1];
    var name := segs[|segs| - 1];
    assert segs == parent + [name];
    GetAtAppend(s.root, parent, [name]);
    var p := GetAt(s.root, parent).value;
    assert GetAt(p, [name]).Some?;
    assert p.Dir? && HasChild(p.children, name);
    assert GetAt(s.root, parent) == Some(Dir(p.name, p.children));
  }

  /** A directory made by `mkdir` can be entered with `cd`. */
  lemma MkdirThenCd(s: State, path: string)
    requires ValidState(s)
    requires MkdirStep(s, path).0.Ok?
    ensures CdStep(MkdirStep(s, path).1, path) == (Ok(""), MkdirStep(s, path).1.(cwd := NormalizePath(path, s.cwd)))
  {
    MkdirCreates(s, path);
    var s2 := MkdirStep(s, path).1;
    NormalizeIdempotent(path, s.cwd, s.cwd);
  }

  /** `touch` twice is `touch` once. */
  lemma TouchIdempotent(s: State, path: string)
    requires ValidState(s)
    ensures TouchStep(TouchStep(s, path).1, path) == TouchStep(s, path)
  {
    var segs := NormSegs(path, s.cwd);
    if segs != [] {
      var parent := segs[..|segs| - 1];
      var name := segs[|segs| - 1];
      match GetAt(s.root, parent)
      case None =>
      case Some(File(_, _)) =>
      case Some(Dir(pn, cs)) =>
        if !HasChild(cs, name) {
          ParentName(s.root, parent);
          AddChildAt(s.root, parent, Dir(pn, cs), File(name, ""));
          var s2 := TouchStep(s, path).1;
          assert s2 == s.(root := ReplaceAt(s.root, parent, Dir(pn, cs + [File(name, "")])));
          assert GetAt(s2.root, parent) == Some(Dir(pn, cs + [File(name, "")]));
          IndexOfAppend(cs, File(name, ""), name);
          assert TouchStep(s2, path) == (Ok(""), s2);
        }
    }
  }

  /** What a successful `rm` is made of: the directory at `parent` loses its child at index `k`, called `name`. */
  lemma RmShape(s: State, path: string, recursive: bool) returns (parent: seq<string>, name: string, p: Node, k: nat)
    requires RmStep(s, path, recursive).0.Ok?
    ensures NormSegs(path, s.cwd) == parent + [name]
    ensures GetAt(s.root, parent) == Some(p) && p.Dir?
    ensures k == IndexOf(p.children, name) && k < |p.children|
    ensures parent != [] ==> p.name == parent[|parent| - 1]
    ensures RmStep(s, path, recursive).1
      == s.(root := ReplaceAt(s.root, parent, Dir(p.name, p.children[..k] + p.children[k + 1..])))
  {
    var segs := NormSegs(path, s.cwd);
    parent := segs[..|segs| - 1];
    name := segs[|segs| - 1];
    assert segs == parent + [name];
    p := GetAt(s.root, parent).value;
    k := IndexOf(p.children, name);
    ParentName(s.root, parent);
  }

  /** `rm` succeeds exactly on an existing entry, a directory only when recursive; a failure changes nothing. */
  lemma RmSucceeds(s: State, path: string, recursive: bool)
    ensures var segs := NormSegs(path, s.cwd);
      var (r, s2) := RmStep(s, path, recursive);
      (r.Ok? <==> segs != [] && GetAt(s.root, segs).Some? && (GetAt(s.root, segs).value.Dir? ==> recursive))
      && (r.Err? ==> s2 == s)
  {
    var segs := NormSegs(path, s.cwd);
    if segs != [] {
      var parent := segs[..|segs| - 1];
      assert segs == parent + [segs[|segs| - 1]];
      GetAtAppend(s.root, parent, [segs[|segs| - 1]]);
    }
  }

  /** After a successful `rm`, the path is gone: `cat` reports it missing. */
  lemma RmThenCat(s: State, path: string, recursive: bool)
    requires ValidState(s)
    requires RmStep(s, path, recursive).0.Ok?
    ensures var s2 := RmStep(s, path, recursive).1;
      CatOutput(s2, path) == Err("cat: " + path + ": No such file or directory")
      && FileContent(s2, path) == None && ValidState(s2)
  {
    var parent, name, p, k := RmShape(s, path, recursive);
    var s2 := RmStep(s, path, recursive).1;
    RemovedAt(s.root, parent, p, k);
    GetNodeSegs(s2.root, s2.cwd, path);
    RemoveChildValid(s, parent, k);
  }

  /** Removing the only child called `name` from the directory at `parent` leaves nothing at `parent + [name]`. */
  lemma RemovedAt(root: Node, parent: seq<string>, p: Node, k: nat)
    requires WellFormed(root)
    requires GetAt(root, parent) == Some(p) && p.Dir? && k < |p.children|
    requires parent != [] ==> p.name == parent[|parent| - 1]
    ensures var cs := p.children;
      GetAt(ReplaceAt(root, parent, Dir(p.name, cs[..k] + cs[k + 1..])), parent + [cs[k].name]) == None
  {
    var cs := p.children;
    var name := cs[k].name;
    var ds := cs[..k] + cs[k + 1..];
    var p2 := Dir(p.name, ds);
    GetReplaced(root, parent, p2, [name]);
    WellFormedGetAt(root, parent);
    forall i | 0 <= i < |ds|
      ensures ds[i].name != name
    {
      if i < k {
        assert ds[i] == cs[i];
      } else {
        assert ds[i] == cs[i + 1];
      }
    }
    assert GetAt(p2, [name]) == None;
  }

  /** `setFileContent` succeeds exactly on files, and `getFileContent` then returns what was written. */
  lemma SetThenGet(s: State, path: string, content: string)
    ensures var (ok, s2) := SetContentStep(s, path, content);
      (ok <==> FileContent(s, path).Some?)
      && (ok ==> FileContent(s2, path) == Some(content))
      && (!ok ==> s2 == s)
  {
    var segs := NormSegs(path, s.cwd);
    GetNodeSegs(s.root, s.cwd, path);
    var (ok, s2) := SetContentStep(s, path, content);
    if ok {
      var n := GetAt(s.root, segs).value;
      if segs != [] {
        GetAtName(s.root, segs);
      }
      GetReplaced(s.root, segs, File(n.name, content), []);
      assert segs + [] == segs;
      GetNodeSegs(s2.root, s2.cwd, path);
    }
  }

  /** `ls` of a directory lists the (visible) child names sorted and each exactly once. */
  lemma LsNamesSorted(cs: seq<Node>, showHidden: bool)
    ensures SortedBy(LsNames(cs, showHidden), StrLe)
    ensures multiset(LsNames(cs, showHidden)) == multiset(if showHidden then Names(cs) else Visible(Names(cs)))
  {
    StrLeTotalPreorder();
    SortSorted(if showHidden then Names(cs) else Visible(Names(cs)), StrLe);
  }

  lemma StrLeTotalPreorder()
    ensures TotalPreorder(StrLe)
  {
    forall a, b
      ensures StrLe(a, b) || StrLe(b, a)
    {
      StrLeTotal(a, b);
    }
    forall a, b, c | StrLe(a, b) && StrLe(b, c)
      ensures StrLe(a, c)
    {
      StrLeTrans(a, b, c);
    }
  }

  /** `ls` fails exactly when the target does not exist, and names a file by its name. */
  lemma LsOutcome(s: State, path: string, showHidden: bool, longFormat: bool)
    ensures var target := if path == "" then s.cwd else path;
      var r := LsOutput(s, path, showHidden, longFormat);
      (r.Err? <==> GetAt(s.root, NormSegs(target, s.cwd)).None?)
      && (GetAt(s.root, NormSegs(target, s.cwd)).Some? && GetAt(s.root, NormSegs(target, s.cwd)).value.File?
          ==> r == Ok(GetAt(s.root, NormSegs(target, s.cwd)).value.name))
  {
    var target := if path == "" then s.cwd else path;
    GetNodeSegs(s.root, s.cwd, target);
  }

  /** A fresh file system lists the six visible home directories, sorted and coloured as directories. */
  lemma FreshLs()
    ensures LsOutput(Initial, "", false, false)
      == Ok(Colored("Desktop") + "  " + Colored("Documents") + "  " + Colored("Downloads") + "  "
            + Colored("Music") + "  " + Colored("Pictures") + "  " + Colored("Videos"))
  {
    FreshHome();
    FreshLsNames();
    FreshLsItems();
    FreshJoin(Colored("Desktop"), Colored("Documents"), Colored("Downloads"), Colored("Music"), Colored("Pictures"), Colored("Videos"));
  }

  /** A fresh file system starts in the home directory. */
  lemma FreshHome()
    ensures GetNode(InitialTree, Home, Home) == Some(UserDir)
  {
    HomeSegments();
    NormalizedFixpoint(Home, Home);
    HomeOfInitial();
    GetNodeSegs(InitialTree, Home, Home);
  }

  lemma HomeOfInitial()
    ensures GetAt(InitialTree, HomeSegs) == Some(UserDir)
  {
    assert IndexOf(InitialTree.children, "home") == 0;
    assert GetAt(D("home", [UserDir]), ["user"]) == Some(UserDir);
  }

  lemma FreshLsNames()
    ensures LsNames(UserDir.children, false) == ["Desktop", "Documents", "Downloads", "Music", "Pictures", "Videos"]
  {
    FreshNames();
    FreshVisible();
    FreshSort();
  }

  lemma FreshNames()
    ensures Names(UserDir.children) == ["Desktop", "Documents", "Downloads", "Pictures", "Music", "Videos", ".bashrc", ".profile"]
  {
  }

  lemma FreshVisible()
    ensures Visible(["Desktop", "Documents", "Downloads", "Pictures", "Music", "Videos", ".bashrc", ".profile"])
      == ["Desktop", "Documents", "Downloads", "Pictures", "Music", "Videos"]
  {
    Dotted(".profile"); VisibleCons(".profile", []);
    Dotted(".bashrc"); VisibleCons(".bashrc", [".profile"]);
    NotDotted("Videos"); VisibleCons("Videos", [".bashrc", ".profile"]);
    NotDotted("Music"); VisibleCons("Music", ["Videos", ".bashrc", ".profile"]);
    NotDotted("Pictures"); VisibleCons("Pictures", ["Music", "Videos", ".bashrc", ".profile"]);
    NotDotted("Downloads"); VisibleCons("Downloads", ["Pictures", "Music", "Videos", ".bashrc", ".profile"]);
    NotDotted("Documents"); VisibleCons("Documents", ["Downloads", "Pictures", "Music", "Videos", ".bashrc", ".profile"]);
    NotDotted("Desktop"); VisibleCons("Desktop", ["Documents", "Downloads", "Pictures", "Music", "Videos", ".bashrc", ".profile"]);
  }

  lemma FreshSort()
    ensures Sort(["Desktop", "Documents", "Downloads", "Pictures", "Music", "Videos"], StrLe)
      == ["Desktop", "Documents", "Downloads", "Music", "Pictures", "Videos"]
  {
    SortTail5();
    InsDesk();
    SortCons("Desktop", ["Documents", "Downloads", "Pictures", "Music", "Videos"]);
  }

  lemma FreshLsItems()
    ensures LsItems(UserDir.children, ["Desktop", "Documents", "Downloads", "Music", "Pictures", "Videos"], false)
      == [Colored("Desktop"), Colored("Documents"), Colored("Downloads"),
          Colored("Music"), Colored("Pictures"), Colored("Videos")]
  {
    var cs := UserDir.children;
    UserNamesDistinct();
    DirItem(cs, 0, "Desktop");
    DirItem(cs, 1, "Documents");
    DirItem(cs, 2, "Downloads");
    DirItem(cs, 3, "Pictures");
    DirItem(cs, 4, "Music");
    DirItem(cs, 5, "Videos");
    SixDirItems(cs);
  }

  lemma FreshJoin(a: string, b: string, c: string, d: string, e: string, f: string)
    ensures Join([a, b, c, d, e, f], "  ") == a + "  " + b + "  " + c + "  " + d + "  " + e + "  " + f
  {
    JoinCons(e, [f], "  ");
    JoinCons(d, [e, f], "  ");
    JoinCons(c, [d, e, f], "  ");
    JoinCons(b, [c, d, e, f], "  ");
    JoinCons(a, [b, c, d, e, f], "  ");
  }

  lemma NotDotted(s: string)
    requires |s| > 0 && s[0] != '.'
    ensures !StartsWith(s, ".")
  {
    assert s[..1][0] == s[0];
  }

  lemma Dotted(s: string)
    requires |s| > 0 && s[0] == '.'
    ensures StartsWith(s, ".")
  {
    assert s[..1] == ".";
  }

  lemma VisibleCons(x: string, rest: seq<string>)
    ensures Visible([x] + rest) == if StartsWith(x, ".") then Visible(rest) else [x] + Visible(rest)
  {
    assert ([x] + rest)[1..] == rest;
  }

  lemma LeByFirst(a: string, b: string)
    requires |a| > 0 && |b| > 0 && a[0] < b[0]
    ensures StrLe(a, b) && !StrLe(b, a)
  {
  }

  lemma LeBySecond(a: string, b: string)
    requires |a| > 1 && |b| > 1 && a[0] == b[0] && a[1] < b[1]
    ensures StrLe(a, b) && !StrLe(b, a)
  {
    LeByFirst(a[1..], b[1..]);
  }

  lemma LeByThird(a: string, b: string)
    requires |a| > 2 && |b| > 2 && a[0] == b[0] && a[1] == b[1] && a[2] < b[2]
    ensures StrLe(a, b) && !StrLe(b, a)
  {
    LeBySecond(a[1..], b[1..]);
  }

  lemma InsertCons(x: string, y: string, rest: seq<string>)
    ensures Insert(x, [y] + rest, StrLe) == if StrLe(x, y) then [x, y] + rest else [y] + Insert(x, rest, StrLe)
  {
    assert ([y] + rest)[1..] == rest;
  }

  lemma SortCons(x: string, rest: seq<string>)
    ensures Sort([x] + rest, StrLe) == Insert(x, Sort(rest, StrLe), StrLe)
  {
    assert ([x] + rest)[1..] == rest;
  }

  lemma SortTail2()
    ensures Sort(["Music", "Videos"], StrLe) == ["Music", "Videos"]
  {
    SortCons("Videos", []);
    LeByFirst("Music", "Videos");
    InsertCons("Music", "Videos", []);
    SortCons("Music", ["Videos"]);
  }

  lemma InsPictures()
    ensures Insert("Pictures", ["Music", "Videos"], StrLe) == ["Music", "Pictures", "Videos"]
  {
    LeByFirst("Music", "Pictures");
    LeByFirst("Pictures", "Videos");
    InsertCons("Pictures", "Videos", []);
    InsertCons("Pictures", "Music", ["Videos"]);
  }

  lemma InsDownloads()
    ensures Insert("Downloads", ["Music", "Pictures", "Videos"], StrLe) == ["Downloads", "Music", "Pictures", "Videos"]
  {
    LeByFirst("Downloads", "Music");
    InsertCons("Downloads", "Music", ["Pictures", "Videos"]);
  }

  lemma SortTail3()
    ensures Sort(["Pictures", "Music", "Videos"], StrLe) == ["Music", "Pictures", "Videos"]
  {
    SortTail2();
    InsPictures();
    SortCons("Pictures", ["Music", "Videos"]);
  }

  lemma SortTail4()
    ensures Sort(["Downloads", "Pictures", "Music", "Videos"], StrLe) == ["Downloads", "Music", "Pictures", "Videos"]
  {
    SortTail3();
    InsDownloads();
    SortCons("Downloads", ["Pictures", "Music", "Videos"]);
  }

  lemma SortTail5()
    ensures Sort(["Documents", "Downloads", "Pictures", "Music", "Videos"], StrLe)
      == ["Documents", "Downloads", "Music", "Pictures", "Videos"]
  {
    SortTail4();
    InsDoc();
    SortCons("Documents", ["Downloads", "Pictures", "Music", "Videos"]);
  }

  lemma InsDoc()
    ensures Insert("Documents", ["Downloads", "Music", "Pictures", "Videos"], StrLe)
      == ["Documents", "Downloads", "Music", "Pictures", "Videos"]
  {
    LeByThird("Documents", "Downloads");
    InsertCons("Documents", "Downloads", ["Music", "Pictures", "Videos"]);
  }

  lemma InsDesk()
    ensures Insert("Desktop", ["Documents", "Downloads", "Music", "Pictures", "Videos"], StrLe)
      == ["Desktop", "Documents", "Downloads", "Music", "Pictures", "Videos"]
  {
    LeBySecond("Desktop", "Documents");
    InsertCons("Desktop", "Documents", ["Downloads", "Music", "Pictures", "Videos"]);
  }

  lemma JoinCons(x: string, rest: seq<string>, sep: string)
    requires rest != []
    ensures Join([x] + rest, sep) == x + sep + Join(rest, sep)
  {
    assert ([x] + rest)[1..] == rest;
  }

  lemma LookupDistinct(cs: seq<Node>, k: nat)
    requires DistinctNames(cs) && k < |cs|
    ensures Lookup(cs, cs[k].name) == cs[k]
  {
  }

  lemma LsItemsCons(cs: seq<Node>, x: string, rest: seq<string>)
    ensures LsItems(cs, [x] + rest, false) == [DisplayName(Lookup(cs, x))] + LsItems(cs, rest, false)
  {
    assert ([x] + rest)[1..] == rest;
  }

  lemma DirItem(cs: seq<Node>, k: nat, x: string)
    requires DistinctNames(cs) && k < |cs| && cs[k].Dir? && cs[k].name == x
    ensures DisplayName(Lookup(cs, x)) == Colored(x)
  {
    LookupDistinct(cs, k);
  }

  lemma SixDirItems(cs: seq<Node>)
    requires DisplayName(Lookup(cs, "Desktop")) == Colored("Desktop")
    requires DisplayName(Lookup(cs, "Documents")) == Colored("Documents")
    requires DisplayName(Lookup(cs, "Downloads")) == Colored("Downloads")
    requires DisplayName(Lookup(cs, "Music")) == Colored("Music")
    requires DisplayName(Lookup(cs, "Pictures")) == Colored("Pictures")
    requires DisplayName(Lookup(cs, "Videos")) == Colored("Videos")
    ensures LsItems(cs, ["Desktop", "Documents", "Downloads", "Music", "Pictures", "Videos"], false)
      == [Colored("Desktop"), Colored("Documents"), Colored("Downloads"),
          Colored("Music"), Colored("Pictures"), Colored("Videos")]
  {
    LsItemsCons(cs, "Videos", []);
    LsItemsCons(cs, "Pictures", ["Videos"]);
    LsItemsCons(cs, "Music", ["Pictures", "Videos"]);
    LsItemsCons(cs, "Downloads", ["Music", "Pictures", "Videos"]);
    LsItemsCons(cs, "Documents", ["Downloads", "Music", "Pictures", "Videos"]);
    LsItemsCons(cs, "Desktop", ["Documents", "Downloads", "Music", "Pictures", "Videos"]);
  }

  // ---------------------------------------------------------------------
  // Helpers

  /** The directory found at a non-empty path carries the path's last name. */
  lemma ParentName(root: Node, parent: seq<string>)
    requires GetAt(root, parent).Some?
    ensures parent != [] ==> GetAt(root, parent).value.name == parent[|parent| - 1]
  {
    if parent != [] {
      GetAtName(root, parent);
    }
  }

  lemma {:induction false} IndexOfAppend(cs: seq<Node>, c: Node, name: string)
    requires !HasChild(cs, name) && c.name == name
    ensures IndexOf(cs + [c], name) == |cs|
  {
    if |cs| > 0 {
      assert cs[0].name != name;
      assert (cs + [c])[1..] == cs[1..] + [c];
      assert !HasChild(cs[1..], name) by {
        assert forall i :: 0 <= i < |cs[1..]| ==> cs[1..][i] == cs[i + 1];
      }
      IndexOfAppend(cs[1..], c, name);
    }
  }

  /** Appending a child with a fresh name to the directory at `parent` makes it reachable at `parent + [name]`. */
  lemma AddChildAt(root: Node, parent: seq<string>, p: Node, c: Node)
    requires GetAt(root, parent) == Some(p) && p.Dir? && !HasChild(p.children, c.name)
    requires parent != [] ==> p.name == parent[|parent| - 1]
    ensures GetAt(ReplaceAt(root, parent, Dir(p.name, p.children + [c])), parent + [c.name]) == Some(c)
    ensures GetAt(ReplaceAt(root, parent, Dir(p.name, p.children + [c])), parent) == Some(Dir(p.name, p.children + [c]))
  {
    var p2 := Dir(p.name, p.children + [c]);
    GetReplaced(root, parent, p2, [c.name]);
    GetReplaced(root, parent, p2, []);
    assert parent + [] == parent;
    IndexOfAppend(p.children, c, c.name);
  }

  /** `listDirectory` of a directory's normalised path lists that directory's children. */
  lemma ListingOfParent(s: State, parent: seq<string>)
    requires Canonical(parent)
    ensures Listing(s, "/" + Join(parent, "/"))
      == match GetAt(s.root, parent) case Some(Dir(_, cs)) => Entries(cs) case _ => []
  {
    var p := "/" + Join(parent, "/");
    SegmentsOfJoin(parent);
    assert p != "";
    assert Normalized(p);
    NormalizedFixpoint(p, s.cwd);
    GetNodeSegs(s.root, s.cwd, p);
  }
}
