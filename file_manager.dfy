/**
 * The file manager window of src/components/apps/FileManager.tsx: a
 * back/forward history of visited directories over the window's own
 * `VirtualFileSystem`, the listing with directories first, and the
 * breadcrumb of the current path.
 *
 * The navigation state is the `Nav` value; `navigateTo`, `goBack`,
 * `goForward` and `refresh` are specified by `...Step` functions from the old
 * navigation state and file system state to the new ones, and the window's
 * methods are proved to agree with them.
 */
module FileManager {
  import opened Wrappers
  import opened Strings
  import opened Sorting
  import opened FsTree
  import opened FileSystem

  /** The directory shown, the visited directories, and the position in that list. */
  datatype Nav = Nav(path: string, history: seq<string>, index: int)

  /** `useState('/home/user')`, `useState(['/home/user'])`, `useState(0)`. */
  const InitialNav: Nav := Nav(Home, [Home], 0)

  /** The position lies inside the history and the directory shown is the one at that position. */
  predicate NavValid(n: Nav) {
    0 <= n.index < |n.history| && n.path == n.history[n.index]
  }

  /** `path` is a normalised path naming a directory of `root`. */
  predicate IsDirPath(root: Node, path: string) {
    Normalized(path) && GetAt(root, Segments(path)).Some? && GetAt(root, Segments(path)).value.Dir?
  }

  /** Every visited path names a directory of `root`. */
  predicate HistoryOk(root: Node, history: seq<string>) {
    forall i :: 0 <= i < |history| ==> IsDirPath(root, history[i])
  }

  // ---------------------------------------------------------------------
  // Navigation

  /** The navigation state after a successful `cd` to `path`: the entries after the position are dropped. */
  function Pushed(n: Nav, path: string): Nav
    requires NavValid(n)
  {
    Nav(path, n.history[..n.index + 1] + [path], n.index + 1)
  }

  /** `navigateTo`: a successful `cd` drops the entries after the position and appends the new directory. */
  function NavigateStep(n: Nav, s: State, target: string): (r: (Nav, State))
    requires NavValid(n)
    ensures NavValid(r.0)
    ensures r.1 == CdStep(s, target).1
    ensures CdStep(s, target).0.Err? ==> r.0 == n
    ensures CdStep(s, target).0.Ok? ==>
      r.0.path == NormalizePath(target, s.cwd) && r.0.index == n.index + 1
      && r.0.history[..r.0.index] == n.history[..n.index + 1]
      && |r.0.history| == r.0.index + 1
  {
    var (res, s2) := CdStep(s, target);
    if res.Ok? then (Pushed(n, s2.cwd), s2) else (n, s)
  }

  /** `goBack`: one step towards the start of the history, with a `cd` whose outcome is ignored. */
  function BackStep(n: Nav, s: State): (r: (Nav, State))
    requires NavValid(n)
    ensures NavValid(r.0) && r.0.history == n.history && r.1.root == s.root
    ensures r.0.index == if n.index > 0 then n.index - 1 else n.index
    ensures n.index == 0 ==> r == (n, s)
  {
    if n.index > 0 then
      var newIndex := n.index - 1;
      var path := n.history[newIndex];
      (Nav(path, n.history, newIndex), CdStep(s, path).1)
    else (n, s)
  }

  /** `goForward`: one step towards the end of the history, with a `cd` whose outcome is ignored. */
  function ForwardStep(n: Nav, s: State): (r: (Nav, State))
    requires NavValid(n)
    ensures NavValid(r.0) && r.0.history == n.history && r.1.root == s.root
    ensures r.0.index == if n.index < |n.history| - 1 then n.index + 1 else n.index
    ensures n.index == |n.history| - 1 ==> r == (n, s)
  {
    if n.index < |n.history| - 1 then
      var newIndex := n.index + 1;
      var path := n.history[newIndex];
      (Nav(path, n.history, newIndex), CdStep(s, path).1)
    else (n, s)
  }

  /** `refresh`: `cd` to the directory shown, then show the file system's current directory. */
  function RefreshStep(n: Nav, s: State): (r: (Nav, State))
    ensures r.0.history == n.history && r.0.index == n.index && r.1.root == s.root
    ensures r.0.path == r.1.cwd
  {
    var s2 := CdStep(s, n.path).1;
    (n.(path := s2.cwd), s2)
  }

  // ---------------------------------------------------------------------
  // Listing and breadcrumb

  /** The comparator of the listing: a directory before a file, otherwise by name under `nameLe`. */
  function DirFirst(nameLe: (string, string) -> bool): (Entry, Entry) -> bool {
    (a: Entry, b: Entry) =>
      if a.kind == DirKind && b.kind != DirKind then true
      else if a.kind != DirKind && b.kind == DirKind then false
      else nameLe(a.name, b.name)
  }

  /** `fs.listDirectory(currentPath).sort(...)`, with `localeCompare` abstracted as the order `nameLe`. */
  function SortedItems(s: State, path: string, nameLe: (string, string) -> bool): seq<Entry> {
    Sort(Listing(s, path), DirFirst(nameLe))
  }

  /** `currentPath.split('/').filter(Boolean)`. */
  function PathParts(path: string): seq<string> {
    Segments(path)
  }

  /** The target of breadcrumb button `i`: `'/'` followed by the first `i + 1` parts. */
  function Crumb(path: string, i: nat): string
    requires i < |PathParts(path)|
  {
    "/" + Join(PathParts(path)[..i + 1], "/")
  }

  /** The target of a double-click on the child `name` of the directory shown. */
  function ChildPath(path: string, name: string): string {
    path + "/" + name
  }

  // ---------------------------------------------------------------------
  // The component

  class FileManagerWindow {
    var currentPath: string
    var history: seq<string>
    var historyIndex: int
    const fs: VirtualFileSystem

    function NavOf(): Nav
      reads this
    {
      Nav(currentPath, history, historyIndex)
    }

    /** The position is in range, and every visited path is a directory of the window's file system. */
    ghost predicate Valid()
      reads this, fs
    {
      fs.Valid() && NavValid(NavOf()) && HistoryOk(fs.root, history)
    }

    /** The window over its file system; the registry's instance of a window is never changed by the file manager. */
    constructor(fs: VirtualFileSystem)
      requires fs.Valid() && HomeIsDir(fs.root)
      ensures this.fs == fs && Valid()
      ensures NavOf() == InitialNav
    {
      this.fs := fs;
      var home := Home;
      currentPath := home;
      history := [home];
      historyIndex := 0;
      new;
      HomeVisited(fs.root, home);
    }

    method NavigateTo(path: string)
      requires Valid()
      modifies this, fs
      ensures Valid()
      ensures (NavOf(), fs.St()) == NavigateStep(old(NavOf()), old(fs.St()), path)
    {
      ghost var n := NavOf();
      ghost var s := fs.St();
      NavigateKeeps(n, s, path);
      var result := fs.Cd(path);
      if result.Ok? {
        var newPath := fs.Pwd();
        Push(newPath);
      }
    }

    /** The bookkeeping of a successful `navigateTo`: cut the history after the position, append, and point at the new entry. */
    method Push(newPath: string)
      requires NavValid(NavOf())
      modifies this
      ensures NavOf() == Pushed(old(NavOf()), newPath)
    {
      currentPath := newPath;
      var newHistory := history[..historyIndex + 1] + [newPath];
      history := newHistory;
      historyIndex := |newHistory| - 1;
    }

    method GoBack()
      requires Valid()
      modifies this, fs
      ensures Valid()
      ensures (NavOf(), fs.St()) == BackStep(old(NavOf()), old(fs.St()))
    {
      BackKeeps(NavOf(), fs.St());
      if historyIndex > 0 {
        MoveTo(historyIndex - 1);
      }
    }

    method GoForward()
      requires Valid()
      modifies this, fs
      ensures Valid()
      ensures (NavOf(), fs.St()) == ForwardStep(old(NavOf()), old(fs.St()))
    {
      ForwardKeeps(NavOf(), fs.St());
      if historyIndex < |history| - 1 {
        MoveTo(historyIndex + 1);
      }
    }

    /** The common part of `goBack` and `goForward`: `cd` to the visited path at `newIndex` and show it. */
    method MoveTo(newIndex: int)
      requires Valid() && 0 <= newIndex < |history|
      modifies this, fs
      ensures Valid()
      ensures NavOf() == old(NavOf()).(path := old(history)[newIndex], index := newIndex)
      ensures fs.St() == old(fs.St()).(cwd := old(history)[newIndex])
    {
      var path := history[newIndex];
      CdToDir(fs.St(), path);
      var _ := fs.Cd(path);
      currentPath := path;
      historyIndex := newIndex;
    }

    /** Under the window's invariant a refresh changes nothing the window shows; the file system moves to the directory shown. */
    method Refresh()
      requires Valid()
      modifies this, fs
      ensures Valid()
      ensures (NavOf(), fs.St()) == RefreshStep(old(NavOf()), old(fs.St()))
      ensures NavOf() == old(NavOf()) && fs.St() == old(fs.St()).(cwd := currentPath)
    {
      CdToDir(fs.St(), currentPath);
      var _ := fs.Cd(currentPath);
      currentPath := fs.currentPath;
    }

    /** The items shown, directories first. */
    method Items(nameLe: (string, string) -> bool) returns (items: seq<Entry>)
      requires TotalPreorder(nameLe)
      ensures items == SortedItems(fs.St(), currentPath, nameLe)
      ensures multiset(items) == multiset(Listing(fs.St(), currentPath))
      ensures forall i, j :: 0 <= i < j < |items| ==> DirFirst(nameLe)(items[i], items[j])
    {
      var listed := Listing(fs.St(), currentPath);
      items := Sort(listed, DirFirst(nameLe));
      SortedItemsOrdered(fs.St(), currentPath, nameLe);
    }

    /** A click on breadcrumb button `i`. */
    method ClickCrumb(i: nat)
      requires Valid() && i < |PathParts(currentPath)|
      modifies this, fs
      ensures Valid()
      ensures (NavOf(), fs.St()) == NavigateStep(old(NavOf()), old(fs.St()), Crumb(old(currentPath), i))
    {
      NavigateTo(Crumb(currentPath, i));
    }

    /** A double-click on an item: only directories are opened. */
    method OpenItem(item: Entry)
      requires Valid()
      modifies this, fs
      ensures Valid()
      ensures item.kind == DirKind ==>
        (NavOf(), fs.St()) == NavigateStep(old(NavOf()), old(fs.St()), ChildPath(old(currentPath), item.name))
      ensures item.kind != DirKind ==> NavOf() == old(NavOf()) && fs.St() == old(fs.St())
    {
      if item.kind == DirKind {
        NavigateTo(ChildPath(currentPath, item.name));
      }
    }
  }

  // ---------------------------------------------------------------------
  // The invariant

  /** The home directory exists in `root`. */
  predicate HomeIsDir(root: Node) {
    GetAt(root, HomeSegs).Some? && GetAt(root, HomeSegs).value.Dir?
  }

  lemma HomeVisited(root: Node, p: string)
    requires HomeIsDir(root) && p == Home
    ensures HistoryOk(root, [p])
  {
    HomeSegments();
  }

  /** `cd` to a directory path succeeds and moves there. */
  lemma CdToDir(s: State, p: string)
    requires IsDirPath(s.root, p)
    ensures CdStep(s, p) == (Ok(""), s.(cwd := p))
  {
    NormalizedFixpoint(p, s.cwd);
  }

  /** A successful `cd` lands on a directory path. */
  lemma CdLands(s: State, target: string)
    requires CdStep(s, target).0.Ok?
    ensures IsDirPath(s.root, CdStep(s, target).1.cwd)
  {
    NormalizeShape(target, s.cwd);
  }

  /** `navigateTo` keeps every visited path a directory, and the file system sits in the directory shown after a success. */
  lemma NavigateKeeps(n: Nav, s: State, target: string)
    requires NavValid(n) && HistoryOk(s.root, n.history)
    ensures HistoryOk(NavigateStep(n, s, target).1.root, NavigateStep(n, s, target).0.history)
    ensures CdStep(s, target).0.Ok? ==>
      NavigateStep(n, s, target).1.cwd == NavigateStep(n, s, target).0.path
      && NavigateStep(n, s, target)
         == (Pushed(n, CdStep(s, target).1.cwd), CdStep(s, target).1)
  {
    var (n2, s2) := NavigateStep(n, s, target);
    if CdStep(s, target).0.Ok? {
      CdLands(s, target);
      assert n2 == Pushed(n, s2.cwd);
      PushedKeeps(n, s.root, s2.cwd);
    }
  }

  lemma PushedKeeps(n: Nav, root: Node, path: string)
    requires NavValid(n) && HistoryOk(root, n.history) && IsDirPath(root, path)
    ensures HistoryOk(root, Pushed(n, path).history)
  {
    var h := Pushed(n, path).history;
    forall i | 0 <= i < |h|
      ensures IsDirPath(root, h[i])
    {
      if i < n.index + 1 {
        assert h[i] == n.history[i];
      }
    }
  }

  /** `goBack` keeps every visited path a directory, and when it moves the file system follows. */
  lemma BackKeeps(n: Nav, s: State)
    requires NavValid(n) && HistoryOk(s.root, n.history)
    ensures HistoryOk(BackStep(n, s).1.root, BackStep(n, s).0.history)
    ensures n.index > 0 ==>
      BackStep(n, s) == (Nav(n.history[n.index - 1], n.history, n.index - 1), s.(cwd := n.history[n.index - 1]))
  {
    if n.index > 0 {
      var p := n.history[n.index - 1];
      CdToDir(s, p);
      BackShape(n, s, p, s.(cwd := p));
    }
  }

  lemma BackShape(n: Nav, s: State, p: string, s2: State)
    requires NavValid(n) && n.index > 0 && p == n.history[n.index - 1] && CdStep(s, p).1 == s2
    ensures BackStep(n, s) == (Nav(p, n.history, n.index - 1), s2)
  {
  }

  /** `goForward` keeps every visited path a directory, and when it moves the file system follows. */
  lemma ForwardKeeps(n: Nav, s: State)
    requires NavValid(n) && HistoryOk(s.root, n.history)
    ensures HistoryOk(ForwardStep(n, s).1.root, ForwardStep(n, s).0.history)
    ensures n.index < |n.history| - 1 ==>
      ForwardStep(n, s) == (Nav(n.history[n.index + 1], n.history, n.index + 1), s.(cwd := n.history[n.index + 1]))
  {
    if n.index < |n.history| - 1 {
      var p := n.history[n.index + 1];
      CdToDir(s, p);
      ForwardShape(n, s, p, s.(cwd := p));
    }
  }

  lemma ForwardShape(n: Nav, s: State, p: string, s2: State)
    requires NavValid(n) && n.index < |n.history| - 1 && p == n.history[n.index + 1] && CdStep(s, p).1 == s2
    ensures ForwardStep(n, s) == (Nav(p, n.history, n.index + 1), s2)
  {
  }

  /** The listing comparator is a total preorder when the name order is one. */
  lemma DirFirstTotal(nameLe: (string, string) -> bool)
    requires TotalPreorder(nameLe)
    ensures TotalPreorder(DirFirst(nameLe))
  {
    var le := DirFirst(nameLe);
    forall a: Entry, b: Entry, c: Entry | le(a, b) && le(b, c)
      ensures le(a, c)
    {
      if a.kind == b.kind && b.kind == c.kind {
        assert nameLe(a.name, b.name) && nameLe(b.name, c.name);
      }
    }
    forall a: Entry, b: Entry
      ensures le(a, b) || le(b, a)
    {
      assert nameLe(a.name, b.name) || nameLe(b.name, a.name);
    }
  }

  /** The sorted listing is ordered by the comparator and is a permutation of the directory's entries. */
  lemma SortedItemsOrdered(s: State, path: string, nameLe: (string, string) -> bool)
    requires TotalPreorder(nameLe)
    ensures SortedBy(SortedItems(s, path, nameLe), DirFirst(nameLe))
    ensures multiset(SortedItems(s, path, nameLe)) == multiset(Listing(s, path))
  {
    DirFirstTotal(nameLe);
    SortSorted(Listing(s, path), DirFirst(nameLe));
  }
}
