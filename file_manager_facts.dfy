/**
 * What the file manager's navigation guarantees: going back and forward are
 * inverse moves, a new navigation forgets the forward entries, a refresh
 * changes nothing the window shows, the listing puts directories first, and
 * every breadcrumb is a prefix of the current path that can be navigated to.
 */
module FileManagerFacts {
  import opened Wrappers
  import opened Strings
  import opened Sorting
  import opened FsTree
  import opened FileSystem
  import opened FileSystemFacts
  import opened FileManager

  /** A fresh file system has the home directory the window starts in. */
  lemma FreshHasHome()
    ensures HomeIsDir(InitialTree)
  {
    HomeOfInitial();
  }

  /** The first view is valid. */
  lemma InitialNavValid(root: Node)
    requires HomeIsDir(root)
    ensures NavValid(InitialNav) && HistoryOk(root, InitialNav.history)
  {
    HomeVisited(root, Home);
  }

  // ---------------------------------------------------------------------
  // Back and forward

  /** Forward undoes back. */
  lemma BackThenForward(n: Nav, s: State)
    requires NavValid(n) && HistoryOk(s.root, n.history) && n.index > 0
    ensures var (n2, s2) := BackStep(n, s);
      ForwardStep(n2, s2).0 == n
  {
    BackKeeps(n, s);
    var (n2, s2) := BackStep(n, s);
    assert n2 == Nav(n.history[n.index - 1], n.history, n.index - 1);
    ForwardKeeps(n2, s2);
    assert ForwardStep(n2, s2).0 == Nav(n.history[n.index], n.history, n.index);
  }

  /** Back undoes forward. */
  lemma ForwardThenBack(n: Nav, s: State)
    requires NavValid(n) && HistoryOk(s.root, n.history) && n.index < |n.history| - 1
    ensures var (n2, s2) := ForwardStep(n, s);
      BackStep(n2, s2).0 == n
  {
    ForwardKeeps(n, s);
    var (n2, s2) := ForwardStep(n, s);
    assert n2 == Nav(n.history[n.index + 1], n.history, n.index + 1);
    BackKeeps(n2, s2);
    assert BackStep(n2, s2).0 == Nav(n.history[n.index], n.history, n.index);
  }

  /** After a successful navigation there is nowhere to go forward, and back returns to the directory left, in the file system too. */
  lemma NavigateThenBack(n: Nav, s: State, target: string)
    requires NavValid(n) && HistoryOk(s.root, n.history) && CdStep(s, target).0.Ok?
    ensures var (n2, s2) := NavigateStep(n, s, target);
      ForwardStep(n2, s2) == (n2, s2)
      && BackStep(n2, s2).0 == Nav(n.path, n2.history, n.index)
      && BackStep(n2, s2).1.cwd == n.path
  {
    NavigateKeeps(n, s, target);
    var (n2, s2) := NavigateStep(n, s, target);
    assert n2.history[n.index] == n.history[n.index];
    BackKeeps(n2, s2);
  }

  /** A failed navigation changes nothing at all. */
  lemma NavigateFails(n: Nav, s: State, target: string)
    requires NavValid(n) && CdStep(s, target).0.Err?
    ensures NavigateStep(n, s, target) == (n, s)
  {
    CdOutcome(s, target);
  }

  /** A refresh keeps the view and moves the file system to the directory shown. */
  lemma RefreshKeeps(n: Nav, s: State)
    requires NavValid(n) && HistoryOk(s.root, n.history)
    ensures RefreshStep(n, s) == (n, s.(cwd := n.path))
  {
    CdToDir(s, n.path);
  }

  // ---------------------------------------------------------------------
  // The listing

  /**
   * Directories come before files, items of one kind are ordered by name,
   * and the items are exactly the directory's entries.
   */
  lemma ListingDirsFirst(s: State, path: string, nameLe: (string, string) -> bool)
    requires TotalPreorder(nameLe)
    ensures var items := SortedItems(s, path, nameLe);
      multiset(items) == multiset(Listing(s, path))
      && (forall i, j :: 0 <= i < j < |items| && items[j].kind == DirKind ==> items[i].kind == DirKind)
      && (forall i, j :: 0 <= i < j < |items| && items[i].kind == items[j].kind ==> nameLe(items[i].name, items[j].name))
  {
    SortedItemsOrdered(s, path, nameLe);
    var items := SortedItems(s, path, nameLe);
    forall i, j | 0 <= i < j < |items|
      ensures items[j].kind == DirKind ==> items[i].kind == DirKind
      ensures items[i].kind == items[j].kind ==> nameLe(items[i].name, items[j].name)
    {
      assert DirFirst(nameLe)(items[i], items[j]);
    }
  }

  // ---------------------------------------------------------------------
  // The breadcrumb

  /** `[a, ..., b].join(sep)` split at a non-empty boundary. */
  lemma {:induction false} JoinConcat(a: seq<string>, b: seq<string>, sep: string)
    requires a != [] && b != []
    ensures Join(a + b, sep) == Join(a, sep) + sep + Join(b, sep)
  {
    assert (a + b)[0] == a[0];
    assert (a + b)[1..] == a[1..] + b;
    if |a| > 1 {
      JoinConcat(a[1..], b, sep);
    }
  }

  /** Breadcrumb `i` is a normalised prefix of the path made of its first `i + 1` segments; the last one is the path itself. */
  lemma CrumbPrefix(path: string, i: nat)
    requires Normalized(path) && i < |PathParts(path)|
    ensures Normalized(Crumb(path, i))
    ensures Segments(Crumb(path, i)) == PathParts(path)[..i + 1]
    ensures StartsWith(path, Crumb(path, i))
    ensures i == |PathParts(path)| - 1 ==> Crumb(path, i) == path
  {
    var segs := Segments(path);
    var pre := segs[..i + 1];
    assert forall k :: 0 <= k < |pre| ==> IsSegment(pre[k]) && pre[k] == segs[k];
    SegmentsOfJoin(pre);
    var c := Crumb(path, i);
    if i + 1 < |segs| {
      var rest := segs[i + 1..];
      assert segs == pre + rest;
      JoinConcat(pre, rest, "/");
      assert path == c + ("/" + Join(rest, "/"));
    } else {
      assert pre == segs;
    }
  }

  /** Every breadcrumb of a directory path names a directory. */
  lemma CrumbIsDir(root: Node, path: string, i: nat)
    requires IsDirPath(root, path) && i < |PathParts(path)|
    ensures IsDirPath(root, Crumb(path, i))
  {
    CrumbPrefix(path, i);
    var segs := Segments(path);
    var pre := segs[..i + 1];
    var rest := segs[i + 1..];
    assert segs == pre + rest;
    GetAtAppend(root, pre, rest);
  }

  /** A click on breadcrumb `i` always succeeds: the window and the file system move to that prefix. */
  lemma CrumbLands(n: Nav, s: State, i: nat)
    requires NavValid(n) && HistoryOk(s.root, n.history) && i < |PathParts(n.path)|
    ensures var (n2, s2) := NavigateStep(n, s, Crumb(n.path, i));
      n2.path == Crumb(n.path, i) && s2 == s.(cwd := n2.path) && n2.index == n.index + 1
  {
    assert IsDirPath(s.root, n.history[n.index]);
    CrumbIsDir(s.root, n.path, i);
    CdToDir(s, Crumb(n.path, i));
  }

  // ---------------------------------------------------------------------
  // Opening a directory

  /**
   * A double-click on the entry of a child directory with a plain name opens
   * it: the path shown gains exactly that name as its last segment.
   */
  lemma OpenChildDir(n: Nav, s: State, k: nat)
    requires ValidState(s) && NavValid(n) && HistoryOk(s.root, n.history)
    requires k < |Listing(s, n.path)|
    requires var e := Listing(s, n.path)[k];
      e.kind == DirKind && IsSegment(e.name) && e.name != "." && e.name != ".."
    ensures var (n2, s2) := NavigateStep(n, s, ChildPath(n.path, Listing(s, n.path)[k].name));
      CdStep(s, ChildPath(n.path, Listing(s, n.path)[k].name)).0.Ok?
      && Segments(n2.path) == Segments(n.path) + [Listing(s, n.path)[k].name]
      && s2.cwd == n2.path
  {
    var segs := Segments(n.path);
    assert IsDirPath(s.root, n.history[n.index]);
    var cs := ChildrenAt(s, n.path);
    var name := cs[k].name;
    assert ChildPath(n.path, Listing(s, n.path)[k].name) == ChildPath(n.path, name);
    ChildSegs(n.path, name, s.cwd);
    ChildFound(s.root, segs, cs, k);
    NormalizeShape(ChildPath(n.path, name), s.cwd);
  }

  /** The children listed for a directory path. */
  function ChildrenAt(s: State, path: string): (cs: seq<Node>)
    requires IsDirPath(s.root, path)
    ensures GetAt(s.root, Segments(path)) == Some(Dir(GetAt(s.root, Segments(path)).value.name, cs))
    ensures Listing(s, path) == Entries(cs)
  {
    NormalizedFixpoint(path, s.cwd);
    GetNodeSegs(s.root, s.cwd, path);
    GetAt(s.root, Segments(path)).value.children
  }

  /** The normalised segments of `path + "/" + name`. */
  lemma ChildSegs(path: string, name: string, cwd: string)
    requires Normalized(path) && IsSegment(name) && name != "." && name != ".."
    ensures NormSegs(ChildPath(path, name), cwd) == Segments(path) + [name]
  {
    assert path[0] == '/';
    assert StartsWith(ChildPath(path, name), "/") by {
      assert ChildPath(path, name)[0] == '/';
    }
    assert !StartsWith(ChildPath(path, name), "~");
    SegmentsConcat(path, name);
    SplitNoSep(name, '/');
    assert Segments(name) == [name];
    ResolveOfCanonical([], Segments(path) + [name]);
  }

  /** In a well-formed tree the `k`-th child of a directory is found by its name. */
  lemma ChildFound(root: Node, segs: seq<string>, cs: seq<Node>, k: nat)
    requires WellFormed(root) && k < |cs|
    requires GetAt(root, segs).Some? && GetAt(root, segs).value.Dir? && GetAt(root, segs).value.children == cs
    requires cs[k].Dir?
    ensures GetAt(root, segs + [cs[k].name]) == Some(cs[k])
  {
    WellFormedGetAt(root, segs);
    var j := IndexOf(cs, cs[k].name);
    assert j == k;
    GetAtAppend(root, segs, [cs[k].name]);
  }
}
