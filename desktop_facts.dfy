/**
 * What the window manager guarantees: stacking levels stay below the next
 * one, which never decreases; `openWindow` focuses, restores or appends;
 * the other actions touch only the window they name.
 */
module DesktopFacts {
  import opened Wrappers
  import opened Desktop

  /** The store's actions, with their arguments. */
  datatype Op =
    | Open(app: App, freshId: string, position: Position) | Close(id: string) | Minimize(id: string)
    | Maximize(id: string) | Restore(id: string) | Focus(id: string)
    | MoveTo(id: string, position: Position) | ResizeTo(id: string, size: Size) | Wallpaper(url: string)

  function Apply(s: DState, op: Op): DState {
    match op
    case Open(app, freshId, position) => OpenStep(s, app, freshId, position)
    case Close(id) => CloseStep(s, id)
    case Minimize(id) => MinimizeStep(s, id)
    case Maximize(id) => ChangeStep(s, id, Change.Maximize)
    case Restore(id) => RestoreStep(s, id)
    case Focus(id) => FocusStep(s, id)
    case MoveTo(id, p) => ChangeStep(s, id, Move(p))
    case ResizeTo(id, sz) => ChangeStep(s, id, Resize(sz))
    case Wallpaper(url) => s.(wallpaper := url)
  }

  // ---------------------------------------------------------------------
  // Stacking

  /** Every action keeps every window below the next level, and never lowers it. */
  lemma ApplyKeeps(s: DState, op: Op)
    requires Inv(s)
    ensures Inv(Apply(s, op)) && Apply(s, op).nextZIndex >= s.nextZIndex
  {
    match op
    case Close(id) =>
      var r := Without(s.windows, id);
      assert forall i :: 0 <= i < |r| ==> r[i] in s.windows;
    case _ =>
  }

  /** Open, restore and focus put the window they touch at the old next level and raise the next level by one. */
  lemma RaisedOnTop(s: DState, id: string)
    requires Inv(s) && ById(s.windows, id).Some? && !ById(s.windows, id).value.isMinimized
    ensures var s2 := FocusStep(s, id);
      s2.nextZIndex == s.nextZIndex + 1 && s2.activeWindowId == Some(id)
      && (forall i :: 0 <= i < |s2.windows| && s2.windows[i].id == id ==> s2.windows[i].zIndex == s.nextZIndex)
      && (forall i :: 0 <= i < |s2.windows| && s2.windows[i].id != id ==> s2.windows[i].zIndex < s.nextZIndex)
  {
  }

  /** Focusing a missing or minimized window changes nothing. */
  lemma FocusIgnored(s: DState, id: string)
    requires ById(s.windows, id).None? || ById(s.windows, id).value.isMinimized
    ensures FocusStep(s, id) == s
  {
  }

  /** Restoring clears both flags, raises the window and makes it active. */
  lemma RestoreShows(s: DState, id: string)
    ensures var s2 := RestoreStep(s, id);
      s2.activeWindowId == Some(id) && s2.nextZIndex == s.nextZIndex + 1 && |s2.windows| == |s.windows|
      && forall i :: 0 <= i < |s.windows| ==>
        if s.windows[i].id == id
        then s2.windows[i] == s.windows[i].(isMinimized := false, isMaximized := false, zIndex := s.nextZIndex)
        else s2.windows[i] == s.windows[i]
  {
  }

  // ---------------------------------------------------------------------
  // Opening

  /** Window ids are distinct. */
  predicate UniqueIds(ws: seq<Win>) {
    forall i, j :: 0 <= i < j < |ws| ==> ws[i].id != ws[j].id
  }

  /** With distinct ids, `find` by id returns the window at its position. */
  lemma ByIdAt(ws: seq<Win>, k: nat)
    requires UniqueIds(ws) && k < |ws|
    ensures ById(ws, ws[k].id) == Some(ws[k])
  {
    if k > 0 {
      assert ws[0].id != ws[k].id;
      assert ws[1..][k - 1] == ws[k];
      ByIdAt(ws[1..], k - 1);
    }
  }

  /** The first window of the app in the given state, by position. */
  lemma FirstOfAt(ws: seq<Win>, app: App, minimized: bool)
    requires FirstOf(ws, app, minimized).Some?
    ensures exists k :: 0 <= k < |ws| && ws[k] == FirstOf(ws, app, minimized).value
  {
  }

  /**
   * Opening an app that already shows a window (other than the text editor)
   * only focuses that window: no window is added and it becomes active.
   */
  lemma OpenFocusesShown(s: DState, app: App, freshId: string, position: Position)
    requires Inv(s) && UniqueIds(s.windows)
    requires FirstOf(s.windows, app, false).Some? && app != TextEditorApp
    ensures var s2 := OpenStep(s, app, freshId, position);
      |s2.windows| == |s.windows| && s2.activeWindowId == Some(FirstOf(s.windows, app, false).value.id)
      && s2.nextZIndex == s.nextZIndex + 1
  {
    var w := FirstOf(s.windows, app, false).value;
    FirstOfAt(s.windows, app, false);
    var k :| 0 <= k < |s.windows| && s.windows[k] == w;
    ByIdAt(s.windows, k);
  }

  /** Otherwise a minimized window of the app is restored instead of a new one being created. */
  lemma OpenRestoresMinimized(s: DState, app: App, freshId: string, position: Position)
    requires FirstOf(s.windows, app, false).None? || app == TextEditorApp
    requires FirstOf(s.windows, app, true).Some?
    ensures OpenStep(s, app, freshId, position) == RestoreStep(s, FirstOf(s.windows, app, true).value.id)
    ensures |OpenStep(s, app, freshId, position).windows| == |s.windows|
  {
  }

  /** In all other cases exactly one window is appended, shown, not maximized, on top and active. */
  lemma OpenAppends(s: DState, app: App, freshId: string, position: Position)
    requires FirstOf(s.windows, app, false).None? || app == TextEditorApp
    requires FirstOf(s.windows, app, true).None?
    ensures var s2 := OpenStep(s, app, freshId, position);
      |s2.windows| == |s.windows| + 1 && s2.windows[..|s.windows|] == s.windows
      && var w := s2.windows[|s.windows|];
      w.id == freshId && w.app == app && w.size == DefaultSize(app) && w.position == position
      && !w.isMinimized && !w.isMaximized && w.zIndex == s.nextZIndex
      && s2.activeWindowId == Some(freshId) && s2.nextZIndex == s.nextZIndex + 1
  {
  }

  /** A second text editor opens beside a shown one. */
  lemma SecondTextEditor(s: DState, freshId: string, position: Position)
    requires FirstOf(s.windows, TextEditorApp, true).None?
    ensures |OpenStep(s, TextEditorApp, freshId, position).windows| == |s.windows| + 1
  {
    OpenAppends(s, TextEditorApp, freshId, position);
  }

  // ---------------------------------------------------------------------
  // Closing, minimizing, moving

  /**
   * Closing removes the windows with that id and no other, and clears the
   * active window exactly when it was the one closed.
   */
  lemma CloseRemoves(s: DState, id: string)
    ensures var s2 := CloseStep(s, id);
      (forall w :: w in s2.windows <==> w in s.windows && w.id != id)
      && (s2.activeWindowId.None? <==> s.activeWindowId.None? || s.activeWindowId == Some(id))
      && (s.activeWindowId != Some(id) ==> s2.activeWindowId == s.activeWindowId)
      && s2.nextZIndex == s.nextZIndex
  {
  }

  /** With distinct ids, closing the window at position `k` removes exactly that one, keeping the others in order. */
  lemma {:induction false} CloseAt(ws: seq<Win>, k: nat)
    requires UniqueIds(ws) && k < |ws|
    ensures Without(ws, ws[k].id) == ws[..k] + ws[k + 1..]
  {
    var id := ws[k].id;
    if k == 0 {
      NoneWithout(ws[1..], id);
    } else {
      assert ws[0].id != id;
      assert ws[1..][k - 1] == ws[k];
      CloseAt(ws[1..], k - 1);
      assert ws[..k] == [ws[0]] + ws[1..][..k - 1];
      assert ws[k + 1..] == ws[1..][k..];
    }
  }

  /** Closing an id no window has changes nothing. */
  lemma {:induction false} NoneWithout(ws: seq<Win>, id: string)
    requires forall i :: 0 <= i < |ws| ==> ws[i].id != id
    ensures Without(ws, id) == ws
  {
    if |ws| > 0 {
      NoneWithout(ws[1..], id);
      assert [ws[0]] + ws[1..] == ws;
    }
  }

  /** Minimizing sets the flag of that window only, and clears the active window exactly when it was that one. */
  lemma MinimizeOnly(s: DState, id: string)
    ensures var s2 := MinimizeStep(s, id);
      |s2.windows| == |s.windows|
      && (forall i :: 0 <= i < |s.windows| ==>
            s2.windows[i] == if s.windows[i].id == id then s.windows[i].(isMinimized := true) else s.windows[i])
      && (s2.activeWindowId.None? <==> s.activeWindowId.None? || s.activeWindowId == Some(id))
      && (s.activeWindowId != Some(id) ==> s2.activeWindowId == s.activeWindowId)
  {
  }

  /** Moving or resizing changes the position or size of the matching window and nothing else. */
  lemma MoveResizeOnly(s: DState, id: string, p: Position, sz: Size)
    ensures var s2 := ChangeStep(s, id, Move(p));
      s2.activeWindowId == s.activeWindowId && s2.nextZIndex == s.nextZIndex && |s2.windows| == |s.windows|
      && forall i :: 0 <= i < |s.windows| ==>
        s2.windows[i] == if s.windows[i].id == id then s.windows[i].(position := p) else s.windows[i]
    ensures var s3 := ChangeStep(s, id, Resize(sz));
      s3.activeWindowId == s.activeWindowId && s3.nextZIndex == s.nextZIndex && |s3.windows| == |s.windows|
      && forall i :: 0 <= i < |s.windows| ==>
        s3.windows[i] == if s.windows[i].id == id then s.windows[i].(size := sz) else s.windows[i]
  {
  }

  // ---------------------------------------------------------------------
  // The active window is shown

  /** An id not used by any window. */
  predicate FreshFor(s: DState, op: Op) {
    op.Open? ==> forall i :: 0 <= i < |s.windows| ==> s.windows[i].id != op.freshId
  }

  /** The active window, when it is on the desktop, is not minimized. */
  predicate ActiveShown(s: DState) {
    s.activeWindowId.Some? ==>
      forall i :: 0 <= i < |s.windows| && s.windows[i].id == s.activeWindowId.value ==> !s.windows[i].isMinimized
  }

  /**
   * With distinct ids, and a new id for every new window, every action keeps
   * the ids distinct and the active window shown.
   */
  lemma ApplyKeepsShown(s: DState, op: Op)
    requires UniqueIds(s.windows) && ActiveShown(s) && FreshFor(s, op)
    ensures UniqueIds(Apply(s, op).windows) && ActiveShown(Apply(s, op))
  {
    match op
    case Close(id) =>
      WithoutUnique(s.windows, id);
    case Focus(id) =>
      FocusShown(s, id);
    case Open(app, freshId, position) =>
      OpenShown(s, app, freshId, position);
    case Minimize(id) =>
      UpdatedIds(s.windows, id, Change.Minimize);
    case Maximize(id) =>
      UpdatedIds(s.windows, id, Change.Maximize);
    case Restore(id) =>
      UpdatedIds(s.windows, id, Change.Restore(s.nextZIndex));
    case MoveTo(id, p) =>
      UpdatedIds(s.windows, id, Move(p));
    case ResizeTo(id, sz) =>
      UpdatedIds(s.windows, id, Resize(sz));
    case Wallpaper(url) =>
  }

  lemma OpenShown(s: DState, app: App, freshId: string, position: Position)
    requires UniqueIds(s.windows) && ActiveShown(s)
    requires forall i :: 0 <= i < |s.windows| ==> s.windows[i].id != freshId
    ensures UniqueIds(OpenStep(s, app, freshId, position).windows) && ActiveShown(OpenStep(s, app, freshId, position))
  {
    var shown := FirstOf(s.windows, app, false);
    if shown.Some? && app != TextEditorApp {
      FocusShown(s, shown.value.id);
    } else if FirstOf(s.windows, app, true).Some? {
      UpdatedIds(s.windows, FirstOf(s.windows, app, true).value.id, Change.Restore(s.nextZIndex));
    }
  }

  /** A change keeps every window's id. */
  lemma UpdatedIds(ws: seq<Win>, id: string, c: Change)
    ensures forall i :: 0 <= i < |ws| ==> Updated(ws, id, c)[i].id == ws[i].id
    ensures UniqueIds(ws) ==> UniqueIds(Updated(ws, id, c))
  {
  }

  lemma FocusShown(s: DState, id: string)
    requires UniqueIds(s.windows) && ActiveShown(s)
    ensures UniqueIds(FocusStep(s, id).windows) && ActiveShown(FocusStep(s, id))
  {
    var w := ById(s.windows, id);
    if w.Some? && !w.value.isMinimized {
      var k :| 0 <= k < |s.windows| && s.windows[k] == w.value;
      forall i | 0 <= i < |s.windows| && s.windows[i].id == id
        ensures i == k
      {
      }
    }
  }

  lemma {:induction false} WithoutUnique(ws: seq<Win>, id: string)
    requires UniqueIds(ws)
    ensures UniqueIds(Without(ws, id))
  {
    if |ws| > 0 {
      WithoutUnique(ws[1..], id);
      var rest := Without(ws[1..], id);
      if ws[0].id != id {
        forall j | 0 <= j < |rest|
          ensures rest[j].id != ws[0].id
        {
          assert rest[j] in ws[1..];
        }
        assert UniqueIds([ws[0]] + rest) by {
          assert forall j :: 1 <= j < |[ws[0]] + rest| ==> ([ws[0]] + rest)[j] == rest[j - 1];
        }
      }
    }
  }
}
