/**
 * The window manager of src/stores/desktopStore.ts: the list of open
 * windows, the active one and the next stacking level. Each action is a
 * function from the old desktop to the new one; `DesktopStore` holds the same
 * fields and rewrites them in place. The random id and position of a new
 * window are parameters.
 */
module Desktop {
  import opened Wrappers

  /** `AppType`. */
  datatype App =
    | TerminalApp | FileManagerApp | SettingsApp | TextEditorApp | CalculatorApp
    | BrowserApp | TrashApp | WriterApp | CalcApp | ImpressApp

  datatype Position = Position(x: real, y: real)

  datatype Size = Size(width: real, height: real)

  /** `WindowState`. */
  datatype Win = Win(id: string, title: string, app: App, position: Position, size: Size,
                     isMinimized: bool, isMaximized: bool, zIndex: int)

  datatype DState = DState(windows: seq<Win>, activeWindowId: Option<string>, wallpaper: string, nextZIndex: int)

  /** `DEFAULT_WINDOW_SIZES`. */
  function DefaultSize(app: App): Size {
    match app
    case TerminalApp => Size(700.0, 450.0)
    case FileManagerApp => Size(800.0, 500.0)
    case SettingsApp => Size(750.0, 550.0)
    case TextEditorApp => Size(650.0, 500.0)
    case CalculatorApp => Size(300.0, 450.0)
    case BrowserApp => Size(900.0, 600.0)
    case TrashApp => Size(600.0, 400.0)
    case WriterApp => Size(850.0, 600.0)
    case CalcApp => Size(900.0, 550.0)
    case ImpressApp => Size(950.0, 650.0)
  }

  /** `APP_TITLES`. */
  function AppTitle(app: App): string {
    match app
    case TerminalApp => "Terminal"
    case FileManagerApp => "Files"
    case SettingsApp => "Settings"
    case TextEditorApp => "Text Editor"
    case CalculatorApp => "Calculator"
    case BrowserApp => "Firefox"
    case TrashApp => "Trash"
    case WriterApp => "LibreOffice Writer"
    case CalcApp => "LibreOffice Calc"
    case ImpressApp => "LibreOffice Impress"
  }

  /** The store's initial state: no window and the wallpaper `/wallpaper.jpg`. */
  function InitialDesktop(): DState {
    DState([], None, "/wallpaper.jpg", 1)
  }

  /** `windows.find((w) => w.app === app && w.isMinimized === minimized)`. */
  function FirstOf(ws: seq<Win>, app: App, minimized: bool): (r: Option<Win>)
    ensures r.Some? ==> r.value in ws && r.value.app == app && r.value.isMinimized == minimized
    ensures r.None? ==> forall i :: 0 <= i < |ws| ==> !(ws[i].app == app && ws[i].isMinimized == minimized)
  {
    if |ws| == 0 then None
    else if ws[0].app == app && ws[0].isMinimized == minimized then Some(ws[0])
    else FirstOf(ws[1..], app, minimized)
  }

  /** `windows.find((w) => w.id === id)`. */
  function ById(ws: seq<Win>, id: string): (r: Option<Win>)
    ensures r.Some? ==> r.value in ws && r.value.id == id
    ensures r.None? ==> forall i :: 0 <= i < |ws| ==> ws[i].id != id
  {
    if |ws| == 0 then None
    else if ws[0].id == id then Some(ws[0])
    else ById(ws[1..], id)
  }

  /** What an action does to each window it touches. */
  datatype Change = Minimize | Maximize | Restore(z: int) | Raise(z: int) | Move(p: Position) | Resize(sz: Size)

  function ApplyChange(w: Win, c: Change): Win {
    match c
    case Minimize => w.(isMinimized := true)
    case Maximize => w.(isMaximized := true)
    case Restore(z) => w.(isMinimized := false, isMaximized := false, zIndex := z)
    case Raise(z) => w.(zIndex := z)
    case Move(p) => w.(position := p)
    case Resize(sz) => w.(size := sz)
  }

  /** `windows.map((w) => w.id === id ? change(w) : w)`. */
  function Updated(ws: seq<Win>, id: string, c: Change): (r: seq<Win>)
    ensures |r| == |ws|
    ensures forall i :: 0 <= i < |ws| ==> r[i] == if ws[i].id == id then ApplyChange(ws[i], c) else ws[i]
  {
    seq(|ws|, i requires 0 <= i < |ws| => if ws[i].id == id then ApplyChange(ws[i], c) else ws[i])
  }

  /** `windows.filter((w) => w.id !== id)`. */
  function Without(ws: seq<Win>, id: string): (r: seq<Win>)
    ensures forall w :: w in r <==> w in ws && w.id != id
    ensures |r| <= |ws|
  {
    if |ws| == 0 then []
    else if ws[0].id == id then Without(ws[1..], id)
    else [ws[0]] + Without(ws[1..], id)
  }

  /** `focusWindow`: raise a shown window to the top and make it active; otherwise nothing. */
  function FocusStep(s: DState, id: string): DState {
    var w := ById(s.windows, id);
    if w.None? || w.value.isMinimized then s
    else DState(Updated(s.windows, id, Raise(s.nextZIndex)), Some(id), s.wallpaper, s.nextZIndex + 1)
  }

  /** `restoreWindow`: unminimize and unmaximize the window, raise it and make it active. */
  function RestoreStep(s: DState, id: string): DState {
    DState(Updated(s.windows, id, Restore(s.nextZIndex)), Some(id), s.wallpaper, s.nextZIndex + 1)
  }

  /** The window `openWindow` creates. */
  function NewWindow(app: App, id: string, position: Position, z: int): Win {
    Win(id, AppTitle(app), app, position, DefaultSize(app), false, false, z)
  }

  /**
   * `openWindow`: focus a shown window of the app (several text editors may
   * be open), else restore a minimized one, else open a new window on top.
   */
  function OpenStep(s: DState, app: App, freshId: string, position: Position): DState {
    var shown := FirstOf(s.windows, app, false);
    if shown.Some? && app != TextEditorApp then FocusStep(s, shown.value.id)
    else
      var minimized := FirstOf(s.windows, app, true);
      if minimized.Some? then RestoreStep(s, minimized.value.id)
      else DState(s.windows + [NewWindow(app, freshId, position, s.nextZIndex)], Some(freshId), s.wallpaper,
                  s.nextZIndex + 1)
  }

  /** The active window after the window `id` goes away or is minimized. */
  function Deactivated(active: Option<string>, id: string): Option<string> {
    if active == Some(id) then None else active
  }

  /** `closeWindow`. */
  function CloseStep(s: DState, id: string): DState {
    s.(windows := Without(s.windows, id), activeWindowId := Deactivated(s.activeWindowId, id))
  }

  /** `minimizeWindow`. */
  function MinimizeStep(s: DState, id: string): DState {
    s.(windows := Updated(s.windows, id, Minimize), activeWindowId := Deactivated(s.activeWindowId, id))
  }

  /** `maximizeWindow`, `updateWindowPosition` and `updateWindowSize`: only the windows list changes. */
  function ChangeStep(s: DState, id: string, c: Change): DState {
    s.(windows := Updated(s.windows, id, c))
  }

  /** Every window lies below the next stacking level, which is at least 1. */
  predicate Inv(s: DState) {
    s.nextZIndex >= 1 && forall i :: 0 <= i < |s.windows| ==> s.windows[i].zIndex < s.nextZIndex
  }

  /** The store. */
  class DesktopStore {
    var windows: seq<Win>
    var activeWindowId: Option<string>
    var wallpaper: string
    var nextZIndex: int

    function St(): DState
      reads this
    {
      DState(windows, activeWindowId, wallpaper, nextZIndex)
    }

    predicate Valid()
      reads this
    {
      Inv(St())
    }

    /** An empty desktop with the wallpaper `/wallpaper.jpg`. */
    constructor ()
      ensures St() == InitialDesktop() && Valid()
    {
      windows := [];
      activeWindowId := None;
      wallpaper := "/wallpaper.jpg";
      nextZIndex := 1;
    }

    method OpenWindow(app: App, freshId: string, position: Position)
      requires Valid()
      modifies this
      ensures St() == OpenStep(old(St()), app, freshId, position) && Valid()
    {
      var shown := FirstOf(windows, app, false);
      if shown.Some? && app != TextEditorApp {
        FocusWindow(shown.value.id);
        return;
      }
      var minimized := FirstOf(windows, app, true);
      if minimized.Some? {
        RestoreWindow(minimized.value.id);
        return;
      }
      windows := windows + [NewWindow(app, freshId, position, nextZIndex)];
      activeWindowId := Some(freshId);
      nextZIndex := nextZIndex + 1;
    }

    method CloseWindow(id: string)
      requires Valid()
      modifies this
      ensures St() == CloseStep(old(St()), id) && Valid()
    {
      windows := Without(windows, id);
      activeWindowId := Deactivated(activeWindowId, id);
    }

    method MinimizeWindow(id: string)
      requires Valid()
      modifies this
      ensures St() == MinimizeStep(old(St()), id) && Valid()
    {
      windows := Updated(windows, id, Minimize);
      activeWindowId := Deactivated(activeWindowId, id);
    }

    method MaximizeWindow(id: string)
      requires Valid()
      modifies this
      ensures St() == ChangeStep(old(St()), id, Maximize) && Valid()
    {
      windows := Updated(windows, id, Maximize);
    }

    method RestoreWindow(id: string)
      requires Valid()
      modifies this
      ensures St() == RestoreStep(old(St()), id) && Valid()
    {
      windows := Updated(windows, id, Restore(nextZIndex));
      activeWindowId := Some(id);
      nextZIndex := nextZIndex + 1;
    }

    method FocusWindow(id: string)
      requires Valid()
      modifies this
      ensures St() == FocusStep(old(St()), id) && Valid()
    {
      var w := ById(windows, id);
      if w.None? || w.value.isMinimized {
        return;
      }
      windows := Updated(windows, id, Raise(nextZIndex));
      activeWindowId := Some(id);
      nextZIndex := nextZIndex + 1;
    }

    method UpdateWindowPosition(id: string, position: Position)
      requires Valid()
      modifies this
      ensures St() == ChangeStep(old(St()), id, Move(position)) && Valid()
    {
      windows := Updated(windows, id, Move(position));
    }

    method UpdateWindowSize(id: string, size: Size)
      requires Valid()
      modifies this
      ensures St() == ChangeStep(old(St()), id, Resize(size)) && Valid()
    {
      windows := Updated(windows, id, Resize(size));
    }

    method SetWallpaper(url: string)
      requires Valid()
      modifies this
      ensures St() == old(St()).(wallpaper := url) && Valid()
    {
      wallpaper := url;
    }
  }
}
