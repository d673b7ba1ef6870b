/**
 * The terminal window of src/components/apps/Terminal.tsx: one
 * `VirtualFileSystem` per window id, the transcript of lines, the command
 * history with its cursor, and the key handling (history, Tab completion,
 * Ctrl+C, Ctrl+L).
 */
module TerminalApp {
  import opened Wrappers
  import opened Strings
  import opened FileSystem
  import opened Terminal

  // ---------------------------------------------------------------------
  // The registry of file systems

  /** A registry never hands the same file system to two windows. */
  predicate Injective(m: map<string, VirtualFileSystem>) {
    forall w1, w2 :: w1 in m && w2 in m && w1 != w2 ==> m[w1] != m[w2]
  }

  lemma InjectiveAdd(m: map<string, VirtualFileSystem>, w: string, x: VirtualFileSystem)
    requires Injective(m) && w !in m
    requires forall v :: v in m ==> m[v] != x
    ensures Injective(m[w := x])
  {
  }

  /** `fsInstances` with `getFileSystem`. */
  class FsRegistry {
    var instances: map<string, VirtualFileSystem>

    ghost predicate Valid()
      reads this
    {
      Injective(instances)
    }

    constructor()
      ensures Valid() && instances == map[]
    {
      instances := map[];
    }

    /** The window's file system: created fresh on first use, the same object ever after. */
    method GetFileSystem(windowId: string) returns (fs: VirtualFileSystem)
      requires Valid()
      modifies this
      ensures Valid()
      ensures windowId in instances && instances[windowId] == fs
      ensures windowId in old(instances) ==> fs == old(instances)[windowId] && instances == old(instances)
      ensures windowId !in old(instances) ==>
        fresh(fs) && fs.Valid() && fs.St() == Initial && instances == old(instances)[windowId := fs]
    {
      if windowId in instances {
        fs := instances[windowId];
        return;
      }
      ghost var before := instances;
      fs := new VirtualFileSystem();
      assert forall w :: w in before ==> before[w] != fs;
      instances := instances[windowId := fs];
      InjectiveAdd(before, windowId, fs);
    }
  }

  // ---------------------------------------------------------------------
  // Lines and the view

  datatype LineKind = InputKind | OutputKind | ErrorKind

  /** A transcript line; input lines carry the prompt they were typed at. */
  datatype Line = Line(kind: LineKind, content: string, prompt: Option<string>)

  /** The prompt shown for the current directory `path`. */
  function Prompt(path: string): string {
    [ESC] + "[32muser@linux-sim" + [ESC] + "[0m:" + [ESC] + "[34m" + path + [ESC] + "[0m$ "
  }

  const WelcomeText: string :=
    "Welcome to Linux Simulator (GNU/Linux 6.5.0-virtual x86_64)\n\n"
    + " * Documentation:  https://help.linux.org\n"
    + " * Management:     https://landscape.canonical.com\n"
    + " * Support:        https://linux.org/advantage\n\n"
    + "Type " + [ESC] + "[32mhelp" + [ESC] + "[0m to see available commands.\n"

  /** The window's state: transcript, input field, command history and its cursor, and the prompt's path. */
  datatype View = View(lines: seq<Line>, input: string, history: seq<string>, index: int, path: string)

  function InitialView(path: string): View {
    View([Line(OutputKind, WelcomeText, None)], "", [], -1, path)
  }

  /** The history cursor is -1 (not browsing) or a position in the history. */
  predicate IndexInRange(v: View) {
    -1 <= v.index < |v.history|
  }

  function InputLine(v: View, content: string): Line {
    Line(InputKind, content, Some(Prompt(v.path)))
  }

  /** The line that shows a command's output, when there is one. */
  function OutputLines(r: CommandResult): seq<Line> {
    if r.output == "" then []
    else [Line(if r.isError then ErrorKind else OutputKind, r.output, None)]
  }

  /** `handleSubmit`: the new view and the new file system state. */
  function SubmitStep(v: View, s: State, now: string): (r: (View, State))
    ensures IndexInRange(v) ==> IndexInRange(r.0)
    ensures r.0.input == ""
    ensures Trim(v.input) == "" ==> r.0.history == v.history && r.1 == s
    ensures Trim(v.input) != "" ==> r.0.history == v.history + [Trim(v.input)] && r.0.index == -1
  {
    var input := Trim(v.input);
    var line := InputLine(v, input);
    if input == "" then (v.(lines := v.lines + [line], input := ""), s)
    else
      var (r, s2) := ExecuteStep(s, input, now);
      var lines := if r.clear then [] else v.lines + [line] + OutputLines(r);
      (View(lines, "", v.history + [input], -1, s2.cwd), s2)
  }

  lemma SubmitBlank(v: View, s: State, now: string)
    requires Trim(v.input) == ""
    ensures SubmitStep(v, s, now) == (v.(lines := v.lines + [InputLine(v, "")], input := ""), s)
  {
  }

  /** A non-blank submit, in terms of the command's result `r` and the new state `s2`. */
  lemma SubmitRuns(v: View, s: State, now: string, r: CommandResult, s2: State)
    requires Trim(v.input) != "" && ExecuteStep(s, Trim(v.input), now) == (r, s2)
    ensures SubmitStep(v, s, now)
      == (View(if r.clear then [] else v.lines + [InputLine(v, Trim(v.input))] + OutputLines(r),
               "", v.history + [Trim(v.input)], -1, s2.cwd), s2)
  {
  }

  /** `parts[parts.length - 1] = suggestion; parts.join(' ')`. */
  function ReplaceLast(input: string, suggestion: string): string {
    var parts := Split(input, ' ');
    Join(parts[..|parts| - 1] + [suggestion], " ")
  }

  function Max(a: int, b: int): int {
    if a >= b then a else b
  }

  /** `handleKeyDown` for `key` (with `ctrl` telling whether Control is held), over the file system state `s`. */
  function KeyStep(v: View, s: State, key: string, ctrl: bool): (r: View)
    requires IndexInRange(v)
    ensures IndexInRange(r)
    ensures r.history == v.history && r.path == v.path
    ensures key != "ArrowUp" && key != "ArrowDown" ==> r.index == v.index
    ensures key == "ArrowUp" || key == "ArrowDown" ==> r.lines == v.lines
  {
    if key == "ArrowUp" then
      if |v.history| > 0 then
        var i := if v.index == -1 then |v.history| - 1 else Max(0, v.index - 1);
        v.(index := i, input := v.history[i])
      else v
    else if key == "ArrowDown" then
      if v.index != -1 then
        var i := v.index + 1;
        if i >= |v.history| then v.(index := -1, input := "")
        else v.(index := i, input := v.history[i])
      else v
    else if key == "Tab" then
      var suggestions := Autocomplete(s, v.input);
      if |suggestions| == 1 then v.(input := ReplaceLast(v.input, suggestions[0]))
      else if |suggestions| > 1 then
        v.(lines := v.lines + [InputLine(v, v.input), Line(OutputKind, Join(suggestions, "  "), None)])
      else v
    else if key == "c" && ctrl then
      v.(lines := v.lines + [InputLine(v, v.input + "^C")], input := "")
    else if key == "l" && ctrl then
      v.(lines := [])
    else v
  }

  // ---------------------------------------------------------------------
  // The component

  class TerminalWindow {
    var lines: seq<Line>
    var currentInput: string
    var commandHistory: seq<string>
    var historyIndex: int
    var currentPath: string
    const fs: VirtualFileSystem

    function ViewOf(): View
      reads this
    {
      View(lines, currentInput, commandHistory, historyIndex, currentPath)
    }

    /** The cursor is in range and the prompt shows the file system's directory. */
    ghost predicate Valid()
      reads this, fs
    {
      fs.Valid() && IndexInRange(ViewOf()) && currentPath == fs.currentPath
    }

    constructor(fs: VirtualFileSystem)
      requires fs.Valid()
      ensures this.fs == fs && Valid()
      ensures ViewOf() == InitialView(fs.currentPath)
    {
      this.fs := fs;
      lines := [Line(OutputKind, WelcomeText, None)];
      currentInput := "";
      commandHistory := [];
      historyIndex := -1;
      currentPath := fs.currentPath;
    }

    /** The input field's `onChange`. */
    method SetInput(text: string)
      modifies this
      ensures ViewOf() == old(ViewOf()).(input := text)
    {
      currentInput := text;
    }

    method HandleSubmit(now: string)
      requires Valid()
      modifies this, fs
      ensures Valid()
      ensures (ViewOf(), fs.St()) == SubmitStep(old(ViewOf()), old(fs.St()), now)
    {
      var input := Trim(currentInput);
      if input == "" {
        SubmitBlank(ViewOf(), fs.St(), now);
        lines := lines + [InputLine(ViewOf(), input)];
        currentInput := "";
        return;
      }
      ghost var v := ViewOf();
      ghost var s := fs.St();
      var result := ExecuteCommand(input, fs, now);
      SubmitRuns(v, s, now, result, fs.St());
      Record(input, result, fs.currentPath);
    }

    /** The part of `handleSubmit` after the command ran: history, cursor, path and transcript. */
    method Record(input: string, result: CommandResult, path: string)
      modifies this
      ensures ViewOf() == View(if result.clear then [] else old(lines) + [InputLine(old(ViewOf()), input)] + OutputLines(result),
                               "", old(commandHistory) + [input], -1, path)
    {
      var inputLine := InputLine(ViewOf(), input);
      currentPath := path;
      commandHistory := commandHistory + [input];
      historyIndex := -1;
      if result.clear {
        lines := [];
      } else {
        var newLines := [inputLine];
        if result.output != "" {
          newLines := newLines + [Line(if result.isError then ErrorKind else OutputKind, result.output, None)];
        }
        lines := lines + newLines;
      }
      currentInput := "";
    }

    method HandleKeyDown(key: string, ctrl: bool)
      requires Valid()
      modifies this
      ensures Valid()
      ensures ViewOf() == KeyStep(old(ViewOf()), fs.St(), key, ctrl)
    {
      if key == "ArrowUp" {
        if |commandHistory| > 0 {
          var newIndex := if historyIndex == -1 then |commandHistory| - 1 else Max(0, historyIndex - 1);
          historyIndex := newIndex;
          currentInput := commandHistory[newIndex];
        }
      } else if key == "ArrowDown" {
        if historyIndex != -1 {
          var newIndex := historyIndex + 1;
          if newIndex >= |commandHistory| {
            historyIndex := -1;
            currentInput := "";
          } else {
            historyIndex := newIndex;
            currentInput := commandHistory[newIndex];
          }
        }
      } else if key == "Tab" {
        var suggestions := Autocomplete(fs.St(), currentInput);
        if |suggestions| == 1 {
          currentInput := ReplaceLast(currentInput, suggestions[0]);
        } else if |suggestions| > 1 {
          lines := lines + [InputLine(ViewOf(), currentInput), Line(OutputKind, Join(suggestions, "  "), None)];
        }
      } else if key == "c" && ctrl {
        lines := lines + [InputLine(ViewOf(), currentInput + "^C")];
        currentInput := "";
      } else if key == "l" && ctrl {
        lines := [];
      }
    }
  }
}
