/**
 * What the terminal window of src/components/apps/Terminal.tsx guarantees,
 * stated over `SubmitStep` and `KeyStep`: what a submitted line leaves in
 * the transcript, how the arrow keys walk the history, and what Tab
 * completion does to the line being typed.
 */
module TerminalAppFacts {
  import opened Wrappers
  import opened Strings
  import opened FileSystem
  import opened TerminalParse
  import opened Terminal
  import opened TerminalFacts
  import opened TerminalApp

  // ---------------------------------------------------------------------
  // Submitting a line

  /** A window starts with the welcome text, an empty history and the cursor off the history. */
  lemma InitialViewInRange(path: string)
    ensures IndexInRange(InitialView(path)) && InitialView(path).index == -1
    ensures InitialView(path).lines == [Line(OutputKind, WelcomeText, None)]
  {
  }

  /** `clear` empties the transcript, still joins the history, and leaves the file system alone. */
  lemma SubmitClear(v: View, s: State, now: string)
    requires Parse(Trim(v.input)).Some? && Parse(Trim(v.input)).value.0 == "clear"
    ensures SubmitStep(v, s, now) == (View([], "", v.history + [Trim(v.input)], -1, s.cwd), s)
  {
    var input := Trim(v.input);
    ClearClears(s, input, now);
    SubmitRuns(v, s, now, CommandResult("", false, true), s);
  }

  /** An unknown command shows the typed line and then an error line naming it. */
  lemma SubmitUnknown(v: View, s: State, now: string)
    requires Parse(Trim(v.input)).Some? && !IsCommand(Parse(Trim(v.input)).value.0)
    ensures var cmd := Parse(Trim(v.input)).value.0;
      SubmitStep(v, s, now)
      == (View(v.lines + [InputLine(v, Trim(v.input)), Line(ErrorKind, cmd + ": command not found" + NotFoundHint, None)],
               "", v.history + [Trim(v.input)], -1, s.cwd), s)
  {
    var input := Trim(v.input);
    var cmd := Parse(input).value.0;
    var r := Fail(cmd + ": command not found" + NotFoundHint);
    UnknownCommand(s, input, now);
    assert r.output != "" by {
      assert |r.output| >= |": command not found"|;
    }
    SubmitRuns(v, s, now, r, s);
    assert OutputLines(r) == [Line(ErrorKind, r.output, None)];
    assert v.lines + [InputLine(v, input)] + OutputLines(r) == v.lines + [InputLine(v, input), Line(ErrorKind, r.output, None)];
  }

  /**
   * A command that does not clear the screen appends exactly its echoed line
   * (trimmed, at the prompt of the directory it was typed in) and, when it
   * printed something, one line whose kind is error exactly when the command failed.
   */
  lemma SubmitAppends(v: View, s: State, now: string)
    requires Trim(v.input) != "" && !ExecuteStep(s, Trim(v.input), now).0.clear
    ensures var (w, s2) := SubmitStep(v, s, now);
      var r := ExecuteStep(s, Trim(v.input), now).0;
      |w.lines| == |v.lines| + 1 + (if r.output == "" then 0 else 1)
      && w.lines[..|v.lines|] == v.lines
      && w.lines[|v.lines|] == Line(InputKind, Trim(v.input), Some(Prompt(v.path)))
      && (r.output != "" ==>
            w.lines[|v.lines| + 1].content == r.output && (w.lines[|v.lines| + 1].kind == ErrorKind <==> r.isError))
      && w.path == s2.cwd
  {
    var (r, s2) := ExecuteStep(s, Trim(v.input), now);
    SubmitRuns(v, s, now, r, s2);
    var w := SubmitStep(v, s, now).0;
    assert w.lines == v.lines + [InputLine(v, Trim(v.input))] + OutputLines(r);
  }

  /** After a line has been submitted, ArrowUp brings it back. */
  lemma SubmitThenUp(v: View, s: State, now: string, s2: State, ctrl: bool)
    requires Trim(v.input) != ""
    ensures KeyStep(SubmitStep(v, s, now).0, s2, "ArrowUp", ctrl).input == Trim(v.input)
  {
    var w := SubmitStep(v, s, now).0;
    assert w.history == v.history + [Trim(v.input)] && w.index == -1;
  }

  // ---------------------------------------------------------------------
  // History navigation

  /** The view after `n` presses of the arrow key `key`. */
  function Presses(v: View, s: State, key: string, n: nat): (r: View)
    requires IndexInRange(v) && (key == "ArrowUp" || key == "ArrowDown")
    ensures IndexInRange(r) && r.history == v.history && r.lines == v.lines && r.path == v.path
    decreases n
  {
    if n == 0 then v else Presses(KeyStep(v, s, key, false), s, key, n - 1)
  }

  /** While browsing, each ArrowUp moves one entry back and stops at the oldest. */
  lemma {:induction false} UpFrom(v: View, s: State, n: nat)
    requires IndexInRange(v) && v.index >= 0
    ensures Presses(v, s, "ArrowUp", n).index == Max(0, v.index - n)
    ensures n > 0 ==> Presses(v, s, "ArrowUp", n).input == v.history[Max(0, v.index - n)]
    decreases n
  {
    if n > 0 {
      UpFrom(KeyStep(v, s, "ArrowUp", false), s, n - 1);
    }
  }

  /** From the fresh line, `n` presses of ArrowUp show the `n`-th most recent command, or the oldest. */
  lemma UpRecalls(v: View, s: State, n: nat)
    requires IndexInRange(v) && v.index == -1 && |v.history| > 0 && n > 0
    ensures Presses(v, s, "ArrowUp", n).index == Max(0, |v.history| - n)
    ensures Presses(v, s, "ArrowUp", n).input == v.history[Max(0, |v.history| - n)]
  {
    var w := KeyStep(v, s, "ArrowUp", false);
    assert w.index == |v.history| - 1;
    UpFrom(w, s, n - 1);
  }

  /** While browsing, each ArrowDown moves one entry forward, and past the newest returns to an empty line. */
  lemma {:induction false} DownFrom(v: View, s: State, n: nat)
    requires IndexInRange(v) && v.index >= 0 && v.index + n <= |v.history|
    ensures var w := Presses(v, s, "ArrowDown", n);
      if v.index + n == |v.history| then w.index == -1 && w.input == ""
      else w.index == v.index + n && (n > 0 ==> w.input == v.history[v.index + n])
    decreases n
  {
    if n > 0 {
      var w := KeyStep(v, s, "ArrowDown", false);
      if v.index + 1 < |v.history| {
        DownFrom(w, s, n - 1);
      }
    }
  }

  /** Going up `n` entries and down `n` again ends on the fresh, empty line. */
  lemma UpThenDown(v: View, s: State, n: nat)
    requires IndexInRange(v) && v.index == -1 && 0 < n <= |v.history|
    ensures var w := Presses(Presses(v, s, "ArrowUp", n), s, "ArrowDown", n);
      w.index == -1 && w.input == "" && w.history == v.history && w.lines == v.lines
  {
    UpRecalls(v, s, n);
    DownFrom(Presses(v, s, "ArrowUp", n), s, n);
  }

  /** ArrowDown on the fresh line does nothing. */
  lemma DownWhenFresh(v: View, s: State, ctrl: bool)
    requires IndexInRange(v) && v.index == -1
    ensures KeyStep(v, s, "ArrowDown", ctrl) == v
  {
  }

  // ---------------------------------------------------------------------
  // Tab completion

  lemma {:induction false} JoinSnoc(xs: seq<string>, a: string, sep: string)
    ensures Join(xs + [a], sep) == if |xs| == 0 then a else Join(xs, sep) + sep + a
  {
    if |xs| == 0 {
      assert xs + [a] == [a];
    } else if |xs| > 1 {
      assert (xs + [a])[1..] == xs[1..] + [a];
      JoinSnoc(xs[1..], a, sep);
    }
  }

  /** Replacing the last piece keeps everything up to the last space and puts the suggestion after it. */
  lemma ReplaceLastFragment(input: string, suggestion: string)
    ensures |LastFragment(input)| <= |input|
    ensures input == input[..|input| - |LastFragment(input)|] + LastFragment(input)
    ensures ReplaceLast(input, suggestion) == input[..|input| - |LastFragment(input)|] + suggestion
  {
    var parts := Split(input, ' ');
    var n := |parts|;
    var init := parts[..n - 1];
    var last := parts[n - 1];
    assert parts == init + [last];
    JoinSplit(input, ' ');
    SplitLast(input);
    JoinSnoc(init, last, " ");
    JoinSnoc(init, suggestion, " ");
    var pre := if |init| == 0 then "" else Join(init, " ") + " ";
    assert input == pre + last;
    assert input[..|input| - |last|] == pre;
  }

  /** With one suggestion, Tab (`key`) replaces the fragment after the last space by it and changes nothing else. */
  lemma TabCompletes(v: View, s: State, key: string, ctrl: bool)
    requires IndexInRange(v) && key == "Tab" && |Autocomplete(s, v.input)| == 1
    ensures var pre := v.input[..|v.input| - |LastFragment(v.input)|];
      v.input == pre + LastFragment(v.input)
      && KeyStep(v, s, key, ctrl) == v.(input := pre + Autocomplete(s, v.input)[0])
  {
    var sug := Autocomplete(s, v.input)[0];
    assert KeyStep(v, s, key, ctrl) == v.(input := ReplaceLast(v.input, sug));
    ReplaceLastFragment(v.input, sug);
  }

  /** After a space, a single completion only extends what was typed, by a name of the current directory. */
  lemma TabExtends(v: View, s: State, key: string, ctrl: bool)
    requires IndexInRange(v) && key == "Tab" && ' ' in v.input && |Autocomplete(s, v.input)| == 1
    ensures var w := KeyStep(v, s, key, ctrl);
      StartsWith(w.input, v.input)
      && w.input[|v.input| - |LastFragment(v.input)|..] in CwdNames(s)
  {
    var sug := Autocomplete(s, v.input)[0];
    var frag := LastFragment(v.input);
    CompleteName(s, v.input);
    assert sug in Autocomplete(s, v.input);
    assert StartsWith(sug, frag);
    TabCompletes(v, s, key, ctrl);
    var pre := v.input[..|v.input| - |frag|];
    ExtendByCompletion(v.input, pre, frag, sug, KeyStep(v, s, key, ctrl).input);
  }

  lemma ExtendByCompletion(input: string, pre: string, frag: string, sug: string, result: string)
    requires input == pre + frag && StartsWith(sug, frag) && result == pre + sug
    ensures StartsWith(result, input) && result[|pre|..] == sug
  {
    assert sug == frag + sug[|frag|..];
    assert result == input + sug[|frag|..];
  }

  /** With several suggestions, Tab (`key`) keeps the input and shows the typed line and the suggestions separated by two spaces. */
  lemma TabLists(v: View, s: State, key: string, ctrl: bool)
    requires IndexInRange(v) && key == "Tab" && |Autocomplete(s, v.input)| > 1
    ensures KeyStep(v, s, key, ctrl)
      == v.(lines := v.lines + [InputLine(v, v.input), Line(OutputKind, Join(Autocomplete(s, v.input), "  "), None)])
  {
  }

  /** Without a space, a single completion replaces the whole input by a command of the table. */
  lemma TabOnCommand(v: View, s: State, key: string, ctrl: bool)
    requires IndexInRange(v) && key == "Tab" && ' ' !in v.input && |Autocomplete(s, v.input)| == 1
    ensures IsCommand(KeyStep(v, s, key, ctrl).input)
  {
    var sug := Autocomplete(s, v.input)[0];
    assert IsCommand(sug) by {
      CompleteCommand(s, v.input);
      assert sug in Autocomplete(s, v.input);
    }
    assert KeyStep(v, s, key, ctrl).input == sug by {
      TabCompletes(v, s, key, ctrl);
      WholeFragment(v.input);
    }
  }

  /** Without a space, the fragment being completed is the whole input. */
  lemma WholeFragment(input: string)
    requires ' ' !in input
    ensures LastFragment(input) == input && input[..|input| - |LastFragment(input)|] == ""
  {
    SplitNoSep(input, ' ');
    SplitLast(input);
  }

  // ---------------------------------------------------------------------
  // Control keys

  /** Ctrl+C abandons the line: it stays in the transcript marked `^C`, runs nothing and joins no history. */
  lemma CtrlCAbandons(v: View, s: State, key: string)
    requires IndexInRange(v) && key == "c"
    ensures var w := KeyStep(v, s, key, true);
      w.input == "" && w.history == v.history && w.index == v.index
      && w.lines == v.lines + [Line(InputKind, v.input + "^C", Some(Prompt(v.path)))]
  {
  }

  /** Ctrl+L clears the transcript and keeps the line being typed. */
  lemma CtrlLClears(v: View, s: State, key: string)
    requires IndexInRange(v) && key == "l"
    ensures KeyStep(v, s, key, true) == v.(lines := [])
  {
  }

  /** Plain `c` and `l`, and any other key, change nothing. */
  lemma OtherKeys(v: View, s: State, key: string, ctrl: bool)
    requires IndexInRange(v) && key !in {"ArrowUp", "ArrowDown", "Tab"}
    requires !ctrl || (key != "c" && key != "l")
    ensures KeyStep(v, s, key, ctrl) == v
  {
  }
}
