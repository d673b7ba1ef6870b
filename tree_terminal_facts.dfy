/**
 * What the terminal page of ndi-app/app/terminal/page.tsx guarantees, stated
 * over `Words`, `RunStep` and `EnterStep`.
 */
module TreeTerminalFacts {
  import opened Wrappers
  import opened Strings
  import opened FileTree
  import opened FileTreeFacts
  import opened TreeTerminal

  /** A word is never empty and never holds a space. */
  lemma WordsClean(cmd: string)
    ensures forall i :: 0 <= i < |Words(cmd)| ==> Words(cmd)[i] != "" && ' ' !in Words(cmd)[i]
  {
    var parts := Split(Trim(cmd), ' ');
    assert forall w :: w in parts ==> ' ' !in w;
  }

  /** A word of characters other than white space is its own trim. */
  predicate PlainWord(w: string) {
    w != "" && forall i :: 0 <= i < |w| ==> !IsWhitespace(w[i])
  }

  /** Plain words joined by single spaces are cut apart again by `run`. */
  lemma WordsOfJoin(ws: seq<string>)
    requires |ws| > 0 && forall i :: 0 <= i < |ws| ==> PlainWord(ws[i])
    ensures Words(Join(ws, " ")) == ws
  {
    var line := Join(ws, " ");
    JoinPlainEnds(ws);
    assert LeadingWs(line) == 0;
    assert line[0..] == line;
    assert TrailingWs(line) == 0;
    assert line[0..|line|] == line;
    assert forall i :: 0 <= i < |ws| ==> ' ' !in ws[i] by {
      forall i | 0 <= i < |ws|
        ensures ' ' !in ws[i]
      {
        assert forall k :: 0 <= k < |ws[i]| ==> ws[i][k] != ' ';
      }
    }
    SplitJoin(ws, ' ');
    NonEmptyOfNonEmpty(ws);
  }

  /** A line of plain words starts and ends with a character other than white space. */
  lemma {:induction false} JoinPlainEnds(ws: seq<string>)
    requires |ws| > 0 && forall i :: 0 <= i < |ws| ==> PlainWord(ws[i])
    ensures |Join(ws, " ")| > 0
    ensures !IsWhitespace(Join(ws, " ")[0])
    ensures !IsWhitespace(Join(ws, " ")[|Join(ws, " ")| - 1])
  {
    if |ws| > 1 {
      JoinPlainEnds(ws[1..]);
      var rest := Join(ws[1..], " ");
      assert Join(ws, " ") == ws[0] + " " + rest;
      assert Join(ws, " ")[0] == ws[0][0];
      assert Join(ws, " ")[|Join(ws, " ")| - 1] == rest[|rest| - 1];
    }
  }

  /** Dispatch is an exact match on the first word: anything else is an unknown command, and the store is left alone. */
  lemma UnknownCommand(s: TreeState, cmd: string, freshId: string)
    requires |Words(cmd)| > 0 && Words(cmd)[0] !in HelpNames
    ensures RunStep(s, cmd, freshId) == (Text("Unknown command: " + Words(cmd)[0]), s)
  {
  }

  /** Commands are case-sensitive: `LS` is no command. */
  lemma UpperCaseIsUnknown(s: TreeState, freshId: string)
    ensures RunStep(s, "LS", freshId) == (Text("Unknown command: LS"), s)
  {
    assert PlainWord("LS");
    WordsOfJoin(["LS"]);
    assert Join(["LS"], " ") == "LS";
    UnknownCommandNamed(s, "LS", freshId, "LS");
    assert "Unknown command: " + "LS" == "Unknown command: LS";
  }

  lemma UnknownCommandNamed(s: TreeState, cmd: string, freshId: string, name: string)
    requires Words(cmd) == [name] && name == "LS"
    ensures RunStep(s, cmd, freshId) == (Text("Unknown command: " + name), s)
  {
    assert name !in HelpNames;
    UnknownCommand(s, cmd, freshId);
  }

  /** `help`, `ls`, `cat` and unknown commands leave the store as it is. */
  lemma QueriesKeepStore(s: TreeState, cmd: string, freshId: string)
    requires |Words(cmd)| > 0 && Words(cmd)[0] !in ["cd", "mkdir", "touch", "rename", "rm", "rmdir"]
    ensures RunStep(s, cmd, freshId).1 == s
  {
  }

  /** Blank input, or a key other than Enter, changes nothing, not even the input field. */
  lemma BlankEnter(history: seq<string>, input: string, s: TreeState, key: string, freshId: string)
    requires key != "Enter" || Trim(input) == ""
    ensures EnterStep(history, input, s, key, freshId) == (history, input, s)
  {
  }

  /** Enter on a non-blank line only appends to the history: first the echoed line, then one line per node of a list, the lines of a string, or nothing. */
  lemma EnterAppends(history: seq<string>, input: string, s: TreeState, freshId: string)
    requires Trim(input) != ""
    ensures var (h2, in2, s2) := EnterStep(history, input, s, "Enter", freshId);
      var r := RunStep(s, Trim(input), freshId).0;
      in2 == "" && s2 == RunStep(s, Trim(input), freshId).1
      && |h2| > |history| && h2[..|history|] == history && h2[|history|] == "> " + Trim(input)
      && (r.Nodes? ==>
            |h2| == |history| + 1 + |r.nodes|
            && forall i :: 0 <= i < |r.nodes| ==> h2[|history| + 1 + i] == FormatNodeForLs(r.nodes[i]))
      && (r.Nothing? ==> |h2| == |history| + 1)
      && (r.Text? ==> Join(h2[|history| + 1..], "\n") == r.text)
  {
    var (h2, _, _) := EnterStep(history, input, s, "Enter", freshId);
    var r := RunStep(s, Trim(input), freshId).0;
    assert h2 == history + ["> " + Trim(input)] + ResultLines(r);
    assert h2[|history| + 1..] == ResultLines(r);
    if r.Text? {
      JoinSplit(r.text, '\n');
    }
  }

  /**
   * At the page, `mkdir name` followed by `ls` shows the directory as the
   * last line, with its slash (`cmd` is `mkdir` and `lsCmd` is `ls`).
   */
  lemma MkdirThenLs(history: seq<string>, s: TreeState, name: string, id1: string, id2: string, cmd: string, lsCmd: string)
    requires ValidTree(s) && PlainWord(name) && cmd == "mkdir" && lsCmd == "ls"
    requires FindNamed(LsNodes(s), name) == |LsNodes(s)|
    ensures var first := EnterStep(history, Join([cmd, name], " "), s, "Enter", id1);
      EnterStep(first.0, lsCmd, first.2, "Enter", id2).0
      == history + ["> " + Join([cmd, name], " "), "> " + lsCmd] + FormatAll(LsNodes(s)) + [name + "/"]
  {
    var line := Join([cmd, name], " ");
    EnterMkdir(history, line, s, id1, cmd, name);
    var s2 := MkdirStep(s, [name], id1).1;
    var h2 := history + ["> " + line];
    LsLine();
    EnterLs(h2, lsCmd, s2, id2, lsCmd);
    MkdirListing(s, name, id1);
    AppendTwice(history, h2, EnterStep(h2, lsCmd, s2, "Enter", id2).0, "> " + line, "> " + lsCmd,
      FormatAll(LsNodes(s)), FormatAll(LsNodes(s2)), name + "/");
  }

  /** After a fresh `mkdir name`, `ls` formats the old listing followed by `name/`. */
  lemma MkdirListing(s: TreeState, name: string, freshId: string)
    requires ValidTree(s) && PlainWord(name)
    requires FindNamed(LsNodes(s), name) == |LsNodes(s)|
    ensures FormatAll(LsNodes(MkdirStep(s, [name], freshId).1)) == FormatAll(LsNodes(s)) + [name + "/"]
  {
    MkdirAppends(s, [name], freshId);
    FormatAllAppend(LsNodes(s), [NewDirectory(freshId, name)]);
    assert FormatAll([NewDirectory(freshId, name)]) == [name + "/"];
  }

  lemma AppendTwice(history: seq<string>, h2: seq<string>, h3: seq<string>, a: string, b: string,
                    f: seq<string>, f2: seq<string>, x: string)
    requires h2 == history + [a] && h3 == h2 + [b] + f2 && f2 == f + [x]
    ensures h3 == history + [a, b] + f + [x]
  {
  }

  /** Enter on `mkdir name` echoes the line and runs the store's `mkdir`, whose answer is silent on success or duplicate. */
  lemma EnterMkdir(history: seq<string>, line: string, s: TreeState, freshId: string, cmd: string, name: string)
    requires line == Join([cmd, name], " ") && cmd == "mkdir" && PlainWord(name)
    ensures EnterStep(history, line, s, "Enter", freshId) == (history + ["> " + line], "", MkdirStep(s, [name], freshId).1)
  {
    assert PlainWord(cmd);
    WordsOfJoin([cmd, name]);
    JoinPlainEnds([cmd, name]);
    TrimPlain(line);
    MkdirRun(s, line, freshId, cmd, name);
    assert MkdirStep(s, [name], freshId).0.None?;
    assert history + ["> " + line] + [] == history + ["> " + line];
  }

  /** The line `ls` is its own trim and the single word `ls`. */
  lemma LsLine()
    ensures Trim("ls") == "ls" && Words("ls") == ["ls"]
  {
    assert PlainWord("ls");
    WordsOfJoin(["ls"]);
    assert Join(["ls"], " ") == "ls";
    TrimPlain("ls");
  }

  /** Enter on `ls` echoes the line and lists the current directory, formatted. */
  lemma EnterLs(history: seq<string>, line: string, s: TreeState, freshId: string, cmd: string)
    requires cmd == "ls" && Trim(line) == line && Words(line) == [cmd]
    ensures EnterStep(history, line, s, "Enter", freshId) == (history + ["> " + line] + FormatAll(LsNodes(s)), "", s)
  {
    EnterRuns(history, line, s, freshId);
    LsRun(s, line, freshId, cmd);
  }

  /** Enter on a non-blank line echoes it, trimmed, and appends the lines of `run`'s answer. */
  lemma EnterRuns(history: seq<string>, line: string, s: TreeState, freshId: string)
    requires Trim(line) != ""
    ensures var (r, s2) := RunStep(s, Trim(line), freshId);
      EnterStep(history, line, s, "Enter", freshId) == (history + ["> " + Trim(line)] + ResultLines(r), "", s2)
  {
  }

  /** A line of two words that starts with `mkdir` runs the store's `mkdir`. */
  lemma MkdirRun(s: TreeState, line: string, freshId: string, cmd: string, name: string)
    requires Words(line) == [cmd, name] && cmd == "mkdir"
    ensures RunStep(s, line, freshId) == Answer(MkdirStep(s, [name], freshId))
  {
    assert [cmd, name][1..] == [name];
  }

  /** A line of the single word `ls` lists the current directory. */
  lemma LsRun(s: TreeState, line: string, freshId: string, cmd: string)
    requires Words(line) == [cmd] && cmd == "ls"
    ensures RunStep(s, line, freshId) == (Nodes(LsNodes(s)), s)
  {
  }

  /** Formatting distributes over concatenation. */
  lemma {:induction false} FormatAllAppend(ns: seq<FileNode>, ms: seq<FileNode>)
    ensures FormatAll(ns + ms) == FormatAll(ns) + FormatAll(ms)
  {
    if |ns| == 0 {
      assert ns + ms == ms;
    } else {
      assert (ns + ms)[1..] == ns[1..] + ms;
      FormatAllAppend(ns[1..], ms);
    }
  }
}
