/**
 * What the command interpreter of ndi-app/src/lib/terminal.ts guarantees,
 * stated over `ExecuteStep` and `Autocomplete`.
 */
module TerminalFacts {
  import opened Wrappers
  import opened Strings
  import opened FsTree
  import opened FileSystem
  import opened FileSystemFacts
  import opened TerminalParse
  import opened Terminal

  /** Blank input prints nothing and runs no handler. */
  lemma BlankInput(s: State, input: string, now: string)
    requires Trim(input) == ""
    ensures ExecuteStep(s, input, now) == (Out(""), s)
  {
  }

  /** Only `cd`, `mkdir`, `touch` and `rm` can change the file system. */
  lemma ReadOnlyCommands(s: State, input: string, now: string)
    requires Parse(input).None? || Parse(input).value.0 !in {"cd", "mkdir", "touch", "rm"}
    ensures ExecuteStep(s, input, now).1 == s
  {
  }

  /** A command missing from the table is reported by its name, and the file system is left alone. */
  lemma UnknownCommand(s: State, input: string, now: string)
    requires Parse(input).Some? && !IsCommand(Parse(input).value.0)
    ensures ExecuteStep(s, input, now) == (Fail(Parse(input).value.0 + ": command not found" + NotFoundHint), s)
  {
  }

  /** The interpreter on a parsed line. */
  lemma Executes(s: State, input: string, now: string, cmd: string, args: seq<string>)
    requires Parse(input) == Some((cmd, args))
    ensures ExecuteStep(s, input, now)
      == if IsCommand(cmd) then Dispatch(s, cmd, args, now) else (Fail(cmd + ": command not found" + NotFoundHint), s)
  {
  }

  /** `cat`, `mkdir` and `touch` without arguments, and `rm` without an operand, fail without touching the file system. */
  lemma MissingOperands(s: State, input: string, now: string)
    requires Parse(input).Some?
    ensures var (cmd, args) := Parse(input).value;
      var (r, s2) := ExecuteStep(s, input, now);
      (cmd == "cat" && args == [] ==> r == Fail("cat: missing file operand") && s2 == s)
      && (cmd == "mkdir" && args == [] ==> r == Fail("mkdir: missing operand") && s2 == s)
      && (cmd == "touch" && args == [] ==> r == Fail("touch: missing file operand") && s2 == s)
      && (cmd == "rm" && (forall i :: 0 <= i < |args| ==> StartsWith(args[i], "-") || args[i] == "")
          ==> r == Fail("rm: missing operand") && s2 == s)
  {
    var (cmd, args) := Parse(input).value;
    if cmd == "rm" && (forall i :: 0 <= i < |args| ==> StartsWith(args[i], "-") || args[i] == "") {
      assert Operand(args) == "";
    }
  }

  /** The line `cd` is the command `cd` without arguments. */
  lemma ParseCd()
    ensures Parse("cd") == Some(("cd", []))
  {
    WordIsToken("cd", 0);
    ParseOfJoin("cd", []);
    assert Join(["cd"], " ") == "cd";
    assert ["cd"] + [] == ["cd"];
    assert ToLower("cd") == "cd";
    assert StripAll([]) == [];
  }

  /** A parsed line whose command is in the table runs that command's handler. */
  lemma ExecutesCommand(s: State, input: string, now: string, cmd: string, args: seq<string>)
    requires Parse(input) == Some((cmd, args)) && IsCommand(cmd)
    ensures ExecuteStep(s, input, now) == Dispatch(s, cmd, args, now)
  {
  }

  /** A line that parses as `cd` with the arguments `args` is the file system's `cd` of `CdTarget(args)`. */
  lemma CdLine(s: State, input: string, now: string, cmd: string, args: seq<string>)
    requires Parse(input) == Some((cmd, args)) && cmd == "cd"
    ensures ExecuteStep(s, input, now) == (Silent(CdStep(s, CdTarget(args)).0), CdStep(s, CdTarget(args)).1)
  {
    assert CommandNames[2] == cmd;
    ExecutesCommand(s, input, now, cmd, args);
  }

  /** `cd` with no argument goes home, when the home directory exists. */
  lemma CdGoesHome(s: State, now: string)
    requires GetAt(s.root, HomeSegs).Some? && GetAt(s.root, HomeSegs).value.Dir?
    ensures ExecuteStep(s, "cd", now) == (Out(""), s.(cwd := Home))
  {
    ParseCd();
    CdLine(s, "cd", now, "cd", []);
    CdHome(s);
  }

  /** Changing to `~` enters the home directory when it exists. */
  lemma CdHome(s: State)
    requires GetAt(s.root, HomeSegs).Some? && GetAt(s.root, HomeSegs).value.Dir?
    ensures CdStep(s, "~") == (Ok(""), s.(cwd := Home))
  {
    TildeIsHome(s.cwd);
    HomeNormal(s.cwd);
  }

  /** `~` normalises to the home path. */
  lemma HomeNormal(cwd: string)
    ensures NormalizePath("~", cwd) == Home
  {
    TildeIsHome(cwd);
    assert Join(HomeSegs, "/") == "home" + "/" + "user";
  }

  /** A quoted operand reaches the handler without its quotes, spaces included. */
  lemma QuotedOperand(c: string, x: string)
    requires IsToken(c) && '"' !in x
    ensures Parse(Join([c, "\"" + x + "\""], " ")) == Some((ToLower(c), [x]))
  {
    var q := "\"" + x + "\"";
    QuotedIsToken(x);
    ParseOfJoin(c, [q]);
    assert [c] + [q] == [c, q];
    StripQuotesOfQuoted(x);
    assert StripAll([q]) == [x];
  }

  /** `which x` answers `/usr/bin/x` exactly for the commands of the table. */
  lemma WhichAnswers(s: State, input: string, now: string)
    requires Parse(input).Some? && Parse(input).value.0 == "which" && |Parse(input).value.1| > 0
    ensures var x := Parse(input).value.1[0];
      var (r, s2) := ExecuteStep(s, input, now);
      s2 == s && (!r.isError <==> IsCommand(x)) && (IsCommand(x) ==> r.output == "/usr/bin/" + x)
  {
  }

  /** `clear` clears the screen and prints nothing, whatever follows it. */
  lemma ClearClears(s: State, input: string, now: string)
    requires Parse(input).Some? && Parse(input).value.0 == "clear"
    ensures ExecuteStep(s, input, now) == (CommandResult("", false, true), s)
  {
  }

  /** The lines `ls -la` and `ls -al` are `ls` with one flag. */
  lemma ParseLsFlags()
    ensures Parse("ls -la") == Some(("ls", ["-la"]))
    ensures Parse("ls -al") == Some(("ls", ["-al"]))
  {
    assert Join(["ls"] + ["-la"], " ") == "ls -la";
    ParseLsFlag("ls", "-la");
    assert Join(["ls"] + ["-al"], " ") == "ls -al";
    ParseLsFlag("ls", "-al");
  }

  lemma ParseLsFlag(c: string, flag: string)
    requires c == "ls" && (flag == "-la" || flag == "-al")
    ensures Parse(Join([c] + [flag], " ")) == Some((c, [flag]))
  {
    WordIsToken(c, 0);
    WordIsToken(flag, 0);
    ParseOfJoin(c, [flag]);
    assert ToLower(c) == c;
    assert StripAll([flag]) == [flag];
  }

  /** A line that parses as `ls` lists the operand, with the flags read from the arguments. */
  lemma LsLine(s: State, input: string, now: string, cmd: string, args: seq<string>)
    requires Parse(input) == Some((cmd, args)) && cmd == "ls"
    ensures ExecuteStep(s, input, now) == (Printed(LsOutput(s, Operand(args), LsHidden(args), LsLong(args))), s)
  {
    LsIsCommand(cmd);
    ExecutesCommand(s, input, now, cmd, args);
    DispatchLs(s, cmd, args, now);
  }

  lemma LsIsCommand(cmd: string)
    requires cmd == "ls"
    ensures IsCommand(cmd)
  {
    assert CommandNames[1] == cmd;
  }

  lemma DispatchLs(s: State, cmd: string, args: seq<string>, now: string)
    requires cmd == "ls"
    ensures Dispatch(s, cmd, args, now) == (Printed(LsOutput(s, Operand(args), LsHidden(args), LsLong(args))), s)
  {
  }

  /** The single flag `-la` or `-al` asks for hidden entries and the long format, and names no operand. */
  lemma LongAllFlag(flag: string)
    requires flag == "-la" || flag == "-al"
    ensures Operand([flag]) == "" && LsHidden([flag]) && LsLong([flag])
  {
    assert StartsWith(flag, "-");
  }

  /** `ls` with the single flag `-la` or `-al` lists the current directory in long format, hidden entries included. */
  lemma LsFlagLine(s: State, input: string, now: string, cmd: string, flag: string)
    requires Parse(input) == Some((cmd, [flag])) && cmd == "ls" && (flag == "-la" || flag == "-al")
    ensures ExecuteStep(s, input, now) == (Printed(LsOutput(s, "", true, true)), s)
  {
    LsLine(s, input, now, cmd, [flag]);
    LongAllFlag(flag);
  }

  /** `ls -la` and `ls -al` both list the current directory in long format, hidden entries included. */
  lemma LsLongAll(s: State, now: string)
    ensures ExecuteStep(s, "ls -la", now) == ExecuteStep(s, "ls -al", now)
    ensures ExecuteStep(s, "ls -la", now) == (Printed(LsOutput(s, "", true, true)), s)
  {
    ParseLsFlags();
    LsFlagLine(s, "ls -la", now, "ls", "-la");
    LsFlagLine(s, "ls -al", now, "ls", "-al");
  }

  /** A line that parses as `mkdir` with a first argument is the file system's `mkdir` of that argument. */
  lemma MkdirLine(s: State, input: string, now: string, cmd: string, args: seq<string>)
    requires Parse(input) == Some((cmd, args)) && cmd == "mkdir" && |args| > 0
    ensures ExecuteStep(s, input, now) == (Silent(MkdirStep(s, args[0]).0), MkdirStep(s, args[0]).1)
  {
    assert CommandNames[6] == cmd;
    ExecutesCommand(s, input, now, cmd, args);
  }

  /**
   * A line that parses as `touch` with a first argument is the file system's
   * `touch` of that argument: a failure is shown as an error with its text, a
   * success prints nothing.
   */
  lemma TouchLine(s: State, input: string, now: string, cmd: string, args: seq<string>)
    requires Parse(input) == Some((cmd, args)) && cmd == "touch" && |args| > 0
    ensures ExecuteStep(s, input, now).1 == TouchStep(s, args[0]).1
    ensures ExecuteStep(s, input, now).0 ==
      if TouchStep(s, args[0]).0.Err? then CommandResult(TouchStep(s, args[0]).0.error, true, false)
      else CommandResult("", false, false)
  {
    assert CommandNames[7] == cmd;
    ExecutesCommand(s, input, now, cmd, args);
  }

  /**
   * A line that parses as `rm` with an operand is the file system's `rm` of
   * the first argument not starting with `-`, recursive exactly when one of
   * the arguments is `-r`, `-rf` or `-fr`; a failure is shown as an error with
   * its text, a success prints nothing.
   */
  lemma RmLine(s: State, input: string, now: string, cmd: string, args: seq<string>)
    requires Parse(input) == Some((cmd, args)) && cmd == "rm" && Operand(args) != ""
    ensures RmRecursive(args) <==> "-r" in args || "-rf" in args || "-fr" in args
    ensures ExecuteStep(s, input, now).1 == RmStep(s, Operand(args), RmRecursive(args)).1
    ensures ExecuteStep(s, input, now).0 ==
      if RmStep(s, Operand(args), RmRecursive(args)).0.Err? then
        CommandResult(RmStep(s, Operand(args), RmRecursive(args)).0.error, true, false)
      else CommandResult("", false, false)
  {
    RmIsCommand(cmd);
    ExecutesCommand(s, input, now, cmd, args);
    RmDispatch(s, cmd, args, now);
  }

  lemma RmIsCommand(cmd: string)
    requires cmd == "rm"
    ensures IsCommand(cmd)
  {
    assert CommandNames[8] == cmd;
  }

  lemma RmDispatch(s: State, cmd: string, args: seq<string>, now: string)
    requires cmd == "rm" && Operand(args) != ""
    ensures Dispatch(s, cmd, args, now) ==
      (Silent(RmStep(s, Operand(args), RmRecursive(args)).0), RmStep(s, Operand(args), RmRecursive(args)).1)
  {
  }

  /**
   * A line that parses as `cat` with a first argument prints the file
   * system's `cat` of that argument, or shows its failure as an error, and
   * changes nothing.
   */
  lemma CatLine(s: State, input: string, now: string, cmd: string, args: seq<string>)
    requires Parse(input) == Some((cmd, args)) && cmd == "cat" && |args| > 0
    ensures ExecuteStep(s, input, now).1 == s
    ensures ExecuteStep(s, input, now).0 ==
      if CatOutput(s, args[0]).Err? then CommandResult(CatOutput(s, args[0]).error, true, false)
      else CommandResult(CatOutput(s, args[0]).output, false, false)
  {
    assert CommandNames[4] == cmd;
    ExecutesCommand(s, input, now, cmd, args);
  }

  /** A directory made at the prompt can be entered at the prompt. */
  lemma MkdirThenCdAtPrompt(s: State, w: string, now: string)
    requires ValidState(s)
    requires IsToken(w) && StripQuotes(w) == w
    requires ExecuteStep(s, Join(["mkdir", w], " "), now).0 == Out("")
    ensures var s2 := ExecuteStep(s, Join(["mkdir", w], " "), now).1;
      ExecuteStep(s2, Join(["cd", w], " "), now) == (Out(""), s2.(cwd := NormalizePath(w, s.cwd)))
  {
    ParseWordCommand("mkdir", w);
    ParseWordCommand("cd", w);
    MkdirLine(s, Join(["mkdir", w], " "), now, "mkdir", [w]);
    var s2 := MkdirStep(s, w).1;
    CdLine(s2, Join(["cd", w], " "), now, "cd", [w]);
    assert CdTarget([w]) == w;
    MkdirThenCd(s, w);
  }

  /** `mkdir w` and `cd w` are the commands `mkdir` and `cd` with the single argument `w`. */
  lemma ParseWordCommand(c: string, w: string)
    requires c == "mkdir" || c == "cd"
    requires IsToken(w) && StripQuotes(w) == w
    ensures Parse(Join([c, w], " ")) == Some((c, [w]))
  {
    WordIsToken(c, 0);
    ParseOfJoin(c, [w]);
    assert [c] + [w] == [c, w];
    assert ToLower("mkdir") == "mkdir" && ToLower("cd") == "cd";
    assert StripAll([w]) == [w];
  }

  // ---------------------------------------------------------------------
  // The cow

  /** The speech line is as wide as the borders around it, and shows the message, cut after 37 characters when it is longer than 40. */
  lemma CowsayBubble(message: string)
    ensures |SpeechLine(message)| == |Border(message)| + 2
    ensures |message| <= 40 ==> SpeechLine(message) == "< " + message + " >"
    ensures |message| > 40 ==> SpeechLine(message) == "< " + message[..37] + "..." + " >"
  {
  }

  // ---------------------------------------------------------------------
  // Completion

  /** The part of `s` after its last space: the fragment being completed. */
  function LastFragment(s: string): (r: string)
    ensures |r| <= |s|
    decreases |s|
  {
    if |s| == 0 then ""
    else if s[|s| - 1] == ' ' then ""
    else LastFragment(s[..|s| - 1]) + [s[|s| - 1]]
  }

  /** `split(' ')` returns one piece exactly when there is no space. */
  lemma {:induction false} SplitOnePiece(s: string, sep: char)
    ensures |Split(s, sep)| == 1 <==> sep !in s
  {
    if |s| > 0 {
      SplitOnePiece(s[1..], sep);
      assert s == [s[0]] + s[1..];
    }
  }

  /** The last piece of `split(' ')` is the part after the last space. */
  lemma {:induction false} SplitLast(s: string)
    ensures Split(s, ' ')[|Split(s, ' ')| - 1] == LastFragment(s)
    decreases |s|
  {
    if |s| > 0 {
      var init := s[..|s| - 1];
      var c := s[|s| - 1];
      if c == ' ' {
        assert s == init + [' '] + "";
        SplitConcat(init, "", ' ');
      } else {
        assert s == init + [c];
        SplitSnoc(init, c);
        SplitLast(init);
      }
    }
  }

  /** A character other than a space extends the last piece of `split(' ')`. */
  lemma {:induction false} SplitSnoc(s: string, c: char)
    requires c != ' '
    ensures |Split(s + [c], ' ')| == |Split(s, ' ')|
    ensures Split(s + [c], ' ')[|Split(s, ' ')| - 1] == Split(s, ' ')[|Split(s, ' ')| - 1] + [c]
    decreases |s|
  {
    if |s| == 0 {
      assert s + [c] == [c];
      assert [c][1..] == [];
    } else {
      assert (s + [c])[1..] == s[1..] + [c];
      assert (s + [c])[0] == s[0];
      SplitSnoc(s[1..], c);
      var rest := Split(s[1..], ' ');
      var n := |rest|;
      if s[0] != ' ' && n == 1 {
        assert [s[0]] + (rest[0] + [c]) == ([s[0]] + rest[0]) + [c];
      }
    }
  }

  /** Without a space, completion offers the commands that start with the lower-cased input, in table order. */
  lemma CompleteCommand(s: State, input: string)
    requires ' ' !in input
    ensures Autocomplete(s, input) == WithPrefix(CommandNames, ToLower(input))
    ensures forall x :: x in Autocomplete(s, input) <==> IsCommand(x) && StartsWith(x, ToLower(input))
  {
    SplitNoSep(input, ' ');
  }

  /** With more than one piece, completion filters the current directory's names by the last piece. */
  lemma CompleteFromPieces(s: State, input: string, parts: seq<string>)
    requires parts == Split(input, ' ') && |parts| != 1
    ensures Autocomplete(s, input) == WithPrefix(CwdNames(s), parts[|parts| - 1])
  {
  }

  /** After a space, completion offers the current directory's names that start with the last fragment, dot-files included. */
  lemma CompleteName(s: State, input: string)
    requires ' ' in input
    ensures forall x ::
      x in Autocomplete(s, input) <==> x in CwdNames(s) && StartsWith(x, LastFragment(input))
  {
    var parts := Split(input, ' ');
    assert |parts| != 1 by {
      SplitOnePiece(input, ' ');
    }
    assert parts[|parts| - 1] == LastFragment(input) by {
      SplitLast(input);
    }
    CompleteFromPieces(s, input, parts);
  }

  /** Filtering by a prefix keeps exactly the names with that prefix. */
  lemma FilterNames(names: seq<string>, p: string)
    ensures forall x :: x in WithPrefix(names, p) <==> x in names && StartsWith(x, p)
  {
  }

  /** An empty prefix keeps every name. */
  lemma {:induction false} WithEmptyPrefix(names: seq<string>)
    ensures WithPrefix(names, "") == names
  {
    if |names| > 0 {
      assert StartsWith(names[0], "");
      WithEmptyPrefix(names[1..]);
    }
  }

  /** Completing nothing offers the whole command table. */
  lemma CompleteEmpty(s: State)
    ensures Autocomplete(s, "") == CommandNames
  {
    assert Split("", ' ') == [""];
    WithEmptyPrefix(CommandNames);
  }
}
