/**
 * The command interpreter of ndi-app/src/lib/terminal.ts: the `commands`
 * table, `executeCommand` and `getAutocompleteSuggestions`, run against the
 * `VirtualFileSystem` of src/lib/fileSystem.ts.
 *
 * `ExecuteStep` is the interpreter as a function from the file-system state
 * to a result and the new state; the method `ExecuteCommand` drives a
 * `VirtualFileSystem` object through its own methods and is proved to agree
 * with it. The clock behind `date` is the parameter `now`.
 */
module Terminal {
  import opened Wrappers
  import opened Strings
  import opened FsTree
  import opened FileSystem
  import opened TerminalParse
  import opened TerminalTexts

  /** `CommandResult`; an absent `isError` or `clear` reads as false. */
  datatype CommandResult = CommandResult(output: string, isError: bool, clear: bool)

  function Out(s: string): CommandResult {
    CommandResult(s, false, false)
  }

  function Fail(s: string): CommandResult {
    CommandResult(s, true, false)
  }

  /** The keys of `commands`, in declaration order. */
  const CommandNames: seq<string> :=
    ["help", "ls", "cd", "pwd", "cat", "echo", "mkdir", "touch", "rm", "clear", "whoami", "date",
     "uname", "neofetch", "cowsay", "sudo", "history", "exit", "man", "hostname", "id", "uptime",
     "df", "free", "top", "ps", "which"]

  predicate IsCommand(c: string) {
    c in CommandNames
  }

  const NotFoundHint: string := "\nType 'help' for available commands."

  // ---------------------------------------------------------------------
  // Argument helpers

  /** Index of the first argument not starting with `-` (`args.find(...)`), or `|args|`. */
  function OperandIndex(args: seq<string>): (k: nat)
    ensures k <= |args|
    ensures forall i :: 0 <= i < k ==> StartsWith(args[i], "-")
    ensures k < |args| ==> !StartsWith(args[k], "-")
  {
    if |args| == 0 || !StartsWith(args[0], "-") then 0 else 1 + OperandIndex(args[1..])
  }

  /** `path || ...`: the operand, `""` standing for an absent one. */
  function Operand(args: seq<string>): string {
    var k := OperandIndex(args);
    if k < |args| then args[k] else ""
  }

  function LsHidden(args: seq<string>): bool {
    "-a" in args || "-la" in args || "-al" in args
  }

  function LsLong(args: seq<string>): bool {
    "-l" in args || "-la" in args || "-al" in args
  }

  function RmRecursive(args: seq<string>): bool {
    "-r" in args || "-rf" in args || "-fr" in args
  }

  /** `cd`'s target: `args[0] || '~'`. */
  function CdTarget(args: seq<string>): string {
    if |args| == 0 || args[0] == "" then "~" else args[0]
  }

  /** A file-system answer as a command result: an error is reported as one, a success prints nothing. */
  function Silent(r: FsResult): CommandResult {
    if r.Err? then Fail(r.error) else Out("")
  }

  /** A file-system answer as a command result that prints the output of a success. */
  function Printed(r: FsResult): CommandResult {
    if r.Err? then Fail(r.error) else Out(r.output)
  }

  // ---------------------------------------------------------------------
  // Fixed outputs

  /** The bubble is as wide as the message, up to 40 characters. */
  function BubbleWidth(message: string): nat {
    if |message| < 40 then |message| else 40
  }

  function Border(message: string): string {
    Repeat('-', BubbleWidth(message) + 2)
  }

  /** `< message >`, a message longer than 40 characters cut to 37 and followed by `...`. */
  function SpeechLine(message: string): string {
    var shown := if |message| > 40 then message[..37] + "..." else message;
    "< " + PadEnd(shown, BubbleWidth(message)) + " >"
  }

  /** `COWSAY(message)`. */
  function Cowsay(message: string): string {
    "\n " + Border(message) + "\n" + SpeechLine(message) + "\n " + Border(message) + "\n" + CowArt
  }

  /** The page `man` prints for a known command. */
  function ManPage(cmd: string): string {
    [ESC] + "[1m" + ToUpper(cmd) + "(1)" + [ESC] + "[0m\n\nNAME\n    " + cmd
    + " - use 'help' for more info\n\nSYNOPSIS\n    " + cmd
    + " [options] [arguments]\n\nDESCRIPTION\n    Type 'help' to see available commands."
  }

  const UnameLong: string := "Linux ubuntu-simulator 6.5.0-virtual #1 SMP PREEMPT_DYNAMIC x86_64 GNU/Linux"
  const HistoryText: string := "Command history is available using \U{2191} and \U{2193} arrow keys"
  const ManUsage: string := "What manual page do you want?\nFor example, try 'man ls'"
  const IdText: string := "uid=1000(user) gid=1000(user) groups=1000(user),4(adm),27(sudo)"
  const UptimeText: string := " 10:00:00 up 0 min,  1 user,  load average: 0.00, 0.00, 0.00"

  // ---------------------------------------------------------------------
  // The handlers

  /** The handlers that only read the file system, for a `cmd` of the table. */
  function Query(s: State, cmd: string, args: seq<string>, now: string): CommandResult {
    if cmd == "help" then Out(HelpText)
    else if cmd == "ls" then Printed(LsOutput(s, Operand(args), LsHidden(args), LsLong(args)))
    else if cmd == "pwd" then Out(s.cwd)
    else if cmd == "cat" then
      if |args| == 0 then Fail("cat: missing file operand") else Printed(CatOutput(s, args[0]))
    else if cmd == "echo" then Out(StripEnds(Join(args, " "), {'"', '\''}))
    else if cmd == "clear" then CommandResult("", false, true)
    else if cmd == "whoami" then Out("user")
    else if cmd == "date" then Out(now)
    else if cmd == "uname" then Out(if "-a" in args then UnameLong else "Linux")
    else if cmd == "neofetch" then Out(NeofetchText)
    else if cmd == "cowsay" then Out(Cowsay(if Join(args, " ") == "" then "Moo!" else Join(args, " ")))
    else if cmd == "sudo" then
      if |args| == 0 then Fail("usage: sudo <command>")
      else if args[0] == "rm" && "-rf" in args && "/" in args then Fail(SudoRefusal)
      else Out(SudoAnswer)
    else if cmd == "history" then Out(HistoryText)
    else if cmd == "exit" then Out(ExitText)
    else if cmd == "man" then
      if |args| == 0 then Fail(ManUsage)
      else if IsCommand(args[0]) then Out(ManPage(args[0]))
      else Fail("No manual entry for " + args[0])
    else if cmd == "hostname" then Out("ubuntu-simulator")
    else if cmd == "id" then Out(IdText)
    else if cmd == "uptime" then Out(UptimeText)
    else if cmd == "df" then Out(if "-h" in args then DfHuman else DfBlocks)
    else if cmd == "free" then Out(if "-h" in args then FreeHuman else FreeKilobytes)
    else if cmd == "top" then Out(TopText)
    else if cmd == "ps" then Out(PsText)
    else // which
      if |args| == 0 then Out("")
      else if IsCommand(args[0]) then Out("/usr/bin/" + args[0])
      else Fail(args[0] + " not found")
  }

  /** The handler of `cmd` applied to `args`: its result and the file system it leaves. */
  function Dispatch(s: State, cmd: string, args: seq<string>, now: string): (CommandResult, State) {
    if cmd == "cd" then
      var (r, s') := CdStep(s, CdTarget(args));
      (Silent(r), s')
    else if cmd == "mkdir" then
      if |args| == 0 then (Fail("mkdir: missing operand"), s)
      else var (r, s') := MkdirStep(s, args[0]); (Silent(r), s')
    else if cmd == "touch" then
      if |args| == 0 then (Fail("touch: missing file operand"), s)
      else var (r, s') := TouchStep(s, args[0]); (Silent(r), s')
    else if cmd == "rm" then
      if Operand(args) == "" then (Fail("rm: missing operand"), s)
      else var (r, s') := RmStep(s, Operand(args), RmRecursive(args)); (Silent(r), s')
    else (Query(s, cmd, args, now), s)
  }

  /** `executeCommand(input, fs)`. */
  function ExecuteStep(s: State, input: string, now: string): (CommandResult, State) {
    match Parse(input)
    case None => (Out(""), s)
    case Some((cmd, args)) =>
      if !IsCommand(cmd) then (Fail(cmd + ": command not found" + NotFoundHint), s)
      else Dispatch(s, cmd, args, now)
  }

  /** `executeCommand` on a `VirtualFileSystem` object. */
  method ExecuteCommand(input: string, fs: VirtualFileSystem, now: string) returns (r: CommandResult)
    requires fs.Valid()
    modifies fs
    ensures fs.Valid()
    ensures (r, fs.St()) == ExecuteStep(old(fs.St()), input, now)
  {
    var trimmed := Trim(input);
    var parts := Tokens(trimmed);
    if |parts| == 0 {
      return Out("");
    }
    var command := ToLower(parts[0]);
    var args := StripAll(parts[1..]);
    if !IsCommand(command) {
      return Fail(command + ": command not found" + NotFoundHint);
    }
    if command == "cd" {
      var res := fs.Cd(CdTarget(args));
      r := Silent(res);
    } else if command == "mkdir" && |args| > 0 {
      var res := fs.Mkdir(args[0]);
      r := Silent(res);
    } else if command == "touch" && |args| > 0 {
      var res := fs.Touch(args[0]);
      r := Silent(res);
    } else if command == "rm" && Operand(args) != "" {
      var res := fs.Rm(Operand(args), RmRecursive(args));
      r := Silent(res);
    } else {
      r := Dispatch(fs.St(), command, args, now).0;
    }
  }

  // ---------------------------------------------------------------------
  // Completion

  /** The names of `names` that start with `p`, in order. */
  function WithPrefix(names: seq<string>, p: string): (r: seq<string>)
    ensures |r| <= |names|
    ensures forall x :: x in r <==> x in names && StartsWith(x, p)
  {
    if |names| == 0 then []
    else if StartsWith(names[0], p) then [names[0]] + WithPrefix(names[1..], p)
    else
      assert names == [names[0]] + names[1..];
      WithPrefix(names[1..], p)
  }

  function EntryNames(es: seq<Entry>): (r: seq<string>)
    ensures |r| == |es|
    ensures forall i :: 0 <= i < |es| ==> r[i] == es[i].name
  {
    if |es| == 0 then [] else [es[0].name] + EntryNames(es[1..])
  }

  /** The names `listDirectory()` returns for the current directory. */
  function CwdNames(s: State): seq<string> {
    EntryNames(Listing(s, ""))
  }

  /** `getAutocompleteSuggestions(input, fs)`. */
  function Autocomplete(s: State, input: string): seq<string> {
    var parts := Split(input, ' ');
    if |parts| == 1 then WithPrefix(CommandNames, ToLower(parts[0]))
    else WithPrefix(CwdNames(s), parts[|parts| - 1])
  }
}
