/**
 * The terminal page of ndi-app/app/terminal/page.tsx, which drives the store
 * of ndi-app/stores/useFileTree.ts: `run` cuts the line at single spaces,
 * dispatches on the exact first word, and `handleEnter` appends the echoed
 * line and the answer's lines to the page's history.
 */
module TreeTerminal {
  import opened Wrappers
  import opened Strings
  import opened FileTree

  /** What `run` returns: a string, a list of nodes (from `ls`), or nothing. */
  datatype RunResult = Text(text: string) | Nodes(nodes: seq<FileNode>) | Nothing

  /** `cmd.trim().split(" ").filter(Boolean)`. */
  function Words(cmd: string): seq<string> {
    NonEmpty(Split(Trim(cmd), ' '))
  }

  /** The answer of a store action that returns `string | void`. */
  function Answer(x: (Option<string>, TreeState)): (RunResult, TreeState) {
    (if x.0.Some? then Text(x.0.value) else Nothing, x.1)
  }

  /** `run(cmd)`, with `freshId` for the node `mkdir` or `touch` may create. */
  function RunStep(s: TreeState, cmd: string, freshId: string): (RunResult, TreeState) {
    var parts := Words(cmd);
    if |parts| == 0 then (Nothing, s)
    else
      var name := parts[0];
      var args := parts[1..];
      if name == "help" then (Text(Help(args)), s)
      else if name == "cd" then Answer(CdStep(s, args))
      else if name == "ls" then (Nodes(LsNodes(s)), s)
      else if name == "mkdir" then Answer(MkdirStep(s, args, freshId))
      else if name == "touch" then Answer(TouchStep(s, args, freshId))
      else if name == "rename" then Answer(RenameStep(s, args))
      else if name == "rm" then Answer(RemoveStep(s, args, FileKind))
      else if name == "rmdir" then Answer(RemoveStep(s, args, DirectoryKind))
      else if name == "cat" then (Text(CatText(s, args)), s)
      else (Text("Unknown command: " + name), s)
  }

  /** `formatNodeForLs`. */
  function FormatNodeForLs(n: FileNode): (r: string)
    ensures StartsWith(r, n.name)
    ensures n.kind == DirectoryKind <==> |r| == |n.name| + 1
    ensures n.kind == DirectoryKind ==> r[|n.name|] == '/'
  {
    if n.kind == DirectoryKind then n.name + "/" else n.name
  }

  function FormatAll(ns: seq<FileNode>): (r: seq<string>)
    ensures |r| == |ns|
    ensures forall i :: 0 <= i < |ns| ==> r[i] == FormatNodeForLs(ns[i])
  {
    if |ns| == 0 then [] else [FormatNodeForLs(ns[0])] + FormatAll(ns[1..])
  }

  /** The lines `handleEnter` shows for an answer: one per node, the lines of a string, none for nothing. */
  function ResultLines(r: RunResult): seq<string> {
    match r
    case Nodes(ns) => FormatAll(ns)
    case Text(t) => Split(t, '\n')
    case Nothing => []
  }

  /** `handleEnter` on the key `key`: the new history, the new input and the new store. */
  function EnterStep(history: seq<string>, input: string, s: TreeState, key: string, freshId: string)
    : (seq<string>, string, TreeState)
  {
    var cmd := Trim(input);
    if key != "Enter" || cmd == "" then (history, input, s)
    else
      var (r, s2) := RunStep(s, cmd, freshId);
      (history + ["> " + cmd] + ResultLines(r), "", s2)
  }

  /** `run` on the store object. */
  method Run(store: FileTreeStore, cmd: string, freshId: string) returns (r: RunResult)
    requires store.Valid()
    modifies store
    ensures store.Valid()
    ensures (r, store.St()) == RunStep(old(store.St()), cmd, freshId)
  {
    var parts := Words(cmd);
    if |parts| == 0 {
      return Nothing;
    }
    var name := parts[0];
    var args := parts[1..];
    var answer: Option<string> := None;
    if name == "help" {
      return Text(Help(args));
    } else if name == "cd" {
      answer := store.Cd(args);
    } else if name == "ls" {
      var ns := store.Ls();
      return Nodes(ns);
    } else if name == "mkdir" {
      answer := store.Mkdir(args, freshId);
    } else if name == "touch" {
      answer := store.Touch(args, freshId);
    } else if name == "rename" {
      answer := store.Rename(args);
    } else if name == "rm" {
      answer := store.Remove(args, FileKind);
    } else if name == "rmdir" {
      answer := store.Remove(args, DirectoryKind);
    } else if name == "cat" {
      var t := store.Cat(args);
      return Text(t);
    } else {
      return Text("Unknown command: " + name);
    }
    r := if answer.Some? then Text(answer.value) else Nothing;
  }

  /** The page: its history of lines and the text in its input field. */
  class TerminalPage {
    var history: seq<string>
    var input: string

    constructor()
      ensures history == [] && input == ""
    {
      history := [];
      input := "";
    }

    method SetInput(text: string)
      modifies this
      ensures history == old(history) && input == text
    {
      input := text;
    }

    method HandleEnter(store: FileTreeStore, key: string, freshId: string)
      requires store.Valid()
      modifies this, store
      ensures store.Valid()
      ensures (history, input, store.St()) == EnterStep(old(history), old(input), old(store.St()), key, freshId)
    {
      if key != "Enter" {
        return;
      }
      var cmd := Trim(input);
      if cmd == "" {
        return;
      }
      TrimIdempotent(input);
      var result := Run(store, cmd, freshId);
      history := history + ["> " + cmd] + ResultLines(result);
      input := "";
    }
  }
}
