# A verified model of the simulated Linux desktop

This project models the core of a browser desktop that simulates a Linux machine. It covers the shell, the stores behind the desktop, and the small apps. It is written in Dafny, and every contract below is proved.

**The two in-memory file systems.**
- `FileSystem` models `VirtualFileSystem` (src/lib/fileSystem.ts). It is a tree of files and directories with a string working directory and path normalisation (`~`, `.`, `..`, relative paths), plus `cd`, `ls`, `pwd`, `cat`, `mkdir`, `touch`, `rm`, `getFileContent`, `setFileContent` and `listDirectory` with their Unix-style error texts.
- The class keeps `root` and `currentPath` as fields and rewrites them in place. Each method is proved equal to a pure `...Step` function.
- `FileSystemFacts` proves the following about those functions:
  - normalisation yields a canonical absolute path, and normalising twice changes nothing;
  - `cd ..` stops at `/`;
  - each mutation changes exactly one child and nothing else;
  - `setFileContent` followed by `cat` returns what was written;
  - a fresh instance lists its six home directories.
- `FileTree` models the second file system (ndi-app/stores/useFileTree.ts). That tree keeps children as lists, the working directory as a segment list, and a store-level `error` field. `FileTreeFacts` proves:
  - the working directory always resolves;
  - each mutation touches only the working directory's children, in order;
  - `rename` does not check for sibling collisions.

**The interpreters.**
- `TerminalParse` and `Terminal` model ndi-app/src/lib/terminal.ts:
  - the tokenizer, which keeps quoted spans, written as a scanner;
  - the command table and every handler's answer;
  - `executeCommand` as a method on the file system;
  - `getAutocompleteSuggestions`.
- `TerminalTexts` holds the canned texts. `TerminalFacts` proves the dispatch, flag parsing and error rules.
- `TreeTerminal` models the dispatcher of ndi-app/app/terminal/page.tsx, `formatNodeForLs`, and the history rule of `handleEnter`.

**The terminal front-ends.**
- `TerminalApp` models src/components/apps/Terminal.tsx: the per-window file system registry, the transcript and history on submit, history navigation with the arrow keys, Tab completion and Ctrl+C.
- `Ansi` models its `parseAnsi` scanner for SGR escape codes. It is proved to drop exactly the escape sequences and to apply codes 0, 1 and 30-37 in that order. Each code is read as JavaScript's `Number` reads a string, which `JsNumbers` models: a sign, a fraction, an exponent and `0x`/`0o`/`0b` prefixes are all accepted, so `1.0` and `+1` set bold, `0x1E` and `3e1` are colour 30, and `-0` resets.
- `FileManager` models the back/forward history, the directory-first listing and the breadcrumbs of src/components/apps/FileManager.tsx.

**The stores.**
- The tutorial engine of src/stores/tutorialStore.ts with its 21-step table (ndi-app/src/lib/tutorialSteps.ts): `TutorialSteps`, `Tutorial`.
- The window manager of src/stores/desktopStore.ts: `Desktop`.
- The usage metrics and badges of src/stores/metricsStore.ts: `Metrics`.
- The digital-responsibility scores of src/stores/rseStore.ts: `Rse`.
- The accessibility settings of src/stores/accessibilityStore.ts, along with the score src/components/AccessibilityPanel.tsx derives from them: `Accessibility`.

Each store is a class whose fields are the store state. Its actions are methods proved against pure step functions. The `...Facts` modules prove the invariants those steps keep and the properties of their runs.

**The green commands.** `Green` models the classifier and the suggestion lookup of src/utils/greenCommands.ts.

**The apps.**
- `Calculator` models src/components/apps/Calculator.tsx. It is generic over the number type.
- `Spreadsheet` models ndi-app/src/components/apps/Calc.tsx.
- `Slides` models ndi-app/src/components/apps/Impress.tsx.
- `Dashboard` models `formatTime` and the badge derivation of src/components/apps/Dashboard.tsx.
- `SystemMonitor` models `formatUptime` and the clamped interval tick of src/components/apps/SystemMonitor.tsx.

**Shared helpers.** `Strings`, `Sorting`, `Numbers`, `JsNumbers` and `Wrappers` hold the string, sorting, rounding and number-reading helpers that JavaScript provides built in.

**Two rules the code keeps apart.**
- The two file systems treat a duplicate `mkdir` or `touch` differently:
  - src/lib/fileSystem.ts answers `File exists` for `mkdir`, and succeeds silently for `touch`;
  - ndi-app/stores/useFileTree.ts records `mkdir: already exists` or `touch: already exists` in the store's `error` field and returns nothing.
- `rename` in ndi-app/stores/useFileTree.ts does not check for a name collision, and `FileTreeFacts.RenameCollides` shows that two siblings can then share a name.

**Behaviours the code shows that look unintended, proved but not changed:**
- The responsibility store starts with a global score of 50, while its own formula gives 53 for the initial metrics (`RseFacts.InitialScoreStale`).
- `increaseCarbonAwareness` caps at 100 but has no lower bound (`RseFacts.CarbonBelowZero`).
- The tutorial's `goToStep` enters an action step in the `intro` phase, while `nextStep` enters it in `action` (`TutorialFacts.GoToActionDiffers`).

## Model

| member | source | states |
|---|---|---|
| `Sorting.SortSorted` | src/lib/fileSystem.ts:247 | the `sort` of a listing is ordered by the comparison and is a permutation of the listing |
| `Strings.Trim` | src/utils/greenCommands.ts:141 | `trim` keeps a slice of the string with only white space cut away on either side, and what it keeps neither starts nor ends with white space |
| `Strings.TrimIdempotent` | src/utils/greenCommands.ts:141 | trimming twice is trimming once |
| `Strings.TrimPlain` | src/stores/tutorialStore.ts:105 | `trim` leaves a string that neither starts nor ends with white space unchanged |
| `Strings.ToLower` | src/stores/tutorialStore.ts:105 | `toLowerCase` keeps the length and lowers each character |
| `Strings.Split` | src/lib/fileSystem.ts:174 | `split` of a one-character separator gives at least one piece, none containing the separator |
| `Strings.JoinSplit` | src/lib/fileSystem.ts:174 | joining the pieces of `split` with the separator gives back the string |
| `Strings.SplitJoin` | src/lib/fileSystem.ts:174 | splitting a join of separator-free pieces gives back the pieces |
| `Strings.SegmentsOfJoin` | src/lib/fileSystem.ts:174-186 | the non-empty segments of `'/' + segs.join('/')` are `segs` again, for segments without `/` |
| `Strings.NatToString` | src/lib/fileSystem.ts:254 | a number's decimal digits read back as the number, one digit exactly below 10 |
| `Strings.Utf16Length` | src/lib/fileSystem.ts:254 | `length` counts UTF-16 code units: between one and two per character, and one per character when every character lies in the Basic Multilingual Plane |
| `Strings.Utf16LengthAppend` | src/lib/fileSystem.ts:254 | the length of a concatenation is the sum of the lengths |
| `Strings.Utf16LengthAstral` | src/lib/fileSystem.ts:254 | a character beyond the Basic Multilingual Plane, such as an emoji, has length 2 |
| `Numbers.Round` | src/stores/metricsStore.ts:204-206 | `Math.round` gives the nearest integer, halves rounded up |
| `Numbers.Clamp` | src/stores/rseStore.ts:146 | clamping gives a value within the bounds, the value itself when it lies within them, and the nearer bound otherwise |
| `Numbers.RoundMono` | src/stores/metricsStore.ts:204-206 | rounding never reverses an order |
| `FsTree.IndexOf` | src/lib/fileSystem.ts:189-207 | the position of the first child with a given name, or the number of children when none has it; no earlier child has that name (`children[part]`) |
| `FsTree.HasChildIff` | src/lib/fileSystem.ts:200-202 | a directory has a child of a name exactly when some child carries that name |
| `FsTree.Names` | ndi-app/src/types/desktop.ts:45-53 | the names of a directory's children, one per child and in order |
| `FsTree.GetAtName` | src/lib/fileSystem.ts:189-207 | the node a non-empty path leads to carries the path's last name |
| `FsTree.GetAtAppend` | src/lib/fileSystem.ts:196-204 | walking `p + q` from the root is walking `p` and then `q` from where `p` led; a failed step fails the whole walk |
| `FsTree.IndexOfSameNames` | src/lib/fileSystem.ts:200-202 | two child lists carrying the same names in order find every name at the same position |
| `FsTree.ReplaceAtShape` | src/lib/fileSystem.ts:288-393 | rewriting a node below the root keeps the root's name and kind |
| `FsTree.ReplaceAtMissing` | src/lib/fileSystem.ts:288-393 | rewriting at a path that leads nowhere changes nothing |
| `FsTree.GetReplaced` | src/lib/fileSystem.ts:288-393 | after the node at `p` is rewritten to `m`, every path through `p` leads into `m` |
| `FsTree.GetElsewhere` | src/lib/fileSystem.ts:288-393 | rewriting the node at `p` leaves every path that is neither a prefix nor an extension of `p` leading where it did |
| `FsTree.ReplaceAtWellFormed` | ndi-app/src/types/desktop.ts:45-53 | rewriting a node by a well-formed one of the same name keeps sibling names distinct throughout the tree |
| `FileSystem.SegmentsAreSegments` | src/lib/fileSystem.ts:174 | `split('/').filter(Boolean)` yields only non-empty names without `/` |
| `FileSystem.ResolveCanonical` | src/lib/fileSystem.ts:178-186 | resolving `.` and `..` pieces onto canonical segments yields canonical segments (none empty, `.` or `..`) |
| `FileSystem.ResolveOfCanonical` | src/lib/fileSystem.ts:178-186 | canonical pieces are only pushed: resolving them appends them unchanged |
| `FileSystem.ResolveAppend` | src/lib/fileSystem.ts:178-186 | the push/pop loop over `a + b` is the loop over `a` followed by the loop over `b` |
| `FileSystem.NormalizeShape` | src/lib/fileSystem.ts:164-187 | `normalizePath` returns `/` followed by canonical segments joined by `/`, which splitting gives back |
| `FileSystem.NormalizedFixpoint` | src/lib/fileSystem.ts:164-187 | a normalised path is its own normalisation from any current directory |
| `FileSystem.NormalizeIdempotent` | src/lib/fileSystem.ts:164-187 | `normalizePath` is idempotent, and the second call ignores the current directory |
| `FileSystem.GetNodeSegs` | src/lib/fileSystem.ts:189-207 | `getNode` walks the root by the segments of the normalised path (`/` gives the root) |
| `FileSystem.NormalizeRelative` | src/lib/fileSystem.ts:169-171 | a path starting with neither `~` nor `/` is resolved against the current directory's segments |
| `FileSystem.ParentOfCwd` | src/lib/fileSystem.ts:180-181 | `..` names the current directory minus its last segment, and `/` at the root |
| `FileSystem.HomeSegments` | src/lib/fileSystem.ts:157 | `/home/user` is normalised and splits into `home`, `user` |
| `FileSystem.TildeIsHome` | src/lib/fileSystem.ts:165-167 | `~` names `/home/user` from any current directory |
| `FileSystem.VisibleCounts` | src/lib/fileSystem.ts:243-245 | without `showHidden`, `ls` keeps every name not starting with `.` as often as it occurs and drops the others |
| `FileSystem.LsItems` | src/lib/fileSystem.ts:249-267 | one displayed item per listed name |
| `FileSystem.Entries` | src/lib/fileSystem.ts:395-407 | `listDirectory` gives one entry per child, in order, with its name and its kind |
| `FileSystem.VirtualFileSystem.constructor` | src/lib/fileSystem.ts:155-158 | a new object holds the seed tree, starts in `/home/user`, and is valid |
| `FileSystem.VirtualFileSystem.Pwd` | src/lib/fileSystem.ts:160-162 | `pwd` returns the current path, which is always normalised |
| `FileSystem.VirtualFileSystem.Cd` | src/lib/fileSystem.ts:209-223 | the result and the new state are those of `CdStep`, whose meaning `FileSystemFacts.CdOutcome` states |
| `FileSystem.VirtualFileSystem.SplitLast` | src/lib/fileSystem.ts:290-298 | the new entry's name is the last normalised segment and its parent path leads to the node at the other segments |
| `FileSystem.VirtualFileSystem.Mkdir` | src/lib/fileSystem.ts:288-319 | the result and the new state are those of `MkdirStep`; the object stays valid |
| `FileSystem.VirtualFileSystem.Touch` | src/lib/fileSystem.ts:321-350 | the result and the new state are those of `TouchStep`; the object stays valid |
| `FileSystem.VirtualFileSystem.Rm` | src/lib/fileSystem.ts:352-380 | the result and the new state are those of `RmStep`; the object stays valid |
| `FileSystem.VirtualFileSystem.SetFileContent` | src/lib/fileSystem.ts:388-393 | the result and the new state are those of `SetContentStep`; the object stays valid |
| `FileSystem.InitialValid` | src/lib/fileSystem.ts:4-149 | the seed tree is well formed (distinct sibling names, names matching their keys) and `/home/user` is a normalised directory in it |
| `FileSystem.InitialTreeWellFormed` | src/lib/fileSystem.ts:4-149 | the seed tree is well formed |
| `FileSystem.SystemDirsWellFormed` | src/lib/fileSystem.ts:83-142 | the seed `/etc`, `/var` and `/usr` are well formed |
| `FileSystem.UserDirWellFormed` | src/lib/fileSystem.ts:12-80 | the seed `/home/user` is well formed |
| `FileSystem.UserChildrenWellFormed` | src/lib/fileSystem.ts:12-80 | every child of the seed `/home/user` is well formed |
| `FileSystem.UserNamesDistinct` | src/lib/fileSystem.ts:12-80 | the children of the seed `/home/user` have distinct names |
| `FileSystem.TopNamesDistinct` | src/lib/fileSystem.ts:4-149 | the children of the seed root have distinct names |
| `FileSystem.AddChildValid` | src/lib/fileSystem.ts:312-316 | adding a well-formed child with a fresh name to a directory keeps the state valid |
| `FileSystem.RemoveChildValid` | src/lib/fileSystem.ts:378 | removing a child from a directory keeps the state valid |
| `FileSystem.SetContentValid` | src/lib/fileSystem.ts:388-393 | overwriting a file's content keeps the state valid |
| `FileSystem.WellFormedGetAt` | ndi-app/src/types/desktop.ts:45-53 | every node of a well-formed tree is well formed |
| `FileSystemFacts.CdOutcome` | src/lib/fileSystem.ts:209-223 | `cd` succeeds exactly when the normalised target exists and is a directory; a success keeps the tree and sets a normalised current path that leads to that directory; a failure changes nothing |
| `FileSystemFacts.CdParentAtRoot` | src/lib/fileSystem.ts:180-181 | `cd ..` at `/` succeeds and stays at `/` |
| `FileSystemFacts.CdParent` | src/lib/fileSystem.ts:209-223 | below the root, `cd ..` moves to the parent path |
| `FileSystemFacts.CdUp` | src/lib/fileSystem.ts:180-181 | the same for any argument equal to `..` |
| `FileSystemFacts.MkdirSucceeds` | src/lib/fileSystem.ts:288-319 | `mkdir` succeeds exactly when the path is not `/`, its parent exists and is a directory, and the name is free; a failure changes nothing |
| `FileSystemFacts.MkdirShape` | src/lib/fileSystem.ts:288-319 | a successful `mkdir` appends exactly one empty directory to the parent directory's children and changes nothing else |
| `FileSystemFacts.MkdirCreates` | src/lib/fileSystem.ts:312-316 | after `mkdir` the path names an empty directory, the current path is unchanged and the state stays valid |
| `FileSystemFacts.MkdirListing` | src/lib/fileSystem.ts:312-316 | after `mkdir` the parent's `listDirectory` is the old one followed by the new directory |
| `FileSystemFacts.MkdirElsewhere` | src/lib/fileSystem.ts:288-319 | `mkdir` leaves every path outside the parent and its ancestors leading where it did |
| `FileSystemFacts.MkdirExisting` | src/lib/fileSystem.ts:308-310 | `mkdir` of a taken name answers `mkdir: cannot create directory '<p>': File exists` and changes nothing |
| `FileSystemFacts.MkdirThenCd` | src/lib/fileSystem.ts:209-223 | a directory made by `mkdir` can be entered by `cd` of the same path |
| `FileSystemFacts.TouchIdempotent` | src/lib/fileSystem.ts:321-350 | `touch` twice is `touch` once: an existing name, file or directory, is left alone |
| `FileSystemFacts.RmShape` | src/lib/fileSystem.ts:352-380 | a successful `rm` deletes exactly the named child of the parent directory and changes nothing else |
| `FileSystemFacts.RmSucceeds` | src/lib/fileSystem.ts:352-380 | `rm` succeeds exactly on an existing entry other than `/`, on a directory only when recursive; a failure changes nothing |
| `FileSystemFacts.RmThenCat` | src/lib/fileSystem.ts:274-286 | after a successful `rm`, `cat` of the path reports `No such file or directory`, `getFileContent` finds nothing, and the state stays valid |
| `FileSystemFacts.RemovedAt` | src/lib/fileSystem.ts:378 | deleting a child with distinct-named siblings leaves nothing at its path |
| `FileSystemFacts.SetThenGet` | src/lib/fileSystem.ts:382-393 | `setFileContent` succeeds exactly on files, `getFileContent` then returns what was written, and a failure changes nothing |
| `FileSystemFacts.LsNamesSorted` | src/lib/fileSystem.ts:241-247 | `ls` lists the names sorted, each name of the (visible) children exactly as often as it occurs |
| `FileSystemFacts.StrLeTotalPreorder` | src/lib/fileSystem.ts:247 | the string order `sort()` uses is total and transitive |
| `FileSystemFacts.LsOutcome` | src/lib/fileSystem.ts:225-268 | `ls` (of the current directory when no path is given) fails exactly when the target does not exist, and shows a file target by its own name |
| `FileSystemFacts.FreshLs` | src/lib/fileSystem.ts:225-268 | `ls` on a fresh object shows `Desktop  Documents  Downloads  Music  Pictures  Videos`, each coloured as a directory |
| `FileSystemFacts.FreshHome` | src/lib/fileSystem.ts:155-158 | a fresh object's current directory is the seed `/home/user` |
| `FileSystemFacts.FreshLsNames` | src/lib/fileSystem.ts:12-80 | the visible names of the seed home directory, sorted, are the six directories |
| `FileSystemFacts.ListingOfParent` | src/lib/fileSystem.ts:395-407 | `listDirectory` of a directory's normalised path lists that directory's children, and nothing for a file or a missing path |
| `FileSystemFacts.AddChildAt` | src/lib/fileSystem.ts:312-316 | a child appended under a fresh name is found at the parent's path plus that name |
| `TerminalParse.NextQuote` | ndi-app/src/lib/terminal.ts:297 | the first `"` at or after a position, or the end of the line; no quote lies before it |
| `TerminalParse.TokenEnd` | ndi-app/src/lib/terminal.ts:297 | the end of the match of `(?:[^\s"]+\|"[^"]*")+` that starts at a position, which lies at or after it |
| `TerminalParse.StripAll` | ndi-app/src/lib/terminal.ts:299 | each argument with one leading and one trailing `"` removed, one per argument |
| `TerminalParse.NextQuoteExtend` | ndi-app/src/lib/terminal.ts:297 | a closing quote found in a line is found again when more text follows |
| `TerminalParse.TokenEndExtend` | ndi-app/src/lib/terminal.ts:297 | a match that reaches the end of a word still ends there when white space follows |
| `TerminalParse.TokenEnds` | ndi-app/src/lib/terminal.ts:297 | a whole token neither starts nor ends with white space |
| `TerminalParse.TokensOfJoin` | ndi-app/src/lib/terminal.ts:297 | tokens joined by single spaces are cut back into exactly those tokens |
| `TerminalParse.WordIsToken` | ndi-app/src/lib/terminal.ts:297 | a run of characters other than white space and `"` is one match |
| `TerminalParse.QuotedIsToken` | ndi-app/src/lib/terminal.ts:297 | a `"…"` span without inner quotes is one token, even with spaces inside |
| `TerminalParse.NextQuoteAt` | ndi-app/src/lib/terminal.ts:297 | the first quote after a position is the one with no quote before it |
| `TerminalParse.JoinTrimmed` | ndi-app/src/lib/terminal.ts:290 | `trim()` leaves a line of tokens joined by single spaces as it is |
| `TerminalParse.JoinEnds` | ndi-app/src/lib/terminal.ts:290 | a line of tokens is not empty and neither starts nor ends with white space |
| `TerminalParse.ParseOfJoin` | ndi-app/src/lib/terminal.ts:290-299 | a line written as tokens parses into its first token lower-cased and the others with their quotes stripped |
| `TerminalParse.StripQuotesOfQuoted` | ndi-app/src/lib/terminal.ts:299 | an argument in quotes loses exactly its outermost pair |
| `TerminalParse.StripQuotesUnquoted` | ndi-app/src/lib/terminal.ts:299 | an argument neither starting nor ending with `"` is kept as it is |
| `Terminal.OperandIndex` | ndi-app/src/lib/terminal.ts:80 | `args.find(a => !a.startsWith('-'))`: the first argument not starting with `-`, every earlier one starting with `-` |
| `Terminal.ExecuteCommand` | ndi-app/src/lib/terminal.ts:286-315 | running a line on a `VirtualFileSystem` object gives the result and the new state of `ExecuteStep`, and keeps the object valid |
| `Terminal.WithPrefix` | ndi-app/src/lib/terminal.ts:326 | the names that start with a prefix, no more of them than there were names |
| `Terminal.EntryNames` | ndi-app/src/lib/terminal.ts:333-334 | the entries' names, one per entry and in order |
| `TerminalFacts.BlankInput` | ndi-app/src/lib/terminal.ts:290-294 | a line that trims to nothing prints `''` and changes nothing |
| `TerminalFacts.ReadOnlyCommands` | ndi-app/src/lib/terminal.ts:51-284 | every command except `cd`, `mkdir`, `touch` and `rm`, and every unparsable line, leaves the file system as it was |
| `TerminalFacts.UnknownCommand` | ndi-app/src/lib/terminal.ts:305-312 | a command missing from the table answers `<name>: command not found` followed by the `help` hint, as an error, and changes nothing |
| `TerminalFacts.Executes` | ndi-app/src/lib/terminal.ts:286-315 | a parsed line runs its command's handler when the table has it, and is reported unknown otherwise |
| `TerminalFacts.MissingOperands` | ndi-app/src/lib/terminal.ts:102-152 | `cat`, `mkdir` and `touch` without arguments and `rm` without an operand answer their fixed missing-operand errors and change nothing |
| `TerminalFacts.ParseCd` | ndi-app/src/lib/terminal.ts:297-299 | the line `cd` is the command `cd` without arguments |
| `TerminalFacts.ExecutesCommand` | ndi-app/src/lib/terminal.ts:314 | a parsed line whose command is in the table runs that command's handler |
| `TerminalFacts.CdLine` | ndi-app/src/lib/terminal.ts:89-96 | the `cd` handler is the file system's `cd` of the first argument, or `~` without one, with failures shown as errors and success printing nothing |
| `TerminalFacts.CdGoesHome` | ndi-app/src/lib/terminal.ts:89-96 | `cd` alone enters `/home/user` when it is a directory |
| `TerminalFacts.CdHome` | src/lib/fileSystem.ts:209-223 | `cd ~` enters `/home/user` when it is a directory |
| `TerminalFacts.HomeNormal` | src/lib/fileSystem.ts:165-167 | `~` normalises to `/home/user` |
| `TerminalFacts.QuotedOperand` | ndi-app/src/lib/terminal.ts:297-299 | a quoted operand reaches the handler without its quotes and with its spaces |
| `TerminalFacts.WhichAnswers` | ndi-app/src/lib/terminal.ts:274-283 | `which x` answers `/usr/bin/x` without error exactly when `x` is in the table, an error otherwise, and changes nothing |
| `TerminalFacts.ClearClears` | ndi-app/src/lib/terminal.ts:154-157 | `clear` prints nothing, sets `clear`, and changes nothing, whatever arguments follow |
| `TerminalFacts.ParseLsFlags` | ndi-app/src/lib/terminal.ts:297-299 | `ls -la` and `ls -al` parse as `ls` with that one flag |
| `TerminalFacts.LsLine` | ndi-app/src/lib/terminal.ts:77-87 | the `ls` handler lists the first operand with `showHidden` and `longFormat` read from the flags, and changes nothing |
| `TerminalFacts.LongAllFlag` | ndi-app/src/lib/terminal.ts:78-80 | the single flag `-la` or `-al` sets both `showHidden` and `longFormat` and names no path |
| `TerminalFacts.LsFlagLine` | ndi-app/src/lib/terminal.ts:77-87 | `ls` with the single flag `-la` or `-al` lists the current directory long, hidden entries included |
| `TerminalFacts.LsLongAll` | ndi-app/src/lib/terminal.ts:77-87 | the lines `ls -la` and `ls -al` give the same listing: the current directory, long, hidden entries included |
| `TerminalFacts.MkdirLine` | ndi-app/src/lib/terminal.ts:117-126 | the `mkdir` handler is the file system's `mkdir` of the first argument |
| `TerminalFacts.TouchLine` | ndi-app/src/lib/terminal.ts:128-137 | the `touch` handler is the file system's `touch` of the first argument: its error is shown as an error, and success prints nothing |
| `TerminalFacts.RmLine` | ndi-app/src/lib/terminal.ts:139-152 | the `rm` handler removes the first operand, recursively exactly when the arguments hold `-r`, `-rf` or `-fr`; its error is shown as an error, and success prints nothing |
| `TerminalFacts.CatLine` | ndi-app/src/lib/terminal.ts:102-111 | the `cat` handler shows the file's content, or the file system's error as an error, and changes nothing |
| `TerminalFacts.MkdirThenCdAtPrompt` | ndi-app/src/lib/terminal.ts:89-126 | a directory made by `mkdir w` at the prompt is entered by `cd w` |
| `TerminalFacts.ParseWordCommand` | ndi-app/src/lib/terminal.ts:297-299 | `mkdir w` and `cd w` parse into that command and the single argument `w` |
| `TerminalFacts.CowsayBubble` | ndi-app/src/lib/terminal.ts:34-49 | the speech line is two characters wider than its border and shows the message, or its first 37 characters and `...` when it is longer than 40 |
| `TerminalFacts.LastFragment` | ndi-app/src/lib/terminal.ts:330 | the text after the last space, no longer than the input |
| `TerminalFacts.SplitOnePiece` | ndi-app/src/lib/terminal.ts:321-324 | `split(' ')` gives one piece exactly when there is no space |
| `TerminalFacts.SplitLast` | ndi-app/src/lib/terminal.ts:330 | the last piece of `split(' ')` is the text after the last space |
| `TerminalFacts.SplitSnoc` | ndi-app/src/lib/terminal.ts:321 | typing a character other than a space extends the last piece of `split(' ')` by it |
| `TerminalFacts.CompleteCommand` | ndi-app/src/lib/terminal.ts:324-327 | without a space, completion offers the table's commands that start with the lower-cased input, in table order |
| `TerminalFacts.CompleteFromPieces` | ndi-app/src/lib/terminal.ts:330-335 | with a space, completion filters the current directory's names, in order, by the last piece |
| `TerminalFacts.CompleteName` | ndi-app/src/lib/terminal.ts:330-335 | with a space, completion offers exactly the current directory's names, dot-files included, that start with the last fragment |
| `TerminalFacts.FilterNames` | ndi-app/src/lib/terminal.ts:335 | filtering by a prefix keeps exactly the names with that prefix |
| `TerminalFacts.WithEmptyPrefix` | ndi-app/src/lib/terminal.ts:335 | the empty prefix keeps every name |
| `TerminalFacts.CompleteEmpty` | ndi-app/src/lib/terminal.ts:324-327 | completing the empty input offers the whole command table |
| `FileTree.FindNamed` | ndi-app/stores/useFileTree.ts:166 | `children.find(c => c.name === name)`: the first child with that name, or none, with no earlier child of that name |
| `FileTree.FindOfKind` | ndi-app/stores/useFileTree.ts:231-233 | the first child with that name and kind, or none, with no earlier such child |
| `FileTree.WithoutNamed` | ndi-app/stores/useFileTree.ts:183-185 | the filter keeps exactly the children that are not of that name and kind |
| `FileTree.GetNodeAtPathHelper` | ndi-app/stores/useFileTree.ts:31-40 | the loop finds the node `NodeAt` names: the root for `[]`, nothing as soon as a step meets a file or a missing name |
| `FileTree.HelpIndex` | ndi-app/stores/useFileTree.ts:60-79 | the position of a command among the nine help entries, or 9 exactly when it has none |
| `FileTree.FileTreeStore.constructor` | ndi-app/stores/useFileTree.ts:47-55 | a new store holds an empty root directory `/`, the empty current path and no selection, and is valid |
| `FileTree.FileTreeStore.GetNodeAtPath` | ndi-app/stores/useFileTree.ts:241 | `getNodeAtPath` walks the store's root |
| `FileTree.FileTreeStore.GetCurrentDirectory` | ndi-app/stores/useFileTree.ts:243-244 | `getCurrentDirectory` returns the directory the current path leads to |
| `FileTree.FileTreeStore.Cd` | ndi-app/stores/useFileTree.ts:84-98 | the answer and the new state are those of `CdStep`; the store stays valid |
| `FileTree.FileTreeStore.Ls` | ndi-app/stores/useFileTree.ts:100-103 | `ls` returns the current directory's children |
| `FileTree.FileTreeStore.Mkdir` | ndi-app/stores/useFileTree.ts:105-128 | the answer and the new state are those of `MkdirStep`; the store stays valid |
| `FileTree.FileTreeStore.Touch` | ndi-app/stores/useFileTree.ts:130-155 | the answer and the new state are those of `TouchStep`; the store stays valid |
| `FileTree.FileTreeStore.Rename` | ndi-app/stores/useFileTree.ts:157-172 | the answer and the new state are those of `RenameStep`; the store stays valid |
| `FileTree.FileTreeStore.Remove` | ndi-app/stores/useFileTree.ts:174-206 | `rm` and `rmdir`: the answer and the new state are those of `RemoveStep`; the store stays valid |
| `FileTree.FileTreeStore.WriteFile` | ndi-app/stores/useFileTree.ts:211-223 | the new state is that of `WriteFileStep`; the store stays valid |
| `FileTree.FileTreeStore.Cat` | ndi-app/stores/useFileTree.ts:225-239 | `cat` answers `CatText` of the state |
| `FileTree.FileTreeStore.SelectNode` | ndi-app/stores/useFileTree.ts:246 | `selectNode` changes only the selected id |
| `FileTree.NodeAtName` | ndi-app/stores/useFileTree.ts:31-40 | a node found by a non-empty path carries the path's last name |
| `FileTree.FindSameNames` | ndi-app/stores/useFileTree.ts:166 | two child lists with the same names in order find every name at the same position |
| `FileTree.ReplaceNodeShape` | ndi-app/stores/useFileTree.ts:110-126 | editing a node below the root keeps the root's name and kind |
| `FileTree.NodeAtReplaced` | ndi-app/stores/useFileTree.ts:110-126 | after the node at a path is replaced by one of the same name, the path leads to the replacement |
| `FileTree.EditCwdValid` | ndi-app/stores/useFileTree.ts:110-126 | replacing the current directory by a directory of the same name keeps the store valid, and the current path leads to the replacement |
| `FileTreeFacts.NodeAtAppend` | ndi-app/stores/useFileTree.ts:31-40 | walking `p + q` is walking `p` and then `q` from where `p` led |
| `FileTreeFacts.NodeAtStops` | ndi-app/stores/useFileTree.ts:33-37 | once a step finds nothing or a file, every longer path finds nothing |
| `FileTreeFacts.NodeAtElsewhere` | ndi-app/stores/useFileTree.ts:110-126 | replacing the node at `p` leaves every path that neither extends nor is extended by `p` leading where it did |
| `FileTreeFacts.EditCwdElsewhere` | ndi-app/stores/useFileTree.ts:105-223 | rewriting the current directory leaves every path that is neither a prefix nor an extension of the current path leading where it did |
| `FileTreeFacts.CurrentDirectoryResolves` | ndi-app/stores/useFileTree.ts:243-244 | while the store is valid the fall-back to the root is never taken: the current path leads to a directory |
| `FileTreeFacts.CdOutcome` | ndi-app/stores/useFileTree.ts:84-98 | `cd p` moves to the path built from `p` exactly when it leads to a directory; otherwise it answers `cd: not a directory` and changes nothing |
| `FileTreeFacts.CdHelp` | ndi-app/stores/useFileTree.ts:85 | `cd` without arguments answers its help line and changes nothing |
| `FileTreeFacts.CdPlainName` | ndi-app/stores/useFileTree.ts:86-92 | a name without `/` is looked up below the current directory, `.` and `..` as ordinary names |
| `FileTreeFacts.CdAbsolute` | ndi-app/stores/useFileTree.ts:89-92 | the target of an absolute path does not depend on the current directory |
| `FileTreeFacts.MkdirAppends` | ndi-app/stores/useFileTree.ts:105-128 | `mkdir name` with the name absent appends exactly one empty directory at the end of the current directory's children and keeps the store valid |
| `FileTreeFacts.MkdirDuplicate` | ndi-app/stores/useFileTree.ts:116-117 | `mkdir` of a taken name keeps the tree, records `mkdir: already exists` in the store and answers nothing |
| `FileTreeFacts.TouchAppends` | ndi-app/stores/useFileTree.ts:130-155 | `touch name w1 w2 …` with the name absent appends one file at the end whose content is the other words joined by single spaces |
| `FileTreeFacts.TouchDuplicate` | ndi-app/stores/useFileTree.ts:143-144 | `touch` of a taken name, file or directory, keeps the tree and records `touch: already exists` |
| `FileTreeFacts.FindOfKindAppended` | ndi-app/stores/useFileTree.ts:231-233 | a name absent from a list is found at the end of the list extended by one entry of that name |
| `FileTreeFacts.TouchThenCat` | ndi-app/stores/useFileTree.ts:225-239 | a file made by `touch` is shown by `cat` with the content it was given |
| `FileTreeFacts.RenameEffect` | ndi-app/stores/useFileTree.ts:157-172 | `rename old new` renames the first child called `old` and changes nothing else; without such a child nothing changes |
| `FileTreeFacts.RenameCollides` | ndi-app/stores/useFileTree.ts:166-169 | `rename` does not look at the siblings: renaming onto a sibling's name leaves two children of that name |
| `FileTreeFacts.RemoveEffect` | ndi-app/stores/useFileTree.ts:174-206 | `rm name` drops the files called `name` and `rmdir name` the directories; the other children stay, in their order |
| `FileTreeFacts.WithoutNamedAppend` | ndi-app/stores/useFileTree.ts:183-185 | the filter distributes over concatenation, so it keeps order |
| `FileTreeFacts.WithoutNamedNone` | ndi-app/stores/useFileTree.ts:183-185 | with nothing to drop, the children are kept as they are |
| `FileTreeFacts.WithoutNamedIdempotent` | ndi-app/stores/useFileTree.ts:183-185 | removing twice is removing once |
| `FileTreeFacts.RemoveKeepsOtherKind` | ndi-app/stores/useFileTree.ts:183-202 | `rm` never drops a directory and `rmdir` never a file |
| `FileTreeFacts.FindFirstFile` | ndi-app/stores/useFileTree.ts:217-218 | when the first child of a name is a file, it is the first file of that name |
| `FileTreeFacts.FindOfKindSame` | ndi-app/stores/useFileTree.ts:231-233 | two child lists with the same names and kinds find the same first file of every name |
| `FileTreeFacts.WriteFileEffect` | ndi-app/stores/useFileTree.ts:211-223 | `writeFile` changes only the content of the first child of that name, and only when it is a file |
| `FileTreeFacts.WriteThenCat` | ndi-app/stores/useFileTree.ts:211-239 | what `writeFile` stores, `cat` shows |
| `FileTreeFacts.CatMissing` | ndi-app/stores/useFileTree.ts:235 | `cat` of a name with no file behind it, a directory of that name included, answers `cat: file not found: <name>` |
| `FileTreeFacts.ActionsKeepValid` | ndi-app/stores/useFileTree.ts:84-246 | every action keeps the current path leading to a directory |
| `FileTreeFacts.InitialTreeEmpty` | ndi-app/stores/useFileTree.ts:47-55 | a fresh store is valid and `ls` lists nothing |
| `TreeTerminal.FormatNodeForLs` | ndi-app/app/terminal/page.tsx:35-38 | the node's name, followed by `/` exactly for a directory |
| `TreeTerminal.FormatAll` | ndi-app/app/terminal/page.tsx:55 | one formatted line per node, in order |
| `TreeTerminal.Run` | ndi-app/app/terminal/page.tsx:11-33 | `run` on the store object gives the answer and the new state of `RunStep`; the store stays valid |
| `TreeTerminal.TerminalPage.constructor` | ndi-app/app/terminal/page.tsx:8-9 | the page starts with no history and an empty input |
| `TreeTerminal.TerminalPage.SetInput` | ndi-app/app/terminal/page.tsx:9 | typing replaces the input and keeps the history |
| `TreeTerminal.TerminalPage.HandleEnter` | ndi-app/app/terminal/page.tsx:41-67 | the history, the input and the store become those of `EnterStep`; the store stays valid |
| `TreeTerminalFacts.WordsClean` | ndi-app/app/terminal/page.tsx:12 | `split(" ").filter(Boolean)` yields only non-empty words without spaces |
| `TreeTerminalFacts.WordsOfJoin` | ndi-app/app/terminal/page.tsx:12 | plain words joined by single spaces are cut back into exactly those words |
| `TreeTerminalFacts.JoinPlainEnds` | ndi-app/app/terminal/page.tsx:44 | a line of plain words starts and ends with a character other than white space |
| `TreeTerminalFacts.UnknownCommand` | ndi-app/app/terminal/page.tsx:20-32 | a first word other than the nine command names answers `Unknown command: <name>` and leaves the store alone |
| `TreeTerminalFacts.UpperCaseIsUnknown` | ndi-app/app/terminal/page.tsx:20-32 | matching is case-sensitive: `LS` is no command |
| `TreeTerminalFacts.UnknownCommandNamed` | ndi-app/app/terminal/page.tsx:30-31 | the line `LS` answers `Unknown command: LS` and leaves the store alone |
| `TreeTerminalFacts.QueriesKeepStore` | ndi-app/app/terminal/page.tsx:21-29 | `help`, `ls`, `cat` and unknown commands leave the store as it is |
| `TreeTerminalFacts.BlankEnter` | ndi-app/app/terminal/page.tsx:41-45 | a blank line, or a key other than Enter, changes nothing, the input field included |
| `TreeTerminalFacts.EnterAppends` | ndi-app/app/terminal/page.tsx:41-67 | Enter on a non-blank line clears the input and only appends to the history: `> cmd`, then one line per node of a list, the `\n`-split lines of a string, or nothing |
| `TreeTerminalFacts.MkdirThenLs` | ndi-app/app/terminal/page.tsx:41-67 | `mkdir name` and then `ls` append both echoes, the old listing and `name/` as the last line |
| `TreeTerminalFacts.MkdirListing` | ndi-app/stores/useFileTree.ts:119-124 | after a fresh `mkdir name`, the formatted listing is the old one followed by `name/` |
| `TreeTerminalFacts.EnterMkdir` | ndi-app/app/terminal/page.tsx:24 | Enter on `mkdir name` echoes the line and runs the store's `mkdir`, which prints nothing |
| `TreeTerminalFacts.LsLine` | ndi-app/app/terminal/page.tsx:12 | the line `ls` is its own trim and the single word `ls` |
| `TreeTerminalFacts.EnterLs` | ndi-app/app/terminal/page.tsx:53-56 | Enter on `ls` echoes the line and appends the current directory's children, formatted |
| `TreeTerminalFacts.EnterRuns` | ndi-app/app/terminal/page.tsx:44-62 | Enter on a non-blank line echoes it trimmed and appends the lines of `run`'s answer |
| `TreeTerminalFacts.MkdirRun` | ndi-app/app/terminal/page.tsx:24 | a line of two words starting with `mkdir` runs the store's `mkdir` of the second |
| `TreeTerminalFacts.LsRun` | ndi-app/app/terminal/page.tsx:23 | the line `ls` lists the current directory and changes nothing |
| `TreeTerminalFacts.FormatAllAppend` | ndi-app/app/terminal/page.tsx:55 | formatting distributes over concatenation |
| `Ansi.ColorOf` | src/components/apps/Terminal.tsx:258-267 | `colorMap` has a colour exactly for the codes 30 to 37 |
| `Ansi.NumberOf` | src/components/apps/Terminal.tsx:247 | `Number` of one code as the escape handling sees it: blank is 0 and decimal digits are their value; in general a code is the number `Number` reads exactly when that is a non-negative whole number, so `-0` is 0 and NaN, an infinity, a negative or a fraction is no code |
| `Ansi.Numbers` | src/components/apps/Terminal.tsx:247 | `split(';').map(Number)`: one number per piece |
| `Ansi.FindM` | src/components/apps/Terminal.tsx:243-244 | the first `m` at or after `i + 2`, or the end of the text, with no `m` before it |
| `Ansi.Flush` | src/components/apps/Terminal.tsx:233-240 | the pending text is pushed as a span with the current style, and nothing is pushed when it is empty |
| `Ansi.StyleFor` | src/components/apps/Terminal.tsx:249-273 | the reset, bold and colour loop computes `ApplyCodes` of the codes, whose meaning `AnsiFacts.ApplyOrder` states |
| `Ansi.ParseAnsi` | src/components/apps/Terminal.tsx:224-292 | the scanning loop gives the spans of `AnsiSegments`; their texts concatenate to the input with every `ESC [ … m` removed; no span is empty |
| `Ansi.TextsAppend` | src/components/apps/Terminal.tsx:234-238 | pushing a span adds its text at the end of the texts |
| `Ansi.ScanTexts` | src/components/apps/Terminal.tsx:230-289 | from any point of the scan, the spans' texts are those so far, then the pending text, then the rest of the input stripped |
| `Ansi.FlushTexts` | src/components/apps/Terminal.tsx:233-240 | pushing the pending text adds exactly that text |
| `Ansi.StripAtSgr` | src/components/apps/Terminal.tsx:243-275 | stripping skips an escape sequence up to and including its `m` |
| `Ansi.StripSgrHead` | src/components/apps/Terminal.tsx:243-275 | an escape sequence at the head is dropped up to its `m`, or with the rest of the text when there is no `m` |
| `Ansi.StripAtChar` | src/components/apps/Terminal.tsx:276-279 | stripping keeps a character that does not start a sequence |
| `Ansi.ScanNonEmpty` | src/components/apps/Terminal.tsx:233-289 | the scan never pushes an empty span |
| `Ansi.ScanAtChar` | src/components/apps/Terminal.tsx:276-279 | a character that does not start a sequence joins the pending text |
| `Ansi.ScanAtSgr` | src/components/apps/Terminal.tsx:231-275 | at `ESC [` the pending text is pushed, the style is updated from the codes, and the scan goes on after the `m` |
| `Ansi.ScanAtEnd` | src/components/apps/Terminal.tsx:283-291 | at the end the pending text is pushed, unless empty |
| `AnsiFacts.ApplyOrder` | src/components/apps/Terminal.tsx:249-273 | within one sequence `0` resets first, then `1` sets bold, then the last of the codes 30 to 37 sets the colour; bold survives exactly when `1` is present or `0` is absent |
| `AnsiFacts.RecolorKeepsBold` | src/components/apps/Terminal.tsx:269-273 | the colour loop leaves boldness alone |
| `AnsiFacts.RecolorNone` | src/components/apps/Terminal.tsx:269-273 | without a colour code the colour is kept |
| `AnsiFacts.RecolorLast` | src/components/apps/Terminal.tsx:269-273 | the last colour code wins |
| `AnsiFacts.StripPlainPrefix` | src/components/apps/Terminal.tsx:276-279 | text before the first escape character is kept as it is |
| `AnsiFacts.SgrRemoved` | src/components/apps/Terminal.tsx:243-275 | a sequence `ESC [ code m` disappears, with everything up to its `m` |
| `AnsiFacts.UnterminatedSwallows` | src/components/apps/Terminal.tsx:244 | a sequence that never meets `m` swallows the rest of the text |
| `AnsiFacts.FindMAt` | src/components/apps/Terminal.tsx:244 | the search ends at the first `m` |
| `AnsiFacts.TextAroundSgr` | src/components/apps/Terminal.tsx:230-280 | text on both sides of a sequence survives, in order |
| `AnsiFacts.NoEscapeIsPlain` | src/components/apps/Terminal.tsx:224-292 | text without an escape character is one unstyled span, or none when empty |
| `AnsiFacts.ScanPlain` | src/components/apps/Terminal.tsx:276-289 | a rest without escape characters is pushed as one span together with the pending text |
| `AnsiFacts.BlueCode` | src/components/apps/Terminal.tsx:263 | the code `34` makes the text blue |
| `AnsiFacts.ColoredIsOneBlueSpan` | src/lib/fileSystem.ts:262-265 | a directory name as `ls` colours it shows as one blue span holding the name |
| `AnsiFacts.ColoredSpan` | src/components/apps/Terminal.tsx:224-292 | the text `ESC[34m name ESC[0m` gives the one blue span `name` |
| `AnsiFacts.OneCode` | src/components/apps/Terminal.tsx:247 | a sequence without `;` carries exactly one code |
| `AnsiFacts.BoldForms` | src/components/apps/Terminal.tsx:247-256 | `1.0` and `+1` are read as the code 1 and set bold |
| `AnsiFacts.BoldOfCodes` | src/components/apps/Terminal.tsx:254-256 | the lone code 1 makes plain text bold and leaves it uncoloured |
| `AnsiFacts.BlackForms` | src/components/apps/Terminal.tsx:247-273 | `0x1E` and `3e1` are read as the code 30 and give the colour `#000` |
| `AnsiFacts.BlackOfCodes` | src/components/apps/Terminal.tsx:258-273 | the lone code 30 gives the colour `#000` |
| `AnsiFacts.MinusZeroResets` | src/components/apps/Terminal.tsx:247-252 | `-0` is a zero that `includes(0)` finds, so it resets any style |
| `JsNumbers.Scaled` | src/components/apps/Terminal.tsx:247 | a mantissa times a power of ten is non-negative, and for a negative exponent multiplying it back by the power gives the mantissa |
| `JsNumbers.DigitIn` | src/components/apps/Terminal.tsx:247 | a digit's value lies below its base and below 16; in base 10 the digits are exactly the decimal digits |
| `JsNumbers.PrefixBase` | src/components/apps/Terminal.tsx:247 | `0x`, `0o` and `0b`, in either case, announce the bases 16, 8 and 2, and only after a leading `0`; a digit in second place means no prefix |
| `JsNumbers.Exponent` | src/components/apps/Terminal.tsx:247 | no exponent part means the exponent 0, and a part not starting with `e` or `E` is no exponent |
| `JsNumbers.UnsignedDecimal` | src/components/apps/Terminal.tsx:247 | an unsigned decimal literal has a non-negative value, and the empty text is none |
| `JsNumbers.AfterWhole` | src/components/apps/Terminal.tsx:247 | what follows the leading digits gives a non-negative value, and no digits with nothing after them is no literal |
| `JsNumbers.DecimalParts` | src/components/apps/Terminal.tsx:247 | digits around a point with an exponent part form a literal exactly when some digit is present and the exponent part is well formed; the value is non-negative |
| `JsNumbers.Unsigned` | src/components/apps/Terminal.tsx:247 | an unsigned literal is infinite exactly when it is `Infinity`, and is never negative |
| `JsNumbers.Negated` | src/components/apps/Terminal.tsx:247 | a minus sign keeps NaN, turns an infinity around and negates a finite value |
| `JsNumbers.StringToNumber` | src/components/apps/Terminal.tsx:247 | `Number` of blank text is 0 |
| `JsNumbers.WholeOf` | src/components/apps/Terminal.tsx:247-266 | a number is a whole code exactly when it is finite, non-negative and whole, and the code then has its value |
| `JsNumbersFacts.DecimalValue` | src/components/apps/Terminal.tsx:247 | in base 10 a string of decimal digits is valid and has its decimal value |
| `JsNumbersFacts.PlainRead` | src/components/apps/Terminal.tsx:247 | a trimmed text with no sign and no base prefix is read as an unsigned literal |
| `JsNumbersFacts.MinusRead` | src/components/apps/Terminal.tsx:247 | a trimmed text starting with `-` is the negation of the rest read unsigned |
| `JsNumbersFacts.PlusRead` | src/components/apps/Terminal.tsx:247 | a trimmed text starting with `+` is the rest read unsigned |
| `JsNumbersFacts.LeadingWhole` | src/components/apps/Terminal.tsx:247 | the leading digits of a literal end where something other than a digit follows |
| `JsNumbersFacts.FractionPart` | src/components/apps/Terminal.tsx:247 | after a point, the fraction is the digits up to the exponent part |
| `JsNumbersFacts.WholeDecimal` | src/components/apps/Terminal.tsx:247 | digits followed by neither a digit nor a point are the whole part, with no fraction |
| `JsNumbersFacts.PointDecimal` | src/components/apps/Terminal.tsx:247 | digits, a point, digits and an exponent part split into exactly those parts |
| `JsNumbersFacts.UnsignedDigits` | src/components/apps/Terminal.tsx:247 | a non-empty string of decimal digits alone is read as its value |
| `JsNumbersFacts.DigitsRead` | src/components/apps/Terminal.tsx:247 | `Number` of a non-empty string of decimal digits is its value |
| `JsNumbersFacts.NatRoundTrip` | src/components/apps/Terminal.tsx:247 | `Number(n.toString())` is `n` |
| `JsNumbersFacts.MinusDigits` | src/components/apps/Terminal.tsx:247 | a minus sign before digits reads as minus their value |
| `JsNumbersFacts.NegativeRoundTrip` | src/components/apps/Terminal.tsx:247 | `Number('-' + n.toString())` is minus `n` |
| `JsNumbersFacts.PointRead` | src/components/apps/Terminal.tsx:247 | digits, a point and digits read as all the digits' value divided by ten to the length of the fraction |
| `JsNumbersFacts.ExponentDigits` | src/components/apps/Terminal.tsx:247 | `e` followed by digits is the exponent those digits spell |
| `JsNumbersFacts.DigitFirstRead` | src/components/apps/Terminal.tsx:247 | a text that starts with a digit, ends without white space and has no base prefix is read unsigned |
| `JsNumbersFacts.ExponentParts` | src/components/apps/Terminal.tsx:247 | digits with `e` and digits are the first digits' value times ten to the second's |
| `JsNumbersFacts.ExponentRead` | src/components/apps/Terminal.tsx:247 | `Number` of digits, `e` and digits is the first digits' value times ten to the second's |
| `JsNumbersFacts.HexRead` | src/components/apps/Terminal.tsx:247 | `0x` and hexadecimal digits read as their value in base 16 |
| `JsNumbersFacts.PointOne` | src/components/apps/Terminal.tsx:247 | `Number('1.0')` is 1 |
| `JsNumbersFacts.PlusOne` | src/components/apps/Terminal.tsx:247 | `Number('+1')` is 1 |
| `JsNumbersFacts.HexThirty` | src/components/apps/Terminal.tsx:247 | `Number('0x1E')` is 30 |
| `JsNumbersFacts.ExponentThirty` | src/components/apps/Terminal.tsx:247 | `Number('3e1')` is 30 |
| `JsNumbersFacts.MinusZero` | src/components/apps/Terminal.tsx:247 | `Number('-0')` is zero, the whole number 0 |
| `JsNumbersFacts.LetterNaN` | src/components/apps/Terminal.tsx:247 | a stray letter after digits makes NaN |
| `JsNumbersFacts.BarePrefixNaN` | src/components/apps/Terminal.tsx:247 | a base prefix without digits is NaN |
| `JsNumbersFacts.LonePointNaN` | src/components/apps/Terminal.tsx:247 | a point without digits on either side is NaN |
| `TerminalApp.InjectiveAdd` | src/components/apps/Terminal.tsx:21-28 | adding a fresh object under a new window id keeps every window's file system distinct |
| `TerminalApp.FsRegistry.constructor` | src/components/apps/Terminal.tsx:21 | the registry starts empty |
| `TerminalApp.FsRegistry.GetFileSystem` | src/components/apps/Terminal.tsx:23-28 | a window id gets a fresh `VirtualFileSystem` in its initial state on first use and the same object ever after; no other entry changes |
| `TerminalApp.SubmitStep` | src/components/apps/Terminal.tsx:76-162 | the input is cleared; a blank submit keeps the history and the file system; a non-blank one appends the trimmed line to the history and resets the cursor to -1; the cursor stays in range |
| `TerminalApp.SubmitBlank` | src/components/apps/Terminal.tsx:90-94 | a blank submit appends only an empty input line |
| `TerminalApp.SubmitRuns` | src/components/apps/Terminal.tsx:97-161 | a non-blank submit runs the command; `clear` empties the transcript, otherwise the input line and then the output line, if any, are appended; the path follows the file system |
| `TerminalApp.KeyStep` | src/components/apps/Terminal.tsx:164-221 | every key keeps the cursor in `[-1, len-1]` and the history; only the arrows move the cursor, and they leave the transcript alone |
| `TerminalApp.TerminalWindow.constructor` | src/components/apps/Terminal.tsx:40-57 | a window starts with the welcome line, an empty input and history, the cursor at -1 and the file system's path |
| `TerminalApp.TerminalWindow.SetInput` | src/components/apps/Terminal.tsx:54 | typing replaces only the input |
| `TerminalApp.TerminalWindow.HandleSubmit` | src/components/apps/Terminal.tsx:76-162 | the view and the file system become those of `SubmitStep` |
| `TerminalApp.TerminalWindow.Record` | src/components/apps/Terminal.tsx:139-161 | after the command ran: history grows by the input, the cursor is -1, the input empty, and the transcript is cleared or extended by the input and output lines |
| `TerminalApp.TerminalWindow.HandleKeyDown` | src/components/apps/Terminal.tsx:164-221 | the view becomes that of `KeyStep` |
| `TerminalAppFacts.InitialViewInRange` | src/components/apps/Terminal.tsx:40-56 | a window starts with the welcome text, no history and the cursor off the history |
| `TerminalAppFacts.SubmitClear` | src/components/apps/Terminal.tsx:145-146 | `clear` empties the transcript, still joins the history, and leaves the file system alone |
| `TerminalAppFacts.SubmitUnknown` | src/components/apps/Terminal.tsx:148-158 | an unknown command shows the typed line and then an `error` line naming it |
| `TerminalAppFacts.SubmitAppends` | src/components/apps/Terminal.tsx:147-159 | a command that does not clear appends exactly its echoed line at the prompt of the directory it was typed in and, when it printed something, one line typed `error` exactly when the result is an error |
| `TerminalAppFacts.SubmitThenUp` | src/components/apps/Terminal.tsx:140-175 | after a line was submitted, ArrowUp brings it back |
| `TerminalAppFacts.Presses` | src/components/apps/Terminal.tsx:166-188 | the view after `n` presses of an arrow key keeps the cursor in range and the history, transcript and path as they were |
| `TerminalAppFacts.UpFrom` | src/components/apps/Terminal.tsx:166-175 | while browsing, each ArrowUp moves one entry back and stops at the oldest |
| `TerminalAppFacts.UpRecalls` | src/components/apps/Terminal.tsx:166-175 | from the fresh line, `n` presses of ArrowUp show the `n`-th most recent command, or the oldest |
| `TerminalAppFacts.DownFrom` | src/components/apps/Terminal.tsx:176-188 | while browsing, each ArrowDown moves one entry forward, and past the newest returns to an empty fresh line |
| `TerminalAppFacts.UpThenDown` | src/components/apps/Terminal.tsx:166-188 | going up `n` entries and down `n` again ends on the fresh, empty line |
| `TerminalAppFacts.DownWhenFresh` | src/components/apps/Terminal.tsx:178 | ArrowDown on the fresh line does nothing |
| `TerminalAppFacts.ReplaceLastFragment` | src/components/apps/Terminal.tsx:194-196 | replacing the last piece keeps everything up to the last space and puts the suggestion after it |
| `TerminalAppFacts.TabCompletes` | src/components/apps/Terminal.tsx:193-196 | with one suggestion, Tab replaces the fragment after the last space by it and changes nothing else |
| `TerminalAppFacts.TabExtends` | src/components/apps/Terminal.tsx:190-196 | after a space, a single completion only extends what was typed, by a name of the current directory |
| `TerminalAppFacts.TabLists` | src/components/apps/Terminal.tsx:197-205 | with several suggestions, Tab keeps the input and appends the typed line and the suggestions joined by two spaces |
| `TerminalAppFacts.TabOnCommand` | src/components/apps/Terminal.tsx:190-196 | without a space, a single completion replaces the whole input by a command of the table |
| `TerminalAppFacts.WholeFragment` | src/components/apps/Terminal.tsx:194 | without a space, the fragment being completed is the whole input |
| `TerminalAppFacts.CtrlCAbandons` | src/components/apps/Terminal.tsx:208-215 | Ctrl+C leaves the line in the transcript marked `^C`, clears the input, runs nothing and adds nothing to the history |
| `TerminalAppFacts.CtrlLClears` | src/components/apps/Terminal.tsx:217-220 | Ctrl+L clears the transcript and keeps the line being typed |
| `TerminalAppFacts.OtherKeys` | src/components/apps/Terminal.tsx:164-221 | plain `c` and `l`, and any other key, change nothing |
| `FileManager.NavigateStep` | src/components/apps/FileManager.tsx:51-63 | after a successful `cd` the history is cut after the position, the normalised path is appended and the position points at it; a failed `cd` keeps the view; the file system is the one `cd` left; the view stays valid |
| `FileManager.BackStep` | src/components/apps/FileManager.tsx:65-73 | `goBack` moves the position one back only when it is above 0, keeps the history and the tree, and at 0 changes nothing |
| `FileManager.ForwardStep` | src/components/apps/FileManager.tsx:75-83 | `goForward` moves the position one forward only when it is below the last entry, keeps the history and the tree, and at the end changes nothing |
| `FileManager.RefreshStep` | src/components/apps/FileManager.tsx:85-88 | `refresh` keeps the history, the position and the tree, and shows the file system's current path |
| `FileManager.FileManagerWindow.constructor` | src/components/apps/FileManager.tsx:44-49 | a window shows `/home/user`, with history `['/home/user']` and position 0 |
| `FileManager.FileManagerWindow.NavigateTo` | src/components/apps/FileManager.tsx:51-63 | the view and the file system become those of `NavigateStep`, and the window stays valid |
| `FileManager.FileManagerWindow.Push` | src/components/apps/FileManager.tsx:58-61 | the history is cut after the position, the path appended, and the position points at it |
| `FileManager.FileManagerWindow.GoBack` | src/components/apps/FileManager.tsx:65-73 | the view and the file system become those of `BackStep` |
| `FileManager.FileManagerWindow.GoForward` | src/components/apps/FileManager.tsx:75-83 | the view and the file system become those of `ForwardStep` |
| `FileManager.FileManagerWindow.MoveTo` | src/components/apps/FileManager.tsx:67-71 | the window shows the visited path at the new position, and the file system has moved there |
| `FileManager.FileManagerWindow.Refresh` | src/components/apps/FileManager.tsx:85-88 | the view and the file system become those of `RefreshStep`: the view is unchanged and the file system sits in the directory shown |
| `FileManager.FileManagerWindow.Items` | src/components/apps/FileManager.tsx:90-97 | the items shown are the directory's entries, permuted, every directory before every file and each kind ordered by name |
| `FileManager.FileManagerWindow.ClickCrumb` | src/components/apps/FileManager.tsx:158-167 | breadcrumb `i` navigates to `/` plus the first `i + 1` segments of the current path |
| `FileManager.FileManagerWindow.OpenItem` | src/components/apps/FileManager.tsx:205-209 | a double-click navigates to `currentPath/name` for a directory and changes nothing for a file |
| `FileManager.HomeVisited` | src/components/apps/FileManager.tsx:46-48 | the first history entry names a directory when `/home/user` is one |
| `FileManager.CdToDir` | src/lib/fileSystem.ts:209-223 | `cd` to a normalised path of a directory succeeds and moves there |
| `FileManager.CdLands` | src/lib/fileSystem.ts:209-223 | a successful `cd` lands on a normalised path of a directory |
| `FileManager.NavigateKeeps` | src/components/apps/FileManager.tsx:51-63 | `navigateTo` keeps every visited path a directory, and after a success the file system sits in the directory shown |
| `FileManager.PushedKeeps` | src/components/apps/FileManager.tsx:58-61 | appending a directory path keeps every visited path a directory |
| `FileManager.BackKeeps` | src/components/apps/FileManager.tsx:65-73 | `goBack` keeps every visited path a directory, and when it moves the file system follows to the shown path |
| `FileManager.BackShape` | src/components/apps/FileManager.tsx:65-73 | when it moves, `goBack` shows the previous entry with the position one less |
| `FileManager.ForwardKeeps` | src/components/apps/FileManager.tsx:75-83 | `goForward` keeps every visited path a directory, and when it moves the file system follows to the shown path |
| `FileManager.ForwardShape` | src/components/apps/FileManager.tsx:75-83 | when it moves, `goForward` shows the next entry with the position one more |
| `FileManager.DirFirstTotal` | src/components/apps/FileManager.tsx:93-97 | the directory-first comparator is a total preorder when the name order is one |
| `FileManager.SortedItemsOrdered` | src/components/apps/FileManager.tsx:90-97 | the sorted listing is ordered by that comparator and is a permutation of the directory's entries |
| `FileManagerFacts.FreshHasHome` | src/components/apps/FileManager.tsx:28-33 | a fresh file system has the directory `/home/user` the window starts in |
| `FileManagerFacts.InitialNavValid` | src/components/apps/FileManager.tsx:46-49 | the first view is valid: position 0 of a one-entry history equal to the path shown |
| `FileManagerFacts.BackThenForward` | src/components/apps/FileManager.tsx:65-83 | forward undoes back |
| `FileManagerFacts.ForwardThenBack` | src/components/apps/FileManager.tsx:65-83 | back undoes forward |
| `FileManagerFacts.NavigateThenBack` | src/components/apps/FileManager.tsx:51-73 | after a successful navigation there is nowhere to go forward, and back returns to the directory left, in the file system too |
| `FileManagerFacts.NavigateFails` | src/components/apps/FileManager.tsx:51-63 | a failed navigation changes nothing at all |
| `FileManagerFacts.RefreshKeeps` | src/components/apps/FileManager.tsx:85-88 | a refresh keeps the view and moves the file system to the directory shown |
| `FileManagerFacts.ListingDirsFirst` | src/components/apps/FileManager.tsx:93-97 | directories come before files, items of one kind are ordered by name, and the items are exactly the directory's entries |
| `FileManagerFacts.JoinConcat` | src/components/apps/FileManager.tsx:163 | joining a list split at a non-empty boundary is joining both halves with the separator between |
| `FileManagerFacts.CrumbPrefix` | src/components/apps/FileManager.tsx:99-167 | breadcrumb `i` is a normalised prefix of the path made of its first `i + 1` segments, and the last breadcrumb is the path itself |
| `FileManagerFacts.CrumbIsDir` | src/components/apps/FileManager.tsx:158-167 | every breadcrumb of a directory path names a directory |
| `FileManagerFacts.CrumbLands` | src/components/apps/FileManager.tsx:158-167 | a click on breadcrumb `i` always succeeds: the window and the file system move to that prefix |
| `FileManagerFacts.OpenChildDir` | src/components/apps/FileManager.tsx:205-209 | a double-click on a child directory with a plain name opens it: the path shown gains exactly that name as its last segment |
| `FileManagerFacts.ChildrenAt` | src/lib/fileSystem.ts:395-407 | the entries `listDirectory` gives for a directory path are its children's |
| `FileManagerFacts.ChildSegs` | src/lib/fileSystem.ts:164-187 | the normalised segments of `path + "/" + name` are those of `path` followed by `name` |
| `FileManagerFacts.ChildFound` | src/lib/fileSystem.ts:189-207 | in a well-formed tree the `k`-th child of a directory is found by its name |
| `TutorialSteps.Find` | ndi-app/src/lib/tutorialSteps.ts:565 | a step found by `find` is one of the table and carries the id asked for; none is found only when no step carries it |
| `TutorialSteps.StepTableIds` | ndi-app/src/lib/tutorialSteps.ts:3-564 | the shipped table has 21 steps, numbered 1 to 21 in order, so `getTotalSteps()` is 21 |
| `TutorialSteps.FindConsecutive` | ndi-app/src/lib/tutorialSteps.ts:565 | in a table of consecutive ids from `base`, the step with id `id` is the one at position `id - base`, and ids outside the run find nothing |
| `TutorialSteps.FindNumbered` | ndi-app/src/lib/tutorialSteps.ts:565 | in a table numbered from 1, id `k` finds the step at position `k - 1` for `k` from 1 to the length, and nothing otherwise |
| `TutorialSteps.StepByIdIndex` | ndi-app/src/lib/tutorialSteps.ts:565 | `getStepById(id)` is the `id`-th step of the shipped table for ids 1 to 21 and undefined for every other id |
| `Tutorial.Progress` | src/stores/tutorialStore.ts:246-249 | `getProgress` is the percentage of completed steps rounded to the nearest whole number (halves up), and is not a number exactly when the table is empty |
| `Tutorial.InitialInv` | src/stores/tutorialStore.ts:37-47 | the initial state shows step 1 of a non-empty table with no step completed |
| `Tutorial.NextKeeps` | src/stores/tutorialStore.ts:155-198 | `nextStep` keeps the current step inside the table and the completed steps distinct ids of the table, because it adds the current id only when it is missing |
| `Tutorial.GoToKeeps` | src/stores/tutorialStore.ts:221-239 | `goToStep` only ever lands on an id of the table |
| `Tutorial.TutorialStore.constructor` | src/stores/tutorialStore.ts:37-52 | a new store is over the shipped table, in the initial state: step 1, phase `intro`, nothing completed, inactive |
| `Tutorial.TutorialStore.StartTutorial` | src/stores/tutorialStore.ts:54-66 | `startTutorial` makes the store active at step 1 in phase `intro`, with the completed steps, flags and wrong-answer count cleared and the step count kept; the invariant holds after it |
| `Tutorial.TutorialStore.StopTutorial` | src/stores/tutorialStore.ts:68-70 | `stopTutorial` only clears the active flag |
| `Tutorial.TutorialStore.ResetTutorial` | src/stores/tutorialStore.ts:72-74 | `resetTutorial` returns the store to the initial state |
| `Tutorial.TutorialStore.AnswerQcm` | src/stores/tutorialStore.ts:76-92 | `answerQcm` returns and stores what the quiz step function computes (see `TutorialFacts.AnswerOutcome`); the invariant holds after it |
| `Tutorial.TutorialStore.IncrementWrongAnswer` | src/stores/tutorialStore.ts:94-98 | `incrementWrongAnswer` adds one to the wrong-answer count and changes nothing else |
| `Tutorial.TutorialStore.ValidateCommand` | src/stores/tutorialStore.ts:100-125 | `validateCommand` returns and stores what the command step function computes (see `TutorialFacts.CommandOutcome`) |
| `Tutorial.TutorialStore.ValidateAction` | src/stores/tutorialStore.ts:127-141 | `validateAction` returns and stores what the action step function computes (see `TutorialFacts.ActionOutcome`), with the delayed `nextStep` taken at once |
| `Tutorial.TutorialStore.SetPhase` | src/stores/tutorialStore.ts:143-145 | `setPhase` changes the phase and nothing else |
| `Tutorial.TutorialStore.ShowExplanationPopup` | src/stores/tutorialStore.ts:147-149 | `showExplanationPopup` sets the popup flag and changes nothing else |
| `Tutorial.TutorialStore.HideExplanationPopup` | src/stores/tutorialStore.ts:151-153 | `hideExplanationPopup` clears the popup flag and changes nothing else |
| `Tutorial.TutorialStore.NextStep` | src/stores/tutorialStore.ts:155-198 | `nextStep` moves the store as the advance function says (see `TutorialFacts.NextMoves` and `NextAtEnd`), keeping the invariant |
| `Tutorial.TutorialStore.PreviousStep` | src/stores/tutorialStore.ts:200-219 | `previousStep` moves the store as the retreat function says (see `TutorialFacts.PreviousMoves`), keeping the invariant |
| `Tutorial.TutorialStore.GoToStep` | src/stores/tutorialStore.ts:221-239 | `goToStep` moves the store as the jump function says (see `TutorialFacts.GoToKnown` and `GoToUnknown`), keeping the invariant |
| `TutorialFacts.FirstAndLast` | ndi-app/src/lib/tutorialSteps.ts:9-23 | the first step of the table is the introduction and the last one (lines 549-561) the completion |
| `TutorialFacts.QuizzesWellFormed` | ndi-app/src/lib/tutorialSteps.ts:3-562 | a step carries quiz options exactly when it is a quiz; each quiz has exactly one right option, an expected command and an explanation |
| `TutorialFacts.ActionsWellFormed` | ndi-app/src/lib/tutorialSteps.ts:3-562 | a step carries an action exactly when it is an action step; each action has a target and a non-empty selector to highlight |
| `TutorialFacts.MatchesIsPrefix` | src/stores/tutorialStore.ts:105-114 | the string test of `validateCommand` accepts exactly the inputs whose trimmed, lower-cased form starts with the lower-cased expected command (the equality branch adds nothing) |
| `TutorialFacts.MatchesCommandWithTail` | src/stores/tutorialStore.ts:105-114 | an answer made of the expected command followed by any tail, with no blank around it, is accepted |
| `TutorialFacts.QuizAt` | ndi-app/src/lib/tutorialSteps.ts:3-562 | every quiz step of the table is one of the eight quizzes (steps 5, 6, 7, 8, 11, 12, 15 and 19) |
| `TutorialFacts.QuizPwdPasses` | ndi-app/src/lib/tutorialSteps.ts:78-118 | the right option of the `pwd` quiz, typed as the command, is accepted by `validateCommand` |
| `TutorialFacts.QuizLsPasses` | ndi-app/src/lib/tutorialSteps.ts:119-159 | the right option of the `ls` quiz, typed as the command, is accepted |
| `TutorialFacts.QuizCdPasses` | ndi-app/src/lib/tutorialSteps.ts:160-200 | the right option of the `cd documents` quiz, typed as the command, is accepted |
| `TutorialFacts.QuizCdUpPasses` | ndi-app/src/lib/tutorialSteps.ts:201-244 | the right option of the `cd ..` quiz, typed as the command, is accepted |
| `TutorialFacts.QuizCatPasses` | ndi-app/src/lib/tutorialSteps.ts:280-320 | the right option of the `cat notes.txt` quiz, typed as the command, is accepted |
| `TutorialFacts.QuizMkdirPasses` | ndi-app/src/lib/tutorialSteps.ts:321-360 | the right option of the `mkdir` quiz, typed as the command, is accepted |
| `TutorialFacts.QuizHelpPasses` | ndi-app/src/lib/tutorialSteps.ts:395-438 | the right option of the `help` quiz, typed as the command, is accepted |
| `TutorialFacts.QuizWriterPasses` | ndi-app/src/lib/tutorialSteps.ts:489-529 | the right option of the `libreoffice` quiz, typed as the command, is accepted |
| `TutorialFacts.OptionPasses` | src/stores/tutorialStore.ts:100-125 | a quiz whose right option has no surrounding blank and starts with the expected command, up to case, has that option accepted as a command |
| `TutorialFacts.PrefixUpToCase` | src/stores/tutorialStore.ts:105-114 | an input with no surrounding blank that starts with the expected command up to case is accepted |
| `TutorialFacts.AnswerOutcome` | src/stores/tutorialStore.ts:76-92 | without a quiz `answerQcm` answers false and changes nothing; otherwise it answers true exactly for the index of a right option, which moves to phase `terminal` with the quiz answered, and any other index, out of range included, only adds one wrong answer |
| `TutorialFacts.CommandOutcome` | src/stores/tutorialStore.ts:100-125 | `validateCommand` accepts exactly when the current step expects a command that the normalised input starts with; acceptance moves to phase `explanation` with the command marked done and the popup shown, rejection changes nothing |
| `TutorialFacts.ActionOutcome` | src/stores/tutorialStore.ts:127-141 | `validateAction` accepts exactly the target of the current action step, and then moves on as `nextStep` does; otherwise nothing changes |
| `TutorialFacts.NextMoves` | src/stores/tutorialStore.ts:155-198 | before the last step `nextStep` enters the next step in the phase its type calls for, marks the left step completed, keeps every earlier completion, and clears the flags and the wrong-answer count |
| `TutorialFacts.NextAtEnd` | src/stores/tutorialStore.ts:165-173 | at the last step `nextStep` stays on it, marks it completed and enters phase `completed`; a second call changes nothing |
| `TutorialFacts.PreviousAtStart` | src/stores/tutorialStore.ts:200-202 | `previousStep` at the first step changes nothing |
| `TutorialFacts.PreviousMoves` | src/stores/tutorialStore.ts:200-219 | elsewhere `previousStep` goes back one step, in phase `qcm` for a quiz and `intro` otherwise, keeping the completed steps and the wrong-answer count |
| `TutorialFacts.GoToUnknown` | src/stores/tutorialStore.ts:221-223 | `goToStep` with an id outside the table changes nothing |
| `TutorialFacts.GoToKnown` | src/stores/tutorialStore.ts:221-239 | `goToStep` with an id of the table shows that step in the phase its type calls for, keeping the completed steps and the wrong-answer count |
| `TutorialFacts.GoToActionDiffers` | src/stores/tutorialStore.ts:178-186 | entering an action step by `goToStep` gives phase `intro` (lines 225-230), whereas `nextStep` enters it in phase `action` |
| `TutorialFacts.HighlightOnActions` | src/stores/tutorialStore.ts:255-262 | on the shipped table `getHighlightTarget` gives a selector exactly on the action steps |
| `TutorialFacts.ApplyKeeps` | src/stores/tutorialStore.ts:54-239 | every store action keeps the current step inside the table and the completed steps distinct ids of the table |
| `TutorialFacts.RunKeeps` | src/stores/tutorialStore.ts:54-239 | so does every sequence of store actions |
| `TutorialFacts.DistinctBound` | src/stores/tutorialStore.ts:158-161 | distinct completed ids between 1 and `n` number at most `n` |
| `TutorialFacts.ProgressBounds` | src/stores/tutorialStore.ts:246-249 | in every state satisfying the invariant, `getProgress` is a whole number from 0 to 100 |
| `TutorialFacts.ReachedProgress` | src/stores/tutorialStore.ts:246-249 | whatever the learner does from a fresh store, progress is a whole number from 0 to 100 |
| `TutorialFacts.ProgressEnds` | src/stores/tutorialStore.ts:246-249 | on the shipped table progress is 100 exactly when all 21 steps are completed and 0 exactly when none is |
| `TutorialFacts.WalkThrough` | src/stores/tutorialStore.ts:155-198 | after `startTutorial` and `k` calls of `nextStep` the learner is at step `k + 1` (or the last step) with steps 1 to `k` completed in order |
| `TutorialFacts.WalkStep` | src/stores/tutorialStore.ts:155-198 | one more `nextStep` extends such a walk by one step |
| `TutorialFacts.FinishTutorial` | src/stores/tutorialStore.ts:155-198 | twenty-one calls of `nextStep` after `startTutorial` finish the shipped tutorial: phase `completed`, step 21, steps 1 to 21 completed, progress 100 |
| `Desktop.FirstOf` | src/stores/desktopStore.ts:61 | the window found is on the desktop, of the app asked for and in the minimized state asked for; none is found only when no window matches |
| `Desktop.ById` | src/stores/desktopStore.ts:138 | the window found is on the desktop and has the id asked for; none is found only when no window has it |
| `Desktop.Updated` | src/stores/desktopStore.ts:107-109 | the list keeps its length and order; exactly the windows with the given id are changed |
| `Desktop.Without` | src/stores/desktopStore.ts:99 | the kept windows are exactly the windows whose id differs, and the list never grows |
| `Desktop.DesktopStore.constructor` | src/stores/desktopStore.ts:51-55 | a new desktop has no window, no active window, the wallpaper `/wallpaper.jpg` and next level 1 |
| `Desktop.DesktopStore.OpenWindow` | src/stores/desktopStore.ts:57-95 | `openWindow` moves the store as the open function says (see `DesktopFacts.OpenFocusesShown`, `OpenRestoresMinimized` and `OpenAppends`), keeping every level below the next one |
| `Desktop.DesktopStore.CloseWindow` | src/stores/desktopStore.ts:97-103 | `closeWindow` moves the store as the close function says (see `DesktopFacts.CloseRemoves`) |
| `Desktop.DesktopStore.MinimizeWindow` | src/stores/desktopStore.ts:105-113 | `minimizeWindow` moves the store as the minimize function says (see `DesktopFacts.MinimizeOnly`) |
| `Desktop.DesktopStore.MaximizeWindow` | src/stores/desktopStore.ts:115-121 | `maximizeWindow` sets the maximized flag of the named window and changes nothing else |
| `Desktop.DesktopStore.RestoreWindow` | src/stores/desktopStore.ts:123-134 | `restoreWindow` moves the store as the restore function says (see `DesktopFacts.RestoreShows`) |
| `Desktop.DesktopStore.FocusWindow` | src/stores/desktopStore.ts:136-148 | `focusWindow` moves the store as the focus function says (see `DesktopFacts.RaisedOnTop` and `FocusIgnored`) |
| `Desktop.DesktopStore.UpdateWindowPosition` | src/stores/desktopStore.ts:150-156 | `updateWindowPosition` changes the position of the named window only (see `DesktopFacts.MoveResizeOnly`) |
| `Desktop.DesktopStore.UpdateWindowSize` | src/stores/desktopStore.ts:158-162 | `updateWindowSize` changes the size of the named window only (see `DesktopFacts.MoveResizeOnly`) |
| `Desktop.DesktopStore.SetWallpaper` | src/stores/desktopStore.ts:164-166 | `setWallpaper` changes the wallpaper and nothing else |
| `DesktopFacts.ApplyKeeps` | src/stores/desktopStore.ts:57-166 | every action keeps every window's level below the next level, which stays at least 1 and never decreases |
| `DesktopFacts.RaisedOnTop` | src/stores/desktopStore.ts:136-148 | focusing a shown window puts it at the old next level, above every other window, makes it active and raises the next level by one |
| `DesktopFacts.FocusIgnored` | src/stores/desktopStore.ts:138-139 | focusing a missing or minimized window changes nothing |
| `DesktopFacts.RestoreShows` | src/stores/desktopStore.ts:123-134 | restoring clears both flags of the named window, puts it at the old next level, makes it active and leaves every other window as it was |
| `DesktopFacts.ByIdAt` | src/stores/desktopStore.ts:138 | with distinct ids, finding a window by its id gives that window |
| `DesktopFacts.FirstOfAt` | src/stores/desktopStore.ts:61 | the window found for an app is at some position of the list |
| `DesktopFacts.OpenFocusesShown` | src/stores/desktopStore.ts:60-65 | opening an app other than the text editor that already shows a window adds no window, makes that window active and raises the next level by one |
| `DesktopFacts.OpenRestoresMinimized` | src/stores/desktopStore.ts:67-72 | otherwise, when the app has a minimized window, opening restores it and adds no window |
| `DesktopFacts.OpenAppends` | src/stores/desktopStore.ts:74-95 | in every other case exactly one window is appended after the old ones, with the new id, the app's title and default size, shown, not maximized, at the old next level and active |
| `DesktopFacts.SecondTextEditor` | src/stores/desktopStore.ts:60-62 | a text editor with no minimized window always opens a new window, even beside a shown one |
| `DesktopFacts.CloseRemoves` | src/stores/desktopStore.ts:97-103 | closing removes exactly the windows with that id, and clears the active window exactly when it was the one closed |
| `DesktopFacts.CloseAt` | src/stores/desktopStore.ts:99 | with distinct ids, closing the window at a position removes that one and keeps the others in order |
| `DesktopFacts.NoneWithout` | src/stores/desktopStore.ts:99 | closing an id no window has leaves the list unchanged |
| `DesktopFacts.MinimizeOnly` | src/stores/desktopStore.ts:105-113 | minimizing sets the flag of the named window only and clears the active window exactly when it was that one |
| `DesktopFacts.MoveResizeOnly` | src/stores/desktopStore.ts:150-162 | moving or resizing changes the position or size of the named window and nothing else, not the active window nor the next level |
| `DesktopFacts.ApplyKeepsShown` | src/stores/desktopStore.ts:57-166 | with distinct ids and a new id for each new window, every action keeps the ids distinct and the active window not minimized |
| `DesktopFacts.OpenShown` | src/stores/desktopStore.ts:57-95 | opening keeps the ids distinct and the active window shown when the new id is unused |
| `DesktopFacts.UpdatedIds` | src/stores/desktopStore.ts:107-109 | a change to a window keeps every id, so distinct ids stay distinct |
| `DesktopFacts.FocusShown` | src/stores/desktopStore.ts:136-148 | focusing keeps the ids distinct and the active window shown |
| `DesktopFacts.WithoutUnique` | src/stores/desktopStore.ts:99 | closing keeps the ids distinct |
| `Metrics.WithBadge` | src/stores/metricsStore.ts:144-156 | after `addBadge` the badge is won, and the badges won are exactly the old ones and the new one |
| `Metrics.DayIndex` | src/stores/metricsStore.ts:162 | `findIndex` gives the first entry dated today, or -1 exactly when no entry is |
| `Metrics.LastN` | src/stores/metricsStore.ts:175 | `slice(-30)` keeps the last 30 entries, or all of them when there are fewer |
| `Metrics.MetricsStore.constructor` | src/stores/metricsStore.ts:46-63 | a new store holds `INITIAL_METRICS`: every counter 0, one session, nothing saved, no badge, an empty log |
| `Metrics.MetricsStore.IncrementCommands` | src/stores/metricsStore.ts:65-90 | `incrementCommands` moves the metrics as the command step says (see `MetricsFacts.CommandBadges`), then recomputes the savings |
| `Metrics.MetricsStore.IncrementFiles` | src/stores/metricsStore.ts:92-100 | `incrementFiles` adds one created file and recomputes the savings |
| `Metrics.MetricsStore.IncrementFolders` | src/stores/metricsStore.ts:102-110 | `incrementFolders` adds one created folder and recomputes the savings |
| `Metrics.MetricsStore.IncrementApps` | src/stores/metricsStore.ts:112-132 | `incrementApps` moves the metrics as the app step says (see `MetricsFacts.AppBadges`), without recomputing the savings |
| `Metrics.MetricsStore.AddTimeSpent` | src/stores/metricsStore.ts:134-142 | `addTimeSpent` adds the seconds to the total time and recomputes the savings |
| `Metrics.MetricsStore.AddBadge` | src/stores/metricsStore.ts:144-156 | `addBadge` adds the badge unless it is already won (see `MetricsFacts.BadgeIdempotent`) |
| `Metrics.MetricsStore.UpdateDailyActivity` | src/stores/metricsStore.ts:158-184 | `updateDailyActivity` updates the log as the daily step says (see `MetricsFacts.DailyToday` and `DailyOthers`) |
| `Metrics.MetricsStore.CalculateEnergySavings` | src/stores/metricsStore.ts:186-210 | `calculateEnergySavings` recomputes the three savings from the total time (see `MetricsFacts.EnergyMonotone` and `OneHour`) |
| `Metrics.MetricsStore.ResetMetrics` | src/stores/metricsStore.ts:212-214 | `resetMetrics` returns to `INITIAL_METRICS` |
| `MetricsFacts.CommandBadges` | src/stores/metricsStore.ts:65-90 | `incrementCommands` adds one command, keeps every badge already won, and adds exactly `first-command` at the 1st command, `terminal-novice` at the 10th and `terminal-expert` at the 50th |
| `MetricsFacts.AppBadges` | src/stores/metricsStore.ts:112-132 | `incrementApps` adds one app, keeps every badge already won, and adds exactly `first-app` at the 1st app and `app-explorer` at the 5th |
| `MetricsFacts.BadgeIdempotent` | src/stores/metricsStore.ts:144-156 | `addBadge` twice is `addBadge` once, a badge already won changes nothing, and afterwards the badge is won |
| `MetricsFacts.WithBadgeDistinct` | src/stores/metricsStore.ts:144-156 | `addBadge` never lists a badge twice |
| `MetricsFacts.UnlockAtDistinct` | src/stores/metricsStore.ts:71-79 | unlocking a badge at a threshold never lists a badge twice and keeps the badges already won |
| `MetricsFacts.CountersOnlyOwn` | src/stores/metricsStore.ts:92-110 | on metrics whose savings are up to date, `incrementFiles` and `incrementFolders` change their own counter and nothing else, and adding no time changes nothing |
| `MetricsFacts.EnergyMonotone` | src/stores/metricsStore.ts:186-210 | more time spent never gives lower energy, CO2 or water savings, and no saving is negative |
| `MetricsFacts.OneHour` | src/stores/metricsStore.ts:192-206 | one hour spent saves 60 Wh, 28.5 g of CO2 and 0.09 l of water |
| `MetricsFacts.LoggedDistinct` | src/stores/metricsStore.ts:161-172 | adding today's counts to a log with distinct dates keeps the dates distinct |
| `MetricsFacts.SuffixDistinct` | src/stores/metricsStore.ts:175 | keeping the last entries of a log keeps its dates distinct |
| `MetricsFacts.DropDistinct` | src/stores/metricsStore.ts:175 | dropping leading entries of a log keeps its dates distinct |
| `MetricsFacts.DayIndexAt` | src/stores/metricsStore.ts:162 | in a log with distinct dates, `findIndex` finds the entry dated today wherever it is |
| `MetricsFacts.LoggedAt` | src/stores/metricsStore.ts:164-172 | today's counts are added into today's entry when there is one, keeping the length, and otherwise appended as a new last entry |
| `MetricsFacts.DailyToday` | src/stores/metricsStore.ts:158-184 | on a log of at most 30 entries with distinct dates, `updateDailyActivity` keeps at most 30 entries with distinct dates, and today's entry holds its old counts (none when it was missing) plus the new ones |
| `MetricsFacts.DailyOthers` | src/stores/metricsStore.ts:158-184 | `updateDailyActivity` invents no other day: each entry not dated today was in the log before, unchanged |
| `MetricsFacts.LoggedOthers` | src/stores/metricsStore.ts:164-172 | an entry not dated today sits where it was before the update, unchanged |
| `MetricsFacts.ApplyKeeps` | src/stores/metricsStore.ts:65-214 | every action keeps the badges without repeats and the log at most 30 entries with distinct dates; every action but a reset keeps the badges already won |
| `MetricsFacts.RunKeeps` | src/stores/metricsStore.ts:65-214 | so does every sequence of actions |
| `MetricsFacts.Reachable` | src/stores/metricsStore.ts:46-214 | every metrics value reached from `INITIAL_METRICS` satisfies that invariant |
| `MetricsFacts.CommandThresholds` | src/stores/metricsStore.ts:65-90 | from fresh metrics, `k` commands win exactly the command badges whose threshold (1, 10, 50) `k` has reached |
| `Rse.WithBadge` | src/stores/rseStore.ts:326-338 | after `unlockRSEBadge` the badge is won, and the badges won are exactly the old ones and the new one |
| `Rse.RSEStore.constructor` | src/stores/rseStore.ts:93-116 | a new store holds the initial metrics: efficiency, optimisation, accessibility and inclusivity at 50, privacy and transparency at 100, nothing counted, no flag, no badge, language `fr`, global score 50 |
| `Rse.RSEStore.IncrementGreenCommands` | src/stores/rseStore.ts:119-138 | `incrementGreenCommands` moves the metrics as the green step says (see `RseFacts.EcoCoder`) and recomputes the global score |
| `Rse.RSEStore.UpdateEnergyScore` | src/stores/rseStore.ts:140-151 | `updateEnergyScore` stores the score clamped to 0..100 and recomputes the global score (see `RseFacts.EnvironmentalSetters`) |
| `Rse.RSEStore.UpdateCodeOptimization` | src/stores/rseStore.ts:153-164 | `updateCodeOptimization` stores the level clamped to 0..100 and recomputes the global score |
| `Rse.RSEStore.IncreaseCarbonAwareness` | src/stores/rseStore.ts:166-181 | `increaseCarbonAwareness` adds the points, capped at 100, and recomputes the global score (see `RseFacts.CarbonCapped`) |
| `Rse.RSEStore.UpdateAccessibilityScore` | src/stores/rseStore.ts:183-194 | `updateAccessibilityScore` stores the score clamped to 0..100 and recomputes the global score (see `RseFacts.SocialSetters`) |
| `Rse.RSEStore.UpdateInclusivityLevel` | src/stores/rseStore.ts:196-207 | `updateInclusivityLevel` stores the level clamped to 0..100 and recomputes the global score |
| `Rse.RSEStore.IncrementHelpGiven` | src/stores/rseStore.ts:209-219 | `incrementHelpGiven` adds one to the help counter only (see `RseFacts.CountersOnly`) |
| `Rse.RSEStore.EnableAdaptiveLearning` | src/stores/rseStore.ts:221-232 | `enableAdaptiveLearning` sets its flag and recomputes the global score |
| `Rse.RSEStore.SetLanguagePreference` | src/stores/rseStore.ts:234-245 | `setLanguagePreference` records the language and nothing else |
| `Rse.RSEStore.UpdatePrivacyScore` | src/stores/rseStore.ts:247-258 | `updatePrivacyScore` stores the score clamped to 0..100 and recomputes the global score (see `RseFacts.EthicalSetters`) |
| `Rse.RSEStore.UpdateDataTransparency` | src/stores/rseStore.ts:260-271 | `updateDataTransparency` stores the score clamped to 0..100 and recomputes the global score |
| `Rse.RSEStore.GiveConsent` | src/stores/rseStore.ts:273-291 | `giveConsent` sets the consent flag, wins `digital-citizen` and recomputes the global score (see `RseFacts.OnceOnly`) |
| `Rse.RSEStore.RequestDataExport` | src/stores/rseStore.ts:293-303 | `requestDataExport` adds one to the export counter only |
| `Rse.RSEStore.AcceptEthicalCharter` | src/stores/rseStore.ts:305-323 | `acceptEthicalCharter` sets the charter flag, wins `ethical-engaged` and recomputes the global score |
| `Rse.RSEStore.UnlockRSEBadge` | src/stores/rseStore.ts:326-338 | `unlockRSEBadge` adds the badge unless it is already won, without recomputing the score |
| `Rse.RSEStore.CalculateGlobalScore` | src/stores/rseStore.ts:340-348 | `calculateGlobalScore` stores `calculateScore` of the metrics and changes nothing else |
| `RseFacts.ScoreBounds` | src/stores/rseStore.ts:67-88 | with every score in 0..100, `calculateScore` lies in 0..100 |
| `RseFacts.ScoreMaximum` | src/stores/rseStore.ts:67-88 | every score at 100 and every flag set give exactly 100 |
| `RseFacts.InitialScoreStale` | src/stores/rseStore.ts:93-116 | the stored initial global score is 50, while `calculateScore` of the initial metrics is 53 |
| `RseFacts.FlagsRaiseScore` | src/stores/rseStore.ts:67-88 | giving consent, accepting the charter or enabling adaptive learning never lowers `calculateScore` |
| `RseFacts.EnvironmentalSetters` | src/stores/rseStore.ts:140-164 | the energy and optimisation setters store the clamped value, change no other field, and leave the global score equal to `calculateScore` |
| `RseFacts.SocialSetters` | src/stores/rseStore.ts:183-207 | the accessibility and inclusivity setters store the clamped value, change no other field, and leave the global score equal to `calculateScore` |
| `RseFacts.EthicalSetters` | src/stores/rseStore.ts:247-271 | the privacy and transparency setters store the clamped value, change no other field, and leave the global score equal to `calculateScore` |
| `RseFacts.CarbonCapped` | src/stores/rseStore.ts:166-181 | carbon awareness never exceeds 100, and stays non-negative when the points and the old value are |
| `RseFacts.CarbonBelowZero` | src/stores/rseStore.ts:172-175 | there is no lower bound: from the initial metrics, -5 points give carbon awareness -5 |
| `RseFacts.EcoCoder` | src/stores/rseStore.ts:119-138 | `incrementGreenCommands` adds one green command, keeps every badge won, and adds exactly `eco-coder`, at the tenth command |
| `RseFacts.OnceOnly` | src/stores/rseStore.ts:273-338 | giving consent, accepting the charter and unlocking a badge are idempotent; the first two set their flag and win their badge, and unlocking a badge already won changes nothing |
| `RseFacts.CountersOnly` | src/stores/rseStore.ts:209-219 | `incrementHelpGiven` and `requestDataExport` (lines 293-303) add one to their counter and change nothing else, not even the global score |
| `RseFacts.WithBadgeDistinct` | src/stores/rseStore.ts:326-338 | unlocking never lists a badge twice and keeps the badges already won |
| `RseFacts.KeepsRange` | src/stores/rseStore.ts:119-348 | every action keeps every score in 0..100, as long as carbon awareness is never lowered |
| `RseFacts.KeepsBadges` | src/stores/rseStore.ts:119-348 | no action lists a badge twice or loses one |
| `RseFacts.ApplyKeeps` | src/stores/rseStore.ts:119-348 | every action keeps the scores in 0..100, the badges without repeats and the global score in 0..100, and loses no badge, as long as carbon awareness is never lowered |
| `RseFacts.KeepsScore` | src/stores/rseStore.ts:67-88 | an action whose result has every score in 0..100 leaves the global score in 0..100 |
| `RseFacts.RunKeeps` | src/stores/rseStore.ts:119-348 | so does every sequence of such actions |
| `RseFacts.Reachable` | src/stores/rseStore.ts:93-348 | every metrics value reached from the initial one by such actions satisfies the invariant |
| `Green.Head` | src/utils/greenCommands.ts:141 | the first piece of `split(' ')` has no space and is a prefix of the command |
| `Green.GreenHeads` | src/utils/greenCommands.ts:144 | the green alternatives' first words, one per table entry, in table order |
| `Green.Lookup` | src/utils/greenCommands.ts:170-177 | `greenCommandSuggestions[key]` is an entry of the table with that key, and is missing exactly when no entry has it |
| `GreenFacts.HeadIsSplit` | src/utils/greenCommands.ts:141 | the first word is the first piece of `split(' ')` |
| `GreenFacts.HeadOfWord` | src/utils/greenCommands.ts:141 | a word without spaces is its own first word |
| `GreenFacts.HeadOfSpaced` | src/utils/greenCommands.ts:144 | the first word of a word and a space followed by anything is that word |
| `GreenFacts.ContainsAfter` | src/utils/greenCommands.ts:155-158 | `includes` finds a string anywhere inside another |
| `GreenFacts.NativesGreen` | src/utils/greenCommands.ts:150-152 | every native green command typed alone is green |
| `GreenFacts.NativesAreWords` | src/utils/greenCommands.ts:123-137 | each shipped native command is a single word with no surrounding white space |
| `GreenFacts.ShippedNativesGreen` | src/utils/greenCommands.ts:123-152 | so each shipped native command, typed alone, is green |
| `GreenFacts.FlagsGreen` | src/utils/greenCommands.ts:155-160 | a command containing `--compressed`, `--rebase`, `--cache-from` or `pnpm` anywhere is green, whatever its first word |
| `GreenFacts.GreensAreGreen` | src/utils/greenCommands.ts:140-147 | in a table whose alternatives have no surrounding blank, every green alternative is itself detected as green |
| `GreenFacts.ShippedGreensGreen` | src/utils/greenCommands.ts:12-147 | the shipped table is such a table, so each of its twelve alternatives is detected as green |
| `GreenFacts.HeadGreen` | src/utils/greenCommands.ts:140-147 | a word that begins some green alternative, typed alone, is green |
| `GreenFacts.ShippedTrimmed` | src/utils/greenCommands.ts:12-120 | no green alternative of the shipped table starts or ends with white space |
| `GreenFacts.BareGitGreen` | src/utils/greenCommands.ts:77-84 | `git` alone is green, because it begins the alternative `git pull --rebase` |
| `GreenFacts.BareCurlGreen` | src/utils/greenCommands.ts:59-66 | `curl` alone is green, because it begins the alternative `curl --compressed` |
| `GreenFacts.BareDockerGreen` | src/utils/greenCommands.ts:95-102 | `docker` alone is green, because it begins the alternative `docker buildx build --cache-from` |
| `GreenFacts.GitPullGreen` | src/utils/greenCommands.ts:77-84 | a plain `git pull`, which the table itself suggests replacing, is detected as green |
| `GreenFacts.TwoWordsGreen` | src/utils/greenCommands.ts:140-147 | a command whose first word begins some green alternative is green, whatever follows it |
| `GreenFacts.GitPullSuggestion` | src/utils/greenCommands.ts:166-181 | `git pull` gets the `--rebase` suggestion, found by its first two words |
| `GreenFacts.TwoWordsSuggestion` | src/utils/greenCommands.ts:174-178 | a two-word command whose first word is no key gets the entry keyed by both words |
| `GreenFacts.LookupAt` | src/utils/greenCommands.ts:170 | the lookup finds the first entry with the key |
| `GreenFacts.SplitTwoWords` | src/utils/greenCommands.ts:175 | two space-free words joined by a space split into exactly those two words and join back |
| `GreenFacts.SuggestionKey` | src/utils/greenCommands.ts:166-181 | a suggestion is always an entry keyed by the first word or by the first two words; there is none exactly when neither is a key |
| `GreenFacts.LsNoSuggestion` | src/utils/greenCommands.ts:166-181 | `ls` alone gets no suggestion |
| `GreenFacts.OneWordNoSuggestion` | src/utils/greenCommands.ts:166-181 | a one-word command that is no key gets no suggestion |
| `GreenFacts.LsLaSuggestion` | src/utils/greenCommands.ts:32-39 | `ls -la` gets the `exa -la` suggestion, found by its first two words |
| `GreenFacts.ShippedKeysDistinct` | src/utils/greenCommands.ts:12-120 | no key of the shipped table appears twice, so the lookup does not depend on the order of the entries |
| `GreenFacts.EcoBadgesOrdered` | src/utils/greenCommands.ts:192-235 | the eco badges come in strictly increasing order of requirement, the first at one command |
| `GreenFacts.DefaultSaving` | src/utils/greenCommands.ts:238-248 | with no suggestions to average, each green command counts 40 % of 0.1 Wh, rounded to hundredths |
| `GreenFacts.AverageNonNegative` | src/utils/greenCommands.ts:240 | non-negative savings average to a non-negative saving |
| `GreenFacts.SavingsMonotone` | src/utils/greenCommands.ts:238-248 | with non-negative savings, more green commands never give a lower estimate |
| `Accessibility.AccessibilityStore.constructor` | src/stores/accessibilityStore.ts:55-74 | a new store holds the default settings: medium font, keyboard navigation, focus indicators and tooltips on, every other aid off, no colour filter, French |
| `Accessibility.AccessibilityStore.SetFontSize` | src/stores/accessibilityStore.ts:77-81 | `setFontSize` changes the font size and no other setting |
| `Accessibility.AccessibilityStore.ToggleHighContrast` | src/stores/accessibilityStore.ts:83-87 | `toggleHighContrast` is the toggle of its flag (see `AccessibilityFacts.ToggleFlips`) |
| `Accessibility.AccessibilityStore.ToggleDyslexiaFont` | src/stores/accessibilityStore.ts:89-93 | `toggleDyslexiaFont` is the toggle of its flag |
| `Accessibility.AccessibilityStore.ToggleReducedMotion` | src/stores/accessibilityStore.ts:95-99 | `toggleReducedMotion` is the toggle of its flag |
| `Accessibility.AccessibilityStore.SetColorBlindMode` | src/stores/accessibilityStore.ts:101-105 | `setColorBlindMode` changes the colour-blindness mode and no other setting |
| `Accessibility.AccessibilityStore.ToggleKeyboardNavigation` | src/stores/accessibilityStore.ts:108-115 | `toggleKeyboardNavigation` is the toggle of its flag |
| `Accessibility.AccessibilityStore.ToggleScreenReaderOptimized` | src/stores/accessibilityStore.ts:117-124 | `toggleScreenReaderOptimized` is the toggle of its flag |
| `Accessibility.AccessibilityStore.ToggleFocusIndicators` | src/stores/accessibilityStore.ts:126-133 | `toggleFocusIndicators` is the toggle of its flag |
| `Accessibility.AccessibilityStore.SetLanguage` | src/stores/accessibilityStore.ts:136-143 | `setLanguage` changes the language and no other setting, and records the language code in the responsibility store |
| `Accessibility.AccessibilityStore.ToggleSimplifiedUI` | src/stores/accessibilityStore.ts:145-149 | `toggleSimplifiedUI` is the toggle of its flag |
| `Accessibility.AccessibilityStore.ToggleTooltips` | src/stores/accessibilityStore.ts:151-156 | `toggleTooltips` is the toggle of its flag |
| `Accessibility.AccessibilityStore.ToggleSoundEffects` | src/stores/accessibilityStore.ts:158-162 | `toggleSoundEffects` is the toggle of its flag |
| `Accessibility.AccessibilityStore.ToggleVoiceFeedback` | src/stores/accessibilityStore.ts:164-169 | `toggleVoiceFeedback` is the toggle of its flag |
| `Accessibility.AccessibilityStore.ResetToDefaults` | src/stores/accessibilityStore.ts:171-173 | `resetToDefaults` restores the default settings |
| `AccessibilityFacts.ToggleFlips` | src/stores/accessibilityStore.ts:83-169 | a toggle flips its own flag, keeps the font size, the colour mode and the language, and a second toggle undoes it |
| `AccessibilityFacts.ToggleKeepsOthers` | src/stores/accessibilityStore.ts:83-169 | a toggle keeps every other flag |
| `AccessibilityFacts.HelpersTotal` | src/stores/accessibilityStore.ts:182-208 | each font size has its own class, only mode `none` has no colour filter, each mode has its own filter, and the dyslexia class differs when enabled |
| `AccessibilityFacts.ScoreBounds` | src/components/AccessibilityPanel.tsx:44-56 | the panel's score lies in 50..100, so the cap at 100 never changes it |
| `AccessibilityFacts.ToggleScore` | src/components/AccessibilityPanel.tsx:44-56 | toggling a flag moves the score by exactly that flag's weight: 10 for the four major aids, 5 for focus indicators and tooltips, 0 for the others; up when turned on, down when turned off |
| `AccessibilityFacts.EnablingNeverLowers` | src/components/AccessibilityPanel.tsx:44-56 | turning a flag on never lowers the score, and turning on a flag that is not counted leaves it unchanged |
| `AccessibilityFacts.DefaultScore` | src/components/AccessibilityPanel.tsx:44-56 | the default settings score 70 |
| `AccessibilityFacts.SentScoreUnclamped` | src/components/AccessibilityPanel.tsx:55 | every score the panel sends is stored as is by `updateAccessibilityScore`, whose clamp to 0..100 never applies |
| `AccessibilityFacts.StaleScore` | src/components/AccessibilityPanel.tsx:59-62 | as written, toggling a counted flag sends a score that is not the score of the new settings; from the defaults, enabling the dyslexia font sends 70 instead of 80 |
| `AccessibilityFacts.FreshScore` | src/components/AccessibilityPanel.tsx:59-62 | as intended, the score sent is that of the new settings: the old score moved by the flag's weight, 80 in the same example |
| `Calculator.DigitStep` | src/components/apps/Calculator.tsx:16-23 | `inputDigit` always ends the display with the digit and stops waiting for an operand: a new operand or a lone `0` becomes the digit, otherwise the digit is appended; the pending operand and operator are kept |
| `Calculator.DecimalStep` | src/components/apps/Calculator.tsx:25-32 | `inputDecimal` starts a new operand as `0.`, appends a point only when the display has none, and otherwise changes nothing |
| `Calculator.ClearStep` | src/components/apps/Calculator.tsx:34-39 | `clear` shows `0` with nothing pending and no operand awaited |
| `Calculator.BackspaceStep` | src/components/apps/Calculator.tsx:41-47 | `backspace` removes exactly the last character when more than one is shown, shows `0` otherwise, and keeps everything else |
| `Calculator.SignStep` | src/components/apps/Calculator.tsx:49-52 | `toggleSign` shows the printed opposite of the parsed display and keeps everything else |
| `Calculator.PercentStep` | src/components/apps/Calculator.tsx:54-57 | `inputPercent` shows the printed hundredth of the parsed display and keeps everything else |
| `Calculator.OperationStep` | src/components/apps/Calculator.tsx:59-91 | `performOperation` makes the display's number the left operand when there is none; when an operator is pending it carries out that operation and shows and keeps the result; either way the next digit starts a new operand and the new operator is pending |
| `Calculator.CalculateStep` | src/components/apps/Calculator.tsx:93-118 | `calculate` does nothing without a pending operator and left operand; otherwise it shows the result of the pending operation with nothing pending any more |
| `Calculator.CalculatorWindow.constructor` | src/components/apps/Calculator.tsx:11-14 | a new calculator shows `0` with nothing pending |
| `Calculator.CalculatorWindow.InputDigit` | src/components/apps/Calculator.tsx:16-23 | the handler leaves the window in the state `inputDigit` describes |
| `Calculator.CalculatorWindow.InputDecimal` | src/components/apps/Calculator.tsx:25-32 | the handler leaves the window in the state `inputDecimal` describes |
| `Calculator.CalculatorWindow.Clear` | src/components/apps/Calculator.tsx:34-39 | the handler leaves the window in the state `clear` describes |
| `Calculator.CalculatorWindow.Backspace` | src/components/apps/Calculator.tsx:41-47 | the handler leaves the window in the state `backspace` describes |
| `Calculator.CalculatorWindow.ToggleSign` | src/components/apps/Calculator.tsx:49-52 | the handler leaves the window in the state `toggleSign` describes |
| `Calculator.CalculatorWindow.InputPercent` | src/components/apps/Calculator.tsx:54-57 | the handler leaves the window in the state `inputPercent` describes |
| `Calculator.CalculatorWindow.PerformOperation` | src/components/apps/Calculator.tsx:59-91 | the handler leaves the window in the state `performOperation` describes |
| `Calculator.CalculatorWindow.Calculate` | src/components/apps/Calculator.tsx:93-118 | the handler leaves the window in the state `calculate` describes |
| `CalculatorFacts.DigitTyped` | src/components/apps/Calculator.tsx:16-23 | appending a digit to a display of digits with at most one point keeps it so |
| `CalculatorFacts.PointTyped` | src/components/apps/Calculator.tsx:25-32 | appending a point to such a display that has none keeps it so |
| `CalculatorFacts.PrefixTyped` | src/components/apps/Calculator.tsx:41-47 | removing the last character of such a display keeps it so |
| `CalculatorFacts.ApplyKeeps` | src/components/apps/Calculator.tsx:16-118 | every key except sign and percent keeps the invariant: unless a new operand is awaited, the display is digits with at most one point; and a left operand is never pending without an operator |
| `CalculatorFacts.RunKeeps` | src/components/apps/Calculator.tsx:16-118 | so does every sequence of such keys, for any number type |
| `CalculatorFacts.PendingOperator` | src/components/apps/Calculator.tsx:59-118 | whatever the keys, a left operand is never pending without an operator |
| `CalculatorFacts.EditingTyped` | src/components/apps/Calculator.tsx:16-47 | from a typed display, digits, the point, backspace and clear build a display of digits with at most one point and never await an operand |
| `CalculatorFacts.InitialTyped` | src/components/apps/Calculator.tsx:11-14 | the initial display `0` is typed and satisfies the invariant |
| `CalculatorFacts.BackspaceUndoesDigit` | src/components/apps/Calculator.tsx:16-47 | backspace undoes an appended digit |
| `CalculatorFacts.BackspaceUndoesPoint` | src/components/apps/Calculator.tsx:25-47 | backspace undoes an appended point |
| `CalculatorFacts.DecimalIdempotent` | src/components/apps/Calculator.tsx:25-32 | a second point changes nothing |
| `CalculatorFacts.CalculateIdempotent` | src/components/apps/Calculator.tsx:93-118 | a second `=` changes nothing |
| `CalculatorFacts.OperatorThenEquals` | src/components/apps/Calculator.tsx:59-118 | `a`, an operator, a digit `d` and `=` show `a o d` with nothing pending and a new operand awaited |
| `CalculatorFacts.ChainedOperators` | src/components/apps/Calculator.tsx:59-91 | `a`, an operator, a digit `d` and a second operator carry out and show the first operation and keep its result as the left operand of the second |
| `Spreadsheet.CellName` | ndi-app/src/components/apps/Calc.tsx:26-27 | a cell name is its column letter followed by the row in decimal |
| `Spreadsheet.ColIndex` | ndi-app/src/components/apps/Calc.tsx:98 | `COLS.indexOf` gives the position of a column letter, and -1 exactly for a character that is not one |
| `Strings.LeadingDigits` | ndi-app/src/components/apps/Calc.tsx:85 | the longest prefix of decimal digits: a prefix, all digits, followed by a non-digit or the end |
| `Spreadsheet.ParseInt` | ndi-app/src/components/apps/Calc.tsx:85 | `parseInt` is NaN exactly when the text does not start with a digit |
| `Spreadsheet.CellValue` | ndi-app/src/components/apps/Calc.tsx:62-64 | `getCellValue` is the cell's value, and `''` for a cell never written |
| `Spreadsheet.ChangeStep` | ndi-app/src/components/apps/Calc.tsx:66-71 | `handleCellChange` stores exactly what was typed as the cell's value, with a formula exactly when it starts with `=`; every other cell, the selection and the edited cell are kept |
| `Spreadsheet.SelectStep` | ndi-app/src/components/apps/Calc.tsx:240 | a click selects the cell and changes nothing else |
| `Spreadsheet.DoubleClickStep` | ndi-app/src/components/apps/Calc.tsx:73-75 | `handleCellDoubleClick` edits the cell and changes nothing else |
| `Spreadsheet.BlurStep` | ndi-app/src/components/apps/Calc.tsx:77-79 | `handleCellBlur` ends the editing and changes nothing else |
| `Spreadsheet.KeyStep` | ndi-app/src/components/apps/Calc.tsx:81-103 | `handleKeyDown` never changes a cell; Enter, Escape and Tab end the editing, Escape keeps the selection, and any other key changes nothing (where Enter and Tab move: `SpreadsheetFacts.EnterMoves`, `TabMoves`) |
| `Spreadsheet.CalcWindow.constructor` | ndi-app/src/components/apps/Calc.tsx:35-59 | the window opens on the example cells, with `A1` selected and nothing edited |
| `Spreadsheet.CalcWindow.HandleCellChange` | ndi-app/src/components/apps/Calc.tsx:66-71 | the handler leaves the window in the state `handleCellChange` describes |
| `Spreadsheet.CalcWindow.Select` | ndi-app/src/components/apps/Calc.tsx:240 | the click handler leaves the window in the state a selection describes |
| `Spreadsheet.CalcWindow.HandleCellDoubleClick` | ndi-app/src/components/apps/Calc.tsx:73-75 | the handler leaves the window in the state `handleCellDoubleClick` describes |
| `Spreadsheet.CalcWindow.HandleCellBlur` | ndi-app/src/components/apps/Calc.tsx:77-79 | the handler leaves the window in the state `handleCellBlur` describes |
| `Spreadsheet.CalcWindow.HandleKeyDown` | ndi-app/src/components/apps/Calc.tsx:81-103 | the handler leaves the window in the state `handleKeyDown` describes |
| `Strings.LeadingAllDigits` | ndi-app/src/components/apps/Calc.tsx:85 | a string of digits is its own leading digits |
| `Strings.LeadingDigitsStop` | ndi-app/src/components/apps/Calc.tsx:85 | the leading digits of digits followed by a non-digit are those digits |
| `SpreadsheetFacts.NameParses` | ndi-app/src/components/apps/Calc.tsx:84-85 | a cell name parses back: its first character gives the column and `parseInt` of the rest the row |
| `SpreadsheetFacts.NamesDistinct` | ndi-app/src/components/apps/Calc.tsx:26-27 | different cells have different names |
| `SpreadsheetFacts.EnterMoves` | ndi-app/src/components/apps/Calc.tsx:82-89 | Enter moves one row down in the same column, except on row 20 where the selection stays |
| `SpreadsheetFacts.TabMoves` | ndi-app/src/components/apps/Calc.tsx:92-101 | Tab moves one column right in the same row, except in column `J` where the selection stays |
| `SpreadsheetFacts.KeyInGrid` | ndi-app/src/components/apps/Calc.tsx:81-103 | a key pressed in a grid cell keeps the selection on the grid |
| `SpreadsheetFacts.ChangeShows` | ndi-app/src/components/apps/Calc.tsx:66-71 | after typing, the cell's edit box (line 246) and its value show what was typed, and every other cell shows what it showed |
| `SpreadsheetFacts.ApplyKeeps` | ndi-app/src/components/apps/Calc.tsx:66-103 | every user action on grid cells keeps the selected and edited cells on the grid |
| `SpreadsheetFacts.RunKeeps` | ndi-app/src/components/apps/Calc.tsx:66-103 | so does every sequence of such actions |
| `SpreadsheetFacts.InitialInv` | ndi-app/src/components/apps/Calc.tsx:58-59 | the window opens on `A1`, a cell of the grid, with nothing edited |
| `SpreadsheetFacts.Reachable` | ndi-app/src/components/apps/Calc.tsx:58-103 | however the user clicks and types on the grid, the selection stays inside `A`..`J` by `1`..`20` |
| `Slides.GoToStep` | ndi-app/src/components/apps/Impress.tsx:56-60 | `goToSlide` shows the slide asked for when it exists, and otherwise changes nothing; it never starts or ends a presentation |
| `Slides.StartStep` | ndi-app/src/components/apps/Impress.tsx:62-64 | `startPresentation` presents the slide shown |
| `Slides.ExitStep` | ndi-app/src/components/apps/Impress.tsx:66-68 | `exitPresentation` stops presenting and keeps the slide shown |
| `Slides.ClickStep` | ndi-app/src/components/apps/Impress.tsx:75-87 | a click on the right half shows the next slide, or ends the presentation on the last one; a click on the left half shows the previous slide, and on the first one changes nothing |
| `Slides.KeyStep` | ndi-app/src/components/apps/Impress.tsx:88-96 | Escape ends the presentation; the right arrow and space show the next slide but never pass the last one nor end the presentation; the left arrow shows the previous slide, if any; any other key changes nothing |
| `Slides.ImpressWindow.constructor` | ndi-app/src/components/apps/Impress.tsx:30-54 | the window has the four shipped slides and opens on the first, not presenting |
| `Slides.ImpressWindow.GoToSlide` | ndi-app/src/components/apps/Impress.tsx:56-60 | the handler leaves the window in the state `goToSlide` describes |
| `Slides.ImpressWindow.StartPresentation` | ndi-app/src/components/apps/Impress.tsx:62-64 | the handler leaves the window in the state `startPresentation` describes |
| `Slides.ImpressWindow.ExitPresentation` | ndi-app/src/components/apps/Impress.tsx:66-68 | the handler leaves the window in the state `exitPresentation` describes |
| `Slides.ImpressWindow.PresentationClick` | ndi-app/src/components/apps/Impress.tsx:75-87 | the click handler leaves the window in the state a click on the half holding `clientX` describes |
| `Slides.ImpressWindow.PresentationKeyDown` | ndi-app/src/components/apps/Impress.tsx:88-96 | the key handler leaves the window in the state the key describes |
| `SlidesFacts.ApplyKeeps` | ndi-app/src/components/apps/Impress.tsx:56-96 | every action keeps the slide shown inside the deck, whatever index it is given |
| `SlidesFacts.RunKeeps` | ndi-app/src/components/apps/Impress.tsx:56-96 | so does every sequence of actions |
| `SlidesFacts.Reachable` | ndi-app/src/components/apps/Impress.tsx:53-96 | from the first slide of the shipped deck, no sequence of actions shows a slide that does not exist |
| `SlidesFacts.StartExit` | ndi-app/src/components/apps/Impress.tsx:62-68 | starting and then ending a presentation comes back to the same state |
| `SlidesFacts.RightThenLeft` | ndi-app/src/components/apps/Impress.tsx:88-96 | the right arrow then the left arrow come back to the same slide, except on the last one |
| `SlidesFacts.LastSlide` | ndi-app/src/components/apps/Impress.tsx:75-96 | on the last slide a right-half click ends the presentation where the right arrow and space do nothing |
| `SlidesFacts.RightClicks` | ndi-app/src/components/apps/Impress.tsx:75-82 | `k` right-half clicks from slide `c` show slide `c + k`, while that slide exists |
| `SlidesFacts.ClickThrough` | ndi-app/src/components/apps/Impress.tsx:75-82 | presenting the shipped deck and clicking on the right three times shows the last slide, and a fourth click ends the presentation |
| `Dashboard.JsRem` | src/components/apps/Dashboard.tsx:38 | JavaScript's truncated `%` by a positive divisor: it differs from the dividend by a multiple of the divisor, lies in `[0, b)` for a non-negative dividend and in `(-b, 0]` for a negative one |
| `Dashboard.MultipleMod` | src/components/apps/Dashboard.tsx:38 | a multiple of the divisor leaves no remainder |
| `Dashboard.JsRemNonNegative` | src/components/apps/Dashboard.tsx:38 | on a non-negative dividend JavaScript's remainder is the Euclidean one |
| `Dashboard.IntToString` | src/components/apps/Dashboard.tsx:39-40 | an integer in a template literal is its decimal digits, after a `-` when it is negative |
| `Dashboard.ShownBadges` | src/components/apps/Dashboard.tsx:43-50 | the six badges in display order, each unlocked exactly when earned, except `eco-warrior`, unlocked exactly when more than 50 Wh were saved |
| `DashboardFacts.TimeParts` | src/components/apps/Dashboard.tsx:36-41 | for a time spent, the minutes shown are under 60 and the hours and minutes shown account for the time to within a minute |
| `DashboardFacts.HoursShown` | src/components/apps/Dashboard.tsx:39 | the hours appear exactly from one hour on, for any integer |
| `DashboardFacts.MinutesOf` | src/components/apps/Dashboard.tsx:38 | for a time spent, the minutes are those of the Euclidean remainder by an hour |
| `DashboardFacts.FormatShape` | src/components/apps/Dashboard.tsx:36-41 | from one hour on the time is shown as `<h>h <m>min`, below it as `<m>min` |
| `DashboardFacts.NegativeTime` | src/components/apps/Dashboard.tsx:36-41 | a negative time never shows hours, its minutes lie between -60 and 0, and one second short of zero shows `-1min` |
| `DashboardFacts.SecondsDropped` | src/components/apps/Dashboard.tsx:36-41 | the seconds left over from the last minute do not change what is shown |
| `DashboardFacts.FormatExamples` | src/components/apps/Dashboard.tsx:36-41 | 5400 seconds are shown as `1h 30min`, 59 seconds as `0min` |
| `DashboardFacts.BadgeShown` | src/components/apps/Dashboard.tsx:43-49 | a badge other than `eco-warrior` is shown unlocked exactly once earned, and stays so when badges are added |
| `DashboardFacts.FirstCommandShown` | src/components/apps/Dashboard.tsx:44 | the first command unlocks the first badge of the dashboard |
| `DashboardFacts.EcoWarriorByEnergy` | src/components/apps/Dashboard.tsx:49 | `eco-warrior` in the list of badges earned is not enough: with at most 50 Wh saved it is shown locked |
| `SystemMonitor.Filled` | src/components/apps/SystemMonitor.tsx:144-145 | `Array(30).fill(v)` holds thirty copies of `v` |
| `SystemMonitor.Shifted` | src/components/apps/SystemMonitor.tsx:155 | `[...h.slice(1), v]` drops the oldest reading, keeps the others in order and ends with the new one, so a non-empty history keeps its length |
| `SystemMonitor.Drift` | src/components/apps/SystemMonitor.tsx:154 | a drifted reading always lies within its bounds |
| `SystemMonitor.TickStep` | src/components/apps/SystemMonitor.tsx:151-178 | one second of the interval keeps CPU in 10..95, memory in 30..85 and temperature in 45..75, appends the new CPU and memory readings to their histories, sets the network rates to the draws scaled by 5000 and 2000, and adds one second of uptime |
| `SystemMonitor.UptimeParts` | src/components/apps/SystemMonitor.tsx:184-189 | the hours, minutes and seconds of `formatUptime` add up to the uptime, with minutes and seconds under 60 |
| `SystemMonitor.SystemMonitorWindow.constructor` | src/components/apps/SystemMonitor.tsx:138-148 | the monitor opens at 35 % CPU, 42 % memory, 52 degrees, 67 % disk, histories of thirty copies of the first readings, no traffic and no uptime |
| `SystemMonitor.SystemMonitorWindow.Tick` | src/components/apps/SystemMonitor.tsx:151-178 | the interval's callback leaves the monitor in the state one tick describes, for the given random draws |
| `SystemMonitorFacts.InitialInv` | src/components/apps/SystemMonitor.tsx:138-148 | the initial readings and histories lie within their bounds, with thirty readings per history |
| `SystemMonitorFacts.ShiftedWithin` | src/components/apps/SystemMonitor.tsx:155 | appending a reading within the bounds to a history within them keeps it within them |
| `SystemMonitorFacts.TickKeeps` | src/components/apps/SystemMonitor.tsx:151-178 | a tick keeps every reading and history reading within its bounds and the histories at thirty readings, whatever the random draws |
| `SystemMonitorFacts.StepBound` | src/components/apps/SystemMonitor.tsx:154 | `(Math.random() - 0.5) * amplitude` lies within half the amplitude either way |
| `SystemMonitorFacts.ClampNear` | src/components/apps/SystemMonitor.tsx:154 | clamping to bounds that hold the previous reading never moves a value further from it |
| `SystemMonitorFacts.DriftStep` | src/components/apps/SystemMonitor.tsx:153-168 | a random draw moves a reading by at most half its amplitude: 7.5 for CPU, 2.5 for memory, 1.5 for temperature |
| `SystemMonitorFacts.RunKeeps` | src/components/apps/SystemMonitor.tsx:150-181 | after `n` ticks the bounds still hold and the uptime has grown by `n` |
| `SystemMonitorFacts.Uptime` | src/components/apps/SystemMonitor.tsx:138-181 | after `n` ticks from the start the uptime is `n` seconds |
| `SystemMonitorFacts.UptimeExample` | src/components/apps/SystemMonitor.tsx:184-189 | 3661 seconds of uptime are shown as `1h 1m 1s` |

## Left out

- Floating point: the stores' energy and score arithmetic is done in exact reals, and rounding is modelled by `Numbers.Round`. The calculator's numbers are abstract (`Calculator.Arithmetic`), so `parseFloat`, `String`, the operators, `toggleSign` and `inputPercent` are parameters.
- The calculator's `switch` defaults: operators are a datatype, so those defaults cannot be reached.
- The environment becomes parameters: `Math.random`, generated window ids, terminal line ids, `new Date()` and "today" in `updateDailyActivity`. The tutorial's `startedAt` and `completedAt` dates are not modelled.
- zustand `persist` and localStorage are left out: the model has no I/O.
- `setTimeout` and `setInterval` are left out. validateAction's delayed `nextStep` is modelled as an immediate call. The system monitor's interval is modelled as one tick per call.
- Display-only texts are left out, because they carry no state: reason strings, slide contents, badge names and icons, `getRandomMotivation` and the green motivation texts.
- The neofetch art and the help texts are opaque constants, copied but not reasoned about.
- Cross-store calls: only `setLanguage` into the responsibility store is modelled.
  - The metrics and green-command tracking of src/components/apps/Terminal.tsx is not modelled.
  - The desktop's call to `incrementApps` is not modelled.
- The `openApp` launch signal that src/components/apps/Terminal.tsx reads is left out: the interpreter's result has no such field.
- SystemMonitor's process list (`generateProcesses`), `formatBytes` and the active tab are left out: they are random or display-only.
- `parseInt` is modelled for inputs without leading white space or a sign. Cell names never have either.
- JavaScript's `sort()` and `localeCompare` are modelled as code-point lexicographic order. `localeCompare`'s locale rules are not modelled.
- `toLowerCase` and `toUpperCase` are modelled on ASCII letters only.
- The cowsay bubble widths count characters. JavaScript counts UTF-16 code units, and the two agree on the texts used.
- Object key order is modelled as insertion order. Integer-like keys, which JavaScript lists first, are not modelled.
- Keys inherited from `Object.prototype` (such as `constructor`), used as command or file names, are not modelled.
- TerminalApp.FsRegistry: the registry holds one file system per window but does not carry each instance's `Valid()` invariant. That reasoning is done per instance.
- The file manager's second per-window registry (src/components/apps/FileManager.tsx:26-33) has the same shape as the terminal's, and is modelled once by `TerminalApp.FsRegistry`.
- FileSystem.VirtualFileSystem.Ls, Cat, GetFileContent and ListDirectory are functions of the state `St()`, not methods, because they change nothing.
- The `RegExp` branch of the tutorial's `validateCommand` is left out: every shipped step expects a string.
- The tutorial quiz facts are proved one quiz step at a time, not as a single statement over the whole table.
- JsNumbers.StringToNumber: values are exact reals; rounding to the nearest double is not modelled, so a literal such as `1e-400` or `1.0000000000000001`, which a double rounds to a code, is read as no code here, and a literal beyond the double range is a large finite value rather than an infinity (neither is one of the codes 0, 1 or 30–37, so neither has an effect).

## Findings

| source | as written | input that shows it | evidently intended | confidence | as-written member | corrected member |
|---|---|---|---|---|---|---|
| src/components/AccessibilityPanel.tsx:44-62 | `handleToggle` schedules the `calculateScore` of the render the click came from, so the score it sends is computed from the settings before the toggle | default settings, toggle the dyslexia font: 70 is sent, while the new settings score 80 | the score of the settings after the toggle is sent | not executed | `Accessibility.HandleToggleAsWritten` / `AccessibilityFacts.StaleScore` | `Accessibility.HandleToggle` / `AccessibilityFacts.FreshScore` |
