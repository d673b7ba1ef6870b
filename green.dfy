/**
 * The eco-friendly command helpers of src/utils/greenCommands.ts: a table of
 * greener alternatives keyed by command, the commands that count as green
 * already, the detector `isGreenCommand`, the lookup `getGreenSuggestion`,
 * the eco badges and the estimated energy saving. The detector and the
 * lookup take the tables as parameters; the shipped tables are constants.
 */
module Green {
  import opened Wrappers
  import opened Numbers
  import opened Strings

  datatype Category = Performance | Efficiency | Optimization

  /** `GreenCommandSuggestion`, without its explanatory text. */
  datatype Suggestion = Suggestion(original: string, green: string, energySaved: int, category: Category)

  /** One key of `greenCommandSuggestions` and its value. */
  datatype Entry = Entry(key: string, suggestion: Suggestion)

  const Find := Entry("find", Suggestion("find", "fd", 60, Performance))
  const Grep := Entry("grep", Suggestion("grep", "rg", 50, Performance))
  const LsLa := Entry("ls -la", Suggestion("ls -la", "exa -la", 20, Efficiency))
  const Cat := Entry("cat", Suggestion("cat", "bat", 30, Efficiency))
  const TailF := Entry("tail -f", Suggestion("tail -f", "lnav", 40, Optimization))
  const Curl := Entry("curl", Suggestion("curl", "curl --compressed", 35, Efficiency))
  const Cd := Entry("cd", Suggestion("cd ../../..", "z <dir>", 25, Efficiency))
  const GitPull := Entry("git pull", Suggestion("git pull", "git pull --rebase", 15, Optimization))
  const NpmInstall := Entry("npm install", Suggestion("npm install", "pnpm install", 70, Optimization))
  const DockerBuild := Entry("docker build",
                             Suggestion("docker build", "docker buildx build --cache-from", 65, Optimization))
  const Vim := Entry("vim", Suggestion("vim", "nvim", 30, Performance))
  const Gzip := Entry("gzip", Suggestion("gzip", "zstd", 55, Performance))

  /** `greenCommandSuggestions`, in its key order. */
  const Suggestions: seq<Entry> := [Find, Grep, LsLa, Cat, TailF, Curl, Cd, GitPull, NpmInstall, DockerBuild, Vim, Gzip]

  /** `nativeGreenCommands`. */
  const NativeGreenCommands: seq<string> :=
    ["touch", "mkdir", "rm", "mv", "cp", "echo", "pwd", "whoami", "date", "clear", "exit", "help", "man"]

  /** The flags whose mere presence makes a command green. */
  const GreenFlags: seq<string> := ["--compressed", "--rebase", "--cache-from", "pnpm"]

  /** `s.split(' ')[0]`. */
  function Head(s: string): (r: string)
    ensures ' ' !in r && StartsWith(s, r)
  {
    if |s| == 0 || s[0] == ' ' then "" else [s[0]] + Head(s[1..])
  }

  /** `command.trim().split(' ')[0]`. */
  function FirstToken(command: string): string {
    Head(Trim(command))
  }

  /** `Object.values(greenCommandSuggestions).map(s => s.green.split(' ')[0])`. */
  function GreenHeads(table: seq<Entry>): (r: seq<string>)
    ensures |r| == |table| && forall i :: 0 <= i < |table| ==> r[i] == Head(table[i].suggestion.green)
  {
    seq(|table|, i requires 0 <= i < |table| => Head(table[i].suggestion.green))
  }

  /** `command.includes(f)` for one of `flags`. */
  predicate HasFlag(command: string, flags: seq<string>) {
    exists i :: 0 <= i < |flags| && Contains(command, flags[i])
  }

  /** `isGreenCommand`. */
  predicate IsGreenCommand(table: seq<Entry>, natives: seq<string>, command: string) {
    var cmd := FirstToken(command);
    cmd in GreenHeads(table) || cmd in natives || HasFlag(command, GreenFlags)
  }

  /** `greenCommandSuggestions[key]`: the first entry with that key. */
  function Lookup(table: seq<Entry>, key: string): (r: Option<Suggestion>)
    ensures r.Some? ==> exists i :: 0 <= i < |table| && table[i] == Entry(key, r.value)
    ensures r.None? ==> forall i :: 0 <= i < |table| ==> table[i].key != key
  {
    if |table| == 0 then None
    else if table[0].key == key then Some(table[0].suggestion)
    else Lookup(table[1..], key)
  }

  /** `command.trim().split(' ').slice(0, 2).join(' ')`. */
  function FirstTwo(command: string): string {
    var parts := Split(Trim(command), ' ');
    Join(if |parts| <= 2 then parts else parts[..2], " ")
  }

  /** `getGreenSuggestion`: the entry keyed by the first word, else by the first two words, else none. */
  function GreenSuggestion(table: seq<Entry>, command: string): Option<Suggestion> {
    var exact := Lookup(table, FirstToken(command));
    if exact.Some? then exact else Lookup(table, FirstTwo(command))
  }

  /** `EcoBadge`, without its display texts. */
  datatype EcoBadge = EcoBadge(id: string, requirement: int)

  /** `ecoBadges`. */
  const EcoBadges: seq<EcoBadge> := [
    EcoBadge("eco-newbie", 1), EcoBadge("eco-aware", 5), EcoBadge("eco-coder", 10),
    EcoBadge("eco-expert", 25), EcoBadge("eco-master", 50), EcoBadge("eco-legend", 100)]

  function Sum(xs: seq<int>): int {
    if |xs| == 0 then 0 else xs[0] + Sum(xs[1..])
  }

  /**
   * The average saving in percent: `sum / length || 40`, so an empty list (a
   * NaN) and an average of exactly 0 both fall back to 40.
   */
  function AverageSaving(savings: seq<int>): real {
    if |savings| == 0 then 40.0
    else var avg := Sum(savings) as real / |savings| as real; if avg == 0.0 then 40.0 else avg
  }

  /** `calculateEnergySavings`: 0.1 Wh per command times the average saving, rounded to hundredths. */
  function EnergySavings(greenCommandsUsed: int, savings: seq<int>): real {
    Saved(greenCommandsUsed, AverageSaving(savings))
  }

  function Saved(greenCommandsUsed: int, avgSaving: real): real {
    var total := greenCommandsUsed as real * 0.1 * (avgSaving / 100.0);
    Round(total * 100.0) as real / 100.0
  }
}
