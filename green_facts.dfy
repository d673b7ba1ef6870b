/** What the green-command helpers guarantee, on any table and on the shipped one. */
module GreenFacts {
  import opened Wrappers
  import opened Numbers
  import opened Strings
  import opened Green

  /** `Head` is the first piece of `split(' ')`. */
  lemma {:induction false} HeadIsSplit(s: string)
    ensures Head(s) == Split(s, ' ')[0]
  {
    if |s| > 0 && s[0] != ' ' {
      HeadIsSplit(s[1..]);
    }
  }

  /** A word without spaces is its own head. */
  lemma {:induction false} HeadOfWord(s: string)
    requires ' ' !in s
    ensures Head(s) == s
  {
    if |s| > 0 {
      HeadOfWord(s[1..]);
    }
  }

  /** The head of a word followed by a space and anything. */
  lemma {:induction false} HeadOfSpaced(a: string, b: string)
    requires ' ' !in a
    ensures Head(a + " " + b) == a
  {
    if |a| == 0 {
    } else {
      assert (a + " " + b)[1..] == a[1..] + " " + b;
      HeadOfSpaced(a[1..], b);
    }
  }

  /** A string starting with `sub` contains it, and so does anything ending with it. */
  lemma {:induction false} ContainsAfter(x: string, sub: string, y: string)
    ensures Contains(x + sub + y, sub)
  {
    if |x| == 0 {
      assert (x + sub + y)[..|sub|] == sub;
    } else {
      assert (x + sub + y)[1..] == x[1..] + sub + y;
      ContainsAfter(x[1..], sub, y);
    }
  }

  /** With a trimmed word command, the first token is the word. */
  lemma FirstTokenOfWord(w: string)
    requires |w| > 0 && !IsWhitespace(w[0]) && !IsWhitespace(w[|w| - 1]) && ' ' !in w
    ensures FirstToken(w) == w
  {
    TrimPlain(w);
    HeadOfWord(w);
  }

  /** Every native command, typed alone, is green. */
  lemma NativesGreen(table: seq<Entry>, natives: seq<string>, w: string)
    requires w in natives && |w| > 0 && !IsWhitespace(w[0]) && !IsWhitespace(w[|w| - 1]) && ' ' !in w
    ensures IsGreenCommand(table, natives, w)
  {
    FirstTokenOfWord(w);
  }

  /** Each shipped native command is one word without surrounding white space. */
  lemma NativesAreWords()
    ensures forall i :: 0 <= i < |NativeGreenCommands| ==>
      Trimmed(NativeGreenCommands[i]) && ' ' !in NativeGreenCommands[i]
  {
  }

  /** So each of them, typed alone, counts as green. */
  lemma ShippedNativesGreen(i: int)
    requires 0 <= i < |NativeGreenCommands|
    ensures IsGreenCommand(Suggestions, NativeGreenCommands, NativeGreenCommands[i])
  {
    NativesAreWords();
    NativesGreen(Suggestions, NativeGreenCommands, NativeGreenCommands[i]);
  }

  /** A command mentioning one of the green flags anywhere is green, whatever its first word. */
  lemma FlagsGreen(table: seq<Entry>, natives: seq<string>, x: string, i: int, y: string)
    requires 0 <= i < |GreenFlags|
    ensures IsGreenCommand(table, natives, x + GreenFlags[i] + y)
  {
    ContainsAfter(x, GreenFlags[i], y);
  }

  /** No white space at either end. */
  predicate Trimmed(g: string) {
    |g| > 0 && !IsWhitespace(g[0]) && !IsWhitespace(g[|g| - 1])
  }

  /** No green alternative of a table has white space at either end. */
  predicate GreensTrimmed(table: seq<Entry>) {
    forall i :: 0 <= i < |table| ==> Trimmed(table[i].suggestion.green)
  }

  /** In such a table, every green alternative is itself detected as green. */
  lemma GreensAreGreen(table: seq<Entry>, natives: seq<string>, i: int)
    requires GreensTrimmed(table) && 0 <= i < |table|
    ensures IsGreenCommand(table, natives, table[i].suggestion.green)
  {
    TrimPlain(table[i].suggestion.green);
    assert GreenHeads(table)[i] == FirstToken(table[i].suggestion.green);
  }

  /** The shipped table is such a table, so each of its alternatives counts as green. */
  lemma ShippedGreensGreen(i: int)
    requires 0 <= i < |Suggestions|
    ensures IsGreenCommand(Suggestions, NativeGreenCommands, Suggestions[i].suggestion.green)
  {
    ShippedTrimmed();
    GreensAreGreen(Suggestions, NativeGreenCommands, i);
  }

  /** A word that begins some green alternative, typed alone, is green. */
  lemma HeadGreen(table: seq<Entry>, natives: seq<string>, w: string, i: int)
    requires |w| > 0 && !IsWhitespace(w[0]) && !IsWhitespace(w[|w| - 1]) && ' ' !in w
    requires 0 <= i < |table| && Spaced(table[i].suggestion.green, w)
    ensures IsGreenCommand(table, natives, w)
  {
    FirstTokenOfWord(w);
    SpacedHead(table[i].suggestion.green, w);
    assert GreenHeads(table)[i] == w;
  }

  /** `s` is the word `w`, a space and more. */
  predicate Spaced(s: string, w: string) {
    |w| < |s| && s[..|w|] == w && s[|w|] == ' '
  }

  lemma GitPullSpaced()
    ensures Suggestions[7].suggestion.green == GitPull.suggestion.green && Spaced(GitPull.suggestion.green, "git")
  {
  }

  lemma CurlSpaced()
    ensures Suggestions[5].suggestion.green == Curl.suggestion.green && Spaced(Curl.suggestion.green, "curl")
  {
  }

  lemma DockerBuildSpaced()
    ensures Suggestions[9].suggestion.green == DockerBuild.suggestion.green && Spaced(DockerBuild.suggestion.green, "docker")
  {
    var s := DockerBuild.suggestion.green;
    assert s[0] == 'd' && s[1] == 'o' && s[2] == 'c' && s[3] == 'k' && s[4] == 'e' && s[5] == 'r' && s[6] == ' ';
    SpacedByChars(s, "docker");
  }

  lemma SpacedByChars(s: string, w: string)
    requires |w| < |s| && s[|w|] == ' ' && forall k :: 0 <= k < |w| ==> s[k] == w[k]
    ensures Spaced(s, w)
  {
  }

  lemma SpacedHead(s: string, w: string)
    requires Spaced(s, w) && ' ' !in w
    ensures Head(s) == w
  {
    assert s == w + " " + s[|w| + 1..];
    HeadOfSpaced(w, s[|w| + 1..]);
  }

  lemma ShippedTrimmed()
    ensures GreensTrimmed(Suggestions)
  {
    assert Trimmed(Find.suggestion.green) && Trimmed(Grep.suggestion.green) && Trimmed(LsLa.suggestion.green);
    assert Trimmed(Cat.suggestion.green) && Trimmed(TailF.suggestion.green) && Trimmed(Curl.suggestion.green);
    assert Trimmed(Cd.suggestion.green) && Trimmed(GitPull.suggestion.green) && Trimmed(NpmInstall.suggestion.green);
    assert Trimmed(DockerBuild.suggestion.green) && Trimmed(Vim.suggestion.green) && Trimmed(Gzip.suggestion.green);
  }

  /** `git` typed alone counts as green: it begins a green alternative. */
  lemma BareGitGreen()
    ensures IsGreenCommand(Suggestions, NativeGreenCommands, "git")
  {
    GitPullSpaced();
    HeadGreen(Suggestions, NativeGreenCommands, "git", 7);
  }

  /** So does `curl`. */
  lemma BareCurlGreen()
    ensures IsGreenCommand(Suggestions, NativeGreenCommands, "curl")
  {
    CurlSpaced();
    HeadGreen(Suggestions, NativeGreenCommands, "curl", 5);
  }

  /** So does `docker`. */
  lemma BareDockerGreen()
    ensures IsGreenCommand(Suggestions, NativeGreenCommands, "docker")
  {
    DockerBuildSpaced();
    HeadGreen(Suggestions, NativeGreenCommands, "docker", 9);
  }

  /** Hence so does a plain `git pull`, which the table itself suggests replacing. */
  lemma GitPullGreen()
    ensures IsGreenCommand(Suggestions, NativeGreenCommands, "git pull")
  {
    TwoWordsGreen(Suggestions, NativeGreenCommands, "git pull", "git", "pull", 7);
  }

  /** A word that begins some green alternative is green whatever follows it. */
  lemma TwoWordsGreen(table: seq<Entry>, natives: seq<string>, c: string, w: string, v: string, i: int)
    requires c == w + " " + v
    requires |w| > 0 && !IsWhitespace(w[0]) && ' ' !in w
    requires |v| > 0 && !IsWhitespace(v[|v| - 1])
    requires 0 <= i < |table| && Spaced(table[i].suggestion.green, w)
    ensures IsGreenCommand(table, natives, c)
  {
    assert c[0] == w[0] && c[|c| - 1] == v[|v| - 1];
    TrimPlain(c);
    HeadOfSpaced(w, v);
    SpacedHead(table[i].suggestion.green, w);
    assert GreenHeads(table)[i] == w;
  }

  /** `git pull` gets the `--rebase` suggestion, keyed by its first two words. */
  lemma GitPullSuggestion()
    ensures GreenSuggestion(Suggestions, "git pull") == Some(GitPull.suggestion)
  {
    TwoWordsSuggestion(Suggestions, "git", "pull", 7);
  }

  /** A two-word command whose first word is no key gets the entry keyed by both words. */
  lemma TwoWordsSuggestion(table: seq<Entry>, w: string, v: string, i: int)
    requires |w| > 0 && !IsWhitespace(w[0]) && ' ' !in w
    requires |v| > 0 && !IsWhitespace(v[|v| - 1]) && ' ' !in v
    requires forall j :: 0 <= j < |table| ==> table[j].key != w
    requires 0 <= i < |table| && table[i].key == w + " " + v && forall j :: 0 <= j < i ==> table[j].key != w + " " + v
    ensures GreenSuggestion(table, w + " " + v) == Some(table[i].suggestion)
  {
    var c := w + " " + v;
    assert c[0] == w[0] && c[|c| - 1] == v[|v| - 1];
    TrimPlain(c);
    HeadOfSpaced(w, v);
    SplitTwoWords(w, v);
    LookupAt(table, c, i);
  }

  /** The lookup finds the first entry with the key. */
  lemma {:induction false} LookupAt(table: seq<Entry>, key: string, i: int)
    requires 0 <= i < |table| && table[i].key == key && forall j :: 0 <= j < i ==> table[j].key != key
    ensures Lookup(table, key) == Some(table[i].suggestion)
  {
    if i > 0 {
      LookupAt(table[1..], key, i - 1);
    }
  }

  /** Two words, split and joined again. */
  lemma SplitTwoWords(a: string, b: string)
    requires ' ' !in a && ' ' !in b
    ensures Split(a + " " + b, ' ') == [a, b]
    ensures Join(Split(a + " " + b, ' '), " ") == a + " " + b
  {
    SplitJoin([a, b], ' ');
    assert Join([a, b], [' ']) == a + " " + b;
  }

  /** A suggestion is always a table entry keyed by the first word or by the first two words. */
  lemma SuggestionKey(table: seq<Entry>, command: string)
    ensures var r := GreenSuggestion(table, command);
      r.Some? ==>
        exists i :: 0 <= i < |table| && table[i].suggestion == r.value &&
                    (table[i].key == FirstToken(command) || table[i].key == FirstTwo(command))
    ensures GreenSuggestion(table, command).None? ==>
      forall i :: 0 <= i < |table| ==> table[i].key != FirstToken(command) && table[i].key != FirstTwo(command)
  {
  }

  /** `ls` alone gets no suggestion. */
  lemma LsNoSuggestion()
    ensures GreenSuggestion(Suggestions, "ls").None?
  {
    OneWordNoSuggestion(Suggestions, "ls");
  }

  /** A one-word command that is no key gets no suggestion. */
  lemma OneWordNoSuggestion(table: seq<Entry>, w: string)
    requires |w| > 0 && !IsWhitespace(w[0]) && !IsWhitespace(w[|w| - 1]) && ' ' !in w
    requires forall j :: 0 <= j < |table| ==> table[j].key != w
    ensures GreenSuggestion(table, w).None?
  {
    FirstTokenOfWord(w);
    TrimPlain(w);
    SplitNoSep(w, ' ');
    assert FirstTwo(w) == Join([w], " ") == w;
  }

  /** `ls -la` gets the `exa` suggestion, keyed by its first two words. */
  lemma LsLaSuggestion()
    ensures GreenSuggestion(Suggestions, "ls -la") == Some(LsLa.suggestion)
  {
    TwoWordsSuggestion(Suggestions, "ls", "-la", 2);
  }

  /** No key of the shipped table appears twice, so a lookup cannot depend on the order of the entries. */
  lemma ShippedKeysDistinct()
    ensures forall i, j :: 0 <= i < j < |Suggestions| ==> Suggestions[i].key != Suggestions[j].key
  {
  }

  /** The eco badges come in strictly increasing order of requirement, starting at one command. */
  lemma EcoBadgesOrdered()
    ensures EcoBadges[0].requirement == 1
    ensures forall i, j :: 0 <= i < j < |EcoBadges| ==> EcoBadges[i].requirement < EcoBadges[j].requirement
  {
  }

  /** Without savings to average, each green command counts 40 % of 0.1 Wh. */
  lemma DefaultSaving(n: int)
    ensures EnergySavings(n, []) == Round(n as real * 4.0) as real / 100.0
  {
    assert n as real * 0.1 * (40.0 / 100.0) * 100.0 == n as real * 4.0;
  }

  lemma SumNonNegative(xs: seq<int>)
    requires forall i :: 0 <= i < |xs| ==> 0 <= xs[i]
    ensures 0 <= Sum(xs)
  {
  }

  /** Non-negative savings average to a non-negative saving. */
  lemma AverageNonNegative(savings: seq<int>)
    requires forall i :: 0 <= i < |savings| ==> 0 <= savings[i]
    ensures 0.0 <= AverageSaving(savings)
  {
    SumNonNegative(savings);
  }

  /** With non-negative savings, more green commands never save less energy. */
  lemma SavingsMonotone(n1: int, n2: int, savings: seq<int>)
    requires n1 <= n2 && forall i :: 0 <= i < |savings| ==> 0 <= savings[i]
    ensures EnergySavings(n1, savings) <= EnergySavings(n2, savings)
  {
    AverageNonNegative(savings);
    SavedMonotone(n1, n2, AverageSaving(savings));
  }

  lemma SavedMonotone(n1: int, n2: int, a: real)
    requires n1 <= n2 && 0.0 <= a
    ensures Saved(n1, a) <= Saved(n2, a)
  {
    var t1 := n1 as real * 0.1 * (a / 100.0) * 100.0;
    var t2 := n2 as real * 0.1 * (a / 100.0) * 100.0;
    ScaleMono(n1 as real, n2 as real, a);
    RoundMono(t1, t2);
    HundredthsMono(Round(t1), Round(t2));
  }

  lemma HundredthsMono(r1: int, r2: int)
    requires r1 <= r2
    ensures r1 as real / 100.0 <= r2 as real / 100.0
  {
  }

  lemma ScaleMono(x: real, y: real, a: real)
    requires x <= y && 0.0 <= a
    ensures x * 0.1 * (a / 100.0) * 100.0 <= y * 0.1 * (a / 100.0) * 100.0
  {
    var k := 0.1 * (a / 100.0) * 100.0;
    assert x * 0.1 * (a / 100.0) * 100.0 == x * k;
    assert y * 0.1 * (a / 100.0) * 100.0 == y * k;
  }
}
