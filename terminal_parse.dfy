/**
 * The command-line parsing of ndi-app/src/lib/terminal.ts: the input is
 * trimmed, cut into tokens by the pattern `(?:[^\s"]+|"[^"]*")+` (runs of
 * characters that are neither white space nor `"`, and complete `"…"` spans,
 * as many as follow each other), the first token lower-cased is the command,
 * and every other token loses one leading and one trailing `"`.
 *
 * The pattern is written here as a scanner. Its two alternatives begin with
 * different characters, so the greedy match from a position is the longest
 * run of such pieces; a `"` with no closing `"` after it starts no match and
 * is skipped, as the global search skips a position where nothing matches.
 */
module TerminalParse {
  import opened Wrappers
  import opened Strings

  /** A character of the `[^\s"]` class. */
  predicate WordChar(c: char) {
    !IsWhitespace(c) && c != '"'
  }

  /** Index of the first `"` at or after `i`, or `|s|` when there is none. */
  function NextQuote(s: string, i: nat): (k: nat)
    requires i <= |s|
    ensures i <= k <= |s|
    ensures k < |s| ==> s[k] == '"'
    ensures forall j :: i <= j < k ==> s[j] != '"'
    decreases |s| - i
  {
    if i == |s| || s[i] == '"' then i else NextQuote(s, i + 1)
  }

  /** Where the match starting at `i` ends: `i` itself when no match starts there. */
  function TokenEnd(s: string, i: nat): (j: nat)
    requires i <= |s|
    ensures i <= j <= |s|
    decreases |s| - i
  {
    if i == |s| then i
    else if WordChar(s[i]) then TokenEnd(s, i + 1)
    else if s[i] == '"' && NextQuote(s, i + 1) < |s| then TokenEnd(s, NextQuote(s, i + 1) + 1)
    else i
  }

  /** `s.match(/(?:[^\s"]+|"[^"]*")+/g) || []`. */
  function Tokens(s: string): seq<string>
    decreases |s|
  {
    if |s| == 0 then []
    else
      var j := TokenEnd(s, 0);
      if j > 0 then [s[..j]] + Tokens(s[j..]) else Tokens(s[1..])
  }

  /** A string the pattern matches as a whole: one complete token. */
  predicate IsToken(w: string) {
    |w| > 0 && TokenEnd(w, 0) == |w|
  }

  /** Drops one leading and one trailing character from `qs`, as `replace(/^q|q$/g, '')` does. */
  function StripEnds(a: string, qs: set<char>): string {
    var b := if |a| > 0 && a[0] in qs then a[1..] else a;
    if |b| > 0 && b[|b| - 1] in qs then b[..|b| - 1] else b
  }

  /** `arg.replace(/^"|"$/g, '')`. */
  function StripQuotes(a: string): string {
    StripEnds(a, {'"'})
  }

  function StripAll(ts: seq<string>): (r: seq<string>)
    ensures |r| == |ts|
    ensures forall i :: 0 <= i < |ts| ==> r[i] == StripQuotes(ts[i])
  {
    if |ts| == 0 then [] else [StripQuotes(ts[0])] + StripAll(ts[1..])
  }

  /** The command and its arguments, or `None` when the input holds no token. */
  function Parse(input: string): Option<(string, seq<string>)> {
    var parts := Tokens(Trim(input));
    if |parts| == 0 then None
    else Some((ToLower(parts[0]), StripAll(parts[1..])))
  }

  // ---------------------------------------------------------------------
  // Lemmas

  /** A quote found inside `w` is found again when `w` is extended. */
  lemma {:induction false} NextQuoteExtend(w: string, t: string, i: nat)
    requires i <= |w| && NextQuote(w, i) < |w|
    ensures NextQuote(w + t, i) == NextQuote(w, i)
    decreases |w| - i
  {
    assert (w + t)[i] == w[i];
    if w[i] != '"' {
      NextQuoteExtend(w, t, i + 1);
    }
  }

  /** A match that ends at the end of `w` ends there too when white space follows. */
  lemma {:induction false} TokenEndExtend(w: string, t: string, i: nat)
    requires i <= |w| && TokenEnd(w, i) == |w|
    requires t == [] || IsWhitespace(t[0])
    ensures TokenEnd(w + t, i) == |w|
    decreases |w| - i
  {
    if i == |w| {
      if t != [] {
        assert (w + t)[i] == t[0];
      }
    } else {
      assert (w + t)[i] == w[i];
      if WordChar(w[i]) {
        TokenEndExtend(w, t, i + 1);
      } else {
        NextQuoteExtend(w, t, i + 1);
        TokenEndExtend(w, t, NextQuote(w, i + 1) + 1);
      }
    }
  }

  /** A complete token neither begins nor ends with white space. */
  lemma {:induction false} TokenEnds(w: string, i: nat)
    requires i < |w| && TokenEnd(w, i) == |w|
    ensures !IsWhitespace(w[i]) && !IsWhitespace(w[|w| - 1])
    decreases |w| - i
  {
    if WordChar(w[i]) {
      if i + 1 < |w| {
        TokenEnds(w, i + 1);
      }
    } else {
      var q := NextQuote(w, i + 1);
      if q + 1 < |w| {
        TokenEnds(w, q + 1);
      }
    }
  }

  /** Tokens separated by single spaces are cut apart again: the tokenizer inverts `join(' ')`. */
  lemma {:induction false} TokensOfJoin(ws: seq<string>)
    requires forall i :: 0 <= i < |ws| ==> IsToken(ws[i])
    ensures Tokens(Join(ws, " ")) == ws
  {
    if |ws| == 1 {
      var w := ws[0];
      TokenEndExtend(w, [], 0);
      assert w + [] == w;
      assert w[..|w|] == w;
      assert w[|w|..] == [];
    } else if |ws| > 1 {
      var w := ws[0];
      var rest := " " + Join(ws[1..], " ");
      var s := Join(ws, " ");
      assert s == w + rest;
      TokenEndExtend(w, rest, 0);
      assert s[..|w|] == w;
      assert s[|w|..] == rest;
      assert TokenEnd(rest, 0) == 0;
      assert rest[1..] == Join(ws[1..], " ");
      TokensOfJoin(ws[1..]);
      assert ws == [w] + ws[1..];
    }
  }

  /** A run of word characters is a token. */
  lemma {:induction false} WordIsToken(w: string, i: nat)
    requires i <= |w|
    requires forall k :: i <= k < |w| ==> WordChar(w[k])
    ensures TokenEnd(w, i) == |w|
    decreases |w| - i
  {
    if i < |w| {
      WordIsToken(w, i + 1);
    }
  }

  /** A `"…"` span without inner quotes is a token, in which white space may occur. */
  lemma QuotedIsToken(x: string)
    requires '"' !in x
    ensures IsToken("\"" + x + "\"")
  {
    var w := "\"" + x + "\"";
    assert forall k :: 1 <= k < |w| - 1 ==> w[k] == x[k - 1];
    NextQuoteAt(w, 1, |w| - 1);
  }

  /** The first quote at or after `i` is the one at `k` when none lies between. */
  lemma {:induction false} NextQuoteAt(s: string, i: nat, k: nat)
    requires i <= k < |s| && s[k] == '"'
    requires forall j :: i <= j < k ==> s[j] != '"'
    ensures NextQuote(s, i) == k
    decreases k - i
  {
    if i < k {
      NextQuoteAt(s, i + 1, k);
    }
  }

  /** A trimmed line of tokens is its own trim. */
  lemma JoinTrimmed(ws: seq<string>)
    requires |ws| > 0
    requires forall i :: 0 <= i < |ws| ==> IsToken(ws[i])
    ensures Trim(Join(ws, " ")) == Join(ws, " ")
  {
    var s := Join(ws, " ");
    JoinEnds(ws);
    assert LeadingWs(s) == 0;
    assert s[0..] == s;
    assert TrailingWs(s) == 0;
    assert s[0..|s|] == s;
  }

  /** The first character of a line of tokens is the first token's, its last the last token's. */
  lemma {:induction false} JoinEnds(ws: seq<string>)
    requires |ws| > 0
    requires forall i :: 0 <= i < |ws| ==> IsToken(ws[i])
    ensures |Join(ws, " ")| > 0
    ensures !IsWhitespace(Join(ws, " ")[0])
    ensures !IsWhitespace(Join(ws, " ")[|Join(ws, " ")| - 1])
  {
    TokenEnds(ws[0], 0);
    if |ws| > 1 {
      JoinEnds(ws[1..]);
      var rest := Join(ws[1..], " ");
      assert Join(ws, " ") == ws[0] + " " + rest;
      assert Join(ws, " ")[|Join(ws, " ")| - 1] == rest[|rest| - 1];
    }
  }

  /** A command line written as tokens parses into its lower-cased command and its unquoted arguments. */
  lemma ParseOfJoin(c: string, ws: seq<string>)
    requires IsToken(c)
    requires forall i :: 0 <= i < |ws| ==> IsToken(ws[i])
    ensures Parse(Join([c] + ws, " ")) == Some((ToLower(c), StripAll(ws)))
  {
    var line := [c] + ws;
    assert forall i :: 0 <= i < |line| ==> IsToken(line[i]);
    JoinTrimmed(line);
    TokensOfJoin(line);
    assert line[1..] == ws;
  }

  /** Quotes around an argument are dropped, and only the outermost pair. */
  lemma StripQuotesOfQuoted(x: string)
    ensures StripQuotes("\"" + x + "\"") == x
  {
    var a := "\"" + x + "\"";
    assert a[1..] == x + "\"";
    assert (x + "\"")[..|x|] == x;
  }

  /** An argument that neither starts nor ends with a quote is kept as it is. */
  lemma StripQuotesUnquoted(a: string)
    requires |a| > 0 ==> a[0] != '"' && a[|a| - 1] != '"'
    ensures StripQuotes(a) == a
  {
  }
}
