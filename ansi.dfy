/**
 * `parseAnsi` of src/components/apps/Terminal.tsx: the scanner that cuts a
 * line of terminal output into styled spans at SGR escape sequences
 * (ESC `[` codes `m`).
 */
module Ansi {
  import opened Wrappers
  import opened Strings
  import opened JsNumbers
  import opened JsNumbersFacts

  const ESC: char := '\U{1B}'

  /** The style of a span: bold or not, and a colour from the colour map. */
  datatype Style = Style(bold: bool, color: Option<string>)

  const Plain: Style := Style(false, None)

  /** A span of text shown in one style. */
  datatype Segment = Segment(text: string, style: Style)

  /** `colorMap[c]`: the eight foreground colours 30 to 37. */
  function ColorOf(c: Option<nat>): (r: Option<string>)
    ensures r.Some? <==> c.Some? && 30 <= c.value <= 37
  {
    if c.None? then None
    else if c.value == 30 then Some("#000")
    else if c.value == 31 then Some("#3B82F6")
    else if c.value == 32 then Some("#4E9A06")
    else if c.value == 33 then Some("#C4A000")
    else if c.value == 34 then Some("#3465A4")
    else if c.value == 35 then Some("#75507B")
    else if c.value == 36 then Some("#06989A")
    else if c.value == 37 then Some("#D3D7CF")
    else None
  }

  /**
   * `Number(s)` on one code, as far as the escape handling can tell: the
   * non-negative whole number it reads as, or `None` for NaN, an infinity,
   * a negative or a fraction, none of which is a reset, bold or colour code.
   */
  function NumberOf(s: string): (r: Option<nat>)
    ensures Trim(s) == "" ==> r == Some(0)
    ensures |Trim(s)| > 0 && AllDigits(Trim(s)) ==> r == Some(DigitsValue(Trim(s)))
    ensures r.None? <==> (!StringToNumber(s).Finite? || StringToNumber(s).value < 0.0 ||
                          StringToNumber(s).value.Floor as real != StringToNumber(s).value)
    ensures r.Some? ==> StringToNumber(s) == Finite(r.value as real)
  {
    var t := Trim(s);
    if |t| > 0 && AllDigits(t) then
      DigitsRead(t);
      TrimIdempotent(s);
      WholeOf(StringToNumber(s))
    else WholeOf(StringToNumber(s))
  }

  function Numbers(parts: seq<string>): (r: seq<Option<nat>>)
    ensures |r| == |parts|
    ensures forall k :: 0 <= k < |parts| ==> r[k] == NumberOf(parts[k])
  {
    if |parts| == 0 then [] else [NumberOf(parts[0])] + Numbers(parts[1..])
  }

  /** `code.split(';').map(Number)`. */
  function Codes(code: string): seq<Option<nat>> {
    Numbers(Split(code, ';'))
  }

  /** The first `k` colour codes of `codes`, applied in order: each one overrides the colour. */
  function Recolor(st: Style, codes: seq<Option<nat>>, k: nat): Style
    requires k <= |codes|
  {
    if k == 0 then st
    else
      var before := Recolor(st, codes, k - 1);
      var c := ColorOf(codes[k - 1]);
      if c.Some? then before.(color := c) else before
  }

  /** What one escape sequence does to the style: reset on 0, then bold on 1, then the colours. */
  function ApplyCodes(st: Style, codes: seq<Option<nat>>): Style {
    var reset := if Some(0) in codes then Plain else st;
    var bolded := if Some(1) in codes then reset.(bold := true) else reset;
    Recolor(bolded, codes, |codes|)
  }

  /** Whether an escape sequence starts at `i`. */
  predicate SgrAt(text: string, i: nat) {
    i + 1 < |text| && text[i] == ESC && text[i + 1] == '['
  }

  /** The first index at or after `j` holding `m`, or the length of `text`. */
  function FindM(text: string, j: nat): (k: nat)
    requires j <= |text|
    ensures j <= k <= |text|
    ensures k < |text| ==> text[k] == 'm'
    ensures forall l :: j <= l < k ==> text[l] != 'm'
    decreases |text| - j
  {
    if j == |text| || text[j] == 'm' then j else FindM(text, j + 1)
  }

  /** Push the pending text as a span, unless it is empty. */
  function Flush(parts: seq<Segment>, current: string, st: Style): (r: seq<Segment>)
    ensures current == "" ==> r == parts
    ensures current != "" ==> r == parts + [Segment(current, st)]
  {
    if current == "" then parts else parts + [Segment(current, st)]
  }

  /** The new style after an escape sequence whose codes are written `code`. */
  function SgrStyle(st: Style, code: string): Style {
    ApplyCodes(st, Codes(code))
  }

  /**
   * The scanner from index `i` on, with the pending text `current` in
   * style `st` and the spans `parts` already emitted; `apply` is the style
   * update of one escape sequence (`SgrStyle` in `parseAnsi`).
   */
  function Scan(text: string, i: nat, current: string, st: Style, parts: seq<Segment>,
                apply: (Style, string) -> Style): seq<Segment>
    decreases |text| + 1 - i
  {
    if i >= |text| then Flush(parts, current, st)
    else if SgrAt(text, i) then
      var j := FindM(text, i + 2);
      Scan(text, j + 1, "", apply(st, text[i + 2..j]), Flush(parts, current, st), apply)
    else Scan(text, i + 1, current + [text[i]], st, parts, apply)
  }

  /** The spans `parseAnsi(text)` renders. */
  function AnsiSegments(text: string): seq<Segment> {
    Scan(text, 0, "", Plain, [], SgrStyle)
  }

  /** The text of the spans, concatenated. */
  function Texts(parts: seq<Segment>): string {
    if |parts| == 0 then "" else Texts(parts[..|parts| - 1]) + parts[|parts| - 1].text
  }

  /**
   * The reference meaning: the text with every escape sequence removed,
   * where a sequence that never meets `m` swallows the rest.
   */
  function Strip(t: string): string
    decreases |t|
  {
    if |t| == 0 then ""
    else if SgrAt(t, 0) then
      var j := FindM(t, 2);
      if j == |t| then "" else Strip(t[j + 1..])
    else [t[0]] + Strip(t[1..])
  }

  predicate NoEmptySegment(parts: seq<Segment>) {
    forall k :: 0 <= k < |parts| ==> parts[k].text != ""
  }

  /** The style updates `parseAnsi` makes for one escape sequence with codes `codes`. */
  method StyleFor(st: Style, codes: seq<Option<nat>>) returns (r: Style)
    ensures r == ApplyCodes(st, codes)
  {
    r := st;
    if Some(0) in codes {
      r := Plain;
    }
    if Some(1) in codes {
      r := r.(bold := true);
    }
    ghost var bolded := r;
    for k := 0 to |codes|
      invariant r == Recolor(bolded, codes, k)
    {
      var c := ColorOf(codes[k]);
      if c.Some? {
        r := r.(color := c);
      }
    }
  }

  /** `parseAnsi(text)`. */
  method ParseAnsi(text: string) returns (parts: seq<Segment>)
    ensures parts == AnsiSegments(text)
    ensures Texts(parts) == Strip(text)
    ensures NoEmptySegment(parts)
  {
    parts := [];
    var currentText := "";
    var currentStyle := Plain;
    var i: nat := 0;
    while i < |text|
      invariant Scan(text, i, currentText, currentStyle, parts, SgrStyle) == AnsiSegments(text)
      decreases |text| + 1 - i
    {
      if text[i] == ESC && i + 1 < |text| && text[i + 1] == '[' {
        ScanAtSgr(text, i, currentText, currentStyle, parts, SgrStyle);
        ghost var before := currentStyle;
        parts := Flush(parts, currentText, currentStyle);
        currentText := "";
        var j := i + 2;
        while j < |text| && text[j] != 'm'
          invariant i + 2 <= j <= |text|
          invariant FindM(text, j) == FindM(text, i + 2)
          decreases |text| - j
        {
          j := j + 1;
        }
        assert j == FindM(text, i + 2);
        var codes := Codes(text[i + 2..j]);
        currentStyle := StyleFor(currentStyle, codes);
        assert currentStyle == SgrStyle(before, text[i + 2..j]);
        i := j + 1;
      } else {
        ScanAtChar(text, i, currentText, currentStyle, parts, SgrStyle);
        currentText := currentText + [text[i]];
        i := i + 1;
      }
    }
    parts := Flush(parts, currentText, currentStyle);
    ScanTexts(text, 0, "", Plain, [], SgrStyle);
    ScanNonEmpty(text, 0, "", Plain, [], SgrStyle);
    assert text[0..] == text;
  }

  // ---------------------------------------------------------------------
  // What the scanner guarantees

  lemma {:induction false} TextsAppend(parts: seq<Segment>, x: Segment)
    ensures Texts(parts + [x]) == Texts(parts) + x.text
  {
    assert (parts + [x])[..|parts|] == parts;
  }

  /** Where `text` has an escape sequence at index `i`, `Strip` continues after its `m`. */
  lemma FindMShift(text: string, i: nat, j: nat)
    requires i <= j <= |text|
    ensures FindM(text, j) - i == FindM(text[i..], j - i)
    decreases |text| - j
  {
    if j < |text| && text[j] != 'm' {
      FindMShift(text, i, j + 1);
    }
  }

  /** The spans' texts are the text so far, the pending text, and the stripped rest. */
  lemma {:induction false} ScanTexts(text: string, i: nat, current: string, st: Style, parts: seq<Segment>,
                                     apply: (Style, string) -> Style)
    ensures Texts(Scan(text, i, current, st, parts, apply)) == Texts(parts) + current + StripFrom(text, i)
    decreases |text| + 1 - i, 1
  {
    if i >= |text| {
      ScanAtEnd(text, i, current, st, parts, apply);
      FlushTexts(parts, current, st);
    } else if SgrAt(text, i) {
      ScanTextsSgr(text, i, current, st, parts, apply);
    } else {
      ScanAtChar(text, i, current, st, parts, apply);
      ScanTexts(text, i + 1, current + [text[i]], st, parts, apply);
      StripAtChar(text, i);
    }
  }

  lemma {:induction false} ScanTextsSgr(text: string, i: nat, current: string, st: Style, parts: seq<Segment>,
                                        apply: (Style, string) -> Style)
    requires i < |text| && SgrAt(text, i)
    ensures Texts(Scan(text, i, current, st, parts, apply)) == Texts(parts) + current + StripFrom(text, i)
    decreases |text| + 1 - i, 0
  {
    var j := FindM(text, i + 2);
    ScanTexts(text, j + 1, "", apply(st, text[i + 2..j]), Flush(parts, current, st), apply);
    SgrTextsStep(text, i, current, st, parts, apply);
  }

  /** The step of `ScanTextsSgr` past one escape sequence, given the texts of the scan after it. */
  lemma SgrTextsStep(text: string, i: nat, current: string, st: Style, parts: seq<Segment>,
                     apply: (Style, string) -> Style)
    requires i < |text| && SgrAt(text, i)
    requires var j := FindM(text, i + 2);
      Texts(Scan(text, j + 1, "", apply(st, text[i + 2..j]), Flush(parts, current, st), apply))
      == Texts(Flush(parts, current, st)) + "" + StripFrom(text, j + 1)
    ensures Texts(Scan(text, i, current, st, parts, apply)) == Texts(parts) + current + StripFrom(text, i)
  {
    var j := FindM(text, i + 2);
    assert Scan(text, i, current, st, parts, apply)
      == Scan(text, j + 1, "", apply(st, text[i + 2..j]), Flush(parts, current, st), apply) by {
      ScanAtSgr(text, i, current, st, parts, apply);
    }
    assert Texts(Flush(parts, current, st)) + "" == Texts(parts) + current by {
      FlushTexts(parts, current, st);
    }
    assert StripFrom(text, j + 1) == StripFrom(text, i) by {
      StripAtSgr(text, i);
    }
  }

  lemma FlushTexts(parts: seq<Segment>, current: string, st: Style)
    ensures Texts(Flush(parts, current, st)) == Texts(parts) + current
  {
    if current != "" {
      TextsAppend(parts, Segment(current, st));
    }
  }

  /** `Strip` of the suffix from `i`, empty past the end. */
  function StripFrom(text: string, i: nat): string {
    if i >= |text| then "" else Strip(text[i..])
  }

  lemma StripAtSgr(text: string, i: nat)
    requires i < |text| && SgrAt(text, i)
    ensures StripFrom(text, i) == StripFrom(text, FindM(text, i + 2) + 1)
  {
    var j := FindM(text, i + 2);
    var t := text[i..];
    assert SgrAt(t, 0) by { assert t[0] == text[i] && t[1] == text[i + 1]; }
    FindMShift(text, i, i + 2);
    StripSgrHead(t);
    if j < |text| {
      assert t[j - i + 1..] == text[j + 1..];
    }
  }

  /** An escape sequence at the head is dropped up to its `m`, or with everything when there is none. */
  lemma StripSgrHead(t: string)
    requires SgrAt(t, 0)
    ensures Strip(t) == if FindM(t, 2) == |t| then "" else StripFrom(t, FindM(t, 2) + 1)
  {
    var j := FindM(t, 2);
    if j < |t| && j + 1 == |t| {
      assert Strip(t[j + 1..]) == "";
    }
  }

  lemma StripAtChar(text: string, i: nat)
    requires i < |text| && !SgrAt(text, i)
    ensures StripFrom(text, i) == [text[i]] + StripFrom(text, i + 1)
  {
    var t := text[i..];
    assert t[0] == text[i];
    assert |t| > 1 ==> t[1] == text[i + 1];
    assert !SgrAt(t, 0);
    assert Strip(t) == [t[0]] + Strip(t[1..]);
    assert t[1..] == text[i + 1..];
    if i + 1 == |text| {
      assert Strip(t[1..]) == "";
    }
  }

  /** The scanner never emits an empty span. */
  lemma {:induction false} ScanNonEmpty(text: string, i: nat, current: string, st: Style, parts: seq<Segment>,
                                        apply: (Style, string) -> Style)
    requires NoEmptySegment(parts)
    ensures NoEmptySegment(Scan(text, i, current, st, parts, apply))
    decreases |text| + 1 - i
  {
    if i >= |text| {
    } else if SgrAt(text, i) {
      var j := FindM(text, i + 2);
      ScanNonEmpty(text, j + 1, "", apply(st, text[i + 2..j]), Flush(parts, current, st), apply);
    } else {
      ScanNonEmpty(text, i + 1, current + [text[i]], st, parts, apply);
    }
  }

  // One step of the scanner, for the proofs above.

  lemma ScanAtChar(text: string, i: nat, current: string, st: Style, parts: seq<Segment>,
                    apply: (Style, string) -> Style)
    requires i < |text| && !SgrAt(text, i)
    ensures Scan(text, i, current, st, parts, apply) == Scan(text, i + 1, current + [text[i]], st, parts, apply)
  {
  }

  lemma ScanAtSgr(text: string, i: nat, current: string, st: Style, parts: seq<Segment>,
                    apply: (Style, string) -> Style)
    requires i < |text| && SgrAt(text, i)
    ensures var j := FindM(text, i + 2);
      Scan(text, i, current, st, parts, apply) == Scan(text, j + 1, "", apply(st, text[i + 2..j]), Flush(parts, current, st), apply)
  {
  }

  lemma ScanAtEnd(text: string, i: nat, current: string, st: Style, parts: seq<Segment>,
                    apply: (Style, string) -> Style)
    requires i >= |text|
    ensures Scan(text, i, current, st, parts, apply) == Flush(parts, current, st)
  {
  }
}
