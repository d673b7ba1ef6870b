/** What `parseAnsi` guarantees about styles and about the text it keeps. */
module AnsiFacts {
  import opened Wrappers
  import opened Strings
  import opened Ansi

  /**
   * Within one sequence the codes act in a fixed order: `0` resets first,
   * then `1` sets bold, then the last colour code among 30 to 37 wins.
   */
  lemma ApplyOrder(st: Style, codes: seq<Option<nat>>)
    ensures ApplyCodes(st, codes).bold <==> Some(1) in codes || (Some(0) !in codes && st.bold)
    ensures (forall k :: 0 <= k < |codes| ==> ColorOf(codes[k]).None?) ==>
      ApplyCodes(st, codes).color == (if Some(0) in codes then None else st.color)
    ensures forall k {:trigger codes[k]} ::
      (0 <= k < |codes| && ColorOf(codes[k]).Some? && forall l :: k < l < |codes| ==> ColorOf(codes[l]).None?)
      ==> ApplyCodes(st, codes).color == ColorOf(codes[k])
  {
    var reset := if Some(0) in codes then Plain else st;
    var bolded := if Some(1) in codes then reset.(bold := true) else reset;
    RecolorKeepsBold(bolded, codes, |codes|);
    RecolorNone(bolded, codes, |codes|);
    forall k | 0 <= k < |codes| && ColorOf(codes[k]).Some? && (forall l :: k < l < |codes| ==> ColorOf(codes[l]).None?)
      ensures Recolor(bolded, codes, |codes|).color == ColorOf(codes[k])
    {
      RecolorLast(bolded, codes, |codes|, k);
    }
  }

  lemma {:induction false} RecolorKeepsBold(st: Style, codes: seq<Option<nat>>, n: nat)
    requires n <= |codes|
    ensures Recolor(st, codes, n).bold == st.bold
  {
    if n > 0 {
      RecolorKeepsBold(st, codes, n - 1);
    }
  }

  lemma {:induction false} RecolorNone(st: Style, codes: seq<Option<nat>>, n: nat)
    requires n <= |codes|
    ensures (forall k :: 0 <= k < n ==> ColorOf(codes[k]).None?) ==> Recolor(st, codes, n).color == st.color
  {
    if n > 0 {
      RecolorNone(st, codes, n - 1);
    }
  }

  lemma {:induction false} RecolorLast(st: Style, codes: seq<Option<nat>>, n: nat, k: nat)
    requires k < n <= |codes| && ColorOf(codes[k]).Some?
    requires forall l :: k < l < n ==> ColorOf(codes[l]).None?
    ensures Recolor(st, codes, n).color == ColorOf(codes[k])
  {
    if n - 1 > k {
      RecolorLast(st, codes, n - 1, k);
    }
  }

  /** Text before the first escape character is kept as it is. */
  lemma {:induction false} StripPlainPrefix(a: string, t: string)
    requires ESC !in a
    ensures Strip(a + t) == a + Strip(t)
  {
    if |a| > 0 {
      assert (a + t)[0] == a[0];
      assert !SgrAt(a + t, 0);
      assert (a + t)[1..] == a[1..] + t;
      StripPlainPrefix(a[1..], t);
    } else {
      assert a + t == t;
    }
  }

  /** A sequence `ESC [ code m` disappears, with everything up to its `m`. */
  lemma SgrRemoved(code: string, b: string)
    requires 'm' !in code
    ensures Strip([ESC, '['] + code + "m" + b) == Strip(b)
  {
    var t := [ESC, '['] + code + "m" + b;
    assert SgrAt(t, 0);
    FindMAt(t, 2, 2 + |code|);
    assert t[2 + |code| + 1..] == b;
  }

  /** A sequence that never meets `m` swallows the rest of the text. */
  lemma UnterminatedSwallows(a: string, b: string)
    requires ESC !in a && 'm' !in b
    ensures Strip(a + [ESC, '['] + b) == a
  {
    var t := [ESC, '['] + b;
    assert SgrAt(t, 0);
    FindMAt(t, 2, |t|);
    StripPlainPrefix(a, t);
    assert a + [ESC, '['] + b == a + t;
  }

  lemma {:induction false} FindMAt(t: string, j: nat, k: nat)
    requires j <= k <= |t|
    requires forall l :: j <= l < k ==> t[l] != 'm'
    requires k < |t| ==> t[k] == 'm'
    ensures FindM(t, j) == k
    decreases k - j
  {
    if j < k {
      FindMAt(t, j + 1, k);
    }
  }

  /** The text between sequences survives: `a ESC[..m b` shows as `a` followed by `b` stripped. */
  lemma TextAroundSgr(a: string, code: string, b: string)
    requires ESC !in a && 'm' !in code
    ensures Strip(a + [ESC, '['] + code + "m" + b) == a + Strip(b)
  {
    StripPlainPrefix(a, [ESC, '['] + code + "m" + b);
    SgrRemoved(code, b);
    assert a + [ESC, '['] + code + "m" + b == a + ([ESC, '['] + code + "m" + b);
  }

  /** Text without an escape character is one plain span, or none when it is empty. */
  lemma NoEscapeIsPlain(text: string)
    requires ESC !in text
    ensures AnsiSegments(text) == if text == "" then [] else [Segment(text, Plain)]
  {
    ScanPlain(text, 0, "", Plain, [], SgrStyle);
    assert "" + text[0..] == text;
  }

  lemma {:induction false} ScanPlain(text: string, i: nat, current: string, st: Style, parts: seq<Segment>,
                                     apply: (Style, string) -> Style)
    requires i <= |text| && forall k :: i <= k < |text| ==> text[k] != ESC
    ensures Scan(text, i, current, st, parts, apply) == Flush(parts, current + text[i..], st)
    decreases |text| - i
  {
    if i == |text| {
      ScanAtEnd(text, i, current, st, parts, apply);
      assert current + text[i..] == current;
    } else {
      ScanAtChar(text, i, current, st, parts, apply);
      ScanPlain(text, i + 1, current + [text[i]], st, parts, apply);
      assert current + [text[i]] + text[i + 1..] == current + text[i..];
    }
  }

  /** The code `34` is blue. */
  lemma BlueCode(code: string)
    requires code == "34"
    ensures SgrStyle(Plain, code) == Blue
  {
    SplitNoSep(code, ';');
    NumberOf34(code);
    assert Numbers([code]) == [NumberOf(code)];
    BlueOfCodes(Codes(code));
  }

  lemma NumberOf34(code: string)
    requires code == "34"
    ensures NumberOf(code) == Some(34)
  {
    TrimPlain(code);
    assert code[..1] == "3";
    assert DigitsValue("3") == 3 by { assert "3"[..0] == ""; }
    assert DigitsValue(code) == 10 * DigitsValue(code[..1]) + DigitValue(code[1]);
  }

  lemma BlueOfCodes(codes: seq<Option<nat>>)
    requires codes == [Some(34)]
    ensures ApplyCodes(Plain, codes) == Blue
  {
    assert Some(0) !in codes && Some(1) !in codes;
    assert ColorOf(codes[0]) == Some("#3465A4");
    assert Recolor(Plain, codes, 0) == Plain;
    assert Recolor(Plain, codes, 1) == Blue;
  }

  /** A sequence without `;` carries one code. */
  lemma OneCode(code: string)
    requires ';' !in code
    ensures Codes(code) == [NumberOf(code)]
  {
    SplitNoSep(code, ';');
    assert Numbers([code]) == [NumberOf(code)];
  }

  /** `Number` reads `1.0` and `+1` as 1, so either sets bold. */
  lemma BoldForms(point: string, plus: string)
    requires point == "1.0" && plus == "+1"
    ensures SgrStyle(Plain, point) == Style(true, None)
    ensures SgrStyle(Plain, plus) == Style(true, None)
  {
    JsNumbersFacts.PointOne(point);
    JsNumbersFacts.PlusOne(plus);
    OneCode(point);
    OneCode(plus);
    BoldOfCodes([Some(1)]);
  }

  lemma BoldOfCodes(codes: seq<Option<nat>>)
    requires codes == [Some(1)]
    ensures ApplyCodes(Plain, codes) == Style(true, None)
  {
    assert Some(0) !in codes;
    assert ColorOf(codes[0]) == None;
    assert Recolor(Style(true, None), codes, 0) == Style(true, None);
  }

  /** `Number` reads `0x1E` and `3e1` as 30, so either sets the colour of code 30. */
  lemma BlackForms(hex: string, exponent: string)
    requires hex == "0x1E" && exponent == "3e1"
    ensures SgrStyle(Plain, hex) == Style(false, Some("#000"))
    ensures SgrStyle(Plain, exponent) == Style(false, Some("#000"))
  {
    JsNumbersFacts.HexThirty(hex);
    JsNumbersFacts.ExponentThirty(exponent);
    OneCode(hex);
    OneCode(exponent);
    BlackOfCodes([Some(30)]);
  }

  lemma BlackOfCodes(codes: seq<Option<nat>>)
    requires codes == [Some(30)]
    ensures ApplyCodes(Plain, codes) == Style(false, Some("#000"))
  {
    assert Some(0) !in codes && Some(1) !in codes;
    assert ColorOf(codes[0]) == Some("#000");
    assert Recolor(Plain, codes, 0) == Plain;
  }

  /** `Number("-0")` is a zero that `includes(0)` finds, so `-0` resets whatever the style was. */
  lemma MinusZeroResets(st: Style, code: string)
    requires code == "-0"
    ensures SgrStyle(st, code) == Plain
  {
    JsNumbersFacts.MinusZero(code);
    OneCode(code);
    var codes := [Some(0)];
    assert Some(0) in codes && Some(1) !in codes;
    assert ColorOf(codes[0]) == None;
    assert Recolor(Plain, codes, 0) == Plain;
  }

  const Blue: Style := Style(false, Some("#3465A4"))

  /** A directory name as `ls` colours it shows as one blue span. */
  lemma ColoredIsOneBlueSpan(name: string)
    requires name != "" && ESC !in name
    ensures AnsiSegments([ESC] + "[34m" + name + [ESC] + "[0m") == [Segment(name, Blue)]
  {
    var text := [ESC] + "[34m" + name + [ESC] + "[0m";
    var n := |name|;
    assert |text| == 9 + n;
    assert text[0] == ESC && text[1] == '[' && text[2] == '3' && text[3] == '4' && text[4] == 'm';
    assert text[5..5 + n] == name;
    assert text[5 + n] == ESC && text[6 + n] == '[' && text[7 + n] == '0' && text[8 + n] == 'm';
    ColoredSpan(text, name);
  }

  /** The spans of `ESC[34m name ESC[0m`, read off by position. */
  lemma ColoredSpan(text: string, name: string)
    requires name != "" && ESC !in name && |text| == 9 + |name|
    requires text[0] == ESC && text[1] == '[' && text[2] == '3' && text[3] == '4' && text[4] == 'm'
    requires text[5..5 + |name|] == name
    requires text[5 + |name|] == ESC && text[6 + |name|] == '[' && text[7 + |name|] == '0' && text[8 + |name|] == 'm'
    ensures AnsiSegments(text) == [Segment(name, Blue)]
  {
    ColoredOpen(text);
    ColoredName(text, name, SgrStyle);
    ColoredClose(text, name, SgrStyle);
  }

  lemma ColoredOpen(text: string)
    requires |text| >= 5
    requires text[0] == ESC && text[1] == '[' && text[2] == '3' && text[3] == '4' && text[4] == 'm'
    ensures AnsiSegments(text) == Scan(text, 5, "", Blue, [], SgrStyle)
  {
    assert SgrAt(text, 0);
    FindMAt(text, 2, 4);
    var code := text[2..4];
    assert code == "34";
    ScanAtSgr(text, 0, "", Plain, [], SgrStyle);
    BlueCode(code);
  }

  lemma ColoredName(text: string, name: string, apply: (Style, string) -> Style)
    requires 5 + |name| <= |text| && text[5..5 + |name|] == name && ESC !in name
    ensures Scan(text, 5, "", Blue, [], apply) == Scan(text, 5 + |name|, name, Blue, [], apply)
  {
    assert forall k :: 5 <= k < 5 + |name| ==> text[k] == name[k - 5];
    ScanPlainUpTo(text, 5, 5 + |name|, "", Blue, [], apply);
    assert "" + name == name;
  }

  lemma ColoredClose(text: string, name: string, apply: (Style, string) -> Style)
    requires name != "" && |text| == 9 + |name|
    requires text[5 + |name|] == ESC && text[6 + |name|] == '[' && text[7 + |name|] == '0' && text[8 + |name|] == 'm'
    ensures Scan(text, 5 + |name|, name, Blue, [], apply) == [Segment(name, Blue)]
  {
    var n := |name|;
    assert SgrAt(text, 5 + n);
    FindMAt(text, 7 + n, 8 + n);
    ScanAtSgr(text, 5 + n, name, Blue, [], apply);
    ScanAtEnd(text, 9 + n, "", apply(Blue, text[7 + n..8 + n]), [Segment(name, Blue)], apply);
  }

  lemma {:induction false} ScanPlainUpTo(text: string, i: nat, e: nat, current: string, st: Style, parts: seq<Segment>,
                                         apply: (Style, string) -> Style)
    requires i <= e <= |text| && forall k :: i <= k < e ==> text[k] != ESC
    ensures Scan(text, i, current, st, parts, apply) == Scan(text, e, current + text[i..e], st, parts, apply)
    decreases e - i
  {
    if i == e {
      assert current + text[i..e] == current;
    } else {
      ScanAtChar(text, i, current, st, parts, apply);
      ScanPlainUpTo(text, i + 1, e, current + [text[i]], st, parts, apply);
      assert current + [text[i]] + text[i + 1..e] == current + text[i..e];
    }
  }
}
