/** What the calculator's keys guarantee, for any number type. */
module CalculatorFacts {
  import opened Wrappers
  import opened Calculator

  /** At most one decimal point. */
  predicate OnePoint(d: string) {
    forall i, j :: 0 <= i < j < |d| && d[i] == '.' ==> d[j] != '.'
  }

  /** A display typed in by hand: not empty, digits and at most one point. */
  predicate Typed(d: string) {
    |d| >= 1 && (forall i :: 0 <= i < |d| ==> IsDigit(d[i]) || d[i] == '.') && OnePoint(d)
  }

  /**
   * Unless a new operand is about to start, the display is typed; and a left
   * operand is never pending without an operator.
   */
  predicate Inv<N>(s: CState<N>) {
    (s.waitingForOperand || Typed(s.display)) && (s.previousValue.Some? ==> s.operation.Some?)
  }

  /** The calculator's buttons. */
  datatype Key = Digit(c: char) | Point | ClearKey | Back | Sign | Percent | Op(o: Operator) | Equals

  function Apply<N>(s: CState<N>, k: Key, num: Arithmetic<N>): CState<N> {
    match k
    case Digit(c) => DigitStep(s, c)
    case Point => DecimalStep(s)
    case ClearKey => ClearStep(s)
    case Back => BackspaceStep(s)
    case Sign => SignStep(s, num)
    case Percent => PercentStep(s, num)
    case Op(o) => OperationStep(s, o, num)
    case Equals => CalculateStep(s, num)
  }

  function Run<N>(s: CState<N>, keys: seq<Key>, num: Arithmetic<N>): CState<N>
    decreases |keys|
  {
    if |keys| == 0 then s else Run(Apply(s, keys[0], num), keys[1..], num)
  }

  /** The keys that edit the display by hand: a digit button, the point, backspace and clear. */
  predicate Editing(k: Key) {
    (k.Digit? && IsDigit(k.c)) || k.Point? || k.Back? || k.ClearKey?
  }

  /** Every button except the sign and percent ones, which show whatever the number type prints. */
  predicate Keeping(k: Key) {
    (k.Digit? ==> IsDigit(k.c)) && !k.Sign? && !k.Percent?
  }

  lemma DigitTyped(d: string, c: char)
    requires Typed(d) && IsDigit(c)
    ensures Typed(d + [c])
  {
    var e := d + [c];
    forall i, j | 0 <= i < j < |e| && e[i] == '.'
      ensures e[j] != '.'
    {
      if j < |d| {
        assert d[i] == '.';
      }
    }
  }

  lemma PointTyped(d: string)
    requires Typed(d) && '.' !in d
    ensures Typed(d + ".")
  {
    var e := d + ".";
    assert forall i :: 0 <= i < |d| ==> e[i] == d[i];
  }

  lemma PrefixTyped(d: string)
    requires Typed(d) && |d| > 1
    ensures Typed(d[..|d| - 1])
  {
    var e := d[..|d| - 1];
    forall i, j | 0 <= i < j < |e| && e[i] == '.'
      ensures e[j] != '.'
    {
      assert e[i] == d[i] && e[j] == d[j];
    }
  }

  /** Each of these keys keeps the invariant, whatever the number type. */
  lemma ApplyKeeps<N>(s: CState<N>, k: Key, num: Arithmetic<N>)
    requires Inv(s) && Keeping(k)
    ensures Inv(Apply(s, k, num))
  {
    match k
    case Digit(c) =>
      if !s.waitingForOperand && s.display != "0" {
        DigitTyped(s.display, c);
      }
    case Point =>
      if !s.waitingForOperand && '.' !in s.display {
        PointTyped(s.display);
      }
    case Back =>
      if !s.waitingForOperand && |s.display| > 1 {
        PrefixTyped(s.display);
      }
    case _ =>
  }

  /** A run of such keys keeps the invariant. */
  lemma {:induction false} RunKeeps<N>(s: CState<N>, keys: seq<Key>, num: Arithmetic<N>)
    requires Inv(s)
    requires forall i :: 0 <= i < |keys| ==> Keeping(keys[i])
    ensures Inv(Run(s, keys, num))
    decreases |keys|
  {
    if |keys| > 0 {
      ApplyKeeps(s, keys[0], num);
      RunKeeps(Apply(s, keys[0], num), keys[1..], num);
    }
  }

  /** A left operand is never pending without an operator, whatever the keys. */
  lemma {:induction false} PendingOperator<N>(s: CState<N>, keys: seq<Key>, num: Arithmetic<N>)
    requires s.previousValue.Some? ==> s.operation.Some?
    ensures var t := Run(s, keys, num); t.previousValue.Some? ==> t.operation.Some?
    decreases |keys|
  {
    if |keys| > 0 {
      PendingOperator(Apply(s, keys[0], num), keys[1..], num);
    }
  }

  /**
   * From the initial (or a cleared) display, digits, the point and backspace
   * build a typed display with at most one point, and never wait for an operand.
   */
  lemma {:induction false} EditingTyped<N>(s: CState<N>, keys: seq<Key>, num: Arithmetic<N>)
    requires !s.waitingForOperand && Typed(s.display)
    requires forall i :: 0 <= i < |keys| ==> Editing(keys[i])
    ensures !Run(s, keys, num).waitingForOperand && Typed(Run(s, keys, num).display)
    decreases |keys|
  {
    if |keys| > 0 {
      var s1 := Apply(s, keys[0], num);
      match keys[0] {
        case Digit(c) =>
          if s.display != "0" {
            DigitTyped(s.display, c);
          }
        case Point =>
          if '.' !in s.display {
            PointTyped(s.display);
          }
        case Back =>
          if |s.display| > 1 {
            PrefixTyped(s.display);
          }
        case ClearKey =>
      }
      assert !s1.waitingForOperand && Typed(s1.display);
      EditingTyped(s1, keys[1..], num);
    }
  }

  /** The invariant holds initially, and the initial display is typed. */
  lemma InitialTyped<N>()
    ensures Inv(Initial<N>()) && Typed(Initial<N>().display) && !Initial<N>().waitingForOperand
  {
  }

  /** Backspace undoes an appended digit. */
  lemma BackspaceUndoesDigit<N>(s: CState<N>, c: char)
    requires !s.waitingForOperand && s.display != "0" && |s.display| >= 1
    ensures BackspaceStep(DigitStep(s, c)) == s
  {
    assert (s.display + [c])[..|s.display|] == s.display;
  }

  /** Backspace undoes an appended point. */
  lemma BackspaceUndoesPoint<N>(s: CState<N>)
    requires !s.waitingForOperand && '.' !in s.display && |s.display| >= 1
    ensures BackspaceStep(DecimalStep(s)) == s
  {
    assert (s.display + ".")[..|s.display|] == s.display;
  }

  /** A second point is ignored. */
  lemma DecimalIdempotent<N>(s: CState<N>)
    ensures DecimalStep(DecimalStep(s)) == DecimalStep(s)
  {
    if !s.waitingForOperand && '.' !in s.display {
      assert (s.display + ".")[|s.display|] == '.';
    }
  }

  /** A second `=` does nothing. */
  lemma CalculateIdempotent<N>(s: CState<N>, num: Arithmetic<N>)
    ensures CalculateStep(CalculateStep(s, num), num) == CalculateStep(s, num)
  {
  }

  /**
   * `a`, an operator, a digit `d`, `=`: the display shows `a o d`, and nothing
   * is pending any more.
   */
  lemma OperatorThenEquals<N>(s: CState<N>, o: Operator, d: char, num: Arithmetic<N>)
    requires s.previousValue.None?
    ensures var t := CalculateStep(DigitStep(OperationStep(s, o, num), d), num);
      t.display == num.show(num.combine(o, num.parse(s.display), num.parse([d])))
      && t.previousValue.None? && t.operation.None? && t.waitingForOperand
  {
  }

  /**
   * `a`, an operator, a digit `d`, a second operator: the first operation is
   * carried out, shown and kept as the left operand of the second.
   */
  lemma ChainedOperators<N>(s: CState<N>, o1: Operator, d: char, o2: Operator, num: Arithmetic<N>)
    requires s.previousValue.None?
    ensures var t := OperationStep(DigitStep(OperationStep(s, o1, num), d), o2, num);
      var result := num.combine(o1, num.parse(s.display), num.parse([d]));
      t.display == num.show(result) && t.previousValue == Some(result)
      && t.operation == Some(o2) && t.waitingForOperand
  {
  }
}
