/**
 * The calculator window of src/components/apps/Calculator.tsx: a display
 * string edited key by key, a pending left operand and operator, and a flag
 * saying that the next digit starts a new operand.
 *
 * The numbers themselves (`parseFloat`, `String`, the four operations, the
 * sign change and the percent) are floating point; the model keeps them
 * abstract behind an `Arithmetic<N>` value passed to the keys that use them,
 * so that what is proved holds for any number type. Each key is a `...Step`
 * function from the old state to the new one; `CalculatorWindow` holds the
 * four state fields and its handlers are proved to agree with the steps.
 */
module Calculator {
  import opened Wrappers

  /** The four operator keys `÷`, `×`, `-` and `+`. */
  datatype Operator = Plus | Minus | Times | Divide

  /** `display`, `previousValue`, `operation` and `waitingForOperand`. */
  datatype CState<N> = CState(display: string, previousValue: Option<N>, operation: Option<Operator>,
                              waitingForOperand: bool)

  /**
   * The number type and what the calculator does with it: `parseFloat`,
   * `String`, the operators, `-value` and `value / 100`.
   */
  datatype Arithmetic<!N> = Arithmetic(parse: string -> N, show: N -> string, combine: (Operator, N, N) -> N,
                                      negate: N -> N, percent: N -> N)

  /** The initial state, and the state `clear` returns to. */
  function Initial<N>(): CState<N> {
    CState("0", None, None, false)
  }

  predicate IsDigit(c: char) {
    '0' <= c <= '9'
  }

  /** `inputDigit`: a new operand starts with the digit, a lone `0` is replaced, otherwise the digit is appended. */
  function DigitStep<N>(s: CState<N>, digit: char): (r: CState<N>)
    ensures !r.waitingForOperand && r.previousValue == s.previousValue && r.operation == s.operation
    ensures |r.display| >= 1 && r.display[|r.display| - 1] == digit
    ensures s.waitingForOperand || s.display == "0" ==> r.display == [digit]
    ensures !s.waitingForOperand && s.display != "0" ==> r.display == s.display + [digit]
  {
    if s.waitingForOperand then s.(display := [digit], waitingForOperand := false)
    else s.(display := if s.display == "0" then [digit] else s.display + [digit])
  }

  /** `inputDecimal`: `0.` for a new operand; otherwise a point is appended only when there is none. */
  function DecimalStep<N>(s: CState<N>): (r: CState<N>)
    ensures !r.waitingForOperand && r.previousValue == s.previousValue && r.operation == s.operation
    ensures s.waitingForOperand ==> r.display == "0."
    ensures !s.waitingForOperand && '.' in s.display ==> r == s
    ensures !s.waitingForOperand && '.' !in s.display ==> r.display == s.display + "."
  {
    if s.waitingForOperand then s.(display := "0.", waitingForOperand := false)
    else if '.' !in s.display then s.(display := s.display + ".")
    else s
  }

  /** `clear`. */
  function ClearStep<N>(s: CState<N>): (r: CState<N>)
    ensures r.display == "0" && r.previousValue.None? && r.operation.None? && !r.waitingForOperand
  {
    Initial()
  }

  /** `backspace`: drop the last character, or show `0` when at most one is left. */
  function BackspaceStep<N>(s: CState<N>): (r: CState<N>)
    ensures |r.display| >= 1
    ensures r.previousValue == s.previousValue && r.operation == s.operation
    ensures r.waitingForOperand == s.waitingForOperand
    ensures |s.display| > 1 ==> s.display == r.display + [s.display[|s.display| - 1]]
    ensures |s.display| <= 1 ==> r.display == "0"
  {
    if |s.display| > 1 then s.(display := s.display[..|s.display| - 1]) else s.(display := "0")
  }

  /** `toggleSign`: the display shows the opposite of the number it showed. */
  function SignStep<N>(s: CState<N>, num: Arithmetic<N>): (r: CState<N>)
    ensures r.display == num.show(num.negate(num.parse(s.display)))
    ensures r.previousValue == s.previousValue && r.operation == s.operation
    ensures r.waitingForOperand == s.waitingForOperand
  {
    s.(display := num.show(num.negate(num.parse(s.display))))
  }

  /** `inputPercent`: the display shows a hundredth of the number it showed. */
  function PercentStep<N>(s: CState<N>, num: Arithmetic<N>): (r: CState<N>)
    ensures r.display == num.show(num.percent(num.parse(s.display)))
    ensures r.previousValue == s.previousValue && r.operation == s.operation
    ensures r.waitingForOperand == s.waitingForOperand
  {
    s.(display := num.show(num.percent(num.parse(s.display))))
  }

  /**
   * `performOperation`: the display's number becomes the left operand when
   * there is none; when there is one and an operator is pending, the pending
   * operation is carried out and its result becomes the left operand and is
   * shown. Either way the next digit starts a new operand and `next` is pending.
   */
  function OperationStep<N>(s: CState<N>, next: Operator, num: Arithmetic<N>): (r: CState<N>)
    ensures r.waitingForOperand && r.operation == Some(next)
    ensures s.previousValue.None? ==> r.previousValue == Some(num.parse(s.display)) && r.display == s.display
    ensures s.previousValue.Some? && s.operation.None? ==> r.previousValue == s.previousValue && r.display == s.display
    ensures s.previousValue.Some? && s.operation.Some? ==>
      var result := num.combine(s.operation.value, s.previousValue.value, num.parse(s.display));
      r.previousValue == Some(result) && r.display == num.show(result)
  {
    var inputValue := num.parse(s.display);
    var s1 :=
      if s.previousValue.None? then s.(previousValue := Some(inputValue))
      else if s.operation.Some? then
        var result := num.combine(s.operation.value, s.previousValue.value, inputValue);
        s.(display := num.show(result), previousValue := Some(result))
      else s;
    s1.(waitingForOperand := true, operation := Some(next))
  }

  /**
   * `calculate`: nothing unless an operator and a left operand are pending;
   * otherwise the result is shown and nothing is pending any more.
   */
  function CalculateStep<N>(s: CState<N>, num: Arithmetic<N>): (r: CState<N>)
    ensures s.operation.None? || s.previousValue.None? ==> r == s
    ensures s.operation.Some? && s.previousValue.Some? ==>
      r.previousValue.None? && r.operation.None? && r.waitingForOperand
      && r.display == num.show(num.combine(s.operation.value, s.previousValue.value, num.parse(s.display)))
  {
    if s.operation.None? || s.previousValue.None? then s
    else
      var result := num.combine(s.operation.value, s.previousValue.value, num.parse(s.display));
      CState(num.show(result), None, None, true)
  }

  /** The calculator window's state. */
  class CalculatorWindow<N> {
    var display: string
    var previousValue: Option<N>
    var operation: Option<Operator>
    var waitingForOperand: bool

    function State(): CState<N>
      reads this
    {
      CState(display, previousValue, operation, waitingForOperand)
    }

    constructor ()
      ensures State() == Initial()
    {
      display := "0";
      previousValue := None;
      operation := None;
      waitingForOperand := false;
    }

    method InputDigit(digit: char)
      modifies this
      ensures State() == DigitStep(old(State()), digit)
    {
      if waitingForOperand {
        display := [digit];
        waitingForOperand := false;
      } else if display == "0" {
        display := [digit];
      } else {
        display := display + [digit];
      }
    }

    method InputDecimal()
      modifies this
      ensures State() == DecimalStep(old(State()))
    {
      if waitingForOperand {
        display := "0.";
        waitingForOperand := false;
      } else if '.' !in display {
        display := display + ".";
      }
    }

    method Clear()
      modifies this
      ensures State() == ClearStep(old(State()))
    {
      display := "0";
      previousValue := None;
      operation := None;
      waitingForOperand := false;
    }

    method Backspace()
      modifies this
      ensures State() == BackspaceStep(old(State()))
    {
      if |display| > 1 {
        display := display[..|display| - 1];
      } else {
        display := "0";
      }
    }

    method ToggleSign(num: Arithmetic<N>)
      modifies this
      ensures State() == SignStep(old(State()), num)
    {
      var value := num.parse(display);
      display := num.show(num.negate(value));
    }

    method InputPercent(num: Arithmetic<N>)
      modifies this
      ensures State() == PercentStep(old(State()), num)
    {
      var value := num.parse(display);
      display := num.show(num.percent(value));
    }

    method PerformOperation(next: Operator, num: Arithmetic<N>)
      modifies this
      ensures State() == OperationStep(old(State()), next, num)
    {
      var inputValue := num.parse(display);
      if previousValue.None? {
        previousValue := Some(inputValue);
      } else if operation.Some? {
        var result := num.combine(operation.value, previousValue.value, inputValue);
        display := num.show(result);
        previousValue := Some(result);
      }
      waitingForOperand := true;
      operation := Some(next);
    }

    method Calculate(num: Arithmetic<N>)
      modifies this
      ensures State() == CalculateStep(old(State()), num)
    {
      if operation.None? || previousValue.None? {
        return;
      }
      var result := num.combine(operation.value, previousValue.value, num.parse(display));
      display := num.show(result);
      previousValue := None;
      operation := None;
      waitingForOperand := true;
    }
  }
}
