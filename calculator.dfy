/**
 * The four-function calculator: a display string, a pending operator, the
 * value the operator applies to, and whether the next digit starts a new
 * operand. Numbers are exact reals with NaN as `None`. How the JavaScript
 * engine renders a number as text (`String(x)`) is the `show` constant;
 * `String(NaN)` is "NaN".
 */
module Calculator {
  import opened Common
  import opened JsNumber

  /**
   * The operator keys, labelled '+', '−' (U+2212), '×' (U+00D7), '÷' (U+00F7)
   * and '='. The keypad passes no other operator.
   */
  datatype Operator = Plus | Minus | Times | Divide | Equals

  /** `String(x)` for a number that may be NaN. */
  function ShowNumber(show: real -> string, x: Option<real>): string
  {
    if x.None? then "NaN" else show(x.value)
  }

  /** Arithmetic on a possibly-NaN number: NaN stays NaN. */
  function Lift(f: real -> real, x: Option<real>): Option<real>
  {
    if x.None? then None else Some(f(x.value))
  }

  /** The arithmetic of one operator key on two numbers. */
  function Apply(first: real, second: real, op: Operator): real
  {
    match op
    case Plus => first + second
    case Minus => first - second
    case Times => first * second
    case Divide => if second != 0.0 then first / second else 0.0
    case Equals => second
  }

  /** `calculate(first, second, operator)`; division by zero gives 0, '=' gives `second`. */
  function Calculate(first: real, second: Option<real>, op: Operator): (r: Option<real>)
    ensures second.None? ==> r.None?
    ensures second.Some? && op == Plus ==> r == Some(first + second.value)
    ensures second.Some? && op == Minus ==> r == Some(first - second.value)
    ensures second.Some? && op == Times ==> r == Some(first * second.value)
    ensures second.Some? && op == Divide && second.value != 0.0 ==> r == Some(first / second.value)
    ensures op == Divide && second == Some(0.0) ==> r == Some(0.0)
    ensures op == Equals ==> r == second
  {
    if second.None? then None
    else
      assert op == Times ==> Apply(first, second.value, op) == first * second.value;
      Some(Apply(first, second.value, op))
  }

  /** `previousValue || 0`: NaN (and 0) become 0. */
  function Operand(previous: Option<real>): real
  {
    OrZero(previous)
  }

  /** The text the ± key produces from a display other than "0". */
  function ToggledSign(display: string): (r: string)
    ensures |display| > 0 && display[0] == '-' ==> r == display[1..]
    ensures !(|display| > 0 && display[0] == '-') ==> r == "-" + display
  {
    if |display| > 0 && display[0] == '-' then display[1..] else "-" + display
  }

  /** ± negates the displayed number and pressing it twice restores the display. */
  lemma ToggleSignNegates(digits: string)
    requires |digits| > 0 && digits[0] != '-' && digits[0] != '+'
    ensures ParseFloat(ToggledSign(digits)) == Lift(x => -x, ParseFloat(digits))
    ensures ParseFloat(ToggledSign("-" + digits)) == Lift(x => -x, ParseFloat("-" + digits))
    ensures ToggledSign(ToggledSign(digits)) == digits
    ensures ToggledSign(ToggledSign("-" + digits)) == "-" + digits
  {
    assert ("-" + digits)[1..] == digits;
    assert SplitSign("-" + digits) == (true, digits);
    assert SplitSign(digits) == (false, digits);
  }

  /** Occurrences of '.' in a display. */
  function DotCount(s: string): (n: nat)
    ensures n <= |s|
    ensures n == 0 <==> IndexOf(s, '.') == -1
  {
    if |s| == 0 then 0 else (if s[0] == '.' then 1 else 0) + DotCount(s[1..])
  }

  class Calculator {
    const show: real -> string
    var display: string
    var operator: Option<Operator>
    var previousValue: Option<Option<real>>   // `number | null`, where the number may be NaN
    var waitingForOperand: bool

    /** A pending operator always has a value to apply to, and the other way round. */
    predicate Valid()
      reads this
    {
      previousValue.Some? <==> operator.Some?
    }

    constructor (show: real -> string)
      ensures Valid()
      ensures this.show == show
      ensures display == "0" && operator.None? && previousValue.None? && !waitingForOperand
    {
      this.show := show;
      display := "0";
      operator := None;
      previousValue := None;
      waitingForOperand := false;
    }

    /** A digit key: start a new operand, replace a lone "0", or append. */
    method InputNumber(num: string)
      requires Valid()
      modifies this
      ensures Valid()
      ensures display == (if old(waitingForOperand) || old(display) == "0" then num else old(display) + num)
      ensures !waitingForOperand
      ensures operator == old(operator) && previousValue == old(previousValue)
    {
      if waitingForOperand {
        display := num;
        waitingForOperand := false;
      } else {
        display := if display == "0" then num else display + num;
      }
    }

    /** An operator key: remember the operand, or fold the pending operation into it. */
    method InputOperator(nextOperator: Operator)
      requires Valid()
      modifies this
      ensures Valid()
      ensures old(previousValue).None? ==>
                previousValue == Some(ParseFloat(old(display))) && display == old(display)
      ensures old(previousValue).Some? ==>
                var value := Calculate(Operand(old(previousValue).value), ParseFloat(old(display)), old(operator).value);
                previousValue == Some(value) && display == ShowNumber(show, value)
      ensures waitingForOperand && operator == Some(nextOperator)
    {
      var inputValue := ParseFloat(display);
      if previousValue.None? {
        previousValue := Some(inputValue);
      } else if operator.Some? {
        var currentValue := Operand(previousValue.value);
        var newValue := Calculate(currentValue, inputValue, operator.value);
        display := ShowNumber(show, newValue);
        previousValue := Some(newValue);
      }
      waitingForOperand := true;
      operator := Some(nextOperator);
    }

    /** C: back to the initial state. */
    method Clear()
      modifies this
      ensures Valid()
      ensures display == "0" && operator.None? && previousValue.None? && !waitingForOperand
    {
      display := "0";
      operator := None;
      previousValue := None;
      waitingForOperand := false;
    }

    /** The '.' key: start "0." for a new operand, otherwise add a point only if there is none. */
    method InputDecimal()
      requires Valid()
      modifies this
      ensures Valid()
      ensures old(waitingForOperand) ==> display == "0." && !waitingForOperand
      ensures !old(waitingForOperand) && IndexOf(old(display), '.') == -1 ==>
                display == old(display) + "." && !waitingForOperand
      ensures !old(waitingForOperand) && IndexOf(old(display), '.') != -1 ==>
                display == old(display) && !waitingForOperand
      ensures DotCount(old(display)) <= 1 ==> DotCount(display) <= 1
      ensures operator == old(operator) && previousValue == old(previousValue)
    {
      if waitingForOperand {
        display := "0.";
        assert DotCount(display) == 1 by { assert display[1..] == "."; }
        waitingForOperand := false;
      } else if IndexOf(display, '.') == -1 {
        DotCountAppend(display, ".");
        display := display + ".";
      }
    }

    /** The ± key: flip the leading minus sign, except on "0". */
    method ToggleSign()
      requires Valid()
      modifies this
      ensures Valid()
      ensures display == (if old(display) == "0" then old(display) else ToggledSign(old(display)))
      ensures waitingForOperand == old(waitingForOperand)
      ensures operator == old(operator) && previousValue == old(previousValue)
    {
      if display != "0" {
        display := ToggledSign(display);
      }
    }

    /** The % key: show the displayed number divided by 100. */
    method InputPercent()
      requires Valid()
      modifies this
      ensures Valid()
      ensures display == ShowNumber(show, Lift(x => x / 100.0, ParseFloat(old(display))))
      ensures waitingForOperand == old(waitingForOperand)
      ensures operator == old(operator) && previousValue == old(previousValue)
    {
      var value := Lift(x => x / 100.0, ParseFloat(display));
      display := ShowNumber(show, value);
    }
  }

  lemma {:induction false} DotCountAppend(s: string, t: string)
    ensures DotCount(s + t) == DotCount(s) + DotCount(t)
    decreases |s|
  {
    if |s| > 0 {
      assert (s + t)[1..] == s[1..] + t;
      DotCountAppend(s[1..], t);
    } else {
      assert s + t == t;
    }
  }

  /**
   * Pressing a digit, an operator, another digit and '=' on a fresh
   * calculator shows the result of the operation.
   */
  method Evaluate(show: real -> string, a: nat, op: Operator, b: nat) returns (shown: string)
    requires a <= 9 && b <= 9
    ensures shown == ShowNumber(show, Calculate(a as real, Some(b as real), op))
  {
    var pad := new Calculator(show);
    pad.InputNumber(NatToString(a));
    pad.InputOperator(op);
    pad.InputNumber(NatToString(b));
    pad.InputOperator(Equals);
    ParseFloatRoundTrip(a);
    ParseFloatRoundTrip(b);
    shown := pad.display;
  }
}
