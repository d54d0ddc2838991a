/**
 * The key-entry state machine of the standard calculator: a display string
 * and a flag saying whether the display holds a freshly evaluated result.
 *
 * Evaluating an expression (`evaluate`, which compiles the display as code)
 * and turning a number back into text (`formatDisplay`, which depends on the
 * platform's locale) are passed in as functions.
 */
module StandardCalc {
  import opened Wrappers

  /** The four operator buttons. */
  datatype Op = Plus | Minus | Times | Divide

  /** The character an operator button shows and inserts: `+`, `−`, `×`, `÷`. */
  function Symbol(op: Op): (c: char)
    ensures IsOperator(c)
  {
    match op
    case Plus => '+'
    case Minus => '\U{2212}'
    case Times => '\U{00D7}'
    case Divide => '\U{00F7}'
  }

  /** `isOperator(ch)`: one of the four operator characters (the ASCII hyphen of a negative number is not one). */
  predicate IsOperator(c: char)
  {
    c == '+' || c == '\U{2212}' || c == '\U{00D7}' || c == '\U{00F7}'
  }

  /** Every operator character belongs to exactly one button. */
  lemma SymbolOnto(c: char)
    requires IsOperator(c)
    ensures exists op :: Symbol(op) == c
  {
    if c == '+' {
      assert Symbol(Plus) == c;
    } else if c == '\U{2212}' {
      assert Symbol(Minus) == c;
    } else if c == '\U{00D7}' {
      assert Symbol(Times) == c;
    } else {
      assert Symbol(Divide) == c;
    }
  }

  type DigitChar = c: char | '0' <= c <= '9' witness '0'

  /** The buttons of the grid. */
  datatype Key =
    | Clear                // C
    | Backspace            // ⌫
    | Equals               // =
    | PlusMinus            // ±
    | Percent              // %
    | Operator(op: Op)     // + − × ÷
    | Dot                  // .
    | Digit(d: DigitChar)  // 0-9

  // ---------------------------------------------------------------------------
  // String helpers
  // ---------------------------------------------------------------------------

  /** The characters `String.prototype.trim` removes: white space and line terminators. */
  predicate IsSpace(c: char)
  {
    c == '\t' || c == '\n' || c == '\U{000B}' || c == '\U{000C}' || c == '\r' || c == ' '
    || c == '\U{00A0}' || c == '\U{1680}' || ('\U{2000}' <= c <= '\U{200A}')
    || c == '\U{2028}' || c == '\U{2029}' || c == '\U{202F}' || c == '\U{205F}'
    || c == '\U{3000}' || c == '\U{FEFF}'
  }

  /** `s` with its leading white space removed: a suffix of `s` that starts with a non-space, if anything. */
  function TrimStart(s: string): (r: string)
    ensures |r| <= |s|
    ensures r == [] || !IsSpace(r[0])
  {
    if |s| > 0 && IsSpace(s[0]) then TrimStart(s[1..]) else s
  }

  /** `TrimStart(s)` is a suffix of `s`. */
  lemma {:induction false} TrimStartSuffix(s: string)
    ensures TrimStart(s) == s[|s| - |TrimStart(s)|..]
  {
    if |s| > 0 && IsSpace(s[0]) {
      TrimStartSuffix(s[1..]);
    }
  }

  /** `s` with its trailing white space removed: a prefix of `s` that ends with a non-space, if anything. */
  function TrimEnd(s: string): (r: string)
    ensures |r| <= |s|
    ensures r == [] || !IsSpace(r[|r| - 1])
  {
    if |s| > 0 && IsSpace(s[|s| - 1]) then TrimEnd(s[..|s| - 1]) else s
  }

  /** `TrimEnd(s)` is a prefix of `s`. */
  lemma {:induction false} TrimEndPrefix(s: string)
    ensures TrimEnd(s) == s[..|TrimEnd(s)|]
  {
    if |s| > 0 && IsSpace(s[|s| - 1]) {
      TrimEndPrefix(s[..|s| - 1]);
    }
  }

  /** `s.trim()`: white space on neither end. */
  function Trim(s: string): (r: string)
    ensures r == [] || (!IsSpace(r[0]) && !IsSpace(r[|r| - 1]))
  {
    var t := TrimStart(s);
    var r := TrimEnd(t);
    assert r != [] ==> r[0] == t[0] by {
      TrimEndPrefix(t);
    }
    r
  }

  /** Everything `TrimStart` removes is white space. */
  lemma {:induction false} TrimStartRemovesSpace(s: string)
    ensures forall k :: 0 <= k < |s| - |TrimStart(s)| ==> IsSpace(s[k])
  {
    if |s| > 0 && IsSpace(s[0]) {
      TrimStartRemovesSpace(s[1..]);
      forall k | 1 <= k < |s| - |TrimStart(s)|
        ensures IsSpace(s[k])
      {
        assert s[k] == s[1..][k - 1];
      }
    }
  }

  /** Everything `TrimEnd` removes is white space. */
  lemma {:induction false} TrimEndRemovesSpace(s: string)
    ensures forall k :: |TrimEnd(s)| <= k < |s| ==> IsSpace(s[k])
  {
    if |s| > 0 && IsSpace(s[|s| - 1]) {
      TrimEndRemovesSpace(s[..|s| - 1]);
      forall k | |TrimEnd(s)| <= k < |s| - 1
        ensures IsSpace(s[k])
      {
        assert s[k] == s[..|s| - 1][k];
      }
    }
  }

  /**
   * `s.trim()` is the middle of `s`: it starts where the leading white space
   * ends, and only white space lies on either side of it.
   */
  lemma TrimIsMiddle(s: string)
    ensures var lead := |s| - |TrimStart(s)|;
      && lead + |Trim(s)| <= |s|
      && Trim(s) == s[lead..lead + |Trim(s)|]
      && (forall k :: 0 <= k < lead ==> IsSpace(s[k]))
      && (forall k :: lead + |Trim(s)| <= k < |s| ==> IsSpace(s[k]))
  {
    var t := TrimStart(s);
    var r := TrimEnd(t);
    var lead := |s| - |t|;
    TrimDefinition(s);
    TrimStartSuffix(s);
    TrimEndPrefix(t);
    TrimStartRemovesSpace(s);
    TrimEndRemovesSpace(t);
    assert r == s[lead..lead + |r|] by {
      assert t == s[lead..];
    }
    forall k | lead + |r| <= k < |s|
      ensures IsSpace(s[k])
    {
      assert s[k] == t[k - lead];
    }
  }

  /** A string already trimmed is its own trim. */
  lemma TrimTrimmed(s: string)
    requires s == [] || (!IsSpace(s[0]) && !IsSpace(s[|s| - 1]))
    ensures Trim(s) == s
  {
  }

  /** `isOperator(prev.trim().slice(-1))`: the display, trimmed, ends in an operator. */
  predicate EndsWithOperator(s: string)
  {
    var t := Trim(s);
    |t| > 0 && IsOperator(t[|t| - 1])
  }

  /**
   * `prev.split(/[+−×÷]/)`'s last part: the operand being typed, everything
   * after the last operator.
   */
  function LastOperand(s: string): (r: string)
    ensures |r| <= |s| && r == s[|s| - |r|..]
    ensures forall k :: 0 <= k < |r| ==> !IsOperator(r[k])
    ensures |r| < |s| ==> IsOperator(s[|s| - |r| - 1])
  {
    if |s| == 0 then []
    else if IsOperator(s[|s| - 1]) then []
    else LastOperand(s[..|s| - 1]) + [s[|s| - 1]]
  }

  /** Typing a non-operator character extends the current operand by that character. */
  lemma {:induction false} LastOperandAppend(s: string, c: char)
    requires !IsOperator(c)
    ensures LastOperand(s + [c]) == LastOperand(s) + [c]
  {
    assert (s + [c])[..|s|] == s;
  }

  // ---------------------------------------------------------------------------
  // One transition per button
  // ---------------------------------------------------------------------------

  /** ⌫: a display of one character or none becomes `0`; otherwise exactly the last character goes. */
  function Backspaced(prev: string): (r: string)
    ensures |prev| <= 1 ==> r == "0"
    ensures |prev| > 1 ==> |r| == |prev| - 1 && r + [prev[|prev| - 1]] == prev
  {
    if |prev| <= 1 then "0" else prev[..|prev| - 1]
  }

  /** ±: `0` stays `0`; otherwise a leading `-` is removed or added. */
  function Negated(prev: string): (r: string)
    ensures prev == "0" ==> r == "0"
    ensures prev != "0" && |prev| > 0 && prev[0] == '-' ==> "-" + r == prev
    ensures prev != "0" && (|prev| == 0 || prev[0] != '-') ==> |r| > 0 && r[0] == '-' && r[1..] == prev
  {
    if prev == "0" then "0"
    else if |prev| > 0 && prev[0] == '-' then prev[1..]
    else "-" + prev
  }

  /**
   * Pressing ± twice gives the display back, except from `-0` (which ends as
   * `0`) and from a display with two leading minus signs (which loses both).
   */
  lemma NegateTwice(prev: string)
    ensures Negated(Negated(prev)) == prev <==> prev != "-0" && !(|prev| >= 2 && prev[0] == '-' && prev[1] == '-')
    ensures prev == "-0" ==> Negated(prev) == "0" && Negated(Negated(prev)) == "0"
  {
    if prev == "-0" {
      assert Negated(prev) == "0";
    } else if |prev| >= 2 && prev[0] == '-' && prev[1] == '-' {
      assert Negated(Negated(prev)) == prev[2..];
      assert |prev[2..]| < |prev|;
    } else if prev != "0" && |prev| > 0 && prev[0] == '-' {
      assert prev[1..] != "0";
      assert "-" + prev[1..] == prev;
    }
  }

  /**
   * An operator after an operator replaces it; otherwise the operator is
   * appended, spaced: the display always ends in the new operator and a space.
   */
  function WithOperator(prev: string, op: char): (r: string)
    requires IsOperator(op)
    ensures |r| >= 2 && r[|r| - 2] == op && r[|r| - 1] == ' '
    ensures EndsWithOperator(prev) ==> r[..|r| - 2] + [Trim(prev)[|Trim(prev)| - 1]] == Trim(prev)
    ensures !EndsWithOperator(prev) ==> r[..|r| - 2] == prev + " "
  {
    var t := Trim(prev);
    if |t| > 0 && IsOperator(t[|t| - 1]) then t[..|t| - 1] + [op] + " "
    else prev + " " + [op] + " "
  }

  /**
   * Pressing two operators in a row leaves only the second, on a non-empty
   * display that does not start with white space. The empty display is
   * reachable and is an exception: see `EmptyDisplayOperators`.
   */
  lemma ConsecutiveOperators(prev: string, op1: char, op2: char)
    requires IsOperator(op1) && IsOperator(op2)
    requires |prev| > 0 && !IsSpace(prev[0])
    ensures WithOperator(WithOperator(prev, op1), op2) == WithOperator(prev, op2)
  {
    var t := Trim(prev);
    var once := WithOperator(prev, op1);
    var core := if EndsWithOperator(prev) then t[..|t| - 1] else prev + " ";
    assert once == core + [op1] + " ";
    assert core == [] || !IsSpace(core[0]) by {
      if core != [] && EndsWithOperator(prev) {
        assert core[0] == t[0];
      }
    }
    TrimOperatorSpace(core, op1);
    assert Trim(once) == TrimStart(core) + [op1];
    TrimStartFrom(core);
    assert WithOperator(once, op2) == core + [op2] + " ";
    if EndsWithOperator(prev) {
      assert WithOperator(prev, op2) == t[..|t| - 1] + [op2] + " ";
    } else {
      assert WithOperator(prev, op2) == prev + " " + [op2] + " ";
    }
  }

  /** The display can become empty: 5, then ±, then ⌫, then ± leaves nothing. */
  lemma EmptyDisplayReached()
    ensures Negated(Backspaced(Negated(WithDigit("0", '5')))) == ""
  {
    assert WithDigit("0", '5') == "5";
    assert Negated("5") == "-5";
    assert Backspaced("-5") == "-";
  }

  /** On the empty display two operators do not collapse: + then × gives `× `, but × alone gives ` × `. */
  lemma EmptyDisplayOperators(times: char)
    requires times == '\U{00D7}'
    ensures WithOperator(WithOperator("", '+'), times) == [times, ' ']
    ensures WithOperator("", times) == [' ', times, ' ']
  {
    var once := WithOperator("", '+');
    assert once == " " + ['+'] + " " by {
      assert Trim("") == "";
    }
    assert Trim(once) == ['+'] by {
      TrimOperatorSpace(" ", '+');
      assert TrimStart(" ") == "";
    }
    assert WithOperator("", times) == [' ', times, ' '] by {
      assert Trim("") == "";
    }
  }

  /** Trimming `core`, an operator and a space drops the space and whatever white space leads `core`. */
  lemma {:induction false} TrimOperatorSpace(core: string, op: char)
    requires IsOperator(op)
    ensures Trim(core + [op] + " ") == TrimStart(core) + [op]
  {
    var v := TrimStart(core) + [op];
    var s := core + [op] + " ";
    assert TrimStart(s) == v + " " by {
      TrimStartBeforeOperator(core, op);
    }
    assert TrimEnd(v + " ") == v by {
      TrimEndSpace(v);
    }
    TrimDefinition(s);
  }

  /** `Trim` is `TrimEnd` after `TrimStart`. */
  lemma TrimDefinition(s: string)
    ensures Trim(s) == TrimEnd(TrimStart(s))
  {
  }

  /** Leading white space before an operator and a space comes from `core` alone. */
  lemma {:induction false} TrimStartBeforeOperator(core: string, op: char)
    requires IsOperator(op)
    ensures TrimStart(core + [op] + " ") == TrimStart(core) + [op] + " "
  {
    var tail := [op, ' '];
    assert !IsSpace(tail[0]) by {
      assert tail[0] == op;
    }
    TrimStartKeeps(core, tail);
    assert core + [op] + " " == core + tail;
    assert TrimStart(core) + [op] + " " == TrimStart(core) + tail;
  }

  /** Trailing white space after a non-space character is all that `TrimEnd` removes. */
  lemma TrimEndSpace(v: string)
    requires |v| > 0 && !IsSpace(v[|v| - 1])
    ensures TrimEnd(v + " ") == v
  {
    assert (v + " ")[..|v|] == v;
  }

  /** Leading white space is trimmed from the front part only, when the back part starts with a non-space. */
  lemma {:induction false} TrimStartKeeps(front: string, back: string)
    requires |back| > 0 && !IsSpace(back[0])
    ensures TrimStart(front + back) == TrimStart(front) + back
  {
    if |front| > 0 && IsSpace(front[0]) {
      assert (front + back)[1..] == front[1..] + back;
      TrimStartKeeps(front[1..], back);
    } else if |front| == 0 {
      assert front + back == back;
    }
  }

  /** A string that does not start with white space is unchanged by `TrimStart`. */
  lemma TrimStartFrom(s: string)
    requires s == [] || !IsSpace(s[0])
    ensures TrimStart(s) == s
  {
  }

  /** `.`: ignored when the operand already has a point; `0` becomes `0.`; otherwise a point is appended. */
  function WithDot(prev: string): (r: string)
    ensures '.' in LastOperand(r)
    ensures '.' in LastOperand(prev) ==> r == prev
    ensures '.' !in LastOperand(prev) ==> r == prev + "."
  {
    if '.' in LastOperand(prev) then prev
    else
      LastOperandAppend(prev, '.');
      if prev == "0" then "0." else prev + "."
  }

  /** A second point in the same operand does nothing. */
  lemma DotIdempotent(prev: string)
    ensures WithDot(WithDot(prev)) == WithDot(prev)
  {
  }

  /** A digit replaces a lone `0` and is appended to anything else. */
  function WithDigit(prev: string, d: DigitChar): (r: string)
    ensures |r| > 0 && r[|r| - 1] == d
    ensures prev == "0" ==> r == [d]
    ensures prev != "0" ==> r[..|r| - 1] == prev
  {
    if prev == "0" then [d] else prev + [d]
  }

  /** A digit never leaves a leading zero in front of itself on a fresh display. */
  lemma NoLeadingZero(d: DigitChar)
    ensures WithDigit("0", d) == [d]
    ensures WithDigit(WithDigit("0", '0'), d) == [d]
  {
  }

  // ---------------------------------------------------------------------------
  // The calculator
  // ---------------------------------------------------------------------------

  /** The two state cells of the calculator. */
  class Calculator {
    var display: string
    var justEvaluated: bool

    /** A fresh calculator shows `0`. */
    constructor ()
      ensures display == "0" && !justEvaluated
    {
      display := "0";
      justEvaluated := false;
    }

    /** `handlePress(btn)`: one key press. */
    method Press(key: Key, evaluate: string -> Option<real>, format: real -> string)
      modifies this
      ensures key == Clear ==> display == "0" && !justEvaluated
      ensures key == Backspace ==> display == Backspaced(old(display)) && !justEvaluated
      ensures key == Equals && evaluate(old(display)).None? ==> unchanged(this)
      ensures key == Equals && evaluate(old(display)).Some? ==>
        display == format(evaluate(old(display)).value) && justEvaluated
      ensures key == Percent && evaluate(old(display)).None? ==> unchanged(this)
      ensures key == Percent && evaluate(old(display)).Some? ==>
        display == format(evaluate(old(display)).value / 100.0) && justEvaluated
      ensures key == PlusMinus ==> display == Negated(old(display)) && justEvaluated == old(justEvaluated)
      ensures key.Operator? && old(justEvaluated) ==> display == old(display) + " " + [Symbol(key.op)] + " "
      ensures key.Operator? && !old(justEvaluated) ==> display == WithOperator(old(display), Symbol(key.op))
      ensures key == Dot && old(justEvaluated) ==> display == "0."
      ensures key == Dot && !old(justEvaluated) ==> display == WithDot(old(display))
      ensures key.Digit? && old(justEvaluated) ==> display == [key.d]
      ensures key.Digit? && !old(justEvaluated) ==> display == WithDigit(old(display), key.d)
      ensures key.Operator? || key == Dot || key.Digit? ==> !justEvaluated
    {
      match key {
        case Clear =>
          display := "0";
          justEvaluated := false;
        case Backspace =>
          display := Backspaced(display);
          justEvaluated := false;
        case Equals =>
          var result := evaluate(display);
          if result.Some? {
            display := format(result.value);
            justEvaluated := true;
          }
        case PlusMinus =>
          display := Negated(display);
        case Percent =>
          var result := evaluate(display);
          if result.Some? {
            display := format(result.value / 100.0);
            justEvaluated := true;
          }
        case Operator(op) =>
          if justEvaluated {
            display := display + " " + [Symbol(op)] + " ";
          } else {
            display := WithOperator(display, Symbol(op));
          }
          justEvaluated := false;
        case Dot =>
          if justEvaluated {
            display := "0.";
          } else {
            display := WithDot(display);
          }
          justEvaluated := false;
        case Digit(d) =>
          if justEvaluated {
            display := [d];
          } else {
            display := WithDigit(display, d);
          }
          justEvaluated := false;
      }
    }
  }
}
