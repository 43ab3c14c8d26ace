/**
 * The input classifier that routes an utterance to the calculator: a
 * regular-expression search for one digit or arithmetic operator.
 */
module Classifier {

  /** A decimal digit or one of the operators plus, minus, times, slash, caret and percent; digits are the ASCII ones. */
  predicate IsMathChar(c: char) {
    ('0' <= c <= '9') || c == '+' || c == '-' || c == '*' || c == '/' || c == '^' || c == '%'
  }

  /** `is_math_expression`: the search scans left to right for the first matching character. */
  function IsMathExpression(text: string): (found: bool)
    ensures found <==> exists i :: 0 <= i < |text| && IsMathChar(text[i])
    decreases |text|
  {
    if text == [] then false
    else IsMathChar(text[0]) || IsMathExpression(text[1..])
  }

  /** The empty utterance is never sent to the calculator. */
  lemma EmptyIsNotMath()
    ensures !IsMathExpression("")
  {
  }

  /** The trigger is broad: ordinary speech that mentions a number is routed to the calculator. */
  lemma SpokenNumberIsMath()
    ensures IsMathExpression("I have 2 dogs")
  {
    assert "I have 2 dogs"[7] == '2';
  }

  /** Text without digits or operators goes to the chat model. */
  lemma PlainWordsAreNotMath(text: string)
    requires forall i :: 0 <= i < |text| ==> !IsMathChar(text[i])
    ensures !IsMathExpression(text)
  {
  }

  /** Concatenation: the whole matches exactly when one of the parts does. */
  lemma {:induction false} ConcatIsMathIff(a: string, b: string)
    ensures IsMathExpression(a + b) <==> IsMathExpression(a) || IsMathExpression(b)
  {
    if IsMathExpression(a) {
      var i :| 0 <= i < |a| && IsMathChar(a[i]);
      assert (a + b)[i] == a[i];
    } else if IsMathExpression(b) {
      var i :| 0 <= i < |b| && IsMathChar(b[i]);
      assert (a + b)[|a| + i] == b[i];
    }
  }
}
