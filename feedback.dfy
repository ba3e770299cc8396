/** The two feedback messages both quiz components show after an answer. */
module Feedback {

  const CORRECT: string := "¡Correcto!"

  const INCORRECT_PREFIX: string := "Incorrecto. La respuesta correcta es "

  /** The message for a wrong answer, which names the right one. */
  function Incorrect(answer: string): (m: string)
    ensures |m| == |INCORRECT_PREFIX| + |answer| + 1
    ensures m[..|INCORRECT_PREFIX|] == INCORRECT_PREFIX && m[|m| - 1] == '.'
    ensures m[|INCORRECT_PREFIX|..|m| - 1] == answer
    ensures m != CORRECT && m != ""
  {
    var m := INCORRECT_PREFIX + answer + ".";
    assert m[0] != CORRECT[0];
    assert m[|INCORRECT_PREFIX|..|m| - 1] == answer;
    m
  }

  /** Different right answers give different messages. */
  lemma IncorrectInjective(a: string, b: string)
    requires Incorrect(a) == Incorrect(b)
    ensures a == b
  {
    var m := Incorrect(a);
    assert a == m[|INCORRECT_PREFIX|..|m| - 1];
  }
}
