/**
 * String helpers shared by the quiz components. `toLowerCase` is modelled on
 * ASCII letters only: every name the application compares against is ASCII.
 */
module Text {

  predicate IsUpper(c: char) {
    'A' <= c <= 'Z'
  }

  /** Lower-cases one ASCII letter and leaves every other character alone. */
  function LowerChar(c: char): (l: char)
    ensures !IsUpper(l)
    ensures IsUpper(c) ==> l as int - c as int == 'a' as int - 'A' as int
    ensures !IsUpper(c) ==> l == c
  {
    if IsUpper(c) then (c as int - 'A' as int + 'a' as int) as char else c
  }

  /** The model of `s.toLowerCase()`: same length, each character lowered in place. */
  function Lower(s: string): (r: string)
    ensures |r| == |s|
    ensures forall i :: 0 <= i < |s| ==> r[i] == LowerChar(s[i])
    ensures forall i :: 0 <= i < |r| ==> !IsUpper(r[i])
  {
    seq(|s|, i requires 0 <= i < |s| => LowerChar(s[i]))
  }

  /** The comparison `a.toLowerCase() === b.toLowerCase()`. */
  predicate EqualIgnoringCase(a: string, b: string)
    ensures EqualIgnoringCase(a, b) ==> |a| == |b|
    ensures a == b ==> EqualIgnoringCase(a, b)
  {
    Lower(a) == Lower(b)
  }

  /** Reference definition: position by position, the characters agree after lowering. */
  predicate SameLettersIgnoringCase(a: string, b: string) {
    |a| == |b| && forall i :: 0 <= i < |a| ==> LowerChar(a[i]) == LowerChar(b[i])
  }

  lemma LowerIdempotent(s: string)
    ensures Lower(Lower(s)) == Lower(s)
  {
    var l := Lower(s);
    forall i | 0 <= i < |l| ensures Lower(l)[i] == l[i] {
      assert !IsUpper(l[i]);
    }
  }

  /** The case-insensitive match agrees with the character-wise reference, in both directions. */
  lemma EqualIgnoringCaseCharwise(a: string, b: string)
    ensures EqualIgnoringCase(a, b) <==> SameLettersIgnoringCase(a, b)
  {
    if EqualIgnoringCase(a, b) {
      forall i | 0 <= i < |a| ensures LowerChar(a[i]) == LowerChar(b[i]) {
        assert Lower(a)[i] == Lower(b)[i];
      }
    }
    if SameLettersIgnoringCase(a, b) {
      assert forall i :: 0 <= i < |a| ==> Lower(a)[i] == Lower(b)[i];
    }
  }

  /** The match is an equivalence relation. */
  lemma EqualIgnoringCaseEquivalence(a: string, b: string, c: string)
    ensures EqualIgnoringCase(a, a)
    ensures EqualIgnoringCase(a, b) ==> EqualIgnoringCase(b, a)
    ensures EqualIgnoringCase(a, b) && EqualIgnoringCase(b, c) ==> EqualIgnoringCase(a, c)
  {
  }

  /** No trimming: strings of different lengths never match, whatever their letters. */
  lemma DifferentLengthsNeverMatch(a: string, b: string)
    requires |a| != |b|
    ensures !EqualIgnoringCase(a, b)
  {
    assert |Lower(a)| != |Lower(b)|;
  }
}
