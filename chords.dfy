/**
 * The chord-naming quiz: one current chord (none before the first
 * generation), a typed answer, a feedback message and a score. An answer is
 * judged by a case-insensitive comparison with the chord's name.
 */
module Chords {
  import opened Wrappers
  import Text
  import Feedback

  /** A chord: its name, the pitch keys drawn on the staff and the note names listed under it. */
  datatype Chord = Chord(name: string, keys: seq<string>, notes: seq<string>)

  /** The active chord table; the other entries of the source table are commented out. */
  const CHORDS: seq<Chord> := [
    Chord("Re Mayor (D)", ["d/4", "f#/4", "a/4"], ["Re", "Fa#", "La"]),
    Chord("Mi Mayor (E)", ["e/4", "g#/4", "b/4"], ["Mi", "Sol#", "Si"])
  ]

  /** Every active chord is a triad whose keys and note names line up. */
  lemma ActiveChordsAreTriads()
    ensures |CHORDS| == 2
    ensures forall c :: c in CHORDS ==> |c.keys| == |c.notes| == 3
  {
  }

  /**
   * The staff positions that get a "#" accidental: the loop over the chord's
   * keys adds one at each index whose key contains "#", in index order. Flat
   * keys get nothing, since the flat branch is commented out.
   */
  method SharpPositions(keys: seq<string>) returns (positions: seq<nat>)
    ensures forall i :: i in positions <==> 0 <= i < |keys| && '#' in keys[i]
    ensures forall j, k :: 0 <= j < k < |positions| ==> positions[j] < positions[k]
  {
    positions := [];
    var index := 0;
    while index < |keys|
      invariant 0 <= index <= |keys|
      invariant forall i :: i in positions <==> 0 <= i < index && '#' in keys[i]
      invariant forall j, k :: 0 <= j < k < |positions| ==> positions[j] < positions[k]
      invariant forall j :: 0 <= j < |positions| ==> positions[j] < index
    {
      if '#' in keys[index] {
        positions := positions + [index];
      }
      index := index + 1;
    }
  }

  /** In both active chords the accidental falls on the middle note only. */
  lemma ActiveChordsSharpenTheThird(c: Chord, i: nat)
    requires c in CHORDS && i < |c.keys|
    ensures '#' in c.keys[i] <==> i == 1
  {
    assert c == CHORDS[0] || c == CHORDS[1];
    if c == CHORDS[0] {
      assert c.keys[0] == "d/4" && c.keys[2] == "a/4";
    } else {
      assert c.keys[0] == "e/4" && c.keys[2] == "b/4";
    }
  }

  /** The component's state. */
  datatype State = State(current: Option<Chord>, answer: string, feedback: string, score: nat)

  /** The state on mount, before the first generation runs. */
  function Start(): (s: State)
    ensures s.current == None && s.answer == "" && s.feedback == "" && s.score == 0
  {
    State(None, "", "", 0)
  }

  /**
   * Picking a new chord; `index` stands for the random draw. The timed
   * auto-advance after an answer is this same transition.
   */
  function Generate(s: State, index: nat): (r: State)
    requires index < |CHORDS|
    ensures r.current == Some(CHORDS[index])
    ensures r.answer == "" && r.feedback == "" && r.score == s.score
  {
    s.(current := Some(CHORDS[index]), answer := "", feedback := "")
  }

  /** Typing in the answer field replaces the answer and nothing else. */
  function Type(s: State, text: string): (r: State)
    ensures r.answer == text
    ensures r.current == s.current && r.feedback == s.feedback && r.score == s.score
  {
    s.(answer := text)
  }

  /**
   * `userAnswer.toLowerCase() === currentChord?.name.toLowerCase()`: with no
   * chord the right-hand side is undefined and no string equals it.
   */
  predicate Matches(answer: string, current: Option<Chord>)
    ensures Matches(answer, current) ==> current.Some?
    ensures current.Some? ==> (Matches(answer, current) <==> Text.SameLettersIgnoringCase(answer, current.value.name))
  {
    if current.Some? then
      Text.EqualIgnoringCaseCharwise(answer, current.value.name);
      Text.EqualIgnoringCase(answer, current.value.name)
    else
      false
  }

  /** `${currentChord?.name}`: the chord's name, or the text "undefined" when there is none. */
  function ShownName(current: Option<Chord>): (shown: string)
    ensures current.Some? ==> shown == current.value.name
    ensures current.None? ==> shown == "undefined"
    ensures current.Some? && current.value in CHORDS ==> shown != "undefined"
  {
    if current.Some? then current.value.name else "undefined"
  }

  /** Submitting the answer form. The typed answer is left as it is. */
  function Submit(s: State): (r: State)
    ensures r.current == s.current && r.answer == s.answer
    ensures Matches(s.answer, s.current) ==> r.score == s.score + 1 && r.feedback == Feedback.CORRECT
    ensures !Matches(s.answer, s.current) ==> r.score == s.score && r.feedback == Feedback.Incorrect(ShownName(s.current))
  {
    if Matches(s.answer, s.current) then
      s.(feedback := Feedback.CORRECT, score := s.score + 1)
    else
      s.(feedback := Feedback.Incorrect(ShownName(s.current)))
  }

  /** A submission before any chord was generated is always wrong and names "undefined". */
  lemma SubmitWithoutChord(s: State)
    requires s.current == None
    ensures Submit(s).score == s.score
    ensures Submit(s).feedback == Feedback.Incorrect("undefined")
  {
  }

  /** Any capitalisation of the chord's name is accepted. */
  lemma AnyCaseAccepted(s: State, text: string)
    requires s.current.Some?
    requires Text.SameLettersIgnoringCase(text, s.current.value.name)
    ensures Submit(Type(s, text)).score == s.score + 1
  {
    Text.EqualIgnoringCaseCharwise(text, s.current.value.name);
  }

  /** The answer is not trimmed: a stray space around the right name makes it wrong. */
  lemma PaddedAnswerRejected(s: State)
    requires s.current.Some?
    ensures Submit(Type(s, s.current.value.name + " ")).score == s.score
    ensures Submit(Type(s, " " + s.current.value.name)).score == s.score
  {
    Text.DifferentLengthsNeverMatch(s.current.value.name + " ", s.current.value.name);
    Text.DifferentLengthsNeverMatch(" " + s.current.value.name, s.current.value.name);
  }

  /** The events that drive the quiz. */
  datatype Event = Generated(index: nat) | Typed(text: string) | Submitted

  predicate Allowed(e: Event) {
    e.Generated? ==> e.index < |CHORDS|
  }

  function Step(s: State, e: Event): State
    requires Allowed(e)
  {
    match e
    case Generated(i) => Generate(s, i)
    case Typed(text) => Type(s, text)
    case Submitted => Submit(s)
  }

  function Run(s: State, events: seq<Event>): State
    requires forall k :: 0 <= k < |events| ==> Allowed(events[k])
    decreases |events|
  {
    if events == [] then s else Run(Step(s, events[0]), events[1..])
  }

  function SubmitCount(events: seq<Event>): nat
    decreases |events|
  {
    if events == [] then 0 else (if events[0].Submitted? then 1 else 0) + SubmitCount(events[1..])
  }

  /**
   * The state invariant: the current chord, once there is one, comes from
   * the table, and the feedback is empty, the success message, or the
   * failure message naming the current chord.
   */
  predicate Consistent(s: State) {
    && (s.current.Some? ==> s.current.value in CHORDS)
    && (s.feedback == "" || s.feedback == Feedback.CORRECT || s.feedback == Feedback.Incorrect(ShownName(s.current)))
  }

  lemma StartConsistent()
    ensures Consistent(Start())
  {
  }

  lemma {:induction false} RunConsistent(s: State, events: seq<Event>)
    requires forall k :: 0 <= k < |events| ==> Allowed(events[k])
    requires Consistent(s)
    ensures Consistent(Run(s, events))
    decreases |events|
  {
    if events != [] {
      var t := Step(s, events[0]);
      assert Consistent(t);
      RunConsistent(t, events[1..]);
    }
  }

  /** The score never falls, and rises by at most one per submission. */
  lemma {:induction false} RunScoreBounds(s: State, events: seq<Event>)
    requires forall k :: 0 <= k < |events| ==> Allowed(events[k])
    ensures s.score <= Run(s, events).score <= s.score + SubmitCount(events)
    decreases |events|
  {
    if events != [] {
      var t := Step(s, events[0]);
      RunScoreBounds(t, events[1..]);
    }
  }

  /** The component, whose state hooks become fields updated in place. */
  class ChordsQuiz {
    var currentChord: Option<Chord>
    var userAnswer: string
    var feedback: string
    var score: nat

    function Snapshot(): State
      reads this
    {
      State(currentChord, userAnswer, feedback, score)
    }

    /**
     * Mount: the state hooks take their initial values, then the mount effect
     * generates the first chord with the drawn `index`.
     */
    constructor (index: nat)
      requires index < |CHORDS|
      ensures Snapshot() == Generate(Start(), index)
    {
      currentChord := None;
      userAnswer := "";
      feedback := "";
      score := 0;
      new;
      GenerateNewChord(index);
    }

    method GenerateNewChord(index: nat)
      requires index < |CHORDS|
      modifies this
      ensures Snapshot() == Generate(old(Snapshot()), index)
    {
      currentChord := Some(CHORDS[index]);
      userAnswer := "";
      feedback := "";
    }

    method SetUserAnswer(text: string)
      modifies this
      ensures Snapshot() == Type(old(Snapshot()), text)
    {
      userAnswer := text;
    }

    method HandleSubmit()
      modifies this
      ensures Snapshot() == Submit(old(Snapshot()))
    {
      if currentChord.Some? && Text.Lower(userAnswer) == Text.Lower(currentChord.value.name) {
        feedback := Feedback.CORRECT;
        score := score + 1;
      } else {
        var shown := if currentChord.Some? then currentChord.value.name else "undefined";
        feedback := Feedback.Incorrect(shown);
      }
    }
  }
}
