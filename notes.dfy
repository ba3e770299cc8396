/**
 * The single-note reading quiz: a fixed table of treble-clef notes, one
 * current note, a feedback message and a score. A click on an answer button
 * is judged by the note's name only.
 */
module Notes {
  import Feedback

  /** A table entry: the solfège name shown on buttons and the pitch key the staff draws. */
  datatype Note = Note(name: string, key: string)

  /**
   * The note table, quirks included: "Do" occurs at c/4 and at c/5, and the
   * last "Si" repeats key b/4 rather than b/5.
   */
  const NOTES: seq<Note> := [
    Note("Do", "c/4"),
    Note("Re", "d/4"),
    Note("Mi", "e/4"),
    Note("Fa", "f/4"),
    Note("Sol", "g/4"),
    Note("La", "a/4"),
    Note("Si", "b/4"),
    Note("Do", "c/5"),
    Note("Re", "d/5"),
    Note("Mi", "e/5"),
    Note("Fa", "f/5"),
    Note("Sol", "g/5"),
    Note("La", "a/5"),
    Note("Si", "b/4")
  ]

  /** The answer buttons: the first seven table entries. */
  const BUTTONS: seq<Note> := NOTES[..7]

  /** The table's two duplicates, as written. */
  lemma NoteTableQuirks()
    ensures |NOTES| == 14
    ensures NOTES[0].name == NOTES[7].name == "Do" && NOTES[0].key != NOTES[7].key
    ensures NOTES[6].key == NOTES[13].key == "b/4"
  {
  }

  /** A selected note answers the current one when their names agree; keys are not looked at. */
  predicate Answers(selected: Note, current: Note)
    ensures selected == current ==> Answers(selected, current)
  {
    selected.name == current.name
  }

  /** Keys play no part in judging a click: only the two names do. */
  lemma AnswersIgnoresKeys(selected: Note, current: Note, selectedKey: string, currentKey: string)
    ensures Answers(selected, current) == Answers(Note(selected.name, selectedKey), Note(current.name, currentKey))
  {
  }

  /**
   * Every note the quiz can draw is answered by exactly one button (so the
   * single "Do" button answers both c/4 and c/5).
   */
  lemma EveryNoteHasExactlyOneButton(i: nat)
    requires i < |NOTES|
    ensures exists j :: 0 <= j < |BUTTONS| && Answers(BUTTONS[j], NOTES[i])
    ensures forall j, k :: 0 <= j < k < |BUTTONS| && Answers(BUTTONS[j], NOTES[i]) ==> !Answers(BUTTONS[k], NOTES[i])
  {
    assert Answers(BUTTONS[i % 7], NOTES[i]);
  }

  /**
   * Stem direction of a drawn note from its staff line (0 is the bottom
   * line): down (-1) from line 3 upwards, up (1) below.
   */
  function StemDirection(line: int): (d: int)
    ensures d == -1 || d == 1
    ensures d == -1 <==> line >= 3
  {
    if line >= 3 then -1 else 1
  }

  /** A higher note never gets a more upward stem than a lower one. */
  lemma StemDirectionMonotone(lower: int, higher: int)
    requires lower <= higher
    ensures StemDirection(higher) <= StemDirection(lower)
  {
  }

  /** The component's state: the note on the staff, the feedback text and the score. */
  datatype State = State(current: Note, feedback: string, score: nat)

  /** The state on mount, before the first generation runs. */
  function Start(): (s: State)
    ensures s.current == NOTES[0] && s.feedback == "" && s.score == 0
  {
    State(NOTES[0], "", 0)
  }

  /**
   * Picking a new note; `index` stands for the random draw
   * `Math.floor(Math.random() * NOTES.length)`. The timed auto-advance after
   * an answer is this same transition.
   */
  function Generate(s: State, index: nat): (r: State)
    requires index < |NOTES|
    ensures r.current == NOTES[index] && r.current in NOTES
    ensures r.feedback == "" && r.score == s.score
  {
    s.(current := NOTES[index], feedback := "")
  }

  /**
   * A click on an answer button. Feedback is not consulted: a click while a
   * message is still showing is judged again.
   */
  function Click(s: State, selected: Note): (r: State)
    ensures r.current == s.current
    ensures Answers(selected, s.current) ==> r.score == s.score + 1 && r.feedback == Feedback.CORRECT
    ensures !Answers(selected, s.current) ==> r.score == s.score && r.feedback == Feedback.Incorrect(s.current.name)
  {
    if Answers(selected, s.current) then
      s.(feedback := Feedback.CORRECT, score := s.score + 1)
    else
      s.(feedback := Feedback.Incorrect(s.current.name))
  }

  /** The events that drive the quiz: a generation with its drawn index, or a button click. */
  datatype Event = Generated(index: nat) | Clicked(selected: Note)

  predicate Allowed(e: Event) {
    e.Generated? ==> e.index < |NOTES|
  }

  function Step(s: State, e: Event): State
    requires Allowed(e)
  {
    match e
    case Generated(i) => Generate(s, i)
    case Clicked(n) => Click(s, n)
  }

  function Run(s: State, events: seq<Event>): State
    requires forall k :: 0 <= k < |events| ==> Allowed(events[k])
    decreases |events|
  {
    if events == [] then s else Run(Step(s, events[0]), events[1..])
  }

  function ClickCount(events: seq<Event>): nat
    decreases |events|
  {
    if events == [] then 0 else (if events[0].Clicked? then 1 else 0) + ClickCount(events[1..])
  }

  /**
   * The state invariant: the current note comes from the table and the
   * feedback is empty, the success message, or the failure message naming
   * the current note.
   */
  predicate Consistent(s: State) {
    && s.current in NOTES
    && (s.feedback == "" || s.feedback == Feedback.CORRECT || s.feedback == Feedback.Incorrect(s.current.name))
  }

  lemma StartConsistent()
    ensures Consistent(Start())
  {
  }

  lemma {:induction false} RunConsistent(s: State, events: seq<Event>)
    requires forall k :: 0 <= k < |events| ==> Allowed(events[k])
    requires Consistent(s)
    ensures Consistent(Run(s, events))
    decreases |events|
  {
    if events != [] {
      var t := Step(s, events[0]);
      assert Consistent(t);
      RunConsistent(t, events[1..]);
    }
  }

  /** The score never falls, and rises by at most one per click. */
  lemma {:induction false} RunScoreBounds(s: State, events: seq<Event>)
    requires forall k :: 0 <= k < |events| ==> Allowed(events[k])
    ensures s.score <= Run(s, events).score <= s.score + ClickCount(events)
    decreases |events|
  {
    if events != [] {
      var t := Step(s, events[0]);
      RunScoreBounds(t, events[1..]);
    }
  }

  /** Generations alone never change the score. */
  lemma {:induction false} GenerationsKeepScore(s: State, events: seq<Event>)
    requires forall k :: 0 <= k < |events| ==> Allowed(events[k])
    requires ClickCount(events) == 0
    ensures Run(s, events).score == s.score
  {
    RunScoreBounds(s, events);
  }

  /** Two right clicks on the same note, with no generation between them, score twice. */
  lemma RepeatedRightClickScoresTwice(s: State, selected: Note)
    requires Answers(selected, s.current)
    ensures Run(s, [Clicked(selected), Clicked(selected)]).score == s.score + 2
  {
    var once := Click(s, selected);
    assert Run(once, [Clicked(selected)]) == Run(Click(once, selected), []);
    var evs := [Clicked(selected), Clicked(selected)];
    assert evs[1..] == [Clicked(selected)];
  }

  /** The component, whose state hooks become fields updated in place. */
  class NotesQuiz {
    var currentNote: Note
    var feedback: string
    var score: nat

    function Snapshot(): State
      reads this
    {
      State(currentNote, feedback, score)
    }

    /**
     * Mount: the state hooks take their initial values, then the mount effect
     * generates the first note with the drawn `index`.
     */
    constructor (index: nat)
      requires index < |NOTES|
      ensures Snapshot() == Generate(Start(), index)
    {
      currentNote := NOTES[0];
      feedback := "";
      score := 0;
      new;
      GenerateNewNote(index);
    }

    method GenerateNewNote(index: nat)
      requires index < |NOTES|
      modifies this
      ensures Snapshot() == Generate(old(Snapshot()), index)
    {
      currentNote := NOTES[index];
      feedback := "";
    }

    method HandleNoteClick(selected: Note)
      modifies this
      ensures Snapshot() == Click(old(Snapshot()), selected)
    {
      if selected.name == currentNote.name {
        feedback := Feedback.CORRECT;
        score := score + 1;
      } else {
        feedback := Feedback.Incorrect(currentNote.name);
      }
    }
  }
}
