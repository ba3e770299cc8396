# Music reading quiz: quiz state machines and configuration store

This project models the logic of a browser quiz that teaches reading music. It has three parts:

- **Note quiz** (`Notes`). A fixed table of fourteen treble-clef notes and one current note. Seven answer buttons, judged by note name only. A feedback message and a score. A stem-direction rule for the drawn note.
- **Chord quiz** (`Chords`). A table of two active major triads and an optional current chord. A typed answer, judged by a case-insensitive match with the chord's name. Feedback and score. The rule that places "#" accidentals on the chord's keys.
- **Configuration store** (`ConfigStore`). A record holding a clef and a note count, with defaults. It is loaded from storage on mount and updated by a shallow merge of a partial patch. It is written back to storage after every change.

The two quiz components keep React state hooks. Each is modelled twice:

- as a pure `State` datatype with transition functions (`Generate`, `Click`, `Type`, `Submit`), which are the specification;
- as a class whose fields are the hooks and whose methods update them in place, each proved to match its transition function.

Lemmas over sequences of events prove the state invariant and the score bounds. The random index draw becomes an index parameter whose range is a precondition. The timed auto-advance after an answer is the same generate transition, called explicitly. The modules `Text` and `Feedback` hold the ASCII lower-casing and the two feedback messages shared by both quizzes.

## Model

| member | source | states |
|---|---|---|
| `Text.LowerChar` | src/components/Chords.tsx:137 | Lowering maps A–Z to a–z, leaves every other character alone, and never yields an upper-case letter |
| `Text.Lower` | src/components/Chords.tsx:137 | `toLowerCase` lowers each character in place: same length, the character at each position is `LowerChar` of the input's, and no upper-case ASCII letter remains |
| `Text.EqualIgnoringCase` | src/components/Chords.tsx:137 | The comparison of the two lowered strings: a match implies equal lengths, and every string matches itself |
| `Text.LowerIdempotent` | src/components/Chords.tsx:137 | Lowering twice equals lowering once |
| `Text.EqualIgnoringCaseCharwise` | src/components/Chords.tsx:137 | Comparing lowered strings is the same, in both directions, as equal length plus position-by-position agreement after lowering |
| `Text.EqualIgnoringCaseEquivalence` | src/components/Chords.tsx:137 | The case-insensitive match is reflexive, symmetric and transitive |
| `Text.DifferentLengthsNeverMatch` | src/components/Chords.tsx:137 | With no trimming, strings of different lengths never match |
| `Feedback.Incorrect` | src/components/Chords.tsx:142 | The failure message is the fixed prefix "Incorrecto. La respuesta correcta es ", then the right answer, then a final '.'; it is non-empty and differs from the success message |
| `Feedback.IncorrectInjective` | src/components/Notes.tsx:99 | Two different right answers give two different failure messages |
| `Notes.NoteTableQuirks` | src/components/Notes.tsx:9-24 | The table has 14 entries; "Do" appears at c/4 and c/5; the last "Si" repeats key b/4 |
| `Notes.EveryNoteHasExactlyOneButton` | src/components/Notes.tsx:116-122 | Each of the 14 drawable notes is answered by exactly one of the seven buttons `NOTES[0..7)` |
| `Notes.Answers` | src/components/Notes.tsx:94 | A click answers the current note when the names agree; a note always answers itself |
| `Notes.AnswersIgnoresKeys` | src/components/Notes.tsx:94 | Changing either note's key never changes whether the click is right |
| `Notes.StemDirection` | src/components/Notes.tsx:62-66 | The stem is down (-1) exactly when the key line is 3 or more, otherwise up (1) |
| `Notes.StemDirectionMonotone` | src/components/Notes.tsx:62-66 | A higher line never gets a more upward stem than a lower line |
| `Notes.Start` | src/components/Notes.tsx:27-29 | On mount the current note is `NOTES[0]`, feedback is empty and score is 0 |
| `Notes.Generate` | src/components/Notes.tsx:87-91 | Generation sets the current note to `NOTES[i]` for the drawn `i < 14`, clears feedback and keeps the score |
| `Notes.Click` | src/components/Notes.tsx:93-102 | A click whose name equals the current note's adds exactly 1 and shows "¡Correcto!". Any other click keeps the score and shows the failure message naming the current note. The current note never changes |
| `Notes.StartConsistent` | src/components/Notes.tsx:27-29 | The mount state satisfies the invariant: current note from the table, feedback empty, success, or failure naming it |
| `Notes.RunConsistent` | src/components/Notes.tsx:87-102 | Every sequence of generations and clicks preserves that invariant |
| `Notes.RunScoreBounds` | src/components/Notes.tsx:93-102 | Over any event sequence the score never falls and rises by at most one per click |
| `Notes.GenerationsKeepScore` | src/components/Notes.tsx:87-91 | A sequence with no clicks leaves the score unchanged |
| `Notes.RepeatedRightClickScoresTwice` | src/components/Notes.tsx:93-96 | Feedback is not consulted, so two right clicks before the next generation add 2 |
| `Notes.NotesQuiz.constructor` | src/components/Notes.tsx:77-79 | Mount: starting from the `useState` values, the mount effect generates the first note, so the fields are `Generate(Start(), i)` for the drawn `i` |
| `Notes.NotesQuiz.GenerateNewNote` | src/components/Notes.tsx:87-91 | The fields after the update are `Generate` of the fields before |
| `Notes.NotesQuiz.HandleNoteClick` | src/components/Notes.tsx:93-102 | The fields after the update are `Click` of the fields before |
| `Chords.ActiveChordsAreTriads` | src/components/Chords.tsx:16-25 | There are two active chords, each with three keys and three note names |
| `Chords.SharpPositions` | src/components/Chords.tsx:109-116 | An accidental goes exactly at the positions whose key contains "#", in increasing order; no other key gets one, flats included |
| `Chords.ActiveChordsSharpenTheThird` | src/components/Chords.tsx:16-25 | In both active chords only the middle key (index 1) contains "#" |
| `Chords.Start` | src/components/Chords.tsx:64-67 | On mount there is no chord, answer and feedback are empty and score is 0 |
| `Chords.Generate` | src/components/Chords.tsx:127-132 | Generation sets the chord to `CHORDS[i]` for the drawn `i < 2`, clears answer and feedback, and keeps the score |
| `Chords.Type` | src/components/Chords.tsx:166 | Typing replaces the answer and nothing else |
| `Chords.Matches` | src/components/Chords.tsx:137 | The optional-chained comparison: a match needs a current chord, and with one it holds exactly when the answer and the name agree letter by letter after lowering |
| `Chords.ShownName` | src/components/Chords.tsx:142 | `${currentChord?.name}`: the chord's name, or "undefined" with no chord; no active chord is shown as "undefined" |
| `Chords.Submit` | src/components/Chords.tsx:134-145 | A submission that matches the chord's name, ignoring case, adds exactly 1 and shows "¡Correcto!". Any other keeps the score and shows the failure message naming the chord ("undefined" when there is none). Answer and chord are left alone |
| `Chords.SubmitWithoutChord` | src/components/Chords.tsx:137-142 | With no current chord a submission is always wrong and the message names "undefined" |
| `Chords.AnyCaseAccepted` | src/components/Chords.tsx:137-139 | Any capitalisation of the chord's name is accepted and scores |
| `Chords.PaddedAnswerRejected` | src/components/Chords.tsx:137 | The right name with a leading or trailing space is rejected, because nothing is trimmed |
| `Chords.StartConsistent` | src/components/Chords.tsx:64-67 | The mount state satisfies the invariant: chord from the table if any, feedback empty, success, or failure naming the chord |
| `Chords.RunConsistent` | src/components/Chords.tsx:127-145 | Every sequence of generations, typing and submissions preserves that invariant |
| `Chords.RunScoreBounds` | src/components/Chords.tsx:134-145 | Over any event sequence the score never falls and rises by at most one per submission |
| `Chords.ChordsQuiz.constructor` | src/components/Chords.tsx:70-72 | Mount: starting from the `useState` values, the mount effect generates the first chord, so the fields are `Generate(Start(), i)` for the drawn `i` |
| `Chords.ChordsQuiz.GenerateNewChord` | src/components/Chords.tsx:127-132 | The fields after the update are `Generate` of the fields before |
| `Chords.ChordsQuiz.SetUserAnswer` | src/components/Chords.tsx:166 | The fields after the update are `Type` of the fields before |
| `Chords.ChordsQuiz.HandleSubmit` | src/components/Chords.tsx:134-145 | The fields after the update are `Submit` of the fields before |
| `ConfigStore.Merge` | src/hooks/useConfig.ts:25-27 | After an update every field of the patch has the patch's value, and every field absent from it keeps its previous value; no other field appears |
| `ConfigStore.Initial` | src/hooks/useConfig.ts:16-19 | The lazy initial state is the stored record exactly as parsed when one is stored, otherwise the well-formed default |
| `ConfigStore.InitialWithoutStorage` | src/hooks/useConfig.ts:10-18 | With nothing stored the loaded configuration is the default: clef treble, note count 1 |
| `ConfigStore.InitialNotMergedOntoDefaults` | src/hooks/useConfig.ts:17-18 | A stored record is used as parsed (the loaded configuration equals it), so a field it lacks is missing from the loaded configuration even though the defaults have it |
| `ConfigStore.MergeEmptyIsIdentity` | src/hooks/useConfig.ts:26 | An empty patch leaves the configuration unchanged |
| `ConfigStore.MergeIdempotent` | src/hooks/useConfig.ts:26 | Applying the same patch twice equals applying it once |
| `ConfigStore.MergeLaterWins` | src/hooks/useConfig.ts:26 | Updating with `p` and then with `q` equals one update with `q` laid over `p` |
| `ConfigStore.MergeKeepsWellFormed` | src/hooks/useConfig.ts:5-8 | A patch of the declared field types keeps a complete, well-typed configuration complete and well-typed |
| `ConfigStore.AnyNotesCountAccepted` | src/hooks/useConfig.ts:25-27 | Any note count in a patch is taken as it is; there is no range check |
| `ConfigStore.ConfigHook.constructor` | src/hooks/useConfig.ts:16-23 | On mount the configuration is the loaded one, and the stored item equals it |
| `ConfigStore.ConfigHook.UpdateConfig` | src/hooks/useConfig.ts:21-27 | After an update the configuration is the merge of the old one with the patch, and the stored item equals the new configuration |

## Left out

- Drawing: the VexFlow renderer, stave, voice, formatter, sizes and scaling in both `renderStaff` functions. Only the stem rule and the choice of accidental positions are kept.
- `getKeyLine`: this is the rendering library's own computation. `Notes.StemDirection` takes the line as an integer input.
- `Math.random()`: it becomes the index argument of `Generate`, with a range precondition.
- `setTimeout` auto-advance: the 1500 ms and 2500 ms delays and the timers are not modelled. The advance is the generate transition, called explicitly. Pending timers are not cancelled in the source, so several clicks schedule several advances; the model has no timers to count them.
- The mount effects: both quiz classes fold the first generation into their constructors. So the `Start` states, `NOTES[0]` and the no-chord state, exist only between the first render and that effect; `Chords.SubmitWithoutChord` covers a submission in that window, which the `Start` state and the event runs still allow.
- React rendering: the batching of state updates and the one-render delay before an effect runs. A transition and its effect are modelled as one step. For the configuration this means the stored item equals the configuration after every step, not between `setConfig` and its effect.
- The HTML `required` attribute on the answer input: in a browser it blocks submitting an empty answer. `Chords.Submit` accepts any answer, empty included; an empty answer is judged wrong there anyway.
- Text.Lower: covers ASCII letters only, not full Unicode `toLowerCase`. This is exact for the chord names, but a typed answer with non-ASCII capitals is lowered differently in the source.
- Feedback colouring (`feedback.includes("Correcto")`) is display only.
- `localStorage`, `JSON.stringify` and `JSON.parse`. Storage is a field holding an optional record, and serialising is the identity. A malformed stored item makes `JSON.parse` throw in the source; the model has no such item and no fallback. A stored empty string, which is falsy and so loads the defaults, cannot arise from `JSON.stringify` and is not modelled.
- ConfigStore.Merge: a patch field explicitly set to `undefined` is not modelled. Spreading such a field overrides the old value with `undefined`.
- Field values are clef names or integers. Non-integer, NaN or unsafe-size numbers and other JSON values a stored item could hold are not modelled.
- Scores are unbounded naturals. JavaScript numbers lose precision above 2^53, far beyond any reachable score.
- `src/hooks/useAudio.ts`: oscillators, gain ramps, the floating-point frequency table and timed playback. `src/AppContainer.tsx`: Tone.js start-up and the welcome screen. `src/components/ClefButton.tsx`, `src/components/Home.tsx`, `src/App.tsx`, `src/components/WelcomeScreen.tsx` and `tailwind.config.js`: UI, routing and styling.
