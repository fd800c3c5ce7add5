# Grammar quiz session engine in Dafny

This project models the logic of a single-page English grammar quiz. The
page offers a fixed question bank. The learner filters it by difficulty and
grade, starts a session, and works through the filtered questions one at a
time: pick an option, submit it (which locks it in and may score a point),
move on. After the last question the result page shows the score, a rounded
percentage and one of three messages. Restart goes back to the welcome page.

Modules:

- `Types` (`types.dfy`): the `Difficulty`, `Grade` and `GrammarPoint`
  enumerations and the `Option`, `Explanation` and `Question` records. It
  also holds the `find` lookup used when scoring, and the well-formedness
  predicates the engine relies on: at least two options, distinct option
  ids, exactly one correct option, an explanation naming the correct text,
  and a sentence carrying the blank marker `______`.
- `Bank` (`bank.dfy`): the eight questions of `QUESTION_BANK`, in their
  order and with their text, plus proofs that the bank is well-formed. Every
  sentence is written as `prefix + Blank + suffix`, which is the same string
  as the literal.
- `Selection` (`selection.dfy`): the `filteredQuestions` filter as a pure
  function over an injected bank. `All` stands for the page's `'all'`.
  Proved: the result is an order-preserving subsequence of the bank, it
  contains every matching question, and it is idempotent.
- `Grading` (`grading.dfy`): the result percentage in integers, computed as
  `(200*score + total) / (2*total)` to round half up, and the three-way
  message tier.
- `Engine` (`engine.dfy`): the page state as a value. It has one transition
  function per handler and the derived progress and result values. It also
  proves the invariants that hold along any sequence of user actions.
- `App` (`app.dfy`): the page as a class `QuizApp`. Its fields are the
  page's state variables, and there is one method per handler that updates
  those fields in place. Each method is proved to make exactly the
  transition of the matching `Engine` function and to keep the invariant
  `Valid()`.
- `Walkthrough` (`walkthrough.dfy`): consequences for the concrete bank.
  - The lower-primary grade filter selects nothing, so start is blocked.
  - A submit over the bank scores exactly when the chosen id is the correct
    option's id.
  - One complete session is traced over the two advanced questions.

Some handlers are reachable in the source only through the page's buttons,
so this model spells out guards the source leaves to the UI:

- Start is disabled for an empty list.
- Submit is shown only before submitting.
- Next is shown only after submitting.
- Each handler's button lives on one page only.

When one of these actions is not offered, the transition returns
`Refused(reason)` and the state is unchanged. When a handler returns early
on its own, the outcome is `Ignored`: select after submit, or submit
without a selection.

On these points the model follows the code:

- Submit without a selection is a silent no-op, not an error. A selection
  that is the empty string counts as no selection, because the code tests
  `!selectedAnswers[id]`. Keys inherited by every JavaScript object are not
  modelled (see "## Left out").
- Select after submit is a silent no-op.
- The option id given to select is not checked against the question's
  options. An unknown id never scores.
- Restart only switches back to the welcome page. Index, answers, score,
  submitted flag and filters keep their values until the next start.
- Progress is computed from the stored index and flag on every page, not
  only during a session. Its denominator is the length of the current
  filtered list, and that length can be zero on the welcome page.

## Model

| member | source | states |
|---|---|---|
| Types.FindOption | src/App.tsx:71 | `find` returns nothing exactly when no option has the id; otherwise it returns the first option carrying that id |
| Types.CorrectCountIsOne | src/types.ts:51-56 | counting the options marked correct gives 1 exactly when exactly one option is correct |
| Types.CorrectCountZero | src/types.ts:51-56 | the count is 0 exactly when no option is correct |
| Types.PicksCorrect | src/App.tsx:71-72 | `selectedOption?.isCorrect`: holds iff some option carries the id and the first one that does is marked correct |
| Types.PicksCorrectIff | src/App.tsx:71-74 | with distinct option ids and the single correct option at `k`, a chosen id scores iff it is the id of option `k` |
| Bank.FourOptionQuestion | src/types.ts:51-56 | four distinct options, one correct, its text named by the explanation, and a blank make a well-formed question |
| Bank.Question1WellFormed | src/types.ts:48-66 | question 1 is well-formed: options a-d distinct, only "Although" correct and named by the explanation, blank at the start |
| Bank.Question2WellFormed | src/types.ts:67-85 | question 2 is well-formed, "who" being its only correct option |
| Bank.Question3WellFormed | src/types.ts:86-104 | question 3 is well-formed, "Having finished" being its only correct option |
| Bank.Question4WellFormed | src/types.ts:105-123 | question 4 is well-formed, "where" being its only correct option |
| Bank.Question5WellFormed | src/types.ts:124-142 | question 5 is well-formed, "permitting" being its only correct option |
| Bank.Question6WellFormed | src/types.ts:143-161 | question 6 is well-formed, "unless" being its only correct option |
| Bank.Question7WellFormed | src/types.ts:162-180 | question 7 is well-formed, "that" being its only correct option |
| Bank.Question8WellFormed | src/types.ts:181-199 | question 8 is well-formed, "went" being its only correct option |
| Bank.QuestionIdsDistinct | src/types.ts:47-200 | the question ids of the bank are pairwise distinct |
| Bank.QuestionBankWellFormed | src/types.ts:47-200 | the whole bank is well-formed: distinct question ids and every question well-formed |
| Bank.NoPrimaryLowQuestion | src/types.ts:47-200 | no question of the bank has the lower-primary grade |
| Selection.Select | src/App.tsx:45-51 | the filtered list is no longer than the bank and every element matches both filters |
| Selection.MatchingFrom | src/App.tsx:45-51 | reference definition: the matching bank positions from a start, strictly increasing, each in range and matching |
| Selection.MatchingFromComplete | src/App.tsx:45-51 | every matching position from the start is among those positions |
| Selection.MatchingIndicesComplete | src/App.tsx:45-51 | every matching position of the bank is among the matching positions |
| Selection.SelectFromIndices | src/App.tsx:45-51 | filtering a suffix picks out exactly the questions at the matching positions of that suffix, in order |
| Selection.SelectIsOrderedSubsequence | src/App.tsx:45-51 | the filtered list is the bank read at the strictly increasing matching positions: an order-preserving subsequence |
| Selection.SelectComplete | src/App.tsx:45-51 | every matching question of the bank is in the filtered list |
| Selection.SelectSuffix | src/App.tsx:45-51 | filtering from position `k` keeps question `k` exactly when it matches, followed by the filtered rest |
| Selection.SelectAppend | src/App.tsx:45-51 | filtering a concatenation is the concatenation of the filtered parts |
| Selection.SelectAllKeepsBank | src/App.tsx:45-51 | with both filters at "all" the list is the whole bank |
| Selection.SelectIdempotent | src/App.tsx:45-51 | filtering a filtered list again with the same filters changes nothing |
| Selection.SelectEmptyIff | src/App.tsx:45-51 | the list is empty exactly when no question of the bank matches |
| Selection.SelectKeepsDistinctIds | src/App.tsx:45-51 | distinct question ids in the bank stay distinct in the list |
| Grading.Percentage | src/App.tsx:392 | the percentage is 100*score/total rounded half up (`2*total*p - 200*score` lies in `(-total, total]`) and is at most 100 |
| Grading.PercentageFullIff | src/App.tsx:392 | for fewer than 200 questions the percentage is 100 iff every answer was right |
| Grading.PercentageRoundsUpToFull | src/App.tsx:392 | with 199 right of 200 the percentage rounds up to 100 while the message is the "good" one |
| Grading.TierAgreesWithPercentage | src/App.tsx:392-400 | the "master" message comes with 100, the "good" one with at least 50, the third with at most 50 |
| Grading.TierOf | src/App.tsx:398-400 | the message tier: master when all right, else good when more than half right, else keep practising; no contract of its own, its properties are `Grading.TierAgreesWithPercentage`, `Grading.TierMonotone` and `Engine.ResultSummary` |
| Grading.TierMonotone | src/App.tsx:398-400 | a higher score never earns a lower message tier |
| Engine.Questions | src/App.tsx:45-51 | the session's list is the bank filtered by the state's filters, so every element matches both filters |
| Engine.HasSelection | src/App.tsx:69 | the truthiness test `selectedAnswers[id]`: a recorded answer that is not the empty string; no contract of its own, it is the guard in `Engine.Submit`'s contract |
| Engine.Current | src/App.tsx:53 | the question on screen, defined on the quiz page, matches both filters |
| Engine.Tally | src/App.tsx:68-77 | counting the correct locked-in answers among the first `n` questions gives at most `n` |
| Engine.SetDifficulty | src/App.tsx:174 | the difficulty filter changes only on the welcome page; the list becomes the bank filtered by the new difficulty, and every other field is unchanged |
| Engine.SetGrade | src/App.tsx:154 | the grade filter changes only on the welcome page; the list becomes the bank filtered by the new grade, and every other field is unchanged |
| Engine.Start | src/App.tsx:55-61 | start succeeds iff on the welcome page with a non-empty list, and an empty list is refused with nothing changed; success gives index 0, no answers, not submitted, score 0, the quiz page, the same filters and list, and the invariants |
| Engine.SelectOption | src/App.tsx:63-66 | on the quiz page before submitting, the current question's answer becomes the chosen id and every other entry and field is unchanged; after submitting it is ignored |
| Engine.Submit | src/App.tsx:68-77 | with a non-empty recorded answer and not yet submitted, submit locks the answer in and raises the score by one iff the answer is correct; without one it is ignored; a second submit is refused |
| Engine.Next | src/App.tsx:79-87 | after submitting, next stays on the quiz page iff the question is not the last, moving to the following question with the flag cleared; on the last question it goes to the result page with the index unchanged; answers, score and filters stay; before submitting it is refused |
| Engine.Restart | src/App.tsx:89-91 | restart from the result page changes only the page, back to welcome |
| Engine.Apply | src/App.tsx:55-91 | every action keeps the invariant; a refused or ignored action changes nothing |
| Engine.Run | src/App.tsx:55-91 | the invariant holds after every sequence of actions: on the quiz page the index is in range, and the score never exceeds the finished questions |
| Engine.RunAppend | src/App.tsx:55-91 | two sequences of actions run one after the other act as their concatenation |
| Engine.Progress | src/App.tsx:93 | the numerator is the finished count (index, plus one once submitted) and the denominator the list length; on the quiz page it lies in `[0, 1]` and is full iff the last question is submitted; on the result page it is full |
| Engine.ProgressMoves | src/App.tsx:55-91 | a start sets the bar's count to 0, a submit raises it by one, and next, select, restart and the filters keep it |
| Engine.ResultSummary | src/App.tsx:392-403 | on the result page the total is the (non-zero) list length and the score at most the total; the percentage is `Percentage(score, total)`, i.e. 100*score/total rounded half up (two-sided bound), at most 100; the tier is master iff all right, else good iff more than half right |
| Engine.SelectLastWriteWins | src/App.tsx:63-66 | choosing twice leaves the same state as choosing the second option alone |
| Engine.SubmitOnlyOnce | src/App.tsx:308-322 | after a successful submit a second submit is refused and changes nothing |
| Engine.SubmitScoresCorrectId | src/App.tsx:68-77 | for a question with distinct option ids and one correct option, submit scores iff the recorded id is that option's id |
| Engine.ScoreNeverDrops | src/App.tsx:55-91 | no action but start lowers the score |
| Engine.RunScoreNeverDrops | src/App.tsx:55-91 | along any sequence of actions without a start the score never drops |
| Engine.TallyFrame | src/App.tsx:68-77 | the tally depends only on the answers recorded for the questions it counts |
| Engine.TallyIgnoresOtherIds | src/App.tsx:63-66 | recording an answer for one question leaves the tally of earlier, distinct questions unchanged |
| Engine.ApplyKeepsTally | src/App.tsx:55-91 | with distinct question ids, every action keeps the score equal to the number of finished questions answered correctly |
| Engine.RunKeepsTally | src/App.tsx:55-91 | the same holds after any sequence of actions |
| Engine.ResultScore | src/App.tsx:55-91 | from a fresh page, on the result page the score is at most the number of questions, and with distinct ids it is exactly the number answered correctly |
| App.QuizApp.constructor | src/App.tsx:36-43 | a fresh page: welcome, both filters "all", index 0, no answers, not submitted, score 0 |
| App.QuizApp.FilteredQuestions | src/App.tsx:45-51 | the memoised list is the bank read at its positions matching the current filter fields, in increasing order |
| App.QuizApp.SetFilterDifficulty | src/App.tsx:174 | updates the fields exactly as `Engine.SetDifficulty` describes and keeps `Valid()` |
| App.QuizApp.SetFilterGrade | src/App.tsx:154 | updates the fields exactly as `Engine.SetGrade` describes and keeps `Valid()` |
| App.QuizApp.HandleStart | src/App.tsx:55-61 | updates the fields exactly as `Engine.Start` describes and keeps `Valid()` |
| App.QuizApp.HandleSelect | src/App.tsx:63-66 | updates the answers map in place exactly as `Engine.SelectOption` describes and keeps `Valid()` |
| App.QuizApp.HandleSubmit | src/App.tsx:68-77 | updates score and flag exactly as `Engine.Submit` describes and keeps `Valid()` |
| App.QuizApp.HandleNext | src/App.tsx:79-87 | updates index, flag or page exactly as `Engine.Next` describes and keeps `Valid()` |
| App.QuizApp.HandleRestart | src/App.tsx:89-91 | updates the page exactly as `Engine.Restart` describes and keeps `Valid()` |
| App.QuizApp.Dispatch | src/App.tsx:55-91 | runs the handler of an action, acting as `Engine.Apply` |
| Walkthrough.PrimaryLowSelectsNothing | src/types.ts:47-200 | filtering the bank for the lower-primary grade gives the empty list, whatever the difficulty |
| Walkthrough.PrimaryLowBlocksStart | src/App.tsx:192 | with that grade chosen, start is refused for lack of questions and nothing changes |
| Walkthrough.BankSelectionsDistinct | src/App.tsx:45-51 | every filtered list of the bank has distinct question ids |
| Walkthrough.BankResultScore | src/App.tsx:398-403 | over the bank, a session reaching the result page scores exactly its correctly answered questions |
| Walkthrough.CurrentIsWellFormed | src/App.tsx:53 | every question a session over the bank shows is well-formed |
| Walkthrough.BankSubmitScoresIff | src/App.tsx:68-77 | over the bank, submit scores iff the recorded id is the id of the correct option |
| Walkthrough.AdvancedOfLayout | src/App.tsx:45-51 | in a bank whose difficulties are laid out as in the question bank, the advanced filter keeps the third and fifth questions |
| Walkthrough.AdvancedQuestions | src/types.ts:86-142 | the advanced filter selects questions 3 and 5, in that order |
| Walkthrough.TwoQuestionOpening | src/App.tsx:55-77 | choose, start, pick a wrong "a", submit: the first answer is locked in without scoring |
| Walkthrough.TwoQuestionClosing | src/App.tsx:63-87 | next, pick a right "b", submit, next: one point and the result page |
| Walkthrough.TwoQuestionSession | src/App.tsx:55-91 | the whole session over any two such questions ends 1 of 2, 50, keep-practising message |
| Walkthrough.AdvancedSessionResult | src/App.tsx:55-91 | over the bank that session ends on the result page with 1 of 2, 50, keep-practising message |

The constants are not table members: `Bank.Question1` to `Bank.Question8`
model src/types.ts:48-199 one question each, `Bank.QuestionBank` models
src/types.ts:47-200, and `Engine.Initial` models the initial values at
src/App.tsx:36-43. Their contents are what the `Bank` lemmas and
`App.QuizApp.constructor` state.

## Left out

- Rendering, styling, icons, animations and the copy text of the page are
  not modelled. They are presentation.
- `showExplanation` is not modelled. It is read only in the card test
  `submitted && showExplanation` (src/App.tsx:329), and there it equals
  `submitted`: submit sets both flags and next clears both, so `submitted`
  implies `showExplanation`. Start does not clear it (src/App.tsx:55-61), so
  its own value can differ from `submitted`: after a finished session,
  restart and start, it is still true while `submitted` is false.
- The static review list on the result page is not modelled.
- The `@google/genai` import is not modelled. It is unused.
- The React hook mechanism (`useState`, `useMemo`, batched updates) is not
  modelled. The state is plain fields or a plain value, and the filtered
  list is recomputed from the filters.
- Floating-point division and `Math.round` are replaced by integers.
  Progress is a numerator/denominator pair. The percentage rounds half up
  exactly, so near-half values may round differently from IEEE doubles.
- Splitting the sentence on the blank for display is not modelled.
  `ContainsBlank` only states that the marker is present.
- The display strings of the enumerations, such as "初级", are not modelled.
  The enumerations are plain datatypes.
- The wiring of the filter buttons is not modelled. Choosing a filter is an
  action with a filter value.
- Grading.PercentageFullIff: states "100 iff all right" only for fewer than
  200 questions. From 200 questions on it is false: 199 of 200 rounds to 100
  (`Grading.PercentageRoundsUpToFull`). The bank has eight questions.
- Engine.Progress: the welcome page is not given the value 0. The code's
  expression is kept as written, and on that page it reads stale values,
  possibly over an empty list.
- Engine.HasSelection: does not model keys that every JavaScript object
  inherits. `selectedAnswers` starts as `{}` (src/App.tsx:38). For a
  question whose id is such a key, like "constructor" or "toString",
  `!selectedAnswers[id]` is false even with no selection. The code would then
  set `submitted` without scoring, and the submit button would be enabled.
  The model treats such an id like any other and returns `Ignored`. The
  bank's ids are "1" to "8", so this never arises for it.
