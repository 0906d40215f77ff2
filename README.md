# Kanji flash-card quiz: session state machine

`kanji_streamlit_app.py` is a Streamlit page that quizzes one user on Japanese kanji, asking for
the Korean meaning (뜻), the Korean reading (음) or both. Everything it remembers lives in the
per-session state bag: the read-only `kanji_data`, `current_index`, the `score` counters
`correct` and `total`, `show_answer`, the answer buffers `user_meaning` and `user_reading`, the
`mode` (`"meaning"`, `"reading"` or `"both"`) and `quiz_completed`, which is absent until first
assigned. The handlers `reset_inputs`, `check_answer`, `next_kanji`, `reset_quiz`, the three mode
buttons and the "결과 보기" (show results) button change that bag in place; answers are graded by
comparing the trimmed input with the entry by exact string equality.

The model has four modules:

- `Text` (text.dfy): Python's `str.strip()` with no argument. `IsWhitespace` is the character
  set of Python's `str.isspace`, including the ideographic space U+3000. `Strip` is proved to
  be the unique slice with only whitespace cut from either end (`StripCharacterised`). It is
  also proved idempotent, to be the identity exactly on strings with no whitespace at either
  end, and to ignore added padding.
- `Quiz` (quiz.dfy): the entries, the session record as a value, the scoring rule `IsCorrect`
  (written once, used both for scoring and for the revealed verdict), and each handler as a
  transition function. `Enabled` says which action the page offers in which state, following
  the branches of `main`. `Run` applies a sequence of actions in order. One run of the page
  performs a short sequence of them: a click on the check button first writes the text boxes
  back and then checks, and a mode button or a sidebar restart is likewise accompanied by the
  write-back of the text boxes.
- `QuizProperties` (quiz_properties.dfy): what these transitions promise, for one step and for
  any sequence of steps.
- `App` (app.dfy): class `SessionState`, whose fields are the state bag and whose methods are
  the handlers. They update the fields in place, and each is proved to perform the matching
  `Quiz` transition on `Model()`.

`quiz_completed` is an `Option<bool>`, `None` at first. `Completed` treats `None` as false, as
the `hasattr` test of line 109 does. The `score` dictionary is a `Score` value that the
handlers update or replace.

## Model

| member | source | states |
|---|---|---|
| Text.LeadingEnd | kanji_streamlit_app.py:44-49 | the leading whitespace run that `strip()` removes: all whitespace, followed by a non-whitespace character or the end |
| Text.TrailingStart | kanji_streamlit_app.py:44-49 | the trailing whitespace run that `strip()` removes: all whitespace, preceded by a non-whitespace character or the start |
| Text.Strip | kanji_streamlit_app.py:44-49 | `strip()` returns a slice of its input with only whitespace outside it and no whitespace at its own ends |
| Text.StripCharacterised | kanji_streamlit_app.py:44-49 | a string is such a stripped slice of `s` if and only if it equals `Strip(s)`, so the result is unique |
| Text.StripIdempotent | kanji_streamlit_app.py:44-49 | stripping twice gives the same result as stripping once |
| Text.StripFixes | kanji_streamlit_app.py:44-49 | `strip()` leaves a string unchanged exactly when neither end is whitespace |
| Text.StripIgnoresPadding | kanji_streamlit_app.py:44-49 | whitespace added around a string does not change the stripped result |
| Text.IsWhitespace | kanji_streamlit_app.py:44-49 | the characters `strip()` removes: those of Python's `str.isspace` (TAB..CR, FS..US, SPACE, NEL, NO-BREAK SPACE, OGHAM SPACE MARK, EN QUAD..HAIR SPACE, LINE and PARAGRAPH SEPARATOR, NARROW NO-BREAK SPACE, MEDIUM MATHEMATICAL SPACE, IDEOGRAPHIC SPACE) |
| Quiz.Initial | kanji_streamlit_app.py:19-33 | the session after the first `init_session_state`: card 0, score 0/0, empty buffers, answer hidden, mode "both", no `quiz_completed` key |
| Quiz.ResetInputs | kanji_streamlit_app.py:35-38 | both buffers empty and the answer hidden, every other field unchanged |
| Quiz.Verdict | kanji_streamlit_app.py:165-176 | the verdict of the revealed view holds iff every field the mode asks for equals the current card's after trimming |
| Quiz.NextKanji | kanji_streamlit_app.py:58-63 | keeps the index inside the data, keeps score and mode, and either advances by exactly one card or stays and marks the quiz completed |
| Quiz.ResetQuiz | kanji_streamlit_app.py:65-69 | card 0, score 0/0, not completed, empty buffers, answer hidden, the mode kept |
| Quiz.SelectMode | kanji_streamlit_app.py:82-92 | the chosen mode with empty buffers and the answer hidden; index, score and completion flag kept |
| Quiz.ShowResults | kanji_streamlit_app.py:203-205 | the quiz is completed and nothing else changes |
| Quiz.EnterAnswer | kanji_streamlit_app.py:143-157 | the meaning buffer takes the typed text only in "meaning"/"both", the reading buffer only in "reading"/"both"; nothing else changes |
| Quiz.Enabled | kanji_streamlit_app.py:82-217 | which action the page offers: mode buttons always (82-92); restart always, from the sidebar (215) or the completion screen (124); text boxes and check only before the answer is revealed and before completion (142-162); "next" on a revealed card before the last (198-201) and "show results" on the last (202-205) |
| Quiz.IsCorrect | kanji_streamlit_app.py:43-50 | an answer is correct iff every field the mode asks for (meaning in "meaning"/"both", reading in "reading"/"both") equals the entry's after trimming |
| Quiz.CheckAnswer | kanji_streamlit_app.py:40-56 | grading adds exactly 1 to `total`, adds 1 to `correct` exactly when the verdict shown afterwards is correct, sets `show_answer`, and changes nothing else |
| Quiz.Step | kanji_streamlit_app.py:35-205 | any handler keeps the index inside the data and keeps `correct <= total` |
| Quiz.Run | kanji_streamlit_app.py:35-205 | any sequence of handler calls keeps the index inside the data and keeps `correct <= total` |
| QuizProperties.ExactAnswerAccepted | kanji_streamlit_app.py:43-50 | typing the entry's own text is graded correct exactly when each asked field has no whitespace at either end |
| QuizProperties.UnstrippedFieldUnanswerable | kanji_streamlit_app.py:43-50 | if an asked field of the entry has whitespace at an end, no input is ever graded correct |
| QuizProperties.PaddingIgnored | kanji_streamlit_app.py:43-50 | whitespace typed around either answer does not change the verdict |
| QuizProperties.BothIsConjunction | kanji_streamlit_app.py:47-50 | "both" accepts exactly what "meaning" and "reading" each accept |
| QuizProperties.CheckAnswerKeepsValid | kanji_streamlit_app.py:40-56 | from a valid session, grading keeps it valid and adds 1 to `correct` exactly when the current card is answered correctly |
| QuizProperties.NextKanjiBeforeLast | kanji_streamlit_app.py:58-61 | before the last card, the index goes up by exactly 1, both buffers are emptied, the answer is hidden, and the score, mode and completion flag are kept |
| QuizProperties.NextKanjiAtLast | kanji_streamlit_app.py:58-63 | on the last card, only `quiz_completed` is set to true; a second call changes nothing and the index stays inside the data |
| QuizProperties.OfferedNextAdvances | kanji_streamlit_app.py:198-205 | when the page offers "next", it always advances; the completion branch of `next_kanji` is never taken from the page |
| QuizProperties.ResetQuizRestores | kanji_streamlit_app.py:65-69 | restarting gives card 0, score 0/0, not completed, empty buffers, a hidden answer and the unchanged mode |
| QuizProperties.ResetQuizForgets | kanji_streamlit_app.py:65-69 | two sessions with the same mode restart to the same state, whatever their prior state |
| QuizProperties.SelectModeClears | kanji_streamlit_app.py:82-92 | a mode button sets the mode, empties both buffers and hides the answer; the card, score and completion flag stay |
| QuizProperties.RunAppend | kanji_streamlit_app.py:35-92 | running two sequences of actions one after the other is running their concatenation |
| QuizProperties.RunCountsChecks | kanji_streamlit_app.py:52-54 | without a restart, `total` grows by exactly the number of checks, and `correct` never decreases |
| QuizProperties.StepCountsCheck | kanji_streamlit_app.py:52-54 | one action other than a restart adds 1 to `total` exactly when it is a check, and never lowers `correct` |
| QuizProperties.RunAfterRestart | kanji_streamlit_app.py:65-69 | after the last restart, `total` equals the number of checks made since it |
| QuizProperties.StepKeepsPageInvariant | kanji_streamlit_app.py:109-205 | an action the page offers keeps the page invariant: the session is valid, at least one answer was checked per card passed, and completion only happens on the last card after at least as many checks as cards |
| QuizProperties.OfferedRunKeepsPageInvariant | kanji_streamlit_app.py:109-205 | every sequence of offered actions keeps the page invariant |
| QuizProperties.ReachableStatesKeepPageInvariant | kanji_streamlit_app.py:19-217 | every state reachable from a fresh session through the page satisfies the page invariant |
| QuizProperties.RevealedVerdictStable | kanji_streamlit_app.py:165-205 | while the answer stays revealed, no action the page offers changes the shown verdict or the score |
| QuizProperties.DisplayedVerdictIsCounted | kanji_streamlit_app.py:169-176 | the verdict shown after a check is the one that was counted, for as long as the answer stays revealed |
| App.SessionState.constructor | kanji_streamlit_app.py:19-33 | a fresh session is at card 0 with score 0/0, empty buffers, a hidden answer, mode "both" and no completion flag |
| App.SessionState.ResetInputs | kanji_streamlit_app.py:35-38 | empties both buffers, hides the answer and changes nothing else |
| App.SessionState.CheckAnswer | kanji_streamlit_app.py:40-56 | updates the fields in place as `Quiz.CheckAnswer`: `total` + 1, `correct` + 1 exactly when the displayed verdict is correct, answer shown, index, mode and buffers kept |
| App.SessionState.NextKanji | kanji_streamlit_app.py:58-63 | updates the fields in place as `Quiz.NextKanji`: advance and clear the inputs before the last card, otherwise only mark completion |
| App.SessionState.ResetQuiz | kanji_streamlit_app.py:65-69 | updates the fields in place as `Quiz.ResetQuiz`: card 0, score 0/0, not completed, inputs cleared, mode kept |
| App.SessionState.SelectMode | kanji_streamlit_app.py:82-92 | updates the fields in place as `Quiz.SelectMode`: the new mode with inputs cleared; index and score kept |
| App.SessionState.ShowResults | kanji_streamlit_app.py:203-205 | sets `quiz_completed` to true and changes nothing else |
| App.SessionState.EnterAnswer | kanji_streamlit_app.py:143-157 | writes the typed text into the meaning buffer in "meaning"/"both" and into the reading buffer in "reading"/"both", and into nothing else |
| App.SessionState.DisplayedVerdict | kanji_streamlit_app.py:165-176 | the revealed view's verdict is the scoring rule applied to the current card and buffers |

## Left out

- Rendering: page setup, titles, markdown and the HTML card, columns, metrics, the progress bar, balloons, the sidebar and `st.rerun`. They draw the state and do not change it.
- Loading `kanji_data` from the JSON file and its caching, which are file I/O. The constructor takes the entries as a parameter. It requires at least one entry, because every run of the page divides by the number of entries.
- Later calls of `init_session_state`: every key is present after the first call, so they change nothing.
- The progress fraction and the accuracy percentages. They are floating-point display values computed from the integer counters.
- The joined example words and the traditional form. They are shown on the card but never graded.
- Streamlit's own widget state: a text box keyed `meaning_input` or `reading_input` returns whatever the user typed. `EnterAnswer` takes that text as a parameter.
- Multiple choice, Japanese-reading grading and random distractors: kanji_streamlit_app.py has no multiple-choice mode, never grades a Japanese reading, and never uses its `random` import.
