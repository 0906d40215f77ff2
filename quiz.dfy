/** The kanji flash-card quiz as values: the entries, the session record, the scoring rule,
    the transitions the app applies to the session, and which transitions its screen offers. */
module Quiz {
  import opened Text

  /** One record of the kanji data file. */
  datatype KanjiEntry = KanjiEntry(
    kanji: string,
    traditional: string,
    meaning: string,
    koreanReading: string,
    examples: seq<string>)

  /** What the quiz asks for: "meaning", "reading" or "both". */
  datatype Mode = Meaning | Reading | Both

  datatype Score = Score(correct: nat, total: nat)

  datatype Option<T> = None | Some(value: T)

  /** The per-session state bag, without the read-only `kanji_data`. `quizCompleted` is `None`
      until something first assigns the key. */
  datatype State = State(
    currentIndex: nat,
    score: Score,
    showAnswer: bool,
    userMeaning: string,
    userReading: string,
    mode: Mode,
    quizCompleted: Option<bool>)

  /** The meaning box is shown, and graded, in modes "meaning" and "both". */
  predicate AsksMeaning(mode: Mode) {
    mode == Meaning || mode == Both
  }

  /** The reading box is shown, and graded, in modes "reading" and "both". */
  predicate AsksReading(mode: Mode) {
    mode == Reading || mode == Both
  }

  /** The scoring rule: the trimmed answers are compared, by exact equality, with the entry. An
      answer is correct exactly when every field the mode asks for matches. */
  function IsCorrect(entry: KanjiEntry, mode: Mode, userMeaning: string, userReading: string): (r: bool)
    ensures r <==>
      (AsksMeaning(mode) ==> Strip(userMeaning) == entry.meaning) &&
      (AsksReading(mode) ==> Strip(userReading) == entry.koreanReading)
  {
    match mode
    case Meaning => Strip(userMeaning) == entry.meaning
    case Reading => Strip(userReading) == entry.koreanReading
    case Both =>
      var meaningCorrect := Strip(userMeaning) == entry.meaning;
      var readingCorrect := Strip(userReading) == entry.koreanReading;
      meaningCorrect && readingCorrect
  }

  /** Whether the completion screen is shown: an absent key counts as false. */
  predicate Completed(s: State) {
    s.quizCompleted == Some(true)
  }

  /** The current card exists and no more answers are right than were given. */
  predicate Valid(data: seq<KanjiEntry>, s: State) {
    s.currentIndex < |data| && s.score.correct <= s.score.total
  }

  /** The state after the first `init_session_state`. */
  /** The state after the first `init_session_state`: card 0, a zero score, empty buffers, the
      answer hidden, mode "both" and no `quiz_completed` key. */
  function Initial(): State {
    State(0, Score(0, 0), false, "", "", Both, None)
  }

  /** Empty both buffers and hide the answer; nothing else changes. */
  function ResetInputs(s: State): (r: State)
    ensures r.userMeaning == "" && r.userReading == "" && !r.showAnswer
    ensures r.(userMeaning := s.userMeaning, userReading := s.userReading, showAnswer := s.showAnswer) == s
  {
    s.(userMeaning := "", userReading := "", showAnswer := false)
  }

  /** The verdict shown once the answer is revealed: the scoring rule applied to the current
      card and the current buffers. */
  function Verdict(data: seq<KanjiEntry>, s: State): (r: bool)
    requires s.currentIndex < |data|
    ensures r <==>
      (AsksMeaning(s.mode) ==> Strip(s.userMeaning) == data[s.currentIndex].meaning) &&
      (AsksReading(s.mode) ==> Strip(s.userReading) == data[s.currentIndex].koreanReading)
  {
    IsCorrect(data[s.currentIndex], s.mode, s.userMeaning, s.userReading)
  }

  /** Grade the current card, count it, and reveal the answer. The answer counted as right is
      the one the revealed view then reports as right. */
  function CheckAnswer(data: seq<KanjiEntry>, s: State): (r: State)
    requires s.currentIndex < |data|
    ensures r.currentIndex == s.currentIndex
    ensures r.score.total == s.score.total + 1
    ensures r.score.correct == s.score.correct + (if Verdict(data, r) then 1 else 0)
    ensures r.showAnswer
    ensures r.(score := s.score, showAnswer := s.showAnswer) == s
  {
    var isCorrect := IsCorrect(data[s.currentIndex], s.mode, s.userMeaning, s.userReading);
    var correct := if isCorrect then s.score.correct + 1 else s.score.correct;
    s.(score := Score(correct, s.score.total + 1), showAnswer := true)
  }

  /** Move to the next card, or mark the quiz completed when there is none. */
  function NextKanji(data: seq<KanjiEntry>, s: State): (r: State)
    ensures s.currentIndex < |data| ==> r.currentIndex < |data|
    ensures r.score == s.score && r.mode == s.mode
    ensures r.currentIndex == s.currentIndex + 1 || (r.currentIndex == s.currentIndex && Completed(r))
  {
    if s.currentIndex < |data| - 1 then ResetInputs(s.(currentIndex := s.currentIndex + 1))
    else s.(quizCompleted := Some(true))
  }

  /** Back to card 0 with a zero score and the inputs cleared; only the mode is kept. */
  function ResetQuiz(s: State): (r: State)
    ensures r.currentIndex == 0 && r.score == Score(0, 0) && !Completed(r) && r.mode == s.mode
    ensures r.userMeaning == "" && r.userReading == "" && !r.showAnswer
  {
    ResetInputs(s.(currentIndex := 0, score := Score(0, 0), quizCompleted := Some(false)))
  }

  /** One of the three mode buttons. */
  function SelectMode(s: State, mode: Mode): (r: State)
    ensures r.mode == mode && r.userMeaning == "" && r.userReading == "" && !r.showAnswer
    ensures r.currentIndex == s.currentIndex && r.score == s.score && r.quizCompleted == s.quizCompleted
  {
    ResetInputs(s.(mode := mode))
  }

  /** The "show results" button on the last card. */
  function ShowResults(s: State): (r: State)
    ensures Completed(r) && r.(quizCompleted := s.quizCompleted) == s
  {
    s.(quizCompleted := Some(true))
  }

  /** What the text boxes hand back on a run of the page: only the boxes the mode shows write
      their buffer. */
  function EnterAnswer(s: State, meaning: string, reading: string): (r: State)
    ensures r.userMeaning == if AsksMeaning(s.mode) then meaning else s.userMeaning
    ensures r.userReading == if AsksReading(s.mode) then reading else s.userReading
    ensures r.(userMeaning := s.userMeaning, userReading := s.userReading) == s
  {
    var s' := if AsksMeaning(s.mode) then s.(userMeaning := meaning) else s;
    if AsksReading(s.mode) then s'.(userReading := reading) else s'
  }

  /** A user action. One run of the page performs a short sequence of these in order: a click
      on the check button first writes the text boxes back (`Type`) and then checks; a mode
      button runs its handler and the same run then writes the text boxes back; a sidebar
      restart likewise follows the write-back. */
  datatype Action =
    | PickMode(mode: Mode)
    | Type(meaning: string, reading: string)
    | Check
    | Next
    | Results
    | Restart

  function Step(data: seq<KanjiEntry>, s: State, a: Action): (r: State)
    requires s.currentIndex < |data|
    ensures r.currentIndex < |data|
    ensures s.score.correct <= s.score.total ==> r.score.correct <= r.score.total
  {
    match a
    case PickMode(m) => SelectMode(s, m)
    case Type(meaning, reading) => EnterAnswer(s, meaning, reading)
    case Check => CheckAnswer(data, s)
    case Next => NextKanji(data, s)
    case Results => ShowResults(s)
    case Restart => ResetQuiz(s)
  }

  /** Whether the page offers action `a` in state `s`. The mode buttons are always drawn.
      Restart is always offered: by the sidebar button while the quiz runs, and by the
      "다시 시작" button of the completion screen, which returns before the sidebar is drawn.
      Otherwise the answer boxes and the check button are offered until the answer is
      revealed, then "next" before the last card and "show results" on it. */
  predicate Enabled(data: seq<KanjiEntry>, s: State, a: Action) {
    match a
    case PickMode(_) => true
    case Restart => true
    case Type(_, _) => !Completed(s) && !s.showAnswer
    case Check => !Completed(s) && !s.showAnswer
    case Next => !Completed(s) && s.showAnswer && s.currentIndex < |data| - 1
    case Results => !Completed(s) && s.showAnswer && !(s.currentIndex < |data| - 1)
  }

  /** The state after the actions `acts`, taken in order; a run of the page contributes a
      short sequence of them. */
  function Run(data: seq<KanjiEntry>, s: State, acts: seq<Action>): (r: State)
    requires s.currentIndex < |data|
    ensures r.currentIndex < |data|
    ensures s.score.correct <= s.score.total ==> r.score.correct <= r.score.total
    decreases |acts|
  {
    if acts == [] then s else Run(data, Step(data, s, acts[0]), acts[1..])
  }

  /** Every action of `acts` is offered by the page when it is taken. */
  predicate Offered(data: seq<KanjiEntry>, s: State, acts: seq<Action>)
    requires s.currentIndex < |data|
    decreases |acts|
  {
    acts == [] || (Enabled(data, s, acts[0]) && Offered(data, Step(data, s, acts[0]), acts[1..]))
  }
}
