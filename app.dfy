/** The Streamlit session state of the kanji quiz as an object whose handlers update its fields
    in place. Each handler is proved to perform the matching transition of module Quiz. */
module App {
  import opened Text
  import opened Quiz

  class SessionState {
    const kanjiData: seq<KanjiEntry>
    var currentIndex: nat
    var score: Score
    var showAnswer: bool
    var userMeaning: string
    var userReading: string
    var mode: Mode
    var quizCompleted: Option<bool>

    /** The fields as a value of Quiz.State. */
    function Model(): State
      reads this
    {
      State(currentIndex, score, showAnswer, userMeaning, userReading, mode, quizCompleted)
    }

    predicate Valid()
      reads this
    {
      Quiz.Valid(kanjiData, Model())
    }

    /** `init_session_state` on the first run of a session: every key is absent, so each gets
        its default. The data must hold at least one entry, since every run divides by its
        length. */
    constructor (data: seq<KanjiEntry>)
      requires |data| > 0
      ensures Valid() && kanjiData == data
      ensures Model() == Initial()
      ensures !Completed(Model())
    {
      kanjiData := data;
      currentIndex := 0;
      score := Score(0, 0);
      showAnswer := false;
      userMeaning := "";
      userReading := "";
      mode := Both;
      quizCompleted := None;
    }

    method ResetInputs()
      modifies this
      ensures Model() == Quiz.ResetInputs(old(Model()))
      ensures userMeaning == "" && userReading == "" && !showAnswer
    {
      userMeaning := "";
      userReading := "";
      showAnswer := false;
    }

    /** Grade the current card with the shared rule, count it and reveal the answer. */
    method CheckAnswer()
      requires Valid()
      modifies this
      ensures Valid()
      ensures Model() == Quiz.CheckAnswer(kanjiData, old(Model()))
      ensures score.total == old(score.total) + 1
      ensures score.correct == old(score.correct) + (if Verdict(kanjiData, Model()) then 1 else 0)
      ensures showAnswer && currentIndex == old(currentIndex) && mode == old(mode)
      ensures userMeaning == old(userMeaning) && userReading == old(userReading)
    {
      var currentKanji := kanjiData[currentIndex];
      var isCorrect := IsCorrect(currentKanji, mode, userMeaning, userReading);
      score := score.(total := score.total + 1);
      if isCorrect {
        score := score.(correct := score.correct + 1);
      }
      showAnswer := true;
    }

    /** Move to the next card, or mark the quiz completed on the last one. */
    method NextKanji()
      requires Valid()
      modifies this
      ensures Valid()
      ensures Model() == Quiz.NextKanji(kanjiData, old(Model()))
      ensures old(currentIndex) < |kanjiData| - 1 ==>
        currentIndex == old(currentIndex) + 1 && userMeaning == "" && userReading == "" && !showAnswer
      ensures !(old(currentIndex) < |kanjiData| - 1) ==>
        currentIndex == old(currentIndex) && Completed(Model())
    {
      if currentIndex < |kanjiData| - 1 {
        currentIndex := currentIndex + 1;
        ResetInputs();
      } else {
        quizCompleted := Some(true);
      }
    }

    /** Back to card 0 with a zero score; the mode is kept. */
    method ResetQuiz()
      requires Valid()
      modifies this
      ensures Valid()
      ensures Model() == Quiz.ResetQuiz(old(Model()))
      ensures currentIndex == 0 && score == Score(0, 0) && !Completed(Model()) && mode == old(mode)
    {
      currentIndex := 0;
      score := Score(0, 0);
      quizCompleted := Some(false);
      ResetInputs();
    }

    /** The handler of the three mode buttons. */
    method SelectMode(newMode: Mode)
      requires Valid()
      modifies this
      ensures Valid()
      ensures Model() == Quiz.SelectMode(old(Model()), newMode)
      ensures mode == newMode && currentIndex == old(currentIndex) && score == old(score)
    {
      mode := newMode;
      ResetInputs();
    }

    /** The "show results" button on the last card. */
    method ShowResults()
      requires Valid()
      modifies this
      ensures Valid()
      ensures Model() == Quiz.ShowResults(old(Model()))
      ensures Completed(Model())
    {
      quizCompleted := Some(true);
    }

    /** The text boxes write back what the user typed, each only when the mode shows it. */
    method EnterAnswer(meaning: string, reading: string)
      requires Valid()
      modifies this
      ensures Valid()
      ensures Model() == Quiz.EnterAnswer(old(Model()), meaning, reading)
    {
      if AsksMeaning(mode) {
        userMeaning := meaning;
      }
      if AsksReading(mode) {
        userReading := reading;
      }
    }

    /** The verdict the revealed view shows, computed with the same rule that scored it. */
    method DisplayedVerdict() returns (isCorrect: bool)
      requires Valid()
      ensures isCorrect <==>
        (AsksMeaning(mode) ==> Strip(userMeaning) == kanjiData[currentIndex].meaning) &&
        (AsksReading(mode) ==> Strip(userReading) == kanjiData[currentIndex].koreanReading)
      ensures isCorrect == Verdict(kanjiData, Model())
    {
      var currentKanji := kanjiData[currentIndex];
      isCorrect := IsCorrect(currentKanji, mode, userMeaning, userReading);
    }
  }
}
