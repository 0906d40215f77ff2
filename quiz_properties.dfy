/** What the quiz promises: the scoring rule's behaviour on whitespace, each transition's effect,
    and the invariants every sequence of page actions keeps. */
module QuizProperties {
  import opened Text
  import opened Quiz

  // ----- Grading -----

  /** Typing the entry's own text is accepted exactly when that text has no whitespace at
      either end (otherwise the trimmed answer can never equal it). */
  lemma ExactAnswerAccepted(entry: KanjiEntry, mode: Mode)
    ensures IsCorrect(entry, mode, entry.meaning, entry.koreanReading) <==>
      (AsksMeaning(mode) ==> IsStripped(entry.meaning)) &&
      (AsksReading(mode) ==> IsStripped(entry.koreanReading))
  {
    StripFixes(entry.meaning);
    StripFixes(entry.koreanReading);
  }

  /** A field the mode asks for that has whitespace at an end can never be answered right. */
  lemma UnstrippedFieldUnanswerable(entry: KanjiEntry, mode: Mode, userMeaning: string, userReading: string)
    requires
      (AsksMeaning(mode) && !IsStripped(entry.meaning)) ||
      (AsksReading(mode) && !IsStripped(entry.koreanReading))
    ensures !IsCorrect(entry, mode, userMeaning, userReading)
  {
    StripIdempotent(userMeaning);
    StripFixes(Strip(userMeaning));
    StripIdempotent(userReading);
    StripFixes(Strip(userReading));
  }

  /** Whitespace typed around either answer does not change the verdict. */
  lemma PaddingIgnored(entry: KanjiEntry, mode: Mode, userMeaning: string, userReading: string,
                       p1: string, q1: string, p2: string, q2: string)
    requires AllWhitespace(p1) && AllWhitespace(q1) && AllWhitespace(p2) && AllWhitespace(q2)
    ensures IsCorrect(entry, mode, p1 + userMeaning + q1, p2 + userReading + q2) ==
            IsCorrect(entry, mode, userMeaning, userReading)
  {
    StripIgnoresPadding(p1, userMeaning, q1);
    StripIgnoresPadding(p2, userReading, q2);
  }

  /** "both" accepts exactly what "meaning" and "reading" each accept. */
  lemma BothIsConjunction(entry: KanjiEntry, userMeaning: string, userReading: string)
    ensures IsCorrect(entry, Both, userMeaning, userReading) <==>
      IsCorrect(entry, Meaning, userMeaning, userReading) &&
      IsCorrect(entry, Reading, userMeaning, userReading)
  {
  }

  // ----- Single transitions -----

  /** Checking an answer keeps the session valid and grades the card by the shown verdict. */
  lemma CheckAnswerKeepsValid(data: seq<KanjiEntry>, s: State)
    requires Valid(data, s)
    ensures Valid(data, CheckAnswer(data, s))
    ensures CheckAnswer(data, s).score.correct == s.score.correct + (if Verdict(data, s) then 1 else 0)
  {
  }

  /** Before the last card, "next" moves one card on with empty buffers and the answer hidden,
      and keeps the score, the mode and the completion flag. */
  lemma NextKanjiBeforeLast(data: seq<KanjiEntry>, s: State)
    requires s.currentIndex < |data| - 1
    ensures NextKanji(data, s).currentIndex == s.currentIndex + 1
    ensures NextKanji(data, s).userMeaning == "" && NextKanji(data, s).userReading == ""
    ensures !NextKanji(data, s).showAnswer
    ensures NextKanji(data, s).score == s.score && NextKanji(data, s).mode == s.mode
    ensures NextKanji(data, s).quizCompleted == s.quizCompleted
  {
  }

  /** On the last card, "next" only marks the quiz completed; a second call changes nothing,
      and the index never reaches the end of the data. */
  lemma NextKanjiAtLast(data: seq<KanjiEntry>, s: State)
    requires s.currentIndex == |data| - 1
    ensures NextKanji(data, s) == s.(quizCompleted := Some(true))
    ensures Completed(NextKanji(data, s))
    ensures NextKanji(data, NextKanji(data, s)) == NextKanji(data, s)
    ensures NextKanji(data, s).currentIndex < |data|
  {
  }

  /** Restarting gives card 0, a zero score, no completion, empty buffers and a hidden answer,
      keeping only the mode. */
  lemma ResetQuizRestores(s: State)
    ensures ResetQuiz(s) == Initial().(mode := s.mode, quizCompleted := Some(false))
    ensures !Completed(ResetQuiz(s))
  {
  }

  /** Restarting forgets everything but the mode. */
  lemma ResetQuizForgets(s1: State, s2: State)
    requires s1.mode == s2.mode
    ensures ResetQuiz(s1) == ResetQuiz(s2)
  {
  }

  /** A mode button sets the mode, empties both buffers and hides the answer; the card, the
      score and the completion flag stay. */
  lemma SelectModeClears(s: State, mode: Mode)
    ensures SelectMode(s, mode) == s.(mode := mode, userMeaning := "", userReading := "", showAnswer := false)
  {
  }

  /** When the page offers "next", it always advances: the completion branch of `next_kanji`
      is never taken from the page, which marks completion with its own button instead. */
  lemma OfferedNextAdvances(data: seq<KanjiEntry>, s: State)
    requires Enabled(data, s, Next)
    ensures NextKanji(data, s).currentIndex == s.currentIndex + 1
    ensures NextKanji(data, s).quizCompleted == s.quizCompleted
  {
  }

  // ----- Sequences of actions -----

  /** Running `a` then `b` is running `a + b`. */
  lemma {:induction false} RunAppend(data: seq<KanjiEntry>, s: State, a: seq<Action>, b: seq<Action>)
    requires s.currentIndex < |data|
    ensures Run(data, s, a + b) == Run(data, Run(data, s, a), b)
    decreases |a|
  {
    if a == [] {
      assert a + b == b;
    } else {
      assert (a + b)[0] == a[0] && (a + b)[1..] == a[1..] + b;
      RunAppend(data, Step(data, s, a[0]), a[1..], b);
    }
  }

  /** Without a restart, the total grows by exactly the number of checks, and neither counter
      ever goes down. */
  lemma {:induction false} RunCountsChecks(data: seq<KanjiEntry>, s: State, acts: seq<Action>)
    requires s.currentIndex < |data|
    requires Restart !in acts
    ensures Run(data, s, acts).score.total == s.score.total + multiset(acts)[Check]
    ensures Run(data, s, acts).score.correct >= s.score.correct
    decreases |acts|
  {
    if acts != [] {
      assert acts == [acts[0]] + acts[1..];
      assert multiset(acts)[Check] == multiset{acts[0]}[Check] + multiset(acts[1..])[Check];
      StepCountsCheck(data, s, acts[0]);
      RunCountsChecks(data, Step(data, s, acts[0]), acts[1..]);
    }
  }

  /** One action other than a restart adds one to the total exactly when it is a check. */
  lemma StepCountsCheck(data: seq<KanjiEntry>, s: State, a: Action)
    requires s.currentIndex < |data| && a != Restart
    ensures Step(data, s, a).score.total == s.score.total + multiset{a}[Check]
    ensures Step(data, s, a).score.correct >= s.score.correct
  {
  }

  /** After the last restart, the total is the number of checks made since it. */
  lemma RunAfterRestart(data: seq<KanjiEntry>, s: State, before: seq<Action>, after: seq<Action>)
    requires s.currentIndex < |data|
    requires Restart !in after
    ensures Run(data, s, before + [Restart] + after).score.total == multiset(after)[Check]
  {
    RunAppend(data, s, before + [Restart], after);
    RunAppend(data, s, before, [Restart]);
    var mid := Run(data, s, before + [Restart]);
    assert mid.score == Score(0, 0);
    RunCountsChecks(data, mid, after);
  }

  /** What every state the page can reach satisfies: the session is valid; at least one answer
      was checked per card passed (one more once the current answer is shown); and the
      completion screen is reached only on the last card, with at least one answer checked per
      card. */
  predicate PageInvariant(data: seq<KanjiEntry>, s: State) {
    Valid(data, s) &&
    s.score.total >= s.currentIndex + (if s.showAnswer then 1 else 0) &&
    (Completed(s) ==> s.currentIndex == |data| - 1 && s.score.total >= |data|)
  }

  lemma StepKeepsPageInvariant(data: seq<KanjiEntry>, s: State, a: Action)
    requires PageInvariant(data, s) && Enabled(data, s, a)
    ensures PageInvariant(data, Step(data, s, a))
  {
  }

  lemma {:induction false} OfferedRunKeepsPageInvariant(data: seq<KanjiEntry>, s: State, acts: seq<Action>)
    requires PageInvariant(data, s) && Offered(data, s, acts)
    ensures PageInvariant(data, Run(data, s, acts))
    decreases |acts|
  {
    if acts != [] {
      StepKeepsPageInvariant(data, s, acts[0]);
      OfferedRunKeepsPageInvariant(data, Step(data, s, acts[0]), acts[1..]);
    }
  }

  /** From a fresh session, whatever the user clicks, the page invariant holds. */
  lemma ReachableStatesKeepPageInvariant(data: seq<KanjiEntry>, acts: seq<Action>)
    requires |data| > 0 && Offered(data, Initial(), acts)
    ensures PageInvariant(data, Run(data, Initial(), acts))
  {
    OfferedRunKeepsPageInvariant(data, Initial(), acts);
  }

  /** The answer stays revealed after every action of `acts`. */
  predicate StaysRevealed(data: seq<KanjiEntry>, s: State, acts: seq<Action>)
    requires s.currentIndex < |data|
    decreases |acts|
  {
    acts == [] || (Step(data, s, acts[0]).showAnswer && StaysRevealed(data, Step(data, s, acts[0]), acts[1..]))
  }

  /** While the answer stays revealed, nothing the page offers changes the verdict or the score.
      Of the offered actions only "show results" keeps the answer revealed (a mode button,
      "next" and restart all hide it; typing and checking are not offered), so `acts` here is
      empty or that one click. */
  lemma {:induction false} RevealedVerdictStable(data: seq<KanjiEntry>, s: State, acts: seq<Action>)
    requires s.currentIndex < |data| && s.showAnswer
    requires Offered(data, s, acts) && StaysRevealed(data, s, acts)
    ensures Verdict(data, Run(data, s, acts)) == Verdict(data, s)
    ensures Run(data, s, acts).score == s.score
    decreases |acts|
  {
    if acts != [] {
      RevealedVerdictStable(data, Step(data, s, acts[0]), acts[1..]);
    }
  }

  /** The verdict the revealed view shows is the one that was counted: after a check, as long as
      the answer stays revealed, the correct count went up exactly when the shown verdict is
      "correct". Since only "show results" keeps the answer revealed, this is the contract of
      `CheckAnswer` extended by at most that one click. */
  lemma DisplayedVerdictIsCounted(data: seq<KanjiEntry>, s: State, acts: seq<Action>)
    requires s.currentIndex < |data|
    requires Offered(data, CheckAnswer(data, s), acts) && StaysRevealed(data, CheckAnswer(data, s), acts)
    ensures Run(data, CheckAnswer(data, s), acts).score.correct ==
            s.score.correct + (if Verdict(data, Run(data, CheckAnswer(data, s), acts)) then 1 else 0)
  {
    RevealedVerdictStable(data, CheckAnswer(data, s), acts);
  }
}
