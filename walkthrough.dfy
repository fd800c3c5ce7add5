// What the engine does with the concrete question bank: the grade filter
// nobody is served by, one complete session, and the facts that carry over
// from the bank's well-formedness to every session over it.
module Walkthrough {
  import opened Types
  import opened Bank
  import opened Selection
  import opened Grading
  import opened Engine

  /** Filtering the bank for the lower primary grades leaves nothing, whatever the difficulty. */
  lemma PrimaryLowSelectsNothing(difficulty: Filter<Difficulty>)
    ensures Select(QuestionBank, difficulty, Only(PrimaryLow)) == []
  {
    NoPrimaryLowQuestion();
    SelectEmptyIff(QuestionBank, difficulty, Only(PrimaryLow));
  }

  /** With the grade filter on the lower primary grades, start is turned down and nothing changes. */
  lemma PrimaryLowBlocksStart(s: State)
    requires Inv(QuestionBank, s) && s.step == Welcome && s.filterGrade == Only(PrimaryLow)
    ensures Start(QuestionBank, s) == Reply(Refused(NoQuestions), s)
  {
    PrimaryLowSelectsNothing(s.filterDifficulty);
  }

  /** Every filtered list of the bank keeps the bank's distinct question ids. */
  lemma BankSelectionsDistinct(difficulty: Filter<Difficulty>, grade: Filter<Grade>)
    ensures DistinctQuestionIds(Select(QuestionBank, difficulty, grade))
  {
    QuestionBankWellFormed();
    SelectKeepsDistinctIds(QuestionBank, difficulty, grade);
  }

  /** Over the bank, a session that reaches the result page scores exactly its correctly answered questions. */
  lemma BankResultScore(events: seq<Event>)
    ensures var t := Run(QuestionBank, Initial, events);
      t.step == Result ==> t.score == Tally(Questions(QuestionBank, t), t.answers, |Questions(QuestionBank, t)|)
  {
    QuestionBankWellFormed();
    ResultScore(QuestionBank, events);
  }

  /** Every question a session over the bank shows is a well-formed question of the bank. */
  lemma CurrentIsWellFormed(s: State)
    requires Inv(QuestionBank, s) && s.step == Quiz
    ensures WellFormedQuestion(Current(QuestionBank, s))
  {
    QuestionBankWellFormed();
    SelectIsOrderedSubsequence(QuestionBank, s.filterDifficulty, s.filterGrade);
    var idx := MatchingIndices(QuestionBank, s.filterDifficulty, s.filterGrade);
    assert Current(QuestionBank, s) == QuestionBank[idx[s.index]];
  }

  /**
   * Over the bank, submitting a recorded answer raises the score exactly when
   * the recorded id is the id of the question's correct option.
   */
  lemma BankSubmitScoresIff(s: State)
    requires Inv(QuestionBank, s) && s.step == Quiz && !s.submitted
    requires HasSelection(s.answers, Current(QuestionBank, s).id)
    ensures var q := Current(QuestionBank, s);
      Submit(QuestionBank, s).next.score == s.score + 1
      <==> exists k :: 0 <= k < |q.options| && q.options[k].isCorrect && q.options[k].id == s.answers[q.id]
  {
    var q := Current(QuestionBank, s);
    CurrentIsWellFormed(s);
    var k :| OnlyCorrectAt(q.options, k);
    SubmitScoresCorrectId(QuestionBank, s, k);
  }

  /** In a bank laid out by difficulty as the question bank is, the advanced questions are the third and the fifth. */
  lemma AdvancedOfLayout(bank: seq<Question>)
    requires |bank| == 8
    requires bank[0].difficulty == Beginner && bank[1].difficulty == Beginner
    requires bank[2].difficulty == Advanced && bank[3].difficulty == Intermediate
    requires bank[4].difficulty == Advanced && bank[5].difficulty == Beginner
    requires bank[6].difficulty == Intermediate && bank[7].difficulty == Intermediate
    ensures Select(bank, Only(Advanced), All) == [bank[2], bank[4]]
  {
    var d, g := Only(Advanced), All;
    assert bank[8..] == [];
    SelectSuffix(bank, d, g, 7);
    SelectSuffix(bank, d, g, 6);
    SelectSuffix(bank, d, g, 5);
    SelectSuffix(bank, d, g, 4);
    SelectSuffix(bank, d, g, 3);
    SelectSuffix(bank, d, g, 2);
    SelectSuffix(bank, d, g, 1);
    SelectSuffix(bank, d, g, 0);
    assert bank[0..] == bank;
  }

  /** The two advanced questions of the bank, in bank order. */
  lemma AdvancedQuestions()
    ensures Select(QuestionBank, Only(Advanced), All) == [Question3, Question5]
  {
    AdvancedOfLayout(QuestionBank);
  }

  /** The actions of a session over two questions: answer "a" to the first, "b" to the second. */
  const AdvancedSession: seq<Event> := [
    ChooseDifficulty(Only(Advanced)), PressStart,
    PickOption("a"), PressSubmit, PressNext,
    PickOption("b"), PressSubmit, PressNext]

  /** The first four actions: choose the difficulty, start, pick "a", submit; a wrong "a" scores nothing. */
  lemma TwoQuestionOpening(bank: seq<Question>, first: Question, second: Question)
    requires Select(bank, Only(Advanced), All) == [first, second]
    requires !PicksCorrect(first.options, "a")
    ensures Run(bank, Initial, AdvancedSession[..4]) == State(Only(Advanced), All, Quiz, 0, map[first.id := "a"], true, 0)
  {
    var s1 := Initial.(filterDifficulty := Only(Advanced));
    var s2 := s1.(step := Quiz);
    var s3 := s2.(answers := map[first.id := "a"]);
    var s4 := s3.(submitted := true);
    assert Apply(bank, Initial, ChooseDifficulty(Only(Advanced))).next == s1;
    assert Apply(bank, s1, PressStart).next == s2;
    assert Apply(bank, s2, PickOption("a")).next == s3;
    assert Apply(bank, s3, PressSubmit).next == s4;
    var events := AdvancedSession[..4];
    assert events == [ChooseDifficulty(Only(Advanced)), PressStart, PickOption("a"), PressSubmit];
    assert Run(bank, s3, events[3..]) == s4 by { assert events[3..][1..] == []; }
    assert Run(bank, s2, events[2..]) == s4 by { assert events[2..][1..] == events[3..]; }
    assert Run(bank, s1, events[1..]) == s4 by { assert events[1..][1..] == events[2..]; }
    assert events[0..][1..] == events[1..];
  }

  /** The last four actions: next, pick "b", submit, next; a right "b" scores one, then the result page. */
  lemma TwoQuestionClosing(bank: seq<Question>, first: Question, second: Question)
    requires Select(bank, Only(Advanced), All) == [first, second]
    requires PicksCorrect(second.options, "b")
    ensures var s4 := State(Only(Advanced), All, Quiz, 0, map[first.id := "a"], true, 0);
      Run(bank, s4, AdvancedSession[4..]) == State(Only(Advanced), All, Result, 1, map[first.id := "a", second.id := "b"], true, 1)
  {
    var s4 := State(Only(Advanced), All, Quiz, 0, map[first.id := "a"], true, 0);
    var s5 := s4.(index := 1, submitted := false);
    var s6 := s5.(answers := map[first.id := "a", second.id := "b"]);
    var s7 := s6.(submitted := true, score := 1);
    var s8 := s7.(step := Result);
    assert Apply(bank, s4, PressNext).next == s5;
    assert Apply(bank, s5, PickOption("b")).next == s6;
    assert Apply(bank, s6, PressSubmit).next == s7;
    assert Apply(bank, s7, PressNext).next == s8;
    var events := AdvancedSession[4..];
    assert events == [PressNext, PickOption("b"), PressSubmit, PressNext];
    assert Run(bank, s7, events[3..]) == s8 by { assert events[3..][1..] == []; }
    assert Run(bank, s6, events[2..]) == s8 by { assert events[2..][1..] == events[3..]; }
    assert Run(bank, s5, events[1..]) == s8 by { assert events[1..][1..] == events[2..]; }
    assert events[0..][1..] == events[1..];
  }

  /** The whole session over any two questions: one right answer of two. */
  lemma TwoQuestionSession(bank: seq<Question>, first: Question, second: Question)
    requires Select(bank, Only(Advanced), All) == [first, second]
    requires !PicksCorrect(first.options, "a") && PicksCorrect(second.options, "b")
    ensures var t := Run(bank, Initial, AdvancedSession);
      && t == State(Only(Advanced), All, Result, 1, map[first.id := "a", second.id := "b"], true, 1)
      && ResultSummary(bank, t) == Summary(1, 2, 50, KeepPractising)
  {
    TwoQuestionOpening(bank, first, second);
    TwoQuestionClosing(bank, first, second);
    assert AdvancedSession == AdvancedSession[..4] + AdvancedSession[4..];
    RunAppend(bank, Initial, AdvancedSession[..4], AdvancedSession[4..]);
  }

  /**
   * Over the bank: the advanced session answers "a" to question 3 (wrong) and
   * "b" to question 5 (right), and ends with 1 of 2, 50 and the keep-practising message.
   */
  lemma AdvancedSessionResult()
    ensures var t := Run(QuestionBank, Initial, AdvancedSession);
      && t == State(Only(Advanced), All, Result, 1, map["3" := "a", "5" := "b"], true, 1)
      && ResultSummary(QuestionBank, t) == Summary(1, 2, 50, KeepPractising)
  {
    AdvancedQuestions();
    assert FindOption(Question3.options, "a") == Just(Question3.options[0]);
    assert FindOption(Question5.options, "b") == Just(Question5.options[1]);
    TwoQuestionSession(QuestionBank, Question3, Question5);
  }
}
