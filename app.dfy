// The quiz page as an object: the page's state fields, updated in place by
// one method per handler. Each method is proved to make exactly the
// transition the matching function of `Engine` describes, so every property
// proved there about sequences of actions holds for the object as well.
module App {
  import opened Types
  import opened Selection
  import opened Engine

  class QuizApp {
    /** `QUESTION_BANK`, injected. */
    const bank: seq<Question>

    var filterDifficulty: Filter<Difficulty>
    var filterGrade: Filter<Grade>
    var currentStep: Step
    var currentIndex: nat
    var selectedAnswers: map<string, string>
    var submitted: bool
    var score: nat

    /** The fields as one value. */
    function Snapshot(): State
      reads this
    {
      State(filterDifficulty, filterGrade, currentStep, currentIndex, selectedAnswers, submitted, score)
    }

    /**
     * The session invariant, and, for a bank with distinct question ids, the
     * score as the count of finished questions answered correctly.
     */
    ghost predicate Valid()
      reads this
    {
      && Inv(bank, Snapshot())
      && (DistinctQuestionIds(bank) ==> Tallied(bank, Snapshot()))
    }

    /** The page as first rendered: welcome page, both filters at "all". */
    constructor (bank: seq<Question>)
      ensures this.bank == bank
      ensures Snapshot() == Initial
      ensures Valid()
    {
      this.bank := bank;
      filterDifficulty := All;
      filterGrade := All;
      currentStep := Welcome;
      currentIndex := 0;
      selectedAnswers := map[];
      submitted := false;
      score := 0;
    }

    /**
     * `filteredQuestions`, recomputed from the current filters: the bank read
     * at its matching positions, in increasing order.
     */
    function FilteredQuestions(): (r: seq<Question>)
      reads this
      ensures r == Questions(bank, Snapshot())
      ensures var idx := MatchingIndices(bank, filterDifficulty, filterGrade);
        |r| == |idx| && forall k :: 0 <= k < |r| ==> r[k] == bank[idx[k]]
    {
      SelectIsOrderedSubsequence(bank, filterDifficulty, filterGrade);
      Select(bank, filterDifficulty, filterGrade)
    }

    /** `setFilterDifficulty` from the welcome page's difficulty buttons. */
    method SetFilterDifficulty(d: Filter<Difficulty>) returns (o: Outcome)
      requires Valid()
      modifies this
      ensures Valid()
      ensures o == SetDifficulty(bank, old(Snapshot()), d).outcome
      ensures Snapshot() == SetDifficulty(bank, old(Snapshot()), d).next
    {
      if currentStep != Welcome {
        return Refused(NotOnWelcome);
      }
      filterDifficulty := d;
      return Done;
    }

    /** `setFilterGrade` from the welcome page's grade buttons. */
    method SetFilterGrade(g: Filter<Grade>) returns (o: Outcome)
      requires Valid()
      modifies this
      ensures Valid()
      ensures o == SetGrade(bank, old(Snapshot()), g).outcome
      ensures Snapshot() == SetGrade(bank, old(Snapshot()), g).next
    {
      if currentStep != Welcome {
        return Refused(NotOnWelcome);
      }
      filterGrade := g;
      return Done;
    }

    /** `handleStart`, behind the start button that an empty list disables. */
    method HandleStart() returns (o: Outcome)
      requires Valid()
      modifies this
      ensures Valid()
      ensures o == Start(bank, old(Snapshot())).outcome
      ensures Snapshot() == Start(bank, old(Snapshot())).next
    {
      if currentStep != Welcome {
        return Refused(NotOnWelcome);
      }
      if |FilteredQuestions()| == 0 {
        return Refused(NoQuestions);
      }
      currentIndex := 0;
      selectedAnswers := map[];
      submitted := false;
      score := 0;
      currentStep := Quiz;
      return Done;
    }

    /** `handleSelect`: record the option chosen for the current question. */
    method HandleSelect(optionId: string) returns (o: Outcome)
      requires Valid()
      modifies this
      ensures Valid()
      ensures o == SelectOption(bank, old(Snapshot()), optionId).outcome
      ensures Snapshot() == SelectOption(bank, old(Snapshot()), optionId).next
    {
      ghost var before := Snapshot();
      if currentStep != Quiz {
        return Refused(NotInQuiz);
      }
      if submitted {
        return Ignored;
      }
      var currentQuestion := FilteredQuestions()[currentIndex];
      selectedAnswers := selectedAnswers[currentQuestion.id := optionId];
      if DistinctQuestionIds(bank) {
        ApplyKeepsTally(bank, before, PickOption(optionId));
      }
      return Done;
    }

    /** `handleSubmit`: lock in the recorded answer and score it. */
    method HandleSubmit() returns (o: Outcome)
      requires Valid()
      modifies this
      ensures Valid()
      ensures o == Submit(bank, old(Snapshot())).outcome
      ensures Snapshot() == Submit(bank, old(Snapshot())).next
    {
      ghost var before := Snapshot();
      if currentStep != Quiz {
        return Refused(NotInQuiz);
      }
      if submitted {
        return Refused(AlreadySubmitted);
      }
      var currentQuestion := FilteredQuestions()[currentIndex];
      if !(currentQuestion.id in selectedAnswers && selectedAnswers[currentQuestion.id] != "") {
        return Ignored;
      }
      var selectedOption := FindOption(currentQuestion.options, selectedAnswers[currentQuestion.id]);
      if selectedOption.Just? && selectedOption.value.isCorrect {
        score := score + 1;
      }
      submitted := true;
      if DistinctQuestionIds(bank) {
        ApplyKeepsTally(bank, before, PressSubmit);
      }
      return Done;
    }

    /** `handleNext`: the next question, or the result page after the last one. */
    method HandleNext() returns (o: Outcome)
      requires Valid()
      modifies this
      ensures Valid()
      ensures o == Next(bank, old(Snapshot())).outcome
      ensures Snapshot() == Next(bank, old(Snapshot())).next
    {
      ghost var before := Snapshot();
      if currentStep != Quiz {
        return Refused(NotInQuiz);
      }
      if !submitted {
        return Refused(NotSubmitted);
      }
      if currentIndex < |FilteredQuestions()| - 1 {
        currentIndex := currentIndex + 1;
        submitted := false;
      } else {
        currentStep := Result;
      }
      if DistinctQuestionIds(bank) {
        ApplyKeepsTally(bank, before, PressNext);
      }
      return Done;
    }

    /** `handleRestart`: back to the welcome page. */
    method HandleRestart() returns (o: Outcome)
      requires Valid()
      modifies this
      ensures Valid()
      ensures o == Restart(bank, old(Snapshot())).outcome
      ensures Snapshot() == Restart(bank, old(Snapshot())).next
    {
      if currentStep != Result {
        return Refused(NotOnResult);
      }
      currentStep := Welcome;
      return Done;
    }

    /** The handler for a user action. */
    method Dispatch(e: Event) returns (o: Outcome)
      requires Valid()
      modifies this
      ensures Valid()
      ensures o == Apply(bank, old(Snapshot()), e).outcome
      ensures Snapshot() == Apply(bank, old(Snapshot()), e).next
    {
      match e
      case ChooseDifficulty(d) => o := SetFilterDifficulty(d);
      case ChooseGrade(g) => o := SetFilterGrade(g);
      case PressStart => o := HandleStart();
      case PickOption(id) => o := HandleSelect(id);
      case PressSubmit => o := HandleSubmit();
      case PressNext => o := HandleNext();
      case PressRestart => o := HandleRestart();
    }
  }
}
