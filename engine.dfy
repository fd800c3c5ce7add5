// The quiz session as a state machine over plain values: the page's state,
// one transition per handler, the derived progress and result values, and
// the invariants every sequence of user actions keeps.
module Engine {
  import opened Types
  import opened Selection
  import opened Grading

  /** The three pages of the quiz. */
  datatype Step = Welcome | Quiz | Result

  /** The page's state, the filters included, except `showExplanation`. */
  datatype State = State(
    filterDifficulty: Filter<Difficulty>,
    filterGrade: Filter<Grade>,
    step: Step,
    index: nat,
    answers: map<string, string>,
    submitted: bool,
    score: nat)

  /** The state of a freshly opened page. */
  const Initial: State := State(All, All, Welcome, 0, map[], false, 0)

  /** Why an action the page does not offer at this point was turned down. */
  datatype Refusal =
    | NotOnWelcome      // filters and start live on the welcome page
    | NotInQuiz         // options, submit and next live on the quiz page
    | NotOnResult       // restart lives on the result page
    | NoQuestions       // start is disabled while the filtered list is empty
    | AlreadySubmitted  // submit is replaced by next once an answer is locked in
    | NotSubmitted      // next appears only once an answer is locked in

  /**
   * `Done` changed the state as the handler does; `Ignored` is a handler's own
   * early return; `Refused` is an action the page does not offer.
   */
  datatype Outcome = Done | Ignored | Refused(reason: Refusal)

  datatype Reply = Reply(outcome: Outcome, next: State)

  /** A user action, one per handler. */
  datatype Event =
    | ChooseDifficulty(difficulty: Filter<Difficulty>)
    | ChooseGrade(grade: Filter<Grade>)
    | PressStart
    | PickOption(optionId: string)
    | PressSubmit
    | PressNext
    | PressRestart

  /** The memoised filtered list the session works through. */
  function Questions(bank: seq<Question>, s: State): (r: seq<Question>)
    ensures forall i :: 0 <= i < |r| ==> Matches(r[i], s.filterDifficulty, s.filterGrade)
  {
    Select(bank, s.filterDifficulty, s.filterGrade)
  }

  /** How many questions are finished: those passed, plus the current one once submitted. */
  function Answered(s: State): nat {
    s.index + (if s.submitted then 1 else 0)
  }

  /** `selectedAnswers[id]` is truthy: present and not the empty string. */
  predicate HasSelection(answers: map<string, string>, id: string) {
    id in answers && answers[id] != ""
  }

  /**
   * What holds in every reachable state: the score never runs ahead of the
   * finished questions, the quiz page always has a current question, and the
   * result page is reached with the last question submitted.
   */
  predicate Inv(bank: seq<Question>, s: State) {
    && s.score <= Answered(s)
    && (s.step == Quiz ==> s.index < |Questions(bank, s)|)
    && (s.step == Result ==> s.submitted && s.index + 1 == |Questions(bank, s)|)
  }

  /** The question on screen: one of the filtered list, so it matches both filters. */
  function Current(bank: seq<Question>, s: State): (q: Question)
    requires Inv(bank, s) && s.step == Quiz
    ensures Matches(q, s.filterDifficulty, s.filterGrade)
  {
    Questions(bank, s)[s.index]
  }

  /** A locked-in answer to `q` that picks its correct option. */
  predicate LockedCorrect(q: Question, answers: map<string, string>) {
    HasSelection(answers, q.id) && PicksCorrect(q.options, answers[q.id])
  }

  /** How many of the first `n` questions have a correct recorded answer. */
  function Tally(qs: seq<Question>, answers: map<string, string>, n: nat): (r: nat)
    requires n <= |qs|
    ensures r <= n
  {
    if n == 0 then 0
    else Tally(qs, answers, n - 1) + (if LockedCorrect(qs[n - 1], answers) then 1 else 0)
  }

  /** Once a session is under way the score is the number of finished questions answered correctly. */
  predicate Tallied(bank: seq<Question>, s: State) {
    s.step != Welcome ==>
      Answered(s) <= |Questions(bank, s)| && s.score == Tally(Questions(bank, s), s.answers, Answered(s))
  }

  // ---------------------------------------------------------------------------
  // The handlers

  /** `setFilterDifficulty`, offered on the welcome page. */
  function SetDifficulty(bank: seq<Question>, s: State, d: Filter<Difficulty>): (r: Reply)
    requires Inv(bank, s)
    ensures Inv(bank, r.next)
    ensures r.outcome.Done? <==> s.step == Welcome
    ensures !r.outcome.Done? ==> r.outcome == Refused(NotOnWelcome) && r.next == s
    ensures r.outcome.Done? ==> r.next.step == Welcome && Questions(bank, r.next) == Select(bank, d, s.filterGrade)
    ensures r.outcome.Done? ==> r.next.filterDifficulty == d && r.next.(filterDifficulty := s.filterDifficulty) == s
  {
    if s.step != Welcome then Reply(Refused(NotOnWelcome), s)
    else Reply(Done, s.(filterDifficulty := d))
  }

  /** `setFilterGrade`, offered on the welcome page. */
  function SetGrade(bank: seq<Question>, s: State, g: Filter<Grade>): (r: Reply)
    requires Inv(bank, s)
    ensures Inv(bank, r.next)
    ensures r.outcome.Done? <==> s.step == Welcome
    ensures !r.outcome.Done? ==> r.outcome == Refused(NotOnWelcome) && r.next == s
    ensures r.outcome.Done? ==> r.next.step == Welcome && Questions(bank, r.next) == Select(bank, s.filterDifficulty, g)
    ensures r.outcome.Done? ==> r.next.filterGrade == g && r.next.(filterGrade := s.filterGrade) == s
  {
    if s.step != Welcome then Reply(Refused(NotOnWelcome), s)
    else Reply(Done, s.(filterGrade := g))
  }

  /** `handleStart`: a fresh session over the filtered list, which must not be empty. */
  function Start(bank: seq<Question>, s: State): (r: Reply)
    requires Inv(bank, s)
    ensures Inv(bank, r.next)
    ensures r.outcome.Done? <==> s.step == Welcome && Questions(bank, s) != []
    ensures !r.outcome.Done? ==> r.next == s
    ensures s.step == Welcome && Questions(bank, s) == [] ==> r.outcome == Refused(NoQuestions)
    ensures r.outcome.Done? ==>
      && r.next.step == Quiz && r.next.index == 0 && r.next.answers == map[]
      && !r.next.submitted && r.next.score == 0
      && r.next.filterDifficulty == s.filterDifficulty && r.next.filterGrade == s.filterGrade
      && Questions(bank, r.next) == Questions(bank, s)
      && Tallied(bank, r.next)
  {
    if s.step != Welcome then Reply(Refused(NotOnWelcome), s)
    else if |Questions(bank, s)| == 0 then Reply(Refused(NoQuestions), s)
    else Reply(Done, s.(step := Quiz, index := 0, answers := map[], submitted := false, score := 0))
  }

  /** `handleSelect`: record `optionId` for the current question unless it is locked in. */
  function SelectOption(bank: seq<Question>, s: State, optionId: string): (r: Reply)
    requires Inv(bank, s)
    ensures Inv(bank, r.next)
    ensures r.outcome.Done? <==> s.step == Quiz && !s.submitted
    ensures r.outcome == Ignored <==> s.step == Quiz && s.submitted
    ensures !r.outcome.Done? ==> r.next == s
    ensures r.outcome.Done? ==>
      var id := Current(bank, s).id;
      && id in r.next.answers && r.next.answers[id] == optionId
      && (forall k :: k != id ==> (k in r.next.answers <==> k in s.answers))
      && (forall k :: k != id && k in s.answers ==> r.next.answers[k] == s.answers[k])
      && r.next.(answers := s.answers) == s
  {
    if s.step != Quiz then Reply(Refused(NotInQuiz), s)
    else if s.submitted then Reply(Ignored, s)
    else Reply(Done, s.(answers := s.answers[Current(bank, s).id := optionId]))
  }

  /** `handleSubmit`: lock in the recorded answer and score it once. */
  function Submit(bank: seq<Question>, s: State): (r: Reply)
    requires Inv(bank, s)
    ensures Inv(bank, r.next)
    ensures r.outcome.Done? <==> s.step == Quiz && !s.submitted && HasSelection(s.answers, Current(bank, s).id)
    ensures r.outcome == Ignored <==> s.step == Quiz && !s.submitted && !HasSelection(s.answers, Current(bank, s).id)
    ensures s.step == Quiz && s.submitted ==> r.outcome == Refused(AlreadySubmitted)
    ensures !r.outcome.Done? ==> r.next == s
    ensures r.outcome.Done? ==>
      && r.next.submitted
      && Answered(r.next) == Answered(s) + 1
      && (r.next.score == s.score + 1 <==> LockedCorrect(Current(bank, s), s.answers))
      && (r.next.score == s.score || r.next.score == s.score + 1)
      && r.next.(score := s.score, submitted := false) == s
  {
    if s.step != Quiz then Reply(Refused(NotInQuiz), s)
    else if s.submitted then Reply(Refused(AlreadySubmitted), s)
    else
      var q := Current(bank, s);
      if !HasSelection(s.answers, q.id) then Reply(Ignored, s)
      else
        var gained := if PicksCorrect(q.options, s.answers[q.id]) then 1 else 0;
        Reply(Done, s.(score := s.score + gained, submitted := true))
  }

  /** `handleNext`: on to the next question, or to the result page after the last one. */
  function Next(bank: seq<Question>, s: State): (r: Reply)
    requires Inv(bank, s)
    ensures Inv(bank, r.next)
    ensures r.outcome.Done? <==> s.step == Quiz && s.submitted
    ensures s.step == Quiz && !s.submitted ==> r.outcome == Refused(NotSubmitted)
    ensures !r.outcome.Done? ==> r.next == s
    ensures r.outcome.Done? ==>
      && Answered(r.next) == Answered(s)
      && r.next.score == s.score && r.next.answers == s.answers
      && Questions(bank, r.next) == Questions(bank, s)
      && (r.next.step == Result <==> s.index + 1 == |Questions(bank, s)|)
      && (r.next.step == Result ==> r.next.index == s.index && r.next.submitted)
      && (r.next.step == Quiz ==> r.next.index == s.index + 1 && !r.next.submitted)
      && (r.next.step == Quiz <==> s.index + 1 < |Questions(bank, s)|)
      && r.next.(index := s.index, submitted := true, step := Quiz) == s
  {
    if s.step != Quiz then Reply(Refused(NotInQuiz), s)
    else if !s.submitted then Reply(Refused(NotSubmitted), s)
    else if s.index < |Questions(bank, s)| - 1 then Reply(Done, s.(index := s.index + 1, submitted := false))
    else Reply(Done, s.(step := Result))
  }

  /** `handleRestart`: back to the welcome page; the old session's values stay until the next start. */
  function Restart(bank: seq<Question>, s: State): (r: Reply)
    requires Inv(bank, s)
    ensures Inv(bank, r.next)
    ensures r.outcome.Done? <==> s.step == Result
    ensures !r.outcome.Done? ==> r.next == s
    ensures r.outcome.Done? ==> r.next.step == Welcome && r.next.(step := Result) == s
  {
    if s.step != Result then Reply(Refused(NotOnResult), s)
    else Reply(Done, s.(step := Welcome))
  }

  /** The handler a user action triggers. */
  function Apply(bank: seq<Question>, s: State, e: Event): (r: Reply)
    requires Inv(bank, s)
    ensures Inv(bank, r.next)
    ensures !r.outcome.Done? ==> r.next == s
  {
    match e
    case ChooseDifficulty(d) => SetDifficulty(bank, s, d)
    case ChooseGrade(g) => SetGrade(bank, s, g)
    case PressStart => Start(bank, s)
    case PickOption(id) => SelectOption(bank, s, id)
    case PressSubmit => Submit(bank, s)
    case PressNext => Next(bank, s)
    case PressRestart => Restart(bank, s)
  }

  /** The state after a sequence of user actions. */
  function Run(bank: seq<Question>, s: State, events: seq<Event>): (r: State)
    requires Inv(bank, s)
    ensures Inv(bank, r)
    decreases |events|
  {
    if events == [] then s
    else Run(bank, Apply(bank, s, events[0]).next, events[1..])
  }

  /** Running two sequences of actions one after the other is running their concatenation. */
  lemma {:induction false} RunAppend(bank: seq<Question>, s: State, a: seq<Event>, b: seq<Event>)
    requires Inv(bank, s)
    ensures Run(bank, s, a + b) == Run(bank, Run(bank, s, a), b)
    decreases |a|
  {
    if a == [] {
      assert a + b == b;
    } else {
      assert (a + b)[0] == a[0] && (a + b)[1..] == a[1..] + b;
      RunAppend(bank, Apply(bank, s, a[0]).next, a[1..], b);
    }
  }

  // ---------------------------------------------------------------------------
  // Derived values

  datatype Fraction = Fraction(num: nat, den: nat)

  /** The progress bar: finished questions over the length of the filtered list. */
  function Progress(bank: seq<Question>, s: State): (r: Fraction)
    ensures r.num == Answered(s) && r.den == |Questions(bank, s)|
    ensures Inv(bank, s) && s.step == Quiz ==>
      && 0 < r.den && r.num <= r.den
      && (r.num == r.den <==> s.submitted && s.index + 1 == r.den)
    ensures Inv(bank, s) && s.step == Result ==> 0 < r.den && r.num == r.den
  {
    Fraction(Answered(s), |Questions(bank, s)|)
  }

  datatype Summary = Summary(score: nat, total: nat, percentage: nat, tier: Tier)

  /** What the result page shows. */
  function ResultSummary(bank: seq<Question>, s: State): (r: Summary)
    requires Inv(bank, s) && s.step == Result
    ensures r.total == |Questions(bank, s)| && 0 < r.total
    ensures r.score == s.score && r.score <= r.total
    ensures r.percentage == Percentage(r.score, r.total)
    ensures -(r.total as int) < 2 * r.total * r.percentage - 200 * r.score <= r.total
    ensures r.percentage <= 100
    ensures r.tier == Master <==> r.score == r.total
    ensures r.tier == Good <==> r.score < r.total && 2 * r.score > r.total
  {
    var total := |Questions(bank, s)|;
    Summary(s.score, total, Percentage(s.score, total), TierOf(s.score, total))
  }

  /**
   * How the progress bar moves: a start empties it, a submit fills one more
   * question, and next, select, restart and the filters leave its count where it is.
   */
  lemma ProgressMoves(bank: seq<Question>, s: State, e: Event)
    requires Inv(bank, s) && Apply(bank, s, e).outcome.Done?
    ensures var t := Apply(bank, s, e).next;
      && (e == PressStart ==> Progress(bank, t).num == 0)
      && (e == PressSubmit ==> Progress(bank, t).num == Progress(bank, s).num + 1)
      && (e == PressNext || e == PressRestart || e.PickOption? ==> Progress(bank, t) == Progress(bank, s))
      && (e.ChooseDifficulty? || e.ChooseGrade? ==> Progress(bank, t).num == Progress(bank, s).num)
  {
  }

  // ---------------------------------------------------------------------------
  // Properties of the handlers

  /** Choosing twice before submitting is the same as choosing the second option only. */
  lemma SelectLastWriteWins(bank: seq<Question>, s: State, first: string, second: string)
    requires Inv(bank, s)
    ensures SelectOption(bank, SelectOption(bank, s, first).next, second).next == SelectOption(bank, s, second).next
  {
  }

  /** A second submit without moving on is turned down and scores nothing. */
  lemma SubmitOnlyOnce(bank: seq<Question>, s: State)
    requires Inv(bank, s)
    ensures var once := Submit(bank, s);
      once.outcome.Done? ==> Submit(bank, once.next) == Reply(Refused(AlreadySubmitted), once.next)
  {
  }

  /**
   * For a question with distinct option ids and one correct option, submitting
   * raises the score exactly when the recorded id is that option's id.
   */
  lemma SubmitScoresCorrectId(bank: seq<Question>, s: State, k: int)
    requires Inv(bank, s) && s.step == Quiz && !s.submitted
    requires DistinctOptionIds(Current(bank, s).options) && OnlyCorrectAt(Current(bank, s).options, k)
    requires HasSelection(s.answers, Current(bank, s).id)
    ensures var q := Current(bank, s);
      Submit(bank, s).next.score == s.score + 1 <==> s.answers[q.id] == q.options[k].id
  {
  }

  /** Only a start lowers the score; every other action keeps or raises it. */
  lemma ScoreNeverDrops(bank: seq<Question>, s: State, e: Event)
    requires Inv(bank, s) && !e.PressStart?
    ensures Apply(bank, s, e).next.score >= s.score
  {
  }

  /** Along any sequence of actions without a start, the score never drops. */
  lemma {:induction false} RunScoreNeverDrops(bank: seq<Question>, s: State, events: seq<Event>)
    requires Inv(bank, s)
    requires forall i :: 0 <= i < |events| ==> !events[i].PressStart?
    ensures Run(bank, s, events).score >= s.score
    decreases |events|
  {
    if events != [] {
      var t := Apply(bank, s, events[0]).next;
      ScoreNeverDrops(bank, s, events[0]);
      RunScoreNeverDrops(bank, t, events[1..]);
    }
  }

  // ---------------------------------------------------------------------------
  // The score counts the correct answers

  /** The tally only looks at the answers recorded for the questions it counts. */
  lemma {:induction false} TallyFrame(qs: seq<Question>, a1: map<string, string>, a2: map<string, string>, n: nat)
    requires n <= |qs|
    requires forall i :: 0 <= i < n ==> LockedCorrect(qs[i], a1) == LockedCorrect(qs[i], a2)
    ensures Tally(qs, a1, n) == Tally(qs, a2, n)
  {
    if n > 0 {
      TallyFrame(qs, a1, a2, n - 1);
    }
  }

  /** Recording an answer for one question leaves the tally of earlier, distinct questions alone. */
  lemma TallyIgnoresOtherIds(qs: seq<Question>, answers: map<string, string>, n: nat, optionId: string)
    requires n < |qs| && DistinctQuestionIds(qs)
    ensures Tally(qs, answers[qs[n].id := optionId], n) == Tally(qs, answers, n)
  {
    var updated := answers[qs[n].id := optionId];
    forall i | 0 <= i < n
      ensures LockedCorrect(qs[i], updated) == LockedCorrect(qs[i], answers)
    {
      assert qs[i].id != qs[n].id;
    }
    TallyFrame(qs, updated, answers, n);
  }

  /**
   * With distinct question ids in the bank, every action keeps the score equal
   * to the number of finished questions answered correctly.
   */
  lemma ApplyKeepsTally(bank: seq<Question>, s: State, e: Event)
    requires DistinctQuestionIds(bank)
    requires Inv(bank, s) && Tallied(bank, s)
    ensures Tallied(bank, Apply(bank, s, e).next)
  {
    var r := Apply(bank, s, e);
    if r.outcome.Done? {
      match e
      case PickOption(id) =>
        var qs := Questions(bank, s);
        SelectKeepsDistinctIds(bank, s.filterDifficulty, s.filterGrade);
        TallyIgnoresOtherIds(qs, s.answers, s.index, id);
      case _ =>
    }
  }

  /** The tally invariant holds after any sequence of actions. */
  lemma {:induction false} RunKeepsTally(bank: seq<Question>, s: State, events: seq<Event>)
    requires DistinctQuestionIds(bank)
    requires Inv(bank, s) && Tallied(bank, s)
    ensures Tallied(bank, Run(bank, s, events))
    decreases |events|
  {
    if events != [] {
      ApplyKeepsTally(bank, s, events[0]);
      RunKeepsTally(bank, Apply(bank, s, events[0]).next, events[1..]);
    }
  }

  /**
   * From a fresh page, whatever the user does: on the result page the score is
   * at most the number of questions, and with distinct question ids it is the
   * number of questions answered correctly.
   */
  lemma ResultScore(bank: seq<Question>, events: seq<Event>)
    ensures var t := Run(bank, Initial, events);
      t.step == Result ==> t.score <= |Questions(bank, t)|
    ensures var t := Run(bank, Initial, events);
      t.step == Result && DistinctQuestionIds(bank) ==> t.score == Tally(Questions(bank, t), t.answers, |Questions(bank, t)|)
  {
    if DistinctQuestionIds(bank) {
      RunKeepsTally(bank, Initial, events);
    }
  }
}
