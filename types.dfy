// The question data model of the grammar quiz: enumerations, the Option,
// Explanation and Question records, and the well-formedness facts the quiz
// engine relies on (one correct option, distinct ids, a blank marker).
module Types {

  datatype Difficulty = Beginner | Intermediate | Advanced

  datatype Grade = PrimaryLow | PrimaryHigh | JuniorHigh

  datatype GrammarPoint =
    | RelativeClause
    | AdverbialClause
    | NonFiniteVerb
    | Conjunction
    | AbsoluteConstruction
    | Preposition

  /** One answer choice of a question; `id` is unique only within its question. */
  datatype Option = Option(id: string, text: string, isCorrect: bool)

  /** The explanation card shown once an answer has been locked in. */
  datatype Explanation = Explanation(correctAnswer: string, rule: string, example: string, pitfall: string)

  datatype Question = Question(
    id: string,
    sentence: string,
    options: seq<Option>,
    explanation: Explanation,
    difficulty: Difficulty,
    grade: Grade,
    category: GrammarPoint)

  /** The value found by a lookup, or the absence of one (JavaScript's `undefined`). */
  datatype Maybe<T> = Nothing | Just(value: T)

  /** The marker a sentence carries where the answer goes; the page splits on it. */
  const Blank: string := "______"

  /** `options.find(o => o.id === id)`: the first option carrying `id`. */
  function FindOption(options: seq<Option>, id: string): (r: Maybe<Option>)
    ensures r.Nothing? <==> forall i :: 0 <= i < |options| ==> options[i].id != id
    ensures r.Just? ==> exists i :: 0 <= i < |options| && options[i] == r.value && r.value.id == id
                                    && forall j :: 0 <= j < i ==> options[j].id != id
  {
    if options == [] then Nothing
    else if options[0].id == id then Just(options[0])
    else
      var r := FindOption(options[1..], id);
      assert forall i :: 0 < i < |options| ==> options[i] == options[1..][i - 1];
      r
  }

  /**
   * `selectedOption?.isCorrect`: some option carries `id`, and the first one
   * that does is marked correct.
   */
  predicate PicksCorrect(options: seq<Option>, id: string): (b: bool)
    ensures b <==> exists i :: 0 <= i < |options| && options[i].id == id && options[i].isCorrect
                              && forall j :: 0 <= j < i ==> options[j].id != id
  {
    var found := FindOption(options, id);
    found.Just? && found.value.isCorrect
  }

  /** The number of options marked correct. */
  function CorrectCount(options: seq<Option>): nat {
    if options == [] then 0
    else (if options[0].isCorrect then 1 else 0) + CorrectCount(options[1..])
  }

  /** Exactly one option, the one at index `k`, is marked correct. */
  predicate OnlyCorrectAt(options: seq<Option>, k: int) {
    && 0 <= k < |options|
    && options[k].isCorrect
    && forall j :: 0 <= j < |options| && options[j].isCorrect ==> j == k
  }

  ghost predicate ExactlyOneCorrect(options: seq<Option>) {
    exists k :: OnlyCorrectAt(options, k)
  }

  predicate DistinctOptionIds(options: seq<Option>) {
    forall i, j :: 0 <= i < j < |options| ==> options[i].id != options[j].id
  }

  /** Every option marked correct carries the text the explanation names. */
  predicate ExplainsCorrectText(q: Question) {
    forall i :: 0 <= i < |q.options| && q.options[i].isCorrect ==> q.options[i].text == q.explanation.correctAnswer
  }

  predicate BlankAt(s: string, k: int) {
    0 <= k && k + |Blank| <= |s| && s[k..k + |Blank|] == Blank
  }

  ghost predicate ContainsBlank(s: string) {
    exists k :: BlankAt(s, k)
  }

  ghost predicate WellFormedQuestion(q: Question) {
    && |q.options| >= 2
    && DistinctOptionIds(q.options)
    && ExactlyOneCorrect(q.options)
    && ExplainsCorrectText(q)
    && ContainsBlank(q.sentence)
  }

  predicate DistinctQuestionIds(qs: seq<Question>) {
    forall i, j :: 0 <= i < j < |qs| ==> qs[i].id != qs[j].id
  }

  ghost predicate WellFormedBank(bank: seq<Question>) {
    && DistinctQuestionIds(bank)
    && forall i :: 0 <= i < |bank| ==> WellFormedQuestion(bank[i])
  }

  /** Counting the correct options decides whether exactly one is correct. */
  lemma {:induction false} CorrectCountIsOne(options: seq<Option>)
    ensures CorrectCount(options) == 1 <==> ExactlyOneCorrect(options)
  {
    if options == [] {
    } else {
      var rest := options[1..];
      CorrectCountIsOne(rest);
      assert forall i :: 0 < i < |options| ==> options[i] == rest[i - 1];
      if CorrectCount(options) == 1 {
        if options[0].isCorrect {
          CorrectCountZero(rest);
          assert OnlyCorrectAt(options, 0);
        } else {
          var k :| OnlyCorrectAt(rest, k);
          assert OnlyCorrectAt(options, k + 1);
        }
      } else if ExactlyOneCorrect(options) {
        var k :| OnlyCorrectAt(options, k);
        if k == 0 {
          assert forall j :: 0 <= j < |rest| ==> !rest[j].isCorrect;
          CorrectCountZero(rest);
          assert false;
        } else {
          assert OnlyCorrectAt(rest, k - 1);
          assert false;
        }
      }
    }
  }

  /** No option is marked correct exactly when the count is zero. */
  lemma {:induction false} CorrectCountZero(options: seq<Option>)
    ensures CorrectCount(options) == 0 <==> forall j :: 0 <= j < |options| ==> !options[j].isCorrect
  {
    if options != [] {
      CorrectCountZero(options[1..]);
      assert forall i :: 0 < i < |options| ==> options[i] == options[1..][i - 1];
    }
  }

  /**
   * With distinct option ids and a single correct option, a chosen id scores
   * exactly when it is the id of that correct option.
   */
  lemma PicksCorrectIff(options: seq<Option>, k: int, id: string)
    requires DistinctOptionIds(options) && OnlyCorrectAt(options, k)
    ensures PicksCorrect(options, id) <==> id == options[k].id
  {
  }
}
