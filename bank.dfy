// The fixed question bank the quiz draws from, and the proof that it meets
// every well-formedness fact the quiz engine relies on.
module Bank {
  import opened Types

  const Question1: Question :=
    Question(
      "1",
      Blank + " tired, she still finished the report.",
      [Option("a", "Although", true), Option("b", "Because", false),
       Option("c", "Unless", false), Option("d", "Since", false)],
      Explanation(
        "Although",
        "Although 引导让步状语从句，表示“尽管”。句子前半部分说“累”，后半部分说“完成了报告”，存在转折关系。",
        "Although it was raining, they went out for a walk.",
        "不要在 Although 引导的句子中再使用 but。"),
      Beginner, PrimaryHigh, AdverbialClause)

  const Question2: Question :=
    Question(
      "2",
      "The boy " + Blank + " is wearing a red hat is my brother.",
      [Option("a", "which", false), Option("b", "who", true),
       Option("c", "whom", false), Option("d", "whose", false)],
      Explanation(
        "who",
        "who 引导定语从句，修饰表示人的先行词（The boy），并在从句中作主语。",
        "The girl who is dancing is my sister.",
        "which 只能修饰物，不能修饰人。"),
      Beginner, PrimaryHigh, RelativeClause)

  const Question3: Question :=
    Question(
      "3",
      Blank + " the homework, he went out to play football.",
      [Option("a", "Finish", false), Option("b", "Finished", false),
       Option("c", "Having finished", true), Option("d", "To finish", false)],
      Explanation(
        "Having finished",
        "现在分词的完成式（Having done）表示该动作在主句动作之前已经完成。这里“完成作业”发生在“出去踢球”之前。",
        "Having seen the film, I don't want to see it again.",
        "如果用 Finishing，则表示两个动作几乎同时发生。"),
      Advanced, JuniorHigh, NonFiniteVerb)

  const Question4: Question :=
    Question(
      "4",
      "This is the house " + Blank + " I lived ten years ago.",
      [Option("a", "which", false), Option("b", "that", false),
       Option("c", "where", true), Option("d", "when", false)],
      Explanation(
        "where",
        "where 引导定语从句，修饰表示地点的先行词（the house），在从句中作地点状语（相当于 in which）。",
        "The school where I study is very beautiful.",
        "如果从句中谓语动词是及物动词且缺宾语，则需用 which 或 that。"),
      Intermediate, JuniorHigh, RelativeClause)

  const Question5: Question :=
    Question(
      "5",
      "Weather " + Blank + ", we will go for a picnic tomorrow.",
      [Option("a", "permits", false), Option("b", "permitting", true),
       Option("c", "permitted", false), Option("d", "to permit", false)],
      Explanation(
        "permitting",
        "独立主格结构。Weather 与 permit 之间是主动关系，因此使用现在分词 permitting。",
        "Time permitting, I'll visit you.",
        "注意独立主格结构中名词与动词的逻辑关系是主动还是被动。"),
      Advanced, JuniorHigh, AbsoluteConstruction)

  const Question6: Question :=
    Question(
      "6",
      "I won't go to the party " + Blank + " I am invited.",
      [Option("a", "if", false), Option("b", "unless", true),
       Option("c", "because", false), Option("d", "as", false)],
      Explanation(
        "unless",
        "unless 引导条件状语从句，相当于 if...not，表示“除非”。",
        "You will fail unless you work hard.",
        "不要混淆 unless (除非) 和 until (直到)。"),
      Beginner, PrimaryHigh, Conjunction)

  const Question7: Question :=
    Question(
      "7",
      "The news " + Blank + " he won the first prize made us very happy.",
      [Option("a", "which", false), Option("b", "that", true),
       Option("c", "whether", false), Option("d", "what", false)],
      Explanation(
        "that",
        "that 引导同位语从句，用于解释说明名词（The news）的具体内容，that 在从句中不作成分且无实际意义。",
        "The fact that he is honest is well known.",
        "同位语从句与定语从句的区别：that 在同位语从句中不作成分，在定语从句中作主语或宾语。"),
      Intermediate, JuniorHigh, AdverbialClause)

  const Question8: Question :=
    Question(
      "8",
      "It is high time that we " + Blank + " home.",
      [Option("a", "go", false), Option("b", "went", true),
       Option("c", "are going", false), Option("d", "will go", false)],
      Explanation(
        "went",
        "It is (high) time that... 句型中，从句谓语动词用虚拟语气，通常用过去式（或 should + 动词原形，should 不可省略）。",
        "It is time that we started our work.",
        "注意该句型中的虚拟语气用法，不要直接用一般现在时。"),
      Intermediate, JuniorHigh, AdverbialClause)

  /** `QUESTION_BANK`, in its order. */
  const QuestionBank: seq<Question> :=
    [Question1, Question2, Question3, Question4, Question5, Question6, Question7, Question8]

  /** A sentence whose first `k` characters are followed by the marker contains it. */
  lemma BlankAfter(s: string, k: nat)
    requires k + |Blank| <= |s| && s[k..k + |Blank|] == Blank
    ensures ContainsBlank(s)
  {
    assert BlankAt(s, k);
  }

  /** A four-option question whose only correct option is at `k`, explained by its text. */
  lemma FourOptionQuestion(q: Question, k: nat)
    requires |q.options| == 4 && k < 4 && DistinctOptionIds(q.options)
    requires CorrectCount(q.options) == 1 && q.options[k].isCorrect
    requires q.options[k].text == q.explanation.correctAnswer
    requires ContainsBlank(q.sentence)
    ensures WellFormedQuestion(q)
  {
    CorrectCountIsOne(q.options);
    var j :| OnlyCorrectAt(q.options, j);
    assert j == k;
  }

  lemma Question1WellFormed()
    ensures WellFormedQuestion(Question1)
  {
    BlankAfter(Question1.sentence, 0);
    FourOptionQuestion(Question1, 0);
  }

  lemma Question2WellFormed()
    ensures WellFormedQuestion(Question2)
  {
    BlankAfter(Question2.sentence, 8);
    FourOptionQuestion(Question2, 1);
  }

  lemma Question3WellFormed()
    ensures WellFormedQuestion(Question3)
  {
    BlankAfter(Question3.sentence, 0);
    FourOptionQuestion(Question3, 2);
  }

  lemma Question4WellFormed()
    ensures WellFormedQuestion(Question4)
  {
    BlankAfter(Question4.sentence, 18);
    FourOptionQuestion(Question4, 2);
  }

  lemma Question5WellFormed()
    ensures WellFormedQuestion(Question5)
  {
    BlankAfter(Question5.sentence, 8);
    FourOptionQuestion(Question5, 1);
  }

  lemma Question6WellFormed()
    ensures WellFormedQuestion(Question6)
  {
    BlankAfter(Question6.sentence, 24);
    FourOptionQuestion(Question6, 1);
  }

  lemma Question7WellFormed()
    ensures WellFormedQuestion(Question7)
  {
    BlankAfter(Question7.sentence, 9);
    FourOptionQuestion(Question7, 1);
  }

  lemma Question8WellFormed()
    ensures WellFormedQuestion(Question8)
  {
    BlankAfter(Question8.sentence, 24);
    FourOptionQuestion(Question8, 1);
  }

  /** The eight question ids "1" to "8" are pairwise distinct. */
  lemma QuestionIdsDistinct()
    ensures DistinctQuestionIds(QuestionBank)
  {
  }

  /** The bank meets every well-formedness fact: distinct ids and eight well-formed questions. */
  lemma QuestionBankWellFormed()
    ensures WellFormedBank(QuestionBank)
  {
    QuestionIdsDistinct();
    Question1WellFormed();
    Question2WellFormed();
    Question3WellFormed();
    Question4WellFormed();
    Question5WellFormed();
    Question6WellFormed();
    Question7WellFormed();
    Question8WellFormed();
  }

  /** No question of the bank is meant for the lower primary grades. */
  lemma NoPrimaryLowQuestion()
    ensures forall i :: 0 <= i < |QuestionBank| ==> QuestionBank[i].grade != PrimaryLow
  {
  }
}
