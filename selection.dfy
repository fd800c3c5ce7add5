// Choosing the questions of a session: the bank filtered by difficulty and
// grade, where either filter may be left at "all".
module Selection {
  import opened Types

  /** A filter value: `All` admits everything, `Only(v)` admits `v` alone. */
  datatype Filter<T> = All | Only(value: T)

  predicate Admits<T(==)>(f: Filter<T>, x: T) {
    f.All? || f.value == x
  }

  predicate Matches(q: Question, difficulty: Filter<Difficulty>, grade: Filter<Grade>) {
    Admits(difficulty, q.difficulty) && Admits(grade, q.grade)
  }

  /** The questions of `bank` that match both filters, in bank order. */
  function Select(bank: seq<Question>, difficulty: Filter<Difficulty>, grade: Filter<Grade>): (r: seq<Question>)
    ensures |r| <= |bank|
    ensures forall i :: 0 <= i < |r| ==> Matches(r[i], difficulty, grade)
  {
    if bank == [] then []
    else
      var rest := Select(bank[1..], difficulty, grade);
      if Matches(bank[0], difficulty, grade) then [bank[0]] + rest else rest
  }

  /** The positions from `from` on of the questions of `bank` that match, in increasing order. */
  function MatchingFrom(bank: seq<Question>, difficulty: Filter<Difficulty>, grade: Filter<Grade>, from: nat): (idx: seq<nat>)
    requires from <= |bank|
    ensures forall k :: 0 <= k < |idx| ==> from <= idx[k] < |bank| && Matches(bank[idx[k]], difficulty, grade)
    ensures forall k, l :: 0 <= k < l < |idx| ==> idx[k] < idx[l]
    decreases |bank| - from
  {
    if from == |bank| then []
    else
      var rest := MatchingFrom(bank, difficulty, grade, from + 1);
      if Matches(bank[from], difficulty, grade) then [from] + rest else rest
  }

  /** The positions of the matching questions of `bank`, in increasing order. */
  function MatchingIndices(bank: seq<Question>, difficulty: Filter<Difficulty>, grade: Filter<Grade>): seq<nat> {
    MatchingFrom(bank, difficulty, grade, 0)
  }

  /** No matching position from `from` on is left out. */
  lemma {:induction false} MatchingFromComplete(bank: seq<Question>, difficulty: Filter<Difficulty>, grade: Filter<Grade>, from: nat, i: nat)
    requires from <= i < |bank| && Matches(bank[i], difficulty, grade)
    ensures i in MatchingFrom(bank, difficulty, grade, from)
    decreases i - from
  {
    if from < i {
      MatchingFromComplete(bank, difficulty, grade, from + 1, i);
    }
  }

  /** Every matching position of the bank is among `MatchingIndices`. */
  lemma MatchingIndicesComplete(bank: seq<Question>, difficulty: Filter<Difficulty>, grade: Filter<Grade>, i: nat)
    requires i < |bank| && Matches(bank[i], difficulty, grade)
    ensures i in MatchingIndices(bank, difficulty, grade)
  {
    MatchingFromComplete(bank, difficulty, grade, 0, i);
  }

  /** Filtering the suffix from `from` picks out the questions at the matching positions from `from`. */
  lemma {:induction false} SelectFromIndices(bank: seq<Question>, difficulty: Filter<Difficulty>, grade: Filter<Grade>, from: nat)
    requires from <= |bank|
    ensures var r, idx := Select(bank[from..], difficulty, grade), MatchingFrom(bank, difficulty, grade, from);
      |r| == |idx| && forall k :: 0 <= k < |r| ==> r[k] == bank[idx[k]]
    decreases |bank| - from
  {
    if from < |bank| {
      SelectFromIndices(bank, difficulty, grade, from + 1);
      var suffix := bank[from..];
      var tail, idx := Select(bank[from + 1..], difficulty, grade), MatchingFrom(bank, difficulty, grade, from + 1);
      assert suffix[0] == bank[from] && suffix[1..] == bank[from + 1..];
      if Matches(bank[from], difficulty, grade) {
        assert Select(suffix, difficulty, grade) == [bank[from]] + tail;
        PickedWithHead(bank, from, tail, idx);
      } else {
        assert Select(suffix, difficulty, grade) == tail;
      }
    }
  }

  /** Putting the question at `from` in front of a picking adds `from` in front of its positions. */
  lemma PickedWithHead(bank: seq<Question>, from: nat, tail: seq<Question>, idx: seq<nat>)
    requires from < |bank| && |tail| == |idx|
    requires forall k :: 0 <= k < |idx| ==> idx[k] < |bank| && tail[k] == bank[idx[k]]
    ensures var r, idx' := [bank[from]] + tail, [from] + idx;
      |r| == |idx'| && forall k :: 0 <= k < |r| ==> idx'[k] < |bank| && r[k] == bank[idx'[k]]
  {
  }

  /**
   * The selection is exactly the matching questions picked out in increasing
   * bank position: it preserves order and leaves no matching question out.
   */
  lemma SelectIsOrderedSubsequence(bank: seq<Question>, difficulty: Filter<Difficulty>, grade: Filter<Grade>)
    ensures var r, idx := Select(bank, difficulty, grade), MatchingIndices(bank, difficulty, grade);
      |r| == |idx| && forall k :: 0 <= k < |r| ==> r[k] == bank[idx[k]]
  {
    SelectFromIndices(bank, difficulty, grade, 0);
    assert bank[0..] == bank;
  }

  /** Every matching question of the bank is in the selection. */
  lemma SelectComplete(bank: seq<Question>, difficulty: Filter<Difficulty>, grade: Filter<Grade>, i: nat)
    requires i < |bank| && Matches(bank[i], difficulty, grade)
    ensures bank[i] in Select(bank, difficulty, grade)
  {
    SelectIsOrderedSubsequence(bank, difficulty, grade);
    MatchingIndicesComplete(bank, difficulty, grade, i);
    var idx := MatchingIndices(bank, difficulty, grade);
    var k :| 0 <= k < |idx| && idx[k] == i;
    assert Select(bank, difficulty, grade)[k] == bank[i];
  }

  /** Filtering commutes with concatenation of banks. */
  lemma {:induction false} SelectAppend(a: seq<Question>, b: seq<Question>, difficulty: Filter<Difficulty>, grade: Filter<Grade>)
    ensures Select(a + b, difficulty, grade) == Select(a, difficulty, grade) + Select(b, difficulty, grade)
  {
    if a == [] {
      assert a + b == b;
    } else {
      assert (a + b)[0] == a[0];
      assert (a + b)[1..] == a[1..] + b;
      SelectAppend(a[1..], b, difficulty, grade);
    }
  }

  /** Filtering the suffix from `k` keeps the question at `k` when it matches, then filters the rest. */
  lemma SelectSuffix(bank: seq<Question>, difficulty: Filter<Difficulty>, grade: Filter<Grade>, k: nat)
    requires k < |bank|
    ensures Select(bank[k..], difficulty, grade)
      == (if Matches(bank[k], difficulty, grade) then [bank[k]] else []) + Select(bank[k + 1..], difficulty, grade)
  {
  }

  /** With both filters at "all" every question is kept. */
  lemma {:induction false} SelectAllKeepsBank(bank: seq<Question>)
    ensures Select(bank, All, All) == bank
  {
    if bank != [] {
      SelectAllKeepsBank(bank[1..]);
    }
  }

  /** Filtering an already filtered list with the same filters changes nothing. */
  lemma {:induction false} SelectIdempotent(bank: seq<Question>, difficulty: Filter<Difficulty>, grade: Filter<Grade>)
    ensures var r := Select(bank, difficulty, grade); Select(r, difficulty, grade) == r
  {
    if bank != [] {
      SelectIdempotent(bank[1..], difficulty, grade);
    }
  }

  /** The selection is empty exactly when no question of the bank matches. */
  lemma SelectEmptyIff(bank: seq<Question>, difficulty: Filter<Difficulty>, grade: Filter<Grade>)
    ensures Select(bank, difficulty, grade) == [] <==> forall i :: 0 <= i < |bank| ==> !Matches(bank[i], difficulty, grade)
  {
  }

  /** Question ids that are distinct in the bank stay distinct in the selection. */
  lemma SelectKeepsDistinctIds(bank: seq<Question>, difficulty: Filter<Difficulty>, grade: Filter<Grade>)
    requires DistinctQuestionIds(bank)
    ensures DistinctQuestionIds(Select(bank, difficulty, grade))
  {
    var r, idx := Select(bank, difficulty, grade), MatchingIndices(bank, difficulty, grade);
    SelectIsOrderedSubsequence(bank, difficulty, grade);
    forall i, j | 0 <= i < j < |r|
      ensures r[i].id != r[j].id
    {
      assert idx[i] < idx[j];
      assert r[i] == bank[idx[i]] && r[j] == bank[idx[j]];
    }
  }
}
