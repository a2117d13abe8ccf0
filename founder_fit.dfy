/** `FounderFitQuiz`: three yes/no questions; the score is the rounded
    percentage of "yes" answers. The quiz keeps its answers and score as
    state and reports every score it sets to its parent. */
module FounderFit {
  import opened Domain

  /** The number of questions the quiz asks. */
  const QuestionCount: nat := 3

  /** The questions answered "yes"; no other answer counts. */
  function YesKeys(answers: map<nat, string>): set<nat>
  {
    set k | k in answers && answers[k] == "yes"
  }

  /** The rounded percentage of "yes" answers out of all the questions. */
  function Score(answers: map<nat, string>): (score: int)
    ensures 0 <= score
    ensures 3 * score - 1 <= 100 * |YesKeys(answers)| <= 3 * score + 1
  {
    RoundDiv(100 * |YesKeys(answers)|, QuestionCount)
  }

  /** A subset is no larger than its superset. */
  lemma {:induction false} SubsetCard(a: set<nat>, b: set<nat>)
    requires a <= b
    ensures |a| <= |b|
    decreases |b|
  {
    if b != {} {
      var x :| x in b;
      SubsetCard(a - {x}, b - {x});
    }
  }

  /** With the three questions, the score is one of 0, 33, 67 and 100. */
  lemma ScoreValues(answers: map<nat, string>)
    requires forall k :: k in answers ==> k < QuestionCount
    ensures Score(answers) in {0, 33, 67, 100}
  {
    var yes := YesKeys(answers);
    SubsetCard(yes, {0, 1, 2});
    assert |yes| <= 3;
  }

  /** Two answer sets with the same "yes" answers score the same, however
      the other questions were answered. */
  lemma OnlyYesCounts(a: map<nat, string>, b: map<nat, string>)
    requires forall k :: (k in a && a[k] == "yes") <==> (k in b && b[k] == "yes")
    ensures Score(a) == Score(b)
  {
    assert YesKeys(a) == YesKeys(b);
  }

  /** All three questions answered "yes" scores 100; none scores 0. */
  lemma ScoreExtremes(answers: map<nat, string>)
    requires forall k :: k in answers ==> k < QuestionCount
    ensures (forall k :: k in answers ==> answers[k] != "yes") ==> Score(answers) == 0
    ensures (forall k :: k < QuestionCount ==> k in answers && answers[k] == "yes") ==> Score(answers) == 100
  {
    if forall k :: k < QuestionCount ==> k in answers && answers[k] == "yes" {
      assert YesKeys(answers) == {0, 1, 2};
    }
    if forall k :: k in answers ==> answers[k] != "yes" {
      assert YesKeys(answers) == {};
    }
  }

  /** The quiz component's state; `reported` is the last score handed to the
      parent through `onScoreChange`. */
  class Quiz {
    var answers: map<nat, string>
    var score: Option<int>
    var reported: Option<int>

    /** Answers exist only for the three questions. */
    ghost predicate Valid()
      reads this
    {
      forall k :: k in answers ==> k < QuestionCount
    }

    /** The Calculate button is enabled iff every question has an answer. */
    predicate AllAnswered()
      reads this
    {
      |answers.Keys| == QuestionCount
    }

    /** Mounting runs the reset effect once. */
    constructor ()
      ensures Valid()
      ensures answers == map[] && score.None? && reported.None?
    {
      answers := map[];
      score := None;
      reported := None;
    }

    /** Choosing `value` for question `i` sets that answer only. */
    method ValueChange(i: nat, value: string)
      requires Valid() && i < QuestionCount
      modifies this`answers
      ensures Valid()
      ensures answers == old(answers)[i := value]
      ensures forall k :: k != i ==> (k in answers <==> k in old(answers))
      ensures forall k :: k != i && k in answers ==> answers[k] == old(answers)[k]
    {
      answers := answers[i := value];
    }

    /** Sets the score and reports the same score to the parent. */
    method CalculateScore()
      requires Valid()
      modifies this`score, this`reported
      ensures Valid()
      ensures score == Some(Score(answers)) && reported == score
      ensures score.value in {0, 33, 67, 100}
    {
      ScoreValues(answers);
      var newScore := Score(answers);
      score := Some(newScore);
      reported := Some(newScore);
    }

    /** The effect run when `ideaSubmitted` changes: everything is cleared,
        including the score the parent holds. */
    method Reset()
      modifies this
      ensures Valid()
      ensures answers == map[] && score.None? && reported.None?
    {
      answers := map[];
      score := None;
      reported := None;
    }
  }

  /** The Calculate button is enabled exactly when each of the three
      questions has an answer. */
  lemma AllAnsweredIffEach(answers: map<nat, string>)
    requires forall k :: k in answers ==> k < QuestionCount
    ensures |answers.Keys| == QuestionCount <==> forall k: nat :: k < QuestionCount ==> k in answers
  {
    var keys := answers.Keys;
    if 0 in keys && 1 in keys && 2 in keys {
      assert keys == {0, 1, 2};
    } else {
      var others: set<nat> := if 0 !in keys then {1, 2} else if 1 !in keys then {0, 2} else {0, 1};
      assert keys <= others;
      SubsetCard(keys, others);
    }
  }
}
