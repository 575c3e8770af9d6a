/** The score the quiz view computes when the last question is passed, before it records it in the store. */
module QuizView {
  import opened Wrappers
  import opened Seqs
  import opened Quiz

  function IsCorrect(): QuizQuestion -> bool {
    (q: QuizQuestion) => q.userAnswer == Some(q.correctIndex)
  }

  /** Number of questions whose recorded answer is the correct option. */
  function CorrectCount(questions: seq<QuizQuestion>): (c: nat)
    ensures c == |set j | 0 <= j < |questions| && questions[j].userAnswer == Some(questions[j].correctIndex)|
    ensures c <= |questions|
  {
    FilterCount(questions, IsCorrect());
    assert Accepted(questions, IsCorrect())
        == set j | 0 <= j < |questions| && questions[j].userAnswer == Some(questions[j].correctIndex);
    |Filter(questions, IsCorrect())|
  }

  /**
   * The percentage of correct answers rounded to the nearest integer, halves
   * up: the score is within one half of 100 * correct / total, and lies in
   * 0..100.
   */
  function Score(questions: seq<QuizQuestion>): (score: int)
    requires |questions| > 0
    ensures var n, c := |questions|, CorrectCount(questions);
      2 * n * score - n <= 200 * c < 2 * n * score + n
    ensures 0 <= score <= 100
  {
    var n, c := |questions|, CorrectCount(questions);
    RoundedPercentage(c, n)
  }

  /** Math.round(100 * c / n) for 0 <= c <= n, in integers: add one half, then round down. */
  function RoundedPercentage(c: nat, n: nat): (score: int)
    requires 0 < n && c <= n
    ensures 2 * n * score - n <= 200 * c < 2 * n * score + n
    ensures 0 <= score <= 100
  {
    RoundingBounds(c, n);
    (200 * c + n) / (2 * n)
  }

  lemma RoundingBounds(c: nat, n: nat)
    requires 0 < n && c <= n
    ensures var score := (200 * c + n) / (2 * n);
      && 2 * n * score <= 200 * c + n < 2 * n * score + 2 * n
      && 0 <= score <= 100
  {
    var d, x := 2 * n, 200 * c + n;
    var score := x / d;
    assert d * score <= x < d * score + d && score >= 0 by {
      assert x == d * score + x % d && 0 <= x % d < d;
    }
    assert x <= 101 * d;
    CancelFactor(d, score, 101);
  }

  /** A positive factor can be cancelled from both sides of a strict inequality. */
  lemma CancelFactor(a: int, x: int, y: int)
    requires a > 0 && a * x < a * y
    ensures x < y
  {
  }
}
