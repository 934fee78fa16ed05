/**
  The learner's progress: the two counters kept in `this.userProgress` and
  the width of the progress bar that `updateProgress` (script.js:221-237)
  derives from them, computed here in exact arithmetic.
 */
module Progress {

  /** `this.userProgress` (script.js:6-9): quizzes started and answers scored correct. */
  datatype UserProgress = UserProgress(quizzesTaken: nat, correctAnswers: nat)

  function Min(a: real, b: real): (m: real)
  {
    if a <= b then a else b
  }

  /**
    The progress bar width in percent (script.js:229-234): quizzes taken per
    word of the current language, times 100, capped at 100; 0 when the
    language has no words.
   */
  function Percentage(quizzesTaken: nat, totalWords: nat): (p: real)
    ensures 0.0 <= p <= 100.0
    ensures totalWords == 0 ==> p == 0.0
  {
    if totalWords > 0 then Min((quizzesTaken as real / totalWords as real) * 100.0, 100.0) else 0.0
  }

  /** Below the cap the width is the exact ratio: `p * totalWords == quizzesTaken * 100`. */
  lemma PercentageBelowCap(quizzesTaken: nat, totalWords: nat)
    requires 0 < totalWords
    ensures quizzesTaken < totalWords ==>
      Percentage(quizzesTaken, totalWords) < 100.0 &&
      Percentage(quizzesTaken, totalWords) * totalWords as real == quizzesTaken as real * 100.0
    ensures quizzesTaken >= totalWords ==> Percentage(quizzesTaken, totalWords) == 100.0
  {
    var q, t := quizzesTaken as real, totalWords as real;
    var ratio := q / t;
    assert ratio * t == q;
    if quizzesTaken < totalWords {
      assert ratio < 1.0;
      assert ratio * 100.0 < 100.0;
    } else {
      assert ratio >= 1.0;
    }
  }

  /** Taking another quiz never lowers the bar. */
  lemma PercentageMonotone(q1: nat, q2: nat, totalWords: nat)
    requires q1 <= q2
    ensures Percentage(q1, totalWords) <= Percentage(q2, totalWords)
  {
    if totalWords > 0 {
      var t := totalWords as real;
      assert q1 as real / t <= q2 as real / t;
    }
  }

  /** Adding words to the language never raises the bar (while it has at least one word). */
  lemma PercentageAntitone(quizzesTaken: nat, t1: nat, t2: nat)
    requires 0 < t1 <= t2
    ensures Percentage(quizzesTaken, t2) <= Percentage(quizzesTaken, t1)
  {
    var q, a, b := quizzesTaken as real, t1 as real, t2 as real;
    var r1, r2 := q / a, q / b;
    assert r1 * a == q && r2 * b == q && 0.0 <= r2;
    // r2 * a <= r2 * b == q == r1 * a, and a is positive
    assert r2 * a <= r2 * b by {
      assert r2 * b - r2 * a == r2 * (b - a);
    }
    var d := r1 - r2;
    assert 0.0 <= d * a by {
      assert d * a == r1 * a - r2 * a;
    }
    assert d == (d * a) / a;
    assert 0.0 <= (d * a) / a;
  }
}
