/**
 * Properties of the scoring engine: which answers carry no information,
 * how one answer moves the totals, the tie-break default, and known vectors.
 */
module ScoringProperties {
  import opened InvestorCatalog
  import opened Scoring

  /** Two answer sets that agree on every question's effective factor give
      the same totals: absent, falsy (0) and neutral (3) answers are alike. */
  lemma {:induction false} SameFactorsSameTotals(qs: seq<Question>, a: Answers, b: Answers, letter: char)
    requires forall i :: 0 <= i < |qs| ==> Effective(a, qs[i].id) == Effective(b, qs[i].id)
    ensures LetterTotal(qs, a, letter) == LetterTotal(qs, b, letter)
  {
    if qs != [] {
      SameFactorsSameTotals(qs[..|qs| - 1], a, b, letter);
    }
  }

  /** With no effective answer, every total is zero. */
  lemma {:induction false} NoFactorsZeroTotals(qs: seq<Question>, answers: Answers, letter: char)
    requires forall i :: 0 <= i < |qs| ==> Effective(answers, qs[i].id) == 0
    ensures LetterTotal(qs, answers, letter) == 0
  {
    if qs != [] {
      NoFactorsZeroTotals(qs[..|qs| - 1], answers, letter);
    }
  }

  /** An answer set whose answers to questions 1..16 are all absent, falsy or
      neutral (the empty set, all 3s; other ids are ignored) ties every axis,
      so the first letters win: "RATD". */
  lemma InertAnswersGiveDefault(answers: Answers)
    requires forall id | id in answers && 1 <= id <= 16 :: answers[id] == 0 || answers[id] == 3
    ensures ExpectedCode(answers) == "RATD"
  {
    QuestionCatalogWellFormed();
    forall letter | letter in Letters
      ensures LetterTotal(QuestionCatalog, answers, letter) == 0
    {
      NoFactorsZeroTotals(QuestionCatalog, answers, letter);
    }
  }

  /** Answering 3, or a falsy 0, is the same as not answering at all. */
  lemma NeutralAnswerIsNoAnswer(answers: Answers, id: int)
    ensures ExpectedCode(answers[id := 3]) == ExpectedCode(answers - {id})
    ensures ExpectedCode(answers[id := 0]) == ExpectedCode(answers - {id})
  {
    forall letter | letter in Letters
      ensures LetterTotal(QuestionCatalog, answers[id := 3], letter)
        == LetterTotal(QuestionCatalog, answers - {id}, letter)
      ensures LetterTotal(QuestionCatalog, answers[id := 0], letter)
        == LetterTotal(QuestionCatalog, answers - {id}, letter)
    {
      SameFactorsSameTotals(QuestionCatalog, answers[id := 3], answers - {id}, letter);
      SameFactorsSameTotals(QuestionCatalog, answers[id := 0], answers - {id}, letter);
    }
  }

  /** A weight keyed by a letter outside the axis gives that letter nothing,
      and nothing is given to a letter outside the axis. */
  lemma {:induction false} ForeignLetterHasNoWeight(ws: seq<Weight>, axis: Axis, letter: char)
    requires letter !in AxisLetters(axis)
    ensures WeightSum(ws, axis, letter) == 0
  {
    if ws != [] {
      ForeignLetterHasNoWeight(ws[..|ws| - 1], axis, letter);
    }
  }

  /** A zero weight, or a weight keyed by a letter of another axis, leaves
      the running totals unchanged. */
  lemma IgnoredWeightChangesNothing(score: ScoreState, axis: Axis, norm: int, ws: seq<Weight>, w: Weight)
    requires w.tenths == 0 || w.letter !in AxisLetters(axis)
    ensures CreditWeights(score, axis, norm, ws + [w]) == CreditWeights(score, axis, norm, ws)
  {
  }

  /** The weight the questions with id `id` give `letter`. */
  function IdWeight(qs: seq<Question>, id: int, letter: char): int
  {
    if qs == [] then 0
    else
      var q := qs[|qs| - 1];
      IdWeight(qs[..|qs| - 1], id, letter)
        + (if q.id == id then WeightSum(q.weights, q.axis, letter) else 0)
  }

  /** Changing one answer between two truthy values moves each letter's
      total by the change times that question's weight for the letter. */
  lemma {:induction false} ChangeOneAnswer(qs: seq<Question>, answers: Answers, id: int, v: int, v': int, letter: char)
    requires v != 0 && v' != 0
    ensures LetterTotal(qs, answers[id := v'], letter)
      == LetterTotal(qs, answers[id := v], letter) + (v' - v) * IdWeight(qs, id, letter)
  {
    if qs != [] {
      var q := qs[|qs| - 1];
      var rest := qs[..|qs| - 1];
      ChangeOneAnswer(rest, answers, id, v, v', letter);
      var w := WeightSum(q.weights, q.axis, letter);
      if q.id == id {
        assert Effective(answers[id := v'], q.id) == (v - 3) + (v' - v);
        assert Effective(answers[id := v], q.id) == v - 3;
        DistributeRight(v - 3, v' - v, w);
        Distribute(v' - v, IdWeight(rest, id, letter), w);
      } else {
        assert Effective(answers[id := v'], q.id) == Effective(answers[id := v], q.id);
      }
    }
  }

  lemma DistributeRight(x: int, y: int, n: int)
    ensures (x + y) * n == x * n + y * n
  {
  }

  /** Under distinct ids, the weight for a question's id is its own weight. */
  lemma {:induction false} OwnIdWeight(qs: seq<Question>, i: int, letter: char)
    requires DistinctIds(qs) && 0 <= i < |qs|
    ensures IdWeight(qs, qs[i].id, letter) == WeightSum(qs[i].weights, qs[i].axis, letter)
  {
    var rest := qs[..|qs| - 1];
    if i == |qs| - 1 {
      AbsentIdWeight(rest, qs[i].id, letter);
    } else {
      OwnIdWeight(rest, i, letter);
    }
  }

  lemma CatalogOwnIdWeight(i: int, letter: char)
    requires 0 <= i < |QuestionCatalog|
    ensures IdWeight(QuestionCatalog, QuestionCatalog[i].id, letter)
      == WeightSum(QuestionCatalog[i].weights, QuestionCatalog[i].axis, letter)
  {
    QuestionCatalogWellFormed();
    OwnIdWeight(QuestionCatalog, i, letter);
  }

  lemma {:induction false} AbsentIdWeight(qs: seq<Question>, id: int, letter: char)
    requires forall j :: 0 <= j < |qs| ==> qs[j].id != id
    ensures IdWeight(qs, id, letter) == 0
  {
    if qs != [] {
      AbsentIdWeight(qs[..|qs| - 1], id, letter);
    }
  }

  /**
   * Raising the answer of catalog question `i` from `v` to `v'` (both 1..5)
   * never lowers a total: the letter the question weighs gains exactly
   * `(v' - v)` times its weight, and no other letter moves, in particular
   * no letter of another axis.
   */
  lemma RaisingAnswer(answers: Answers, i: int, v: int, v': int)
    requires 0 <= i < |QuestionCatalog| && 1 <= v <= v' <= 5
    ensures var q := QuestionCatalog[i];
      var lo, hi := answers[q.id := v], answers[q.id := v'];
      && (forall letter :: LetterTotal(QuestionCatalog, hi, letter) >= LetterTotal(QuestionCatalog, lo, letter))
      && (forall letter :: letter != q.weights[0].letter ==>
            LetterTotal(QuestionCatalog, hi, letter) == LetterTotal(QuestionCatalog, lo, letter))
      && LetterTotal(QuestionCatalog, hi, q.weights[0].letter)
           == LetterTotal(QuestionCatalog, lo, q.weights[0].letter) + (v' - v) * q.weights[0].tenths
  {
    var q := QuestionCatalog[i];
    var lo, hi := answers[q.id := v], answers[q.id := v'];
    QuestionShape(i);
    assert q.weights == [q.weights[0]];
    assert q.weights[..0] == [];
    forall letter
      ensures LetterTotal(QuestionCatalog, hi, letter)
        == LetterTotal(QuestionCatalog, lo, letter)
           + (v' - v) * (if letter == q.weights[0].letter then q.weights[0].tenths else 0)
    {
      ChangeOneAnswer(QuestionCatalog, answers, q.id, v, v', letter);
      CatalogOwnIdWeight(i, letter);
    }
  }

  /**
   * Raising one answer leaves the letters of the other three axes in the
   * code unchanged, and if the question's own letter was chosen it stays
   * chosen.
   */
  lemma RaisingAnswerKeepsCode(answers: Answers, i: int, v: int, v': int)
    requires 0 <= i < |QuestionCatalog| && 1 <= v <= v' <= 5
    ensures var q := QuestionCatalog[i];
      var lo, hi := ExpectedCode(answers[q.id := v]), ExpectedCode(answers[q.id := v']);
      && (forall k :: 0 <= k < 4 && Axes[k] != q.axis ==> hi[k] == lo[k])
      && (forall k :: 0 <= k < 4 && lo[k] == q.weights[0].letter ==> hi[k] == lo[k])
  {
    RaisingAnswer(answers, i, v, v');
    QuestionShape(i);
  }

  /** The catalog totals written out: each letter's total is its questions'
      effective factors times their weights in tenths. */
  function CatalogClosedForm(answers: Answers, letter: char): int
  {
    match letter
    case 'R' => 15 * Effective(answers, 1) + 12 * Effective(answers, 3)
    case 'S' => 15 * Effective(answers, 2) + 13 * Effective(answers, 4)
    case 'A' => 15 * Effective(answers, 5) + 14 * Effective(answers, 7)
    case 'C' => 13 * Effective(answers, 6) + 15 * Effective(answers, 8)
    case 'T' => 13 * Effective(answers, 9) + 14 * Effective(answers, 11)
    case 'L' => 15 * Effective(answers, 10) + 14 * Effective(answers, 12)
    case 'D' => 15 * Effective(answers, 13) + 13 * Effective(answers, 16)
    case 'V' => 14 * Effective(answers, 14) + 15 * Effective(answers, 15)
    case _ => 0
  }

  /** Catalog question `k`'s term of the reference sum of `letter`. */
  function Term(k: int, answers: Answers, letter: char): int
    requires 0 <= k < |QuestionCatalog|
  {
    var w := QuestionCatalog[k].weights[0];
    Effective(answers, k + 1) * (if w.letter == letter then w.tenths else 0)
  }

  lemma QuestionTerm(k: int, answers: Answers, letter: char)
    requires 0 <= k < |QuestionCatalog|
    ensures LetterTotal(QuestionCatalog[..k + 1], answers, letter)
      == LetterTotal(QuestionCatalog[..k], answers, letter) + Term(k, answers, letter)
  {
    var q := QuestionCatalog[k];
    QuestionShape(k);
    assert QuestionCatalog[..k + 1][..k] == QuestionCatalog[..k];
    assert q.weights[..0] == [];
    assert WeightSum(q.weights, q.axis, letter) == (if q.weights[0].letter == letter then q.weights[0].tenths else 0);
    assert QuestionCatalog[..k + 1][k] == q;
  }

  /** The terms of one block of four questions (one axis). */
  lemma BlockTerms(b: int, answers: Answers, letter: char)
    requires 0 <= b < 4
    ensures LetterTotal(QuestionCatalog[..4 * b + 4], answers, letter)
      == LetterTotal(QuestionCatalog[..4 * b], answers, letter)
         + Term(4 * b, answers, letter) + Term(4 * b + 1, answers, letter)
         + Term(4 * b + 2, answers, letter) + Term(4 * b + 3, answers, letter)
  {
    QuestionTerm(4 * b, answers, letter);
    QuestionTerm(4 * b + 1, answers, letter);
    QuestionTerm(4 * b + 2, answers, letter);
    QuestionTerm(4 * b + 3, answers, letter);
  }

  /** The reference totals over the catalog equal the closed form. */
  lemma CatalogTotal(answers: Answers, letter: char)
    ensures LetterTotal(QuestionCatalog, answers, letter) == CatalogClosedForm(answers, letter)
  {
    BlockTerms(0, answers, letter);
    BlockTerms(1, answers, letter);
    BlockTerms(2, answers, letter);
    BlockTerms(3, answers, letter);
    assert QuestionCatalog[..0] == [];
    assert QuestionCatalog[..16] == QuestionCatalog;
  }

  /** The code, read off the closed-form totals. */
  lemma ClosedFormCode(answers: Answers)
    ensures ExpectedCode(answers) == [
      if CatalogClosedForm(answers, 'R') >= CatalogClosedForm(answers, 'S') then 'R' else 'S',
      if CatalogClosedForm(answers, 'A') >= CatalogClosedForm(answers, 'C') then 'A' else 'C',
      if CatalogClosedForm(answers, 'T') >= CatalogClosedForm(answers, 'L') then 'T' else 'L',
      if CatalogClosedForm(answers, 'D') >= CatalogClosedForm(answers, 'V') then 'D' else 'V']
  {
    CatalogTotal(answers, 'R');
    CatalogTotal(answers, 'S');
    CatalogTotal(answers, 'A');
    CatalogTotal(answers, 'C');
    CatalogTotal(answers, 'T');
    CatalogTotal(answers, 'L');
    CatalogTotal(answers, 'D');
    CatalogTotal(answers, 'V');
  }

  /** Strongly agreeing with every first-letter question and strongly
      disagreeing with every second-letter one gives "RATD". */
  lemma FirstLetterVector(a: Answers)
    requires forall id :: 1 <= id <= 16 ==> id in a
    requires a[1] == 5 && a[2] == 1 && a[3] == 5 && a[4] == 1 && a[5] == 5 && a[6] == 1 && a[7] == 5 && a[8] == 1
    requires a[9] == 5 && a[10] == 1 && a[11] == 5 && a[12] == 1 && a[13] == 5 && a[14] == 1 && a[15] == 1 && a[16] == 5
    ensures ExpectedCode(a) == "RATD"
  {
    ClosedFormCode(a);
    assert CatalogClosedForm(a, 'R') == 54 && CatalogClosedForm(a, 'S') == -56;
    assert CatalogClosedForm(a, 'A') == 58 && CatalogClosedForm(a, 'C') == -56;
    assert CatalogClosedForm(a, 'T') == 54 && CatalogClosedForm(a, 'L') == -58;
    assert CatalogClosedForm(a, 'D') == 56 && CatalogClosedForm(a, 'V') == -58;
  }

  /** Answering 5 everywhere favours the heavier-weighted letter of each
      axis: S (56 against 54), A (58 against 56), L (58 against 54) and
      V (58 against 56). */
  lemma AllFivesVector(a: Answers)
    requires forall id :: 1 <= id <= 16 ==> id in a && a[id] == 5
    ensures ExpectedCode(a) == "SALV"
  {
    ClosedFormCode(a);
    assert CatalogClosedForm(a, 'R') == 54 && CatalogClosedForm(a, 'S') == 56;
    assert CatalogClosedForm(a, 'A') == 58 && CatalogClosedForm(a, 'C') == 56;
    assert CatalogClosedForm(a, 'T') == 54 && CatalogClosedForm(a, 'L') == 58;
    assert CatalogClosedForm(a, 'D') == 56 && CatalogClosedForm(a, 'V') == 58;
  }

  /** Answers 2, 4 and 5 to questions 5, 6 and 7 give A and C the same total
      (-15 + 28 = 13 = 13), so the tie goes to A and the code is "RATD". */
  lemma DecisionTieVector()
    ensures LetterTotal(QuestionCatalog, map[5 := 2, 6 := 4, 7 := 5], 'A') == 13
    ensures LetterTotal(QuestionCatalog, map[5 := 2, 6 := 4, 7 := 5], 'C') == 13
    ensures ExpectedCode(map[5 := 2, 6 := 4, 7 := 5]) == "RATD"
  {
    var a := map[5 := 2, 6 := 4, 7 := 5];
    ClosedFormCode(a);
    CatalogTotal(a, 'A');
    CatalogTotal(a, 'C');
    assert CatalogClosedForm(a, 'R') == 0 && CatalogClosedForm(a, 'S') == 0;
    assert CatalogClosedForm(a, 'A') == 13 && CatalogClosedForm(a, 'C') == 13;
    assert CatalogClosedForm(a, 'T') == 0 && CatalogClosedForm(a, 'L') == 0;
    assert CatalogClosedForm(a, 'D') == 0 && CatalogClosedForm(a, 'V') == 0;
  }
}
