/**
 * The scoring engine of lib/investor-types.ts: `normalize`,
 * `calculateInvestorCode` and its running `ScoreState`.
 *
 * `LetterTotal` is the reference definition of a letter's score: the sum,
 * over the questions, of the normalized answer times the weight the
 * question gives that letter. `CalculateInvestorCode` is the source's
 * nested loop over questions and weight keys, proved to agree with it.
 */
module Scoring {
  import opened InvestorCatalog

  /** Question id to raw answer. The source types the values as 1 to 5;
      nothing checks that at run time, so any integer is accepted here. */
  type Answers = map<int, int>

  /** Shifts a 1..5 answer to -2..+2, with the neutral 3 at zero. */
  function Normalize(value: int): (n: int)
    ensures n == 0 <==> value == 3
    ensures 1 <= value <= 5 <==> -2 <= n <= 2
  {
    value - 3
  }

  /** The factor a question's answer contributes: the normalized answer,
      or 0 when the answer is absent or falsy. */
  function Effective(answers: Answers, id: int): (e: int)
    ensures e == 0 <==> id !in answers || answers[id] == 0 || answers[id] == 3
    ensures id in answers && 1 <= answers[id] <= 5 ==> -2 <= e <= 2
  {
    if id in answers && answers[id] != 0 then Normalize(answers[id]) else 0
  }

  /** The weight a weight map gives `letter`, counting only keys of `axis`. */
  function WeightSum(ws: seq<Weight>, axis: Axis, letter: char): int
  {
    if ws == [] then 0
    else
      var w := ws[|ws| - 1];
      WeightSum(ws[..|ws| - 1], axis, letter)
        + (if w.letter == letter && letter in AxisLetters(axis) then w.tenths else 0)
  }

  /** The score of `letter` after the questions `qs`, in tenths. */
  function LetterTotal(qs: seq<Question>, answers: Answers, letter: char): int
  {
    if qs == [] then 0
    else
      var q := qs[|qs| - 1];
      LetterTotal(qs[..|qs| - 1], answers, letter)
        + Effective(answers, q.id) * WeightSum(q.weights, q.axis, letter)
  }

  /** The letter an axis resolves to: the first one unless the second one's
      total is strictly larger. */
  function Choice(axis: Axis, answers: Answers): (c: char)
    ensures c in AxisLetters(axis)
    ensures c == FirstLetter(axis) <==>
      LetterTotal(QuestionCatalog, answers, FirstLetter(axis))
        >= LetterTotal(QuestionCatalog, answers, SecondLetter(axis))
  {
    if LetterTotal(QuestionCatalog, answers, FirstLetter(axis))
         >= LetterTotal(QuestionCatalog, answers, SecondLetter(axis))
    then FirstLetter(axis)
    else SecondLetter(axis)
  }

  /** The code the answers determine: the choice of each axis, in axis order. */
  function ExpectedCode(answers: Answers): (code: string)
    ensures ValidCode(code)
    ensures forall k :: 0 <= k < 4 ==> code[k] == Choice(Axes[k], answers)
  {
    [Choice(Risk, answers), Choice(Decision, answers), Choice(Time, answers), Choice(Judge, answers)]
  }

  /** Whatever the answers, the code is a key of the type catalog, so the
      "SALD" fallback is never taken. */
  lemma ExpectedCodeInCatalog(answers: Answers)
    ensures ExpectedCode(answers) in TypeCatalog
  {
    CatalogKeysAreValidCodes(ExpectedCode(answers));
  }

  /** Running totals of one axis: its first letter's and its second's. */
  datatype Pair = Pair(first: int, second: int)

  /** `ScoreState`: one pair of running totals per axis. */
  datatype ScoreState = ScoreState(risk: Pair, decision: Pair, time: Pair, judge: Pair)
  {
    /** The running total of `letter`; 0 for a character that is no letter. */
    function Total(letter: char): int
    {
      match letter
      case 'R' => risk.first
      case 'S' => risk.second
      case 'A' => decision.first
      case 'C' => decision.second
      case 'T' => time.first
      case 'L' => time.second
      case 'D' => judge.first
      case 'V' => judge.second
      case _ => 0
    }

    /**
     * The `switch (q.axis)` step: adds `delta` to the total of `key` when
     * `key` is a letter of `axis`; any other key leaves every total as it was.
     */
    function Credit(axis: Axis, key: char, delta: int): (s: ScoreState)
      ensures forall letter ::
        s.Total(letter) ==
        Total(letter) + (if letter == key && key in AxisLetters(axis) then delta else 0)
    {
      match axis
      case Risk =>
        if key == 'R' then this.(risk := risk.(first := risk.first + delta))
        else if key == 'S' then this.(risk := risk.(second := risk.second + delta))
        else this
      case Decision =>
        if key == 'A' then this.(decision := decision.(first := decision.first + delta))
        else if key == 'C' then this.(decision := decision.(second := decision.second + delta))
        else this
      case Time =>
        if key == 'T' then this.(time := time.(first := time.first + delta))
        else if key == 'L' then this.(time := time.(second := time.second + delta))
        else this
      case Judge =>
        if key == 'D' then this.(judge := judge.(first := judge.first + delta))
        else if key == 'V' then this.(judge := judge.(second := judge.second + delta))
        else this
    }
  }

  const NoScores := ScoreState(Pair(0, 0), Pair(0, 0), Pair(0, 0), Pair(0, 0))

  /** The running totals after crediting `norm` times each non-zero weight
      of `ws`, in order, starting from `score`. */
  function CreditWeights(score: ScoreState, axis: Axis, norm: int, ws: seq<Weight>): (r: ScoreState)
    ensures forall letter | letter !in AxisLetters(axis) :: r.Total(letter) == score.Total(letter)
  {
    if ws == [] then score
    else
      var w := ws[|ws| - 1];
      var s := CreditWeights(score, axis, norm, ws[..|ws| - 1]);
      if w.tenths == 0 then s else s.Credit(axis, w.letter, norm * w.tenths)
  }

  /** The running totals after the questions `qs`, skipping a question whose
      answer is absent, falsy or neutral. */
  function Accumulate(qs: seq<Question>, answers: Answers): (r: ScoreState)
    ensures (forall k | 0 <= k < |qs| :: Effective(answers, qs[k].id) == 0) ==> r == NoScores
  {
    if qs == [] then NoScores
    else
      var q := qs[|qs| - 1];
      var s := Accumulate(qs[..|qs| - 1], answers);
      if Effective(answers, q.id) == 0 then s
      else CreditWeights(s, q.axis, Effective(answers, q.id), q.weights)
  }

  /** Crediting a weight map adds `norm` times the map's weight for each letter. */
  lemma {:induction false} CreditWeightsTotals(score: ScoreState, axis: Axis, norm: int, ws: seq<Weight>, letter: char)
    ensures CreditWeights(score, axis, norm, ws).Total(letter)
      == score.Total(letter) + norm * WeightSum(ws, axis, letter)
  {
    if ws != [] {
      var w := ws[|ws| - 1];
      CreditWeightsTotals(score, axis, norm, ws[..|ws| - 1], letter);
      Distribute(norm, WeightSum(ws[..|ws| - 1], axis, letter),
        if w.letter == letter && letter in AxisLetters(axis) then w.tenths else 0);
    }
  }

  /** The running totals agree with the reference totals letter by letter. */
  lemma {:induction false} AccumulateTotals(qs: seq<Question>, answers: Answers, letter: char)
    ensures Accumulate(qs, answers).Total(letter) == LetterTotal(qs, answers, letter)
  {
    if qs != [] {
      var q := qs[|qs| - 1];
      AccumulateTotals(qs[..|qs| - 1], answers, letter);
      CreditWeightsTotals(Accumulate(qs[..|qs| - 1], answers), q.axis, Effective(answers, q.id), q.weights, letter);
    }
  }

  /** The per-axis choice applied to the running totals gives the expected code. */
  lemma AccumulatedCode(answers: Answers)
    ensures var s := Accumulate(QuestionCatalog, answers);
      ExpectedCode(answers) == [
        if s.risk.first >= s.risk.second then 'R' else 'S',
        if s.decision.first >= s.decision.second then 'A' else 'C',
        if s.time.first >= s.time.second then 'T' else 'L',
        if s.judge.first >= s.judge.second then 'D' else 'V']
  {
    forall letter | letter in Letters
      ensures Accumulate(QuestionCatalog, answers).Total(letter) == LetterTotal(QuestionCatalog, answers, letter)
    {
      AccumulateTotals(QuestionCatalog, answers, letter);
    }
  }

  lemma Distribute(n: int, x: int, y: int)
    ensures n * x + n * y == n * (x + y)
  {
  }

  /**
   * `calculateInvestorCode`: accumulate `norm * weight` per letter over the
   * question catalog, skipping absent, falsy and neutral answers and zero
   * weights, ignoring weight keys outside the question's axis; then choose
   * per axis (first letter on a tie), and fall back to "SALD" if the code
   * were not a catalog key.
   */
  method CalculateInvestorCode(answers: Answers) returns (code: string)
    ensures code == ExpectedCode(answers)
    ensures code in TypeCatalog
  {
    var score := ScoreState(Pair(0, 0), Pair(0, 0), Pair(0, 0), Pair(0, 0));
    for i := 0 to |QuestionCatalog|
      invariant score == Accumulate(QuestionCatalog[..i], answers)
    {
      var q := QuestionCatalog[i];
      assert QuestionCatalog[..i + 1][..i] == QuestionCatalog[..i];
      if q.id !in answers || answers[q.id] == 0 {
        continue;
      }
      var norm := Normalize(answers[q.id]);
      if norm == 0 {
        continue;
      }
      ghost var before := score;
      for j := 0 to |q.weights|
        invariant score == CreditWeights(before, q.axis, norm, q.weights[..j])
      {
        assert q.weights[..j + 1][..j] == q.weights[..j];
        var k, weight := q.weights[j].letter, q.weights[j].tenths;
        if weight == 0 {
          continue;
        }
        var delta := norm * weight;
        score := score.Credit(q.axis, k, delta);
      }
      assert q.weights[..|q.weights|] == q.weights;
    }
    assert QuestionCatalog[..|QuestionCatalog|] == QuestionCatalog;

    var riskChar := if score.risk.first >= score.risk.second then 'R' else 'S';
    var decisionChar := if score.decision.first >= score.decision.second then 'A' else 'C';
    var timeChar := if score.time.first >= score.time.second then 'T' else 'L';
    var judgeChar := if score.judge.first >= score.judge.second then 'D' else 'V';
    code := [riskChar, decisionChar, timeChar, judgeChar];
    AccumulatedCode(answers);
    ExpectedCodeInCatalog(answers);

    if code !in TypeCatalog {
      code := "SALD";
    }
  }
}
