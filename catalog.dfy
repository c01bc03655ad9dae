/**
 * The static data of lib/investor-types.ts: the four axes and their letter
 * pairs, the sixteen 4-letter investor codes, the type catalog
 * (`INVESTOR_TYPES`, reduced to codes and match lists) and the question
 * catalog (`INVESTOR_QUESTIONS`, reduced to id, axis and weights).
 */
module InvestorCatalog {

  /** The four independent axes, in the order their letters appear in a code. */
  datatype Axis = Risk | Decision | Time | Judge

  const Axes: seq<Axis> := [Risk, Decision, Time, Judge]

  /** The letter that wins an axis on a tie: R, A, T, D. */
  function FirstLetter(axis: Axis): char
  {
    match axis
    case Risk => 'R'
    case Decision => 'A'
    case Time => 'T'
    case Judge => 'D'
  }

  /** The opposing letter of an axis: S, C, L, V. */
  function SecondLetter(axis: Axis): char
  {
    match axis
    case Risk => 'S'
    case Decision => 'C'
    case Time => 'L'
    case Judge => 'V'
  }

  function AxisLetters(axis: Axis): set<char>
  {
    {FirstLetter(axis), SecondLetter(axis)}
  }

  /** The eight letters of the four axes. */
  const Letters: set<char> := {'R', 'S', 'A', 'C', 'T', 'L', 'D', 'V'}

  /** A code is one letter of each axis, in axis order (`InvestorCode`). */
  predicate ValidCode(s: string): (b: bool)
    ensures b ==> forall i | 0 <= i < |s| :: s[i] in Letters
  {
    && |s| == 4
    && s[0] in AxisLetters(Risk)
    && s[1] in AxisLetters(Decision)
    && s[2] in AxisLetters(Time)
    && s[3] in AxisLetters(Judge)
  }

  /** The letter pairs are disjoint: a letter belongs to exactly one axis. */
  lemma LettersPartitioned(letter: char, a: Axis, b: Axis)
    requires letter in AxisLetters(a) && letter in AxisLetters(b)
    ensures a == b
  {
  }

  // ---------------------------------------------------------------------
  // Type catalog
  // ---------------------------------------------------------------------

  /**
   * One entry of `INVESTOR_TYPES`. The descriptive text (name, short label,
   * description, strategy, call to action) is inert content and is dropped.
   */
  datatype TypeRecord = TypeRecord(
    code: string,
    bestMatches: seq<string>,
    goodMatches: seq<string>,
    challengeMatches: seq<string>)
  {
    /** Every code this record refers to. */
    function Referenced(): seq<string>
    {
      bestMatches + goodMatches + challengeMatches
    }
  }

  const TypeCatalog: map<string, TypeRecord> := map[
    "RATD" := TypeRecord("RATD", ["RATV", "SALD"], ["SALV"], ["RCLV"]),
    "RATV" := TypeRecord("RATV", ["RATD"], ["RCLV"], ["SCLV"]),
    "RALD" := TypeRecord("RALD", ["RCLD", "SALD"], ["RATD"], ["RATV"]),
    "RALV" := TypeRecord("RALV", ["RCLD"], ["RATD", "SALD"], ["RCLV"]),
    "RCTD" := TypeRecord("RCTD", ["RATD", "RCLD"], ["RATV"], ["SCLV"]),
    "RCTV" := TypeRecord("RCTV", ["RATD", "RATV"], ["RCLV"], ["SALV"]),
    "RCLD" := TypeRecord("RCLD", ["RALV", "RALD"], ["RCTV"], ["SALV"]),
    "RCLV" := TypeRecord("RCLV", ["RATV"], ["SCLV"], ["RATD"]),
    "SATD" := TypeRecord("SATD", ["SALD"], ["RATD"], ["RCTV"]),
    "SATV" := TypeRecord("SATV", ["SALD", "SALV"], ["RCLV"], ["RATV"]),
    "SALD" := TypeRecord("SALD", ["SALV"], ["RATD", "RALD"], ["RCTV"]),
    "SALV" := TypeRecord("SALV", ["SALD"], ["SCLD"], ["RATV", "RCTV"]),
    "SCTD" := TypeRecord("SCTD", ["RATD"], ["SCLV"], ["RATV"]),
    "SCTV" := TypeRecord("SCTV", ["RCLV"], ["RCTV"], ["RATD"]),
    "SCLD" := TypeRecord("SCLD", ["SALD", "SALV"], ["SCLV"], ["RCTV"]),
    "SCLV" := TypeRecord("SCLV", ["SALV", "RCLV"], ["SCLD"], ["RATV", "RCTV"])
  ]

  /** The catalog is keyed by exactly the sixteen valid codes. */
  lemma CatalogKeysAreValidCodes(s: string)
    ensures s in TypeCatalog <==> ValidCode(s)
  {
    if ValidCode(s) {
      assert s == [s[0], s[1], s[2], s[3]];
    }
  }

  /** Every record's `code` field equals its key. */
  lemma RecordCodesMatchKeys(s: string)
    requires s in TypeCatalog
    ensures TypeCatalog[s].code == s
  {
  }

  /** Every code named in a match list is itself a key of the catalog. */
  lemma MatchesResolve(s: string, m: string)
    requires s in TypeCatalog && m in TypeCatalog[s].Referenced()
    ensures m in TypeCatalog
  {
  }

  // ---------------------------------------------------------------------
  // Question catalog
  // ---------------------------------------------------------------------

  /** One entry of a question's weight map; the weight is in tenths. */
  datatype Weight = Weight(letter: char, tenths: int)

  /** One entry of `INVESTOR_QUESTIONS`; the display text is dropped. */
  datatype Question = Question(id: int, axis: Axis, weights: seq<Weight>)

  const QuestionCatalog: seq<Question> := [
    Question(1, Risk, [Weight('R', 15)]),
    Question(2, Risk, [Weight('S', 15)]),
    Question(3, Risk, [Weight('R', 12)]),
    Question(4, Risk, [Weight('S', 13)]),
    Question(5, Decision, [Weight('A', 15)]),
    Question(6, Decision, [Weight('C', 13)]),
    Question(7, Decision, [Weight('A', 14)]),
    Question(8, Decision, [Weight('C', 15)]),
    Question(9, Time, [Weight('T', 13)]),
    Question(10, Time, [Weight('L', 15)]),
    Question(11, Time, [Weight('T', 14)]),
    Question(12, Time, [Weight('L', 14)]),
    Question(13, Judge, [Weight('D', 15)]),
    Question(14, Judge, [Weight('V', 14)]),
    Question(15, Judge, [Weight('V', 15)]),
    Question(16, Judge, [Weight('D', 13)])
  ]

  /** A well-formed question: a non-empty weight map with distinct keys,
      every key a letter of the question's own axis, every weight positive. */
  predicate WellFormedQuestion(q: Question)
  {
    && |q.weights| > 0
    && (forall j :: 0 <= j < |q.weights| ==>
          q.weights[j].letter in AxisLetters(q.axis) && q.weights[j].tenths > 0)
    && (forall j, k :: 0 <= j < k < |q.weights| ==> q.weights[j].letter != q.weights[k].letter)
  }

  predicate DistinctIds(qs: seq<Question>)
  {
    forall i, j :: 0 <= i < j < |qs| ==> qs[i].id != qs[j].id
  }

  /** Sixteen questions with ids 1 to 16, in four blocks of four, one block
      per axis in code order; every question is well formed. */
  lemma QuestionCatalogWellFormed()
    ensures |QuestionCatalog| == 16
    ensures forall i :: 0 <= i < |QuestionCatalog| ==> QuestionCatalog[i].id == i + 1
    ensures DistinctIds(QuestionCatalog)
    ensures forall i :: 0 <= i < |QuestionCatalog| ==> QuestionCatalog[i].axis == Axes[i / 4]
    ensures forall i :: 0 <= i < |QuestionCatalog| ==> WellFormedQuestion(QuestionCatalog[i])
  {
  }

  /** Question `i` has id `i + 1`, lies on the axis of block `i / 4`, and has
      a single positive weight, keyed by a letter of that axis. */
  lemma QuestionShape(i: int)
    requires 0 <= i < |QuestionCatalog|
    ensures var q := QuestionCatalog[i];
      && q.id == i + 1
      && q.axis == Axes[i / 4]
      && |q.weights| == 1
      && q.weights[0].letter in AxisLetters(q.axis)
      && q.weights[0].tenths > 0
  {
  }
}
