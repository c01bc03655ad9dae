# Investor-type scoring engine, in Dafny

This project models the logic of the investor-type quiz: the scoring engine
and the two static catalogs in `lib/investor-types.ts`, plus the picture
helpers in `lib/image-utils.ts`.

A quiz has sixteen Likert questions, answered 1 to 5. Each question lies on
one of four axes: risk (R/S), decision (A/C), time (T/L) and judge (D/V).
Each answer is shifted to -2..+2 and multiplied by the question's weights.
The products are summed per letter, and each axis resolves to its first
letter unless the second letter's total is strictly larger. The four letters
form a code such as `RATD`. The code is then looked up in the type catalog.

Files:

- `wrappers.dfy`: module `Wrappers`, the `Option` type used where the code returns `null`.
- `catalog.dfy`: module `InvestorCatalog`. It holds the axes and letter pairs,
  valid codes, `TypeCatalog` (`INVESTOR_TYPES`, codes and match lists only)
  and `QuestionCatalog` (`INVESTOR_QUESTIONS`, ids, axes and weights in
  tenths), with their integrity lemmas.
- `scoring.dfy`: module `Scoring`. It holds `Normalize`, the running `ScoreState`,
  the reference definition `LetterTotal` (the sum over the questions of the
  normalized answer times the question's weight for a letter), the expected
  code, and `CalculateInvestorCode`. That method is the source's nested loop
  over the questions and their weight keys, proved to return the expected code.
- `scoring_properties.dfy`: module `ScoringProperties`. It covers inert answers,
  axis locality, the effect of raising one answer, the closed-form catalog
  totals and known answer vectors.
- `lookup.dfy`: module `TypeLookup`, `getInvestorType` with ASCII upper-casing.
- `image_utils.dfy`: module `ImageUtils`, `AVAILABLE_IMAGES`,
  `getTypeImageUrl` and `hasTypeImage`.

Weights are decimals with one digit (1.5, 1.2, 1.3, 1.4). They are modelled
exactly as integers in tenths (15, 12, 13, 14), so every total is ten times
the exact decimal total and every comparison keeps its exact outcome.

## Model

| member | source | states |
|---|---|---|
| `InvestorCatalog.LettersPartitioned` | lib/investor-types.ts:5-8 | no letter belongs to two axes |
| `InvestorCatalog.ValidCode` | lib/investor-types.ts:10-11 | a valid code (`InvestorCode`) is four characters, one letter of each axis in axis order, so every character is one of the eight letters |
| `InvestorCatalog.CatalogKeysAreValidCodes` | lib/investor-types.ts:51-453 | a string is a key of the type catalog exactly when it is one letter of each axis in axis order, so the catalog is keyed by all 16 codes |
| `InvestorCatalog.RecordCodesMatchKeys` | lib/investor-types.ts:51-453 | every record's `code` equals its key |
| `InvestorCatalog.MatchesResolve` | lib/investor-types.ts:51-453 | every code in a `bestMatches`, `goodMatches` or `challengeMatches` list is a catalog key |
| `InvestorCatalog.QuestionCatalogWellFormed` | lib/investor-types.ts:459-563 | 16 questions with ids 1..16 (distinct), four per axis in axis order; every weight key belongs to the question's own axis, every weight is positive, and no key repeats |
| `InvestorCatalog.QuestionShape` | lib/investor-types.ts:459-563 | question `i` has id `i + 1`, axis block `i / 4`, and a single positive weight keyed by a letter of its axis |
| `Scoring.Normalize` | lib/investor-types.ts:580-583 | the result is 0 exactly for the neutral answer 3, and lies in -2..+2 exactly when the answer lies in 1..5 |
| `Scoring.Effective` | lib/investor-types.ts:597-603 | a question's factor is 0 exactly when its answer is absent, falsy (0) or neutral (3), and lies in -2..+2 for an answer in 1..5 |
| `Scoring.Choice` | lib/investor-types.ts:641-646 | an axis resolves to one of its two letters, and to the first one exactly when the first letter's total is at least the second's (ties go to R, A, T, D) |
| `Scoring.ExpectedCode` | lib/investor-types.ts:641-648 | the code is always a valid 4-letter code whose k-th letter is the choice for the k-th axis |
| `Scoring.ExpectedCodeInCatalog` | lib/investor-types.ts:648-656 | the computed code is always a catalog key, so the `"SALD"` fallback is never taken |
| `Scoring.ScoreState.Credit` | lib/investor-types.ts:612-637 | crediting `delta` to a key changes that key's total only when the key is a letter of the question's axis; every other total is unchanged |
| `Scoring.CreditWeights` | lib/investor-types.ts:605-637 | running one question's weight loop never changes the total of a letter outside the question's axis |
| `Scoring.Accumulate` | lib/investor-types.ts:596-639 | when every question's factor is 0 the question loop leaves all totals at their initial zeros |
| `Scoring.CreditWeightsTotals` | lib/investor-types.ts:605-638 | running one question's weight loop adds `norm` times the question's weight for each letter, skipping zero weights and keys of other axes |
| `Scoring.AccumulateTotals` | lib/investor-types.ts:596-639 | the running totals after the question loop equal the reference totals, letter by letter |
| `Scoring.AccumulatedCode` | lib/investor-types.ts:641-648 | choosing per axis from the running totals yields the expected code |
| `Scoring.CalculateInvestorCode` | lib/investor-types.ts:588-657 | the nested loop returns the expected code for every answer set, and that code is a catalog key |
| `ScoringProperties.SameFactorsSameTotals` | lib/investor-types.ts:596-603 | answer sets that agree on every question's normalized value (absent, falsy and neutral all count as 0) give the same totals |
| `ScoringProperties.NoFactorsZeroTotals` | lib/investor-types.ts:596-603 | with no effective answer every letter's total is 0 |
| `ScoringProperties.InertAnswersGiveDefault` | lib/investor-types.ts:589-646 | an answer set whose answers to questions 1..16 are all absent, 0 or 3 (the empty set included; entries for other ids are ignored) yields `"RATD"` |
| `ScoringProperties.NeutralAnswerIsNoAnswer` | lib/investor-types.ts:597-603 | answering 3, or a falsy 0, yields the same code as leaving the question out |
| `ScoringProperties.ForeignLetterHasNoWeight` | lib/investor-types.ts:612-637 | a question never contributes to a letter outside its axis |
| `ScoringProperties.IgnoredWeightChangesNothing` | lib/investor-types.ts:605-637 | a zero weight, or a weight keyed by another axis's letter, leaves the running totals unchanged |
| `ScoringProperties.ChangeOneAnswer` | lib/investor-types.ts:597-637 | changing one answer between two truthy values moves each letter's total by the change times that question's weight for the letter |
| `ScoringProperties.OwnIdWeight` | lib/investor-types.ts:596-610 | when ids are distinct, the weight attributed to a question's id is that question's own weight |
| `ScoringProperties.RaisingAnswer` | lib/investor-types.ts:459-637 | raising one catalog answer within 1..5 never lowers any total; the letter the question weighs gains exactly the change times its weight; no other letter, on any axis, moves |
| `ScoringProperties.RaisingAnswerKeepsCode` | lib/investor-types.ts:641-646 | raising one answer leaves the letters of the other three axes unchanged, and keeps the question's own letter if it was already chosen |
| `ScoringProperties.CatalogTotal` | lib/investor-types.ts:459-563 | over the catalog each letter's total is the closed form of its two questions, e.g. R = 15·n(q1) + 12·n(q3) |
| `ScoringProperties.ClosedFormCode` | lib/investor-types.ts:641-648 | the computed code is read off the closed-form totals |
| `ScoringProperties.FirstLetterVector` | lib/investor-types.ts:588-657 | the answers 5,1,5,1,5,1,5,1,5,1,5,1,5,1,1,5 to questions 1..16 yield `"RATD"` |
| `ScoringProperties.AllFivesVector` | lib/investor-types.ts:588-657 | answering 5 to all sixteen questions yields `"SALV"` |
| `ScoringProperties.DecisionTieVector` | lib/investor-types.ts:641-646 | answers 2, 4, 5 to questions 5, 6, 7 tie A and C at 13 tenths each, and the `>=` comparison then yields `"RATD"`; the TypeScript code, adding in doubles, returns `"RCTD"` for this input (see "## Left out") |
| `TypeLookup.UpperChar` | lib/investor-types.ts:663 | lower-case ASCII letters map to their upper-case letters; every other character is unchanged |
| `TypeLookup.ToUpper` | lib/investor-types.ts:663 | upper-casing keeps the length and upper-cases character by character |
| `TypeLookup.GetInvestorType` | lib/investor-types.ts:662-665 | a record is found exactly when the upper-cased code is a valid code; it is the catalog's record for that key and its `code` is the upper-cased input |
| `TypeLookup.LookupIgnoresCase` | lib/investor-types.ts:662-665 | inputs that agree after ASCII upper-casing find the same result |
| `TypeLookup.LowerCaseExample` | lib/investor-types.ts:662-665 | `"ratd"` and `"RATD"` both find the `RATD` record |
| `TypeLookup.LookupSucceedsExactly` | lib/investor-types.ts:662-665 | lookup succeeds exactly for four characters that are, in either case, one letter of each axis in order |
| `TypeLookup.LookupRoundTrip` | lib/investor-types.ts:51-665 | each of the 16 codes finds its own record, whose `code` is the queried code |
| `TypeLookup.MatchesLookUp` | lib/investor-types.ts:51-453 | every code in any record's match lists can be looked up |
| `ImageUtils.GetTypeImageUrl` | lib/image-utils.ts:22-27 | a path is returned exactly for listed codes, and it is `"/image/" + code + ".png"`; any such code is a valid catalog code |
| `ImageUtils.HasTypeImage` | lib/image-utils.ts:32-34 | true exactly when `GetTypeImageUrl` returns a path |
| `ImageUtils.AvailableImagesWellFormed` | lib/image-utils.ts:4-16 | the list holds 11 distinct valid codes, all catalog keys |
| `ImageUtils.UrlDeterminesCode` | lib/image-utils.ts:22-27 | a picture path determines its code: it is the path without `/image/` and `.png`, so different codes get different paths |
| `ImageUtils.ImagesOfCatalogCodes` | lib/image-utils.ts:4-27 | among the 16 codes, exactly SALV, SCTD, SCTV, SCLD and SCLV have no picture, and for them the path is absent |

## Left out

- Floating point: the source adds `norm * weight` in IEEE-754 doubles. The model adds exact tenths. The two disagree on some exact ties. For example, answers 2, 4, 5 to questions 5, 6, 7 give A = -1.5 + 2.8, which is 1.2999999999999998 in doubles, against C = 1.3. The source therefore picks C, while the exact totals tie at 1.3 and the `>=` comparison on the exact totals picks A, giving `RATD` where the source returns `RCTD` (see `DecisionTieVector`). Similar ties exist on the time and judge axes. The model states the exact-arithmetic rule.
- `TypeLookup.GetInvestorType`, `TypeLookup.ToUpper`, `TypeLookup.UpperChar`: upper-case ASCII letters only. JavaScript's `toUpperCase` also maps some non-ASCII characters to ASCII letters (U+017F, long s, becomes `S`), so such inputs can find a record in the source but not in the model.
- Answer values: the source types answers as 1..5 but does not check them at run time. Stored answers come back from session storage unchecked. The model accepts any integer, skips 0 (falsy) like the source, and uses any other value unclamped as `value - 3`, as the code does. There is no clamping policy because the code has none. The monotonicity lemmas are stated for answers in 1..5.
- Weight-map iteration: `for ... in` over a weight object becomes a loop over an ordered sequence of (letter, weight) entries. Each catalog question has one entry, and the catalog lemma shows the keys are distinct.
- Descriptive content: the type records' name, short label, description, strategy and call-to-action strings, and the question texts, are inert display text and are dropped. The optional match lists are modelled as sequences, all present in the catalog.
- The same function always gives the same result for the same answers, so determinism needs no lemma.
- A per-letter explanation view of a code is not part of `lib/investor-types.ts` and is not modelled.
- The pages and components (quiz flow, result and type pages, carousel, sharing, layout, session storage, routing) are UI and browser I/O and are not part of this model. They call into the core but do no scoring of their own. The quiz flow calls `calculateInvestorCode(answers)` when the quiz ends (app/test/test-content.tsx:74). The result page calls `getInvestorType` (app/result/[code]/page.tsx:18). The result page, the carousel and the type pages call `getTypeImageUrl`.
