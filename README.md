# Code analysis service: scoring engine and submission registry

This project models the code-scoring service of the anonymous skill market
(`analysis-service/src/server.js`) and proves properties of it in Dafny.

The service scores submitted code on three axes:

- **complexity**: a weighted count of non-blank lines, function declarations, conditional keywords and loop keywords;
- **security**: a baseline of 100, less capped penalties for six risk patterns, plus capped bonuses for four good practices;
- **quality**: a baseline of 50, plus a comment-ratio bonus and fixed documentation and style bonuses.

The final score is `round(0.4·security + 0.3·complexity + 0.3·quality)`. The
service keeps two in-memory maps, `submissions` and `evaluations`, keyed by
submission id. `POST /analyze` writes to both, and the lookup and stats
handlers read them.

Files:

- `wrappers.dfy`: `Option` and `Result`, for absent request fields and HTTP error answers.
- `js_math.dfy` (module `JsMath`): `Math.min`, `Math.max` and `Math.round` over exact numbers, plus a few facts of nonlinear arithmetic.
- `js_text.dfy` (module `JsText`): the JavaScript string and regular-expression operations the analyzer uses. These are `split('\n')`, `trim()`, `startsWith`, `includes`, and the match counts of its patterns under the `g` flag:
  - literal patterns such as `/tx\.origin/g`;
  - whole-word keyword patterns such as `/\b(if|while|for|require)\b/g`;
  - declaration patterns such as `/function\s+\w+/g`;
  - the `test` of `/function\s+[a-z].../` and `/event\s+\w+/`.

  The patterns are modelled rather than taken as inputs. So the model can prove, for example, that there are never more loop keywords than conditional keywords.
- `code_analyzer.dfy` (module `CodeAnalyzer`): the three scorers, the aggregation and the detail counts.
  - Each scorer is a function of the code through a record of the counts it reads.
  - The security rules are declarative tables of pattern, weight and cap.
  - The service builds its security and quality scores step by step (`forEach` over the tables, `filter`/`reduce` over the lines, `+=` bonuses). `AnalyzeSecurity` and `AnalyzeQuality` do the same with loops, and are proved to compute the scoring functions.
- `analysis_service.dfy` (module `AnalysisService`): the class `Registry`, which holds the two maps as `map` fields. `POST /analyze` is split at its one `await` into:
  - `Begin`: validate, hash, record the submission as `analyzing`;
  - `Finish`/`Complete`: store the evaluation and mark the submission `completed`.

  So the state a reader can observe while an analysis is in flight is a state of the model. `HandleAnalyze` composes the two steps, with the catch path. Three client methods show behaviours the source has:
  - both lookups of an id with no submission answer 404, in any valid state;
  - a stale evaluation that survives a failed resubmission;
  - two overlapping analyses of one id that leave a completed submission and its evaluation with different hashes.

Arithmetic uses Dafny's `real` (exact rationals) where the service uses doubles.
`Math.round` is `floor(x + 0.5)`, which rounds half up, for every value,
negative ones included. Every non-integer value rounded here is non-negative.
The security score is an integer before it is rounded, and it can be as low
as 100 − 324 = −224 before the clamp to [0, 100]; rounding leaves an integer
unchanged (`RoundIsUnique`). Integer restatements are proved beside the real-valued
definitions:

- complexity in tenths: `3L + 50F + 30C + 40Lp`;
- the final score: `4s + 3c + 3q` within 5 of `10·final`;
- the line-length test: total length `< 80·lines`.

## Behaviour worth knowing

- **Submission states.** There is no pending state and no failure state. A submission is written as `analyzing` and later rewritten as `completed`. If the analysis throws, the submission stays `analyzing` with no new evaluation (`StaleEvaluationDuringResubmission`).
- **Evaluations and completed submissions.** Only one direction holds. A completed submission always has an evaluation (`Registry.Valid`). The converse fails on resubmission: the old evaluation, with the old hash, stays in `evaluations` until the new one is stored, and stays for good if the new analysis fails.
- **Replacement on resubmission.** A resubmission does not replace both records at once. The submission is overwritten at once and the evaluation only on completion. Two overlapping analyses of one id can leave a completed submission whose hash differs from its evaluation's (`InterleavedResubmission`).
- **Rounding.** Complexity is clamped to [0, 100] first and rounded after, and `Math.round` sends halves towards +∞, not away from zero. For the non-negative values involved, clamping before or after rounding gives the same score, and so does either tie rule.

## Model

| member | source | states |
|---|---|---|
| `JsText.Split` | analysis-service/src/server.js:77-78 | `split('\n')` yields one line more than there are newlines (so `totalLines >= 1`), and no line contains a newline |
| `JsText.JoinSplit` | analysis-service/src/server.js:77 | joining the split lines with newlines restores the code exactly |
| `JsText.SplitJoin` | analysis-service/src/server.js:77 | splitting joined newline-free lines gives the same lines back: `split` and `join` are inverse |
| `JsText.SplitLengths` | analysis-service/src/server.js:101 | the summed line lengths equal the code length less its newlines |
| `JsText.TrimStart` | analysis-service/src/server.js:79 | `trim` removes exactly the longest all-white-space prefix: what it drops is white space and what it keeps starts with a non-space |
| `JsText.TrimEnd` | analysis-service/src/server.js:79 | the same for the longest all-white-space suffix |
| `JsText.TrimIsCore` | analysis-service/src/server.js:79 | `trim()` keeps exactly the part of the line between its leading and trailing white space, and that part is empty or starts and ends with a non-space |
| `JsText.TrimEmptyIffBlank` | analysis-service/src/server.js:20 | `line.trim()` is falsy exactly when every character of the line is white space |
| `JsText.NoNonBlankLinesIffBlank` | analysis-service/src/server.js:20 | `filter(line => line.trim())` keeps no line exactly when the whole code is white space |
| `JsText.IncludesIffOccurs` | analysis-service/src/server.js:84-85 | `includes(p)` holds exactly when p occurs in the text at some position |
| `JsText.CountLiteral` | analysis-service/src/server.js:41-46 | matches of a non-empty literal under `g` do not overlap: count times pattern length is at most the text length |
| `JsText.CountLiteralIsOccurrences` | analysis-service/src/server.js:41-46 | for a literal that cannot overlap itself, the `g` match count is exactly the number of positions where the literal occurs |
| `JsText.EndsDifferBorderFree` | analysis-service/src/server.js:41-46 | a literal cannot overlap itself when, wherever its first character comes back, the character as far from the end differs from its last one |
| `JsText.CountLiteralPositiveIffIncludes` | analysis-service/src/server.js:59-60 | `match` of a literal finds something exactly when `includes` does |
| `JsText.WordRunLength` | analysis-service/src/server.js:22 | the run of `\w` characters at the start of a text is maximal |
| `JsText.CountKeywords` | analysis-service/src/server.js:22-23 | for alternatives that are `\w` words, the `g` count of the keyword alternation between two `\b`s is the number of positions where one of the keywords stands with a `\b` on both sides |
| `JsText.CountInUnion` | analysis-service/src/server.js:22-23 | keyword counts over disjoint keyword sets add up |
| `JsText.CountDeclarations` | analysis-service/src/server.js:21 | matches of `kw\s+\w+` under `g` do not overlap and each takes at least the keyword, one space and one word character |
| `JsText.HasDeclarationIffCounted` | analysis-service/src/server.js:87 | `/kw\s+\w+/.test(code)` holds exactly when `code.match(/kw\s+\w+/g)` finds at least one match |
| `JsText.LowercaseNameIsDeclaration` | analysis-service/src/server.js:86 | code that passes the lowercase-naming test has at least one `function\s+\w+` match |
| `JsMath.Round` | analysis-service/src/server.js:33 | `Math.round`: the result is within half a unit of its argument, a tie going up |
| `CodeAnalyzer.NonBlankLineCount` | analysis-service/src/server.js:20 | at most one non-blank line per line, and none exactly when the code is all white space |
| `CodeAnalyzer.LoopsAreConditionals` | analysis-service/src/server.js:22-23 | the conditional count is the loop count plus the count of `if` and `require` |
| `CodeAnalyzer.ComplexityCountsOf` | analysis-service/src/server.js:20-23 | at most one counted line per line, at least ten characters per function declaration, no more loops than conditionals, and the two keyword counts are the match positions of their patterns |
| `CodeAnalyzer.AnalyzeComplexity` | analysis-service/src/server.js:18-34 | complexity lies in [0,100]; it is 100 when the weighted size `3L+50F+30C+40Lp` reaches 1000 tenths, and otherwise within half a point of that size |
| `CodeAnalyzer.ComplexityScore` | analysis-service/src/server.js:26-33 | complexity lies in [0,100]; it is 100 when `3L+50F+30C+40Lp >= 1000`, and otherwise that sum rounded to the nearest ten, halves up, divided by ten |
| `CodeAnalyzer.LoopKeywordsCountTwice` | analysis-service/src/server.js:22-31 | each `for`/`while` is counted as both conditional and loop: loops ≤ conditionals, conditionals = loops + `if`s + `require`s, so each loop keyword weighs 7 points |
| `CodeAnalyzer.Applied` | analysis-service/src/server.js:58-71 | one rule changes the score by at most weight·cap, by nothing without a match, and by exactly weight·cap from cap matches on |
| `CodeAnalyzer.SecurityScore` | analysis-service/src/server.js:36-74 | the security score lies in [0,100] |
| `CodeAnalyzer.AnalyzeSecurity` | analysis-service/src/server.js:36-74 | starting from 100 and applying the two tables rule by rule gives exactly the security score |
| `CodeAnalyzer.SecurityCountsOf` | analysis-service/src/server.js:40-55 | each literal or declaration match takes at least its own length of code, so none of the nine counts can exceed the code length over that length; the mutability count is the number of `\bpure\b`/`\bview\b` match positions |
| `CodeAnalyzer.SecurityTablesMatchFormula` | analysis-service/src/server.js:40-73 | the table-driven score equals the explicit formula `100 − Σ penalty·min(n,3) + Σ bonus·min(n,2)`, clamped, over the ten match counts |
| `CodeAnalyzer.PenaltiesTerm` | analysis-service/src/server.js:40-47 | the penalty table sums to `20·min(tx.origin,3) + 15·min(.call(,3) + 25·min(delegatecall,3) + 10·min(block.timestamp,3) + 8·min(block.number,3) + 30·min(selfdestruct,3)` |
| `CodeAnalyzer.BonusesTerm` | analysis-service/src/server.js:50-55 | the bonus table sums to `5·min(require(,2) + 10·min(modifier,2) + 8·min(event,2) + 5·min(pure/view,2)` |
| `CodeAnalyzer.WeightedAtMost` | analysis-service/src/server.js:58-71 | however many matches there are, a table contributes at most cap times its total weight |
| `CodeAnalyzer.SecurityAdjustmentsBounded` | analysis-service/src/server.js:40-55 | bonuses never exceed 2·(5+10+8+5) = 56 and penalties never exceed 3·108 = 324 |
| `CodeAnalyzer.SecurityBaseline` | analysis-service/src/server.js:37-73 | code that matches no pattern of either table scores exactly 100 |
| `CodeAnalyzer.TableLiteralsBorderFree` | analysis-service/src/server.js:41-51 | none of the seven literal patterns (`tx.origin`, `.call(`, `delegatecall`, `block.timestamp`, `block.number`, `selfdestruct`, `require(`) can overlap itself |
| `CodeAnalyzer.LiteralRulesCountOccurrences` | analysis-service/src/server.js:41-61 | for every literal rule of the tables, `code.match(pattern)` finds exactly the occurrences of its text |
| `CodeAnalyzer.RepeatedSelfdestruct` | analysis-service/src/server.js:37-73 | code in which `selfdestruct` occurs three or more times (five, say) and no other pattern matches scores 100 − 30·min(n,3) = 10 |
| `CodeAnalyzer.QualityFactsOf` | analysis-service/src/server.js:77-87 | at least one line, no more comment lines than lines, and the line lengths plus the line count equal the code length plus one |
| `CodeAnalyzer.CommentBonusBounds` | analysis-service/src/server.js:83-92 | the comment-ratio bonus lies in [0,20] |
| `CodeAnalyzer.ShortLinesInIntegers` | analysis-service/src/server.js:101-102 | the average-length test holds exactly when there is a line and the total length is under 80 per line |
| `CodeAnalyzer.QualityScore` | analysis-service/src/server.js:89-104 | quality lies in [50,100] |
| `CodeAnalyzer.ScanLines` | analysis-service/src/server.js:79-101 | one pass over the lines gives the number of comment lines and the summed line lengths |
| `CodeAnalyzer.QualityRawBounds` | analysis-service/src/server.js:89-104 | before clamping quality lies in [50,120], so the lower clamp never applies and the upper one applies from 100 on |
| `CodeAnalyzer.AnalyzeQuality` | analysis-service/src/server.js:76-105 | the line loop and the `+=` bonuses compute exactly the quality score of the code's facts |
| `CodeAnalyzer.FinalScore` | analysis-service/src/server.js:116-118 | the final score is `(4s + 3c + 3q)/10` rounded half up, and lies in [0,100] when the three scores do |
| `CodeAnalyzer.AnalysisOf` | analysis-service/src/server.js:107-132 | complexity, security and final score lie in [0,100], and quality in [50,100] |
| `CodeAnalyzer.DetailAgreesWithScorers` | analysis-service/src/server.js:125-129 | the detail counts equal the ones the scorers use; the event bonus is earned exactly when events > 0, and the naming bonus only with a function |
| `CodeAnalyzer.Analyze` | analysis-service/src/server.js:111-131 | running the three scorers and the aggregation gives exactly the analysis of the code |
| `CodeAnalyzer.WorkedExample` | analysis-service/src/server.js:18-118 | one function, one `if`, no patterns, lowercase name, one short line: complexity 8, security 100, quality 65, final 62 |
| `AnalysisService.Registry.constructor` | analysis-service/src/server.js:13-14 | the service starts with both maps empty |
| `AnalysisService.Registry.Begin` | analysis-service/src/server.js:142-156 | a missing or empty `code` or `submissionId` (the `!field` test, `Present`) gives 400 and changes nothing; otherwise the submission is overwritten with the code's hash, the time and status `analyzing`, and the evaluations are untouched; the registry invariant `Registry.Valid` (every evaluation has a submission, every completed submission has an evaluation) is kept |
| `AnalysisService.Registry.Complete` | analysis-service/src/server.js:163-175 | the evaluation is stored with the ticket's hash; the submission becomes `completed`, keeping its hash and timestamp; nothing else changes, and `Registry.Valid` is kept |
| `AnalysisService.Registry.Finish` | analysis-service/src/server.js:161-175 | after the `await`, the stored evaluation holds exactly the analysis of the submitted code |
| `AnalysisService.Registry.Conclude` | analysis-service/src/server.js:160-189 | after the `await`: a 400 passes through unchanged, a throwing analysis answers 500 and changes nothing, otherwise the evaluation holds the analysis and the submission is `completed` |
| `AnalysisService.Registry.HandleAnalyze` | analysis-service/src/server.js:140-190 | the whole handler: 400 with no change; 500 leaving the submission `analyzing` and the evaluations unchanged; or success, with the submission `completed` under the hash and first timestamp and the evaluation holding the analysis and the same hash |
| `AnalysisService.Registry.GetAnalysis` | analysis-service/src/server.js:192-201 | the stored evaluation, or 404 for an id without one; no state change |
| `AnalysisService.Registry.GetSubmission` | analysis-service/src/server.js:203-212 | the stored submission, or 404 for an unknown id; no state change |
| `AnalysisService.Registry.GetStats` | analysis-service/src/server.js:214-220 | total and completed are the map sizes; pending is their difference, which is the number of submissions without an evaluation and never negative |
| `AnalysisService.LookupsOfUnsubmittedId` | analysis-service/src/server.js:192-212 | in any valid state, an id with no submission answers 404 to both lookups |
| `AnalysisService.StaleEvaluationDuringResubmission` | analysis-service/src/server.js:152-189 | after a completed analysis and a failed resubmission, the submission is `analyzing` the new code while the evaluation still holds the old code's analysis and hash |
| `AnalysisService.InterleavedResubmission` | analysis-service/src/server.js:152-175 | when two analyses of one id overlap, the first to finish leaves a `completed` submission carrying the second hash beside an evaluation carrying the first |

## Left out

- Express, CORS, JSON body parsing, `app.listen` and console logging (server.js:1-10, 158, 177, 187, 222-225) are HTTP plumbing. The handlers are registry methods; their answers are `Result` values.
- `GET /health` (server.js:136-138) only reports the clock.
- `crypto.createHash('sha256')` (server.js:149) is a foreign call. The registry is given a deterministic `digest: string -> string`, so equal code always gets equal hashes. Collision resistance is not modelled.
- The clock (`new Date().toISOString()`, server.js:154, 167) is read by the handlers. In the model each handler takes the timestamp as a parameter.
- The artificial one-second delay (server.js:109) is left out. So are interleavings beyond the Begin/Complete split: the model shows one such interleaving, but concurrency is not otherwise modelled.
- The analysis cannot throw in the model. `HandleAnalyze` takes a `fault` flag for the catch path (server.js:186-189).
- Request fields other than strings are left out. The model takes `code` and `submissionId` as an absent or present string. A truthy non-string `code` would make the hash call throw (500, nothing written), and a numeric id would be a distinct `Map` key.
- IEEE-754 doubles are left out; scores use exact rationals. A double sum that lands within rounding error of a half (such as `0.3·L` for some L) could round differently in the service.
- `line.length` counts UTF-16 code units, and the model counts code points. The two differ only for characters outside the Basic Multilingual Plane, and only the line-length test reads lengths.
- `emptyLines` (server.js:80) is computed by the service and never used.
- The constant `status: 'completed'` fields of the stored evaluation and of the `/analyze` answer are left out.
- The frontend, the type declarations, the Hardhat configuration, the deploy script and the Solidity tests are UI, configuration or tests of contracts whose sources are not part of this model.
