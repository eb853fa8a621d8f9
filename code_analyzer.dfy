/**
 * The `CodeAnalyzer` scoring engine of the analysis service: three scores in
 * [0, 100] for complexity, security and quality, and their weighted
 * combination. Each scorer is a function of the code text through a record of
 * the counts it looks at; where the service accumulates a score step by step
 * (the security tables' `forEach`, the quality scorer's `filter`/`reduce` and
 * `+=` steps) a method does the same and is proved to compute the function.
 */
module CodeAnalyzer {
  import opened JsMath
  import opened JsText

  // =====================================================================
  // analyzeComplexity
  // =====================================================================

  datatype ComplexityCounts = ComplexityCounts(lines: nat, functions: nat, conditionals: nat, loops: nat)

  /** The words of `\b(if|while|for|require)\b`. */
  const ConditionalKeywords: set<string> := {"if", "while", "for", "require"}

  /** The words of `\b(for|while)\b`. */
  const LoopKeywords: set<string> := {"for", "while"}

  /** The keyword alternatives of the complexity and mutability patterns are `\w` words. */
  lemma KeywordSetsAreWords()
    ensures IsWordSet(ConditionalKeywords) && IsWordSet(LoopKeywords) && IsWordSet({"pure", "view"})
  {
    assert IsWord("if") && IsWord("while") && IsWord("for") && IsWord("require");
    assert IsWord("pure") && IsWord("view");
  }

  /** The conditionals are the loop keywords plus the `if`s and `require`s. */
  lemma LoopsAreConditionals(code: string)
    ensures CountKeywords(code, ConditionalKeywords) == CountKeywords(code, LoopKeywords) + CountKeywords(code, {"if", "require"})
  {
    CountInUnion(Words(code), LoopKeywords, {"if", "require"});
    assert LoopKeywords + {"if", "require"} == ConditionalKeywords;
  }

  /**
   * `code.split('\n').filter(line => line.trim()).length`: at most one per
   * line, and none exactly when the code is all white space.
   */
  function NonBlankLineCount(code: string): (n: nat)
    ensures n <= NewlineCount(code) + 1
    ensures n == 0 <==> AllSpace(code)
  {
    NoNonBlankLinesIffBlank(code);
    CountIf(Split(code), IsNonBlankLine)
  }

  /**
   * The four counts `analyzeComplexity` reads. Function declarations take at
   * least ten characters each, and every loop keyword is also a conditional.
   */
  function ComplexityCountsOf(code: string): (c: ComplexityCounts)
    ensures c.lines <= NewlineCount(code) + 1
    ensures c.functions * 10 <= |code|
    ensures c.loops <= c.conditionals
    ensures c.conditionals == KeywordMatches(code, ConditionalKeywords)
    ensures c.loops == KeywordMatches(code, LoopKeywords)
  {
    LoopsAreConditionals(code);
    KeywordSetsAreWords();
    ComplexityCounts(
      NonBlankLineCount(code),
      CountDeclarations(code, "function"),
      CountKeywords(code, ConditionalKeywords),
      CountKeywords(code, LoopKeywords))
  }

  /** The weighted structure size in tenths of a point: 10 * (0.3 L + 5 F + 3 C + 4 Lp), in integers. */
  function ComplexityTenths(c: ComplexityCounts): nat {
    3 * c.lines + 50 * c.functions + 30 * c.conditionals + 40 * c.loops
  }

  /**
   * `Math.round(Math.min(100, Math.max(0, 0.3 L + 5 F + 3 C + 4 Lp)))`: the
   * weighted size rounded half up to a whole point, saturating at 100.
   */
  function ComplexityScore(c: ComplexityCounts): (r: int)
    ensures 0 <= r <= 100
    ensures ComplexityTenths(c) >= 1000 ==> r == 100
    ensures ComplexityTenths(c) < 1000 ==> 10 * r - 5 <= ComplexityTenths(c) < 10 * r + 5
  {
    var raw := c.lines as real * 0.3 + (c.functions * 5) as real
      + (c.conditionals * 3) as real + (c.loops * 4) as real;
    Round(MinReal(100.0, MaxReal(0.0, raw)))
  }

  /**
   * `CodeAnalyzer.analyzeComplexity(code)`: in [0, 100], 100 once the weighted
   * size reaches 100 points, and otherwise that size rounded half up.
   */
  function AnalyzeComplexity(code: string): (r: int)
    ensures 0 <= r <= 100
    ensures var t := ComplexityTenths(ComplexityCountsOf(code));
      (t >= 1000 ==> r == 100) && (t < 1000 ==> 10 * r - 5 <= t < 10 * r + 5)
  {
    ComplexityScore(ComplexityCountsOf(code))
  }

  /**
   * Every `for` and `while` is both a conditional and a loop: there are never
   * more loops than conditionals, the conditionals are the loops plus the
   * `if`s and `require`s, and each loop keyword weighs 3 + 4 = 7 points.
   */
  lemma LoopKeywordsCountTwice(code: string)
    ensures ComplexityCountsOf(code).loops <= ComplexityCountsOf(code).conditionals
    ensures ComplexityCountsOf(code).conditionals
         == ComplexityCountsOf(code).loops + CountKeywords(code, {"if", "require"})
    ensures ComplexityTenths(ComplexityCountsOf(code))
         == 3 * ComplexityCountsOf(code).lines + 50 * ComplexityCountsOf(code).functions
          + 30 * CountKeywords(code, {"if", "require"}) + 70 * ComplexityCountsOf(code).loops
  {
    assert ConditionalKeywords == LoopKeywords + {"if", "require"};
    CountInUnion(Words(code), LoopKeywords, {"if", "require"});
  }

  // =====================================================================
  // analyzeSecurity
  // =====================================================================

  /** The three kinds of pattern in the security tables. */
  datatype Pattern =
    | Literal(text: string)       // a regular expression that matches one fixed text
    | Declaration(keyword: string) // `keyword\s+\w+`
    | Keywords(words: set<string>) // `\bw1\b|\bw2\b|...`

  datatype Rule = Rule(pattern: Pattern, weight: nat)

  /** The risk patterns, each costing `weight * min(matches, 3)`. */
  const Issues: seq<Rule> := [
    Rule(Literal("tx.origin"), 20),
    Rule(Literal(".call("), 15),
    Rule(Literal("delegatecall"), 25),
    Rule(Literal("block.timestamp"), 10),
    Rule(Literal("block.number"), 8),
    Rule(Literal("selfdestruct"), 30)
  ]

  /** The good practices, each earning `weight * min(matches, 2)`. */
  const GoodPractices: seq<Rule> := [
    Rule(Literal("require("), 5),
    Rule(Declaration("modifier"), 10),
    Rule(Declaration("event"), 8),
    Rule(Keywords({"pure", "view"}), 5)
  ]

  const PenaltyCap: nat := 3
  const BonusCap: nat := 2

  /** `code.match(pattern)` under the g flag: the number of matches (a null result being none). */
  function Matches(code: string, p: Pattern): nat {
    match p
    case Literal(text) => CountLiteral(code, text)
    case Declaration(keyword) => CountDeclarations(code, keyword)
    case Keywords(words) => CountKeywords(code, words)
  }

  /** What one rule adds or takes away: its weight times its match count capped at cap. */
  function Applied(code: string, rule: Rule, cap: nat): (n: nat)
    ensures n <= rule.weight * cap
    ensures Matches(code, rule.pattern) == 0 ==> n == 0
    ensures Matches(code, rule.pattern) >= cap ==> n == rule.weight * cap
  {
    MulMonotone(rule.weight, Min(Matches(code, rule.pattern), cap), cap);
    rule.weight * Min(Matches(code, rule.pattern), cap)
  }

  /** The sum of Applied over a table, in table order. */
  function Weighted(code: string, rules: seq<Rule>, cap: nat): nat {
    if rules == [] then 0
    else Weighted(code, rules[..|rules| - 1], cap) + Applied(code, rules[|rules| - 1], cap)
  }

  function TotalWeight(rules: seq<Rule>): nat {
    if rules == [] then 0 else TotalWeight(rules[..|rules| - 1]) + rules[|rules| - 1].weight
  }

  /** `analyzeSecurity(code)`: 100, less the capped penalties, plus the capped bonuses, kept within [0, 100]. */
  function SecurityScore(code: string): (r: int)
    ensures 0 <= r <= 100
  {
    Max(0, Min(100, 100 - Weighted(code, Issues, PenaltyCap) + Weighted(code, GoodPractices, BonusCap)))
  }

  /**
   * `analyzeSecurity` as the service runs it: a score that starts at 100 and
   * is lowered, then raised, rule by rule over the two tables.
   */
  method AnalyzeSecurity(code: string) returns (score: int)
    ensures score == SecurityScore(code)
  {
    var securityScore := 100;
    for i := 0 to |Issues|
      invariant securityScore == 100 - Weighted(code, Issues[..i], PenaltyCap)
    {
      var matches := Matches(code, Issues[i].pattern);
      if matches > 0 {
        securityScore := securityScore - Issues[i].weight * Min(matches, PenaltyCap);
      }
      assert Issues[..i + 1][..i] == Issues[..i];
    }
    assert Issues[..|Issues|] == Issues;
    for i := 0 to |GoodPractices|
      invariant securityScore
             == 100 - Weighted(code, Issues, PenaltyCap) + Weighted(code, GoodPractices[..i], BonusCap)
    {
      var matches := Matches(code, GoodPractices[i].pattern);
      if matches > 0 {
        securityScore := securityScore + GoodPractices[i].weight * Min(matches, BonusCap);
      }
      assert GoodPractices[..i + 1][..i] == GoodPractices[..i];
    }
    assert GoodPractices[..|GoodPractices|] == GoodPractices;
    RoundIsUnique(securityScore as real, securityScore);
    score := Max(0, Min(100, Round(securityScore as real)));
  }

  /** The match counts the security tables look at, one per rule. */
  datatype SecurityCounts = SecurityCounts(
    txOrigin: nat, lowLevelCall: nat, delegatecall: nat, timestamp: nat, blockNumber: nat, selfdestruct: nat,
    require: nat, modifiers: nat, events: nat, mutability: nat)

  /**
   * The ten counts. The literal matches do not overlap, so each count times
   * its pattern's length fits in the code; likewise for declarations, which
   * take the keyword, a space and a name.
   */
  function SecurityCountsOf(code: string): (c: SecurityCounts)
    ensures c.txOrigin * 9 <= |code| && c.lowLevelCall * 6 <= |code| && c.delegatecall * 12 <= |code|
    ensures c.timestamp * 15 <= |code| && c.blockNumber * 12 <= |code| && c.selfdestruct * 12 <= |code|
    ensures c.require * 8 <= |code| && c.modifiers * 10 <= |code| && c.events * 7 <= |code|
    ensures c.mutability == KeywordMatches(code, {"pure", "view"})
  {
    KeywordSetsAreWords();
    SecurityCounts(
      CountLiteral(code, "tx.origin"), CountLiteral(code, ".call("), CountLiteral(code, "delegatecall"),
      CountLiteral(code, "block.timestamp"), CountLiteral(code, "block.number"), CountLiteral(code, "selfdestruct"),
      CountLiteral(code, "require("), CountDeclarations(code, "modifier"), CountDeclarations(code, "event"),
      CountKeywords(code, {"pure", "view"}))
  }

  /** The security score written out term by term from the counts, without the tables. */
  function SecurityFromCounts(c: SecurityCounts): int {
    var penalties := 20 * Min(c.txOrigin, 3) + 15 * Min(c.lowLevelCall, 3) + 25 * Min(c.delegatecall, 3)
      + 10 * Min(c.timestamp, 3) + 8 * Min(c.blockNumber, 3) + 30 * Min(c.selfdestruct, 3);
    var bonuses := 5 * Min(c.require, 2) + 10 * Min(c.modifiers, 2) + 8 * Min(c.events, 2)
      + 5 * Min(c.mutability, 2);
    Max(0, Min(100, 100 - penalties + bonuses))
  }

  /** The table-driven scorer agrees with the term-by-term formula. */
  lemma SecurityTablesMatchFormula(code: string)
    ensures SecurityScore(code) == SecurityFromCounts(SecurityCountsOf(code))
  {
    PenaltiesTerm(code);
    BonusesTerm(code);
  }

  lemma PenaltiesTerm(code: string)
    ensures var c := SecurityCountsOf(code);
      Weighted(code, Issues, PenaltyCap)
      == 20 * Min(c.txOrigin, 3) + 15 * Min(c.lowLevelCall, 3) + 25 * Min(c.delegatecall, 3)
       + 10 * Min(c.timestamp, 3) + 8 * Min(c.blockNumber, 3) + 30 * Min(c.selfdestruct, 3)
  {
    FirstPenalties(code);
    WeightedPrefix(code, Issues, 3, 3);
    WeightedPrefix(code, Issues, 4, 3);
    WeightedPrefix(code, Issues, 5, 3);
    assert Issues[..6] == Issues;
  }

  /** The penalties of the first three risk patterns. */
  lemma FirstPenalties(code: string)
    ensures var c := SecurityCountsOf(code);
      Weighted(code, Issues[..3], PenaltyCap)
      == 20 * Min(c.txOrigin, 3) + 15 * Min(c.lowLevelCall, 3) + 25 * Min(c.delegatecall, 3)
  {
    WeightedPrefix(code, Issues, 0, 3);
    WeightedPrefix(code, Issues, 1, 3);
    WeightedPrefix(code, Issues, 2, 3);
    assert Issues[..0] == [];
  }

  lemma BonusesTerm(code: string)
    ensures var c := SecurityCountsOf(code);
      Weighted(code, GoodPractices, BonusCap)
      == 5 * Min(c.require, 2) + 10 * Min(c.modifiers, 2) + 8 * Min(c.events, 2) + 5 * Min(c.mutability, 2)
  {
    WeightedPrefix(code, GoodPractices, 0, 2);
    WeightedPrefix(code, GoodPractices, 1, 2);
    WeightedPrefix(code, GoodPractices, 2, 2);
    WeightedPrefix(code, GoodPractices, 3, 2);
    assert GoodPractices[..0] == [] && GoodPractices[..4] == GoodPractices;
  }

  /** Extending a prefix of a table by one rule adds that rule's part. */
  lemma WeightedPrefix(code: string, rules: seq<Rule>, k: nat, cap: nat)
    requires k < |rules|
    ensures Weighted(code, rules[..k + 1], cap) == Weighted(code, rules[..k], cap) + Applied(code, rules[k], cap)
  {
    assert rules[..k + 1][..k] == rules[..k];
  }

  /** However many matches there are, a table adds up to at most cap times its total weight. */
  lemma {:induction false} WeightedAtMost(code: string, rules: seq<Rule>, cap: nat)
    ensures Weighted(code, rules, cap) <= cap * TotalWeight(rules)
  {
    if rules != [] {
      var n := |rules| - 1;
      WeightedAtMost(code, rules[..n], cap);
      var before, w := TotalWeight(rules[..n]), rules[n].weight;
      assert Weighted(code, rules, cap) <= Weighted(code, rules[..n], cap) + w * cap;
      calc {
        cap * TotalWeight(rules);
        cap * (before + w);
        { DistributeLeft(cap, before, w); }
        cap * before + cap * w;
      }
    }
  }

  /** The bonuses never exceed 2 * (5 + 10 + 8 + 5) = 56 and the penalties never exceed 3 * 108 = 324. */
  lemma SecurityAdjustmentsBounded(code: string)
    ensures Weighted(code, GoodPractices, BonusCap) <= 56
    ensures Weighted(code, Issues, PenaltyCap) <= 324
  {
    WeightedAtMost(code, GoodPractices, BonusCap);
    WeightedAtMost(code, Issues, PenaltyCap);
    assert GoodPractices[..3] == GoodPractices[..4][..3];
    assert GoodPractices[..2] == GoodPractices[..3][..2];
    assert GoodPractices[..1] == GoodPractices[..2][..1];
    assert GoodPractices[..1][..0] == [];
    assert GoodPractices == GoodPractices[..4];
    assert TotalWeight(GoodPractices[..1]) == 5;
    assert TotalWeight(GoodPractices[..2]) == 15;
    assert TotalWeight(GoodPractices[..3]) == 23;
    assert TotalWeight(GoodPractices) == 28;
    assert Issues[..5] == Issues[..6][..5];
    assert Issues[..4] == Issues[..5][..4];
    assert Issues[..3] == Issues[..4][..3];
    assert Issues[..2] == Issues[..3][..2];
    assert Issues[..1] == Issues[..2][..1];
    assert Issues[..1][..0] == [];
    assert Issues == Issues[..6];
    assert TotalWeight(Issues[..1]) == 20;
    assert TotalWeight(Issues[..2]) == 35;
    assert TotalWeight(Issues[..3]) == 60;
    assert TotalWeight(Issues[..4]) == 70;
    assert TotalWeight(Issues[..5]) == 78;
    assert TotalWeight(Issues) == 108;
  }

  /** A table none of whose patterns matches adds nothing. */
  lemma {:induction false} WeightedWithoutMatches(code: string, rules: seq<Rule>, cap: nat)
    requires forall i :: 0 <= i < |rules| ==> Matches(code, rules[i].pattern) == 0
    ensures Weighted(code, rules, cap) == 0
  {
    if rules != [] {
      WeightedWithoutMatches(code, rules[..|rules| - 1], cap);
    }
  }

  /** Code that matches no pattern of either table scores exactly the baseline 100. */
  lemma SecurityBaseline(code: string)
    requires forall i :: 0 <= i < |Issues| ==> Matches(code, Issues[i].pattern) == 0
    requires forall i :: 0 <= i < |GoodPractices| ==> Matches(code, GoodPractices[i].pattern) == 0
    ensures SecurityScore(code) == 100
  {
    WeightedWithoutMatches(code, Issues, PenaltyCap);
    WeightedWithoutMatches(code, GoodPractices, BonusCap);
  }

  /**
   * Code in which `selfdestruct` occurs five times (or any number of times
   * from three on) and no other pattern matches scores 100 - 30 * 3 = 10.
   */
  lemma RepeatedSelfdestruct(code: string)
    requires Occurrences(code, "selfdestruct") >= 3
    requires SecurityCountsOf(code).(selfdestruct := 0) == SecurityCounts(0, 0, 0, 0, 0, 0, 0, 0, 0, 0)
    ensures SecurityScore(code) == 10
  {
    LiteralRulesCountOccurrences(code, Issues[5]);
    SecurityTablesMatchFormula(code);
  }

  /** None of the literal patterns of the tables can overlap itself. */
  lemma TableLiteralsBorderFree()
    ensures forall rule :: rule in Issues ==> rule.pattern.Literal? && BorderFree(rule.pattern.text)
    ensures GoodPractices[0].pattern.Literal? && BorderFree(GoodPractices[0].pattern.text)
  {
    FirstRiskLiteralsBorderFree();
    LastRiskLiteralsBorderFree();
    EndsDifferBorderFree("require(");
  }

  lemma FirstRiskLiteralsBorderFree()
    ensures BorderFree("tx.origin") && BorderFree(".call(") && BorderFree("delegatecall")
  {
    EndsDifferBorderFree("tx.origin");
    EndsDifferBorderFree(".call(");
    EndsDifferBorderFree("delegatecall");
  }

  lemma LastRiskLiteralsBorderFree()
    ensures BorderFree("block.timestamp") && BorderFree("block.number") && BorderFree("selfdestruct")
  {
    EndsDifferBorderFree("block.timestamp");
    EndsDifferBorderFree("block.number");
    EndsDifferBorderFree("selfdestruct");
  }

  /** The g count of every literal pattern of the tables is its number of occurrences in the code. */
  lemma LiteralRulesCountOccurrences(code: string, rule: Rule)
    requires rule in Issues || rule == GoodPractices[0]
    ensures rule.pattern.Literal? && Matches(code, rule.pattern) == Occurrences(code, rule.pattern.text)
  {
    TableLiteralsBorderFree();
    CountLiteralIsOccurrences(code, rule.pattern.text);
  }

  // =====================================================================
  // analyzeQuality
  // =====================================================================

  /** What the quality scorer reads off the code. */
  datatype QualityFacts = QualityFacts(
    totalLines: nat, commentLines: nat, totalLength: nat,
    hasLicense: bool, hasNatSpec: bool, properNaming: bool, hasEvents: bool)

  function QualityFactsOf(code: string): (f: QualityFacts)
    ensures f.totalLines >= 1 && f.commentLines <= f.totalLines
    ensures f.totalLength + f.totalLines == |code| + 1
  {
    var lines := Split(code);
    SplitLengths(code);
    QualityFacts(
      |lines|,
      CountIf(lines, IsCommentLine),
      SumLengths(lines),
      Includes(code, "SPDX-License-Identifier"),
      Includes(code, "@dev") || Includes(code, "@param") || Includes(code, "@return"),
      HasLowercaseFunctionName(code),
      HasDeclaration(code, "event"))
  }

  /** `commentRatio * 100` capped at 20. */
  function CommentBonus(f: QualityFacts): real {
    var commentRatio := f.commentLines as real / Max(f.totalLines, 1) as real;
    MinReal(20.0, commentRatio * 100.0)
  }

  /** `avgLineLength < 80`; with no lines the average is not a number and the test fails. */
  predicate ShortLines(f: QualityFacts) {
    f.totalLines > 0 && f.totalLength as real / f.totalLines as real < 80.0
  }

  /** `qualityScore` before rounding: 50, the comment bonus, and the fixed bonuses. */
  function QualityRaw(f: QualityFacts): real {
    50.0 + CommentBonus(f)
    + (if f.hasLicense then 10.0 else 0.0)
    + (if f.hasNatSpec then 15.0 else 0.0)
    + (if f.properNaming then 10.0 else 0.0)
    + (if f.hasEvents then 10.0 else 0.0)
    + (if ShortLines(f) then 5.0 else 0.0)
  }

  /** The comment bonus lies in [0, 20]. */
  lemma CommentBonusBounds(f: QualityFacts)
    ensures 0.0 <= CommentBonus(f) <= 20.0
  {
    DivNonNegative(f.commentLines as real, Max(f.totalLines, 1) as real);
  }

  /** The average-length test in integers: total length under 80 characters per line. */
  lemma ShortLinesInIntegers(f: QualityFacts)
    ensures ShortLines(f) <==> f.totalLines > 0 && f.totalLength < 80 * f.totalLines
  {
    if f.totalLines > 0 {
      DivBelow(f.totalLength as real, f.totalLines as real, 80.0);
    }
  }

  /** `analyzeQuality`: the raw score rounded and kept within [0, 100]; it is never below 50. */
  function QualityScore(f: QualityFacts): (r: int)
    ensures 50 <= r <= 100
  {
    CommentBonusBounds(f);
    RoundWithin(QualityRaw(f), 50, 120);
    Max(0, Min(100, Round(QualityRaw(f))))
  }

  /**
   * Before clamping the raw score lies in [50, 120]: the lower clamp never
   * applies, while the upper one does once the bonuses pass 50 points.
   */
  lemma QualityRawBounds(f: QualityFacts)
    ensures 50.0 <= QualityRaw(f) <= 120.0
    ensures Round(QualityRaw(f)) >= 50
    ensures QualityRaw(f) >= 100.0 ==> QualityScore(f) == 100
  {
    CommentBonusBounds(f);
    RoundWithin(QualityRaw(f), 50, 120);
  }

  /**
   * The comment lines (`filter(line => line.trim().startsWith('//')).length`)
   * and the summed line lengths (`reduce((sum, line) => sum + line.length, 0)`),
   * gathered over the lines.
   */
  method ScanLines(lines: seq<string>) returns (commentLines: nat, lengthSum: nat)
    ensures commentLines == CountIf(lines, IsCommentLine)
    ensures lengthSum == SumLengths(lines)
  {
    commentLines, lengthSum := 0, 0;
    for i := 0 to |lines|
      invariant commentLines == CountIf(lines[..i], IsCommentLine)
      invariant lengthSum == SumLengths(lines[..i])
    {
      assert lines[..i + 1][..i] == lines[..i];
      if IsCommentLine(lines[i]) {
        commentLines := commentLines + 1;
      }
      lengthSum := lengthSum + |lines[i]|;
    }
    assert lines[..|lines|] == lines;
  }

  /**
   * `analyzeQuality` as the service runs it: the comment lines and the line
   * lengths gathered over the lines, then the bonuses added one by one.
   */
  method AnalyzeQuality(code: string) returns (score: int)
    ensures score == QualityScore(QualityFactsOf(code))
  {
    var lines := Split(code);
    var totalLines := |lines|;
    var commentLines, lengthSum := ScanLines(lines);
    SplitLengths(code);

    ghost var f := QualityFactsOf(code);
    assert f.totalLines == totalLines && f.commentLines == commentLines && f.totalLength == lengthSum;

    var commentRatio := commentLines as real / Max(totalLines, 1) as real;
    var hasLicense := Includes(code, "SPDX-License-Identifier");
    var hasNatSpec := Includes(code, "@dev") || Includes(code, "@param") || Includes(code, "@return");
    var properNaming := HasLowercaseFunctionName(code);
    var hasEvents := HasDeclaration(code, "event");

    var qualityScore := 50.0;
    qualityScore := qualityScore + MinReal(20.0, commentRatio * 100.0);
    assert qualityScore == 50.0 + CommentBonus(f);
    if hasLicense { qualityScore := qualityScore + 10.0; }
    if hasNatSpec { qualityScore := qualityScore + 15.0; }
    assert qualityScore == 50.0 + CommentBonus(f)
      + (if f.hasLicense then 10.0 else 0.0) + (if f.hasNatSpec then 15.0 else 0.0);
    if properNaming { qualityScore := qualityScore + 10.0; }
    if hasEvents { qualityScore := qualityScore + 10.0; }
    assert qualityScore == QualityRaw(f) - (if ShortLines(f) then 5.0 else 0.0);
    var avgLineLength := lengthSum as real / totalLines as real;
    if avgLineLength < 80.0 { qualityScore := qualityScore + 5.0; }
    assert qualityScore == QualityRaw(f);

    score := Max(0, Min(100, Round(qualityScore)));
  }

  // =====================================================================
  // analyze: aggregation and detail counts
  // =====================================================================

  /**
   * `Math.round(security * 0.4 + complexity * 0.3 + quality * 0.3)`: the
   * weighted mean rounded half up, in [0, 100] when its inputs are.
   */
  function FinalScore(security: int, complexity: int, quality: int): (r: int)
    ensures 10 * r - 5 <= 4 * security + 3 * complexity + 3 * quality < 10 * r + 5
    ensures 0 <= security <= 100 && 0 <= complexity <= 100 && 0 <= quality <= 100 ==> 0 <= r <= 100
  {
    Round(security as real * 0.4 + complexity as real * 0.3 + quality as real * 0.3)
  }

  datatype Detail = Detail(linesOfCode: nat, functions: nat, events: nat, modifiers: nat)

  datatype AnalysisResult = AnalysisResult(
    complexity: int, security: int, quality: int, finalScore: int, analysis: Detail)

  /** `CodeAnalyzer.analyze(code)`, less its artificial delay. */
  function AnalysisOf(code: string): (r: AnalysisResult)
    ensures 0 <= r.complexity <= 100 && 0 <= r.security <= 100 && 50 <= r.quality <= 100
    ensures 0 <= r.finalScore <= 100
  {
    var complexity := AnalyzeComplexity(code);
    var security := SecurityScore(code);
    var quality := QualityScore(QualityFactsOf(code));
    AnalysisResult(
      complexity, security, quality, FinalScore(security, complexity, quality),
      Detail(
        NonBlankLineCount(code),
        CountDeclarations(code, "function"),
        CountDeclarations(code, "event"),
        CountDeclarations(code, "modifier")))
  }

  /**
   * The detail counts are the ones the scorers use: the non-blank lines and
   * functions of the complexity score, the events and modifiers of the
   * security bonuses; the quality scorer's event bonus is earned exactly when
   * there is an event to count, and its naming bonus only with a function.
   */
  lemma DetailAgreesWithScorers(code: string)
    ensures AnalysisOf(code).analysis.linesOfCode == ComplexityCountsOf(code).lines
    ensures AnalysisOf(code).analysis.functions == ComplexityCountsOf(code).functions
    ensures AnalysisOf(code).analysis.events == SecurityCountsOf(code).events
    ensures AnalysisOf(code).analysis.modifiers == SecurityCountsOf(code).modifiers
    ensures QualityFactsOf(code).hasEvents <==> AnalysisOf(code).analysis.events > 0
    ensures QualityFactsOf(code).properNaming ==> AnalysisOf(code).analysis.functions > 0
  {
    HasDeclarationIffCounted(code, "event");
    if HasLowercaseFunctionName(code) {
      LowercaseNameIsDeclaration(code);
    }
  }

  /** `CodeAnalyzer.analyze(code)` as the service runs it, the two accumulating scorers as methods. */
  method Analyze(code: string) returns (r: AnalysisResult)
    ensures r == AnalysisOf(code)
  {
    var complexity := AnalyzeComplexity(code);
    var security := AnalyzeSecurity(code);
    var quality := AnalyzeQuality(code);
    var finalScore := FinalScore(security, complexity, quality);
    r := AnalysisResult(
      complexity, security, quality, finalScore,
      Detail(
        NonBlankLineCount(code),
        CountDeclarations(code, "function"),
        CountDeclarations(code, "event"),
        CountDeclarations(code, "modifier")));
  }

  /**
   * One function, one `if`, no loop, no pattern of either table, a lowercase
   * name and one short line: complexity round(8.3) = 8, security 100,
   * quality 50 + 10 + 5 = 65, and round(40 + 2.4 + 19.5) = 62 overall.
   */
  lemma WorkedExample()
    ensures ComplexityScore(ComplexityCounts(1, 1, 1, 0)) == 8
    ensures SecurityFromCounts(SecurityCounts(0, 0, 0, 0, 0, 0, 0, 0, 0, 0)) == 100
    ensures QualityScore(QualityFacts(1, 0, 20, false, false, true, false)) == 65
    ensures FinalScore(100, 8, 65) == 62
  {
    RoundIsUnique(65.0, 65);
  }
}
