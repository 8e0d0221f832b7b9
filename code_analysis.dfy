/** The code-review heuristics of the analysis service: line numbers of matches, the
    letter grade, substring-based issue detection, duplicate-line counting, the
    weighted maintainability score with its suggestions, and the severity tables and
    security score of a scan. Regular-expression match counts are parameters. */
module CodeAnalysis {
  import opened Text
  import opened Lists
  import opened Numbers

  // ---- line numbers ----

  /** `getLineNumber(code, index)`: the number of pieces of `code.substring(0, index)`
      split at newlines; `substring` clamps the index into the string. */
  function GetLineNumber(code: string, index: int): (r: nat)
    ensures r >= 1
    ensures r == 1 + CountChar(code[..Clamp(index, |code|)], '\n')
  {
    |Split(code[..Clamp(index, |code|)], '\n')|
  }

  function Clamp(index: int, n: nat): (r: nat)
    ensures r <= n
    ensures 0 <= index <= n ==> r == index
  {
    if index < 0 then 0 else if index > n then n else index
  }

  /** A later position is never on an earlier line. */
  lemma LineNumberMonotone(code: string, i: int, j: int)
    requires i <= j
    ensures GetLineNumber(code, i) <= GetLineNumber(code, j)
  {
    var a, b := Clamp(i, |code|), Clamp(j, |code|);
    assert code[..b] == code[..a] + code[a..b];
    CountCharAppend(code[..a], code[a..b], '\n');
  }

  // ---- complexity ----

  /** The sum of the counts, first to last. */
  function Total(counts: seq<nat>): nat {
    if counts == [] then 0 else counts[0] + Total(counts[1..])
  }

  /** Adding a count at the end adds it to the total. */
  lemma {:induction false} TotalAppend(counts: seq<nat>, x: nat)
    ensures Total(counts + [x]) == Total(counts) + x
  {
    if counts != [] {
      assert (counts + [x])[1..] == counts[1..] + [x];
      TotalAppend(counts[1..], x);
    }
  }

  /** `estimateComplexity`: the `reduce` from 1 adding the match counts of the six
      branching patterns, which is 1 plus their total. */
  function EstimateComplexity(matchCounts: seq<nat>): (r: nat)
    ensures r == 1 + Total(matchCounts)
    ensures r >= 1
    ensures forall k :: 0 <= k < |matchCounts| ==> r > matchCounts[k]
    ensures r == 1 <==> forall k :: 0 <= k < |matchCounts| ==> matchCounts[k] == 0
  {
    if matchCounts == [] then 1
    else
      var rest := EstimateComplexity(matchCounts[..|matchCounts| - 1]);
      assert forall k :: 0 <= k < |matchCounts| - 1 ==> matchCounts[k] == matchCounts[..|matchCounts| - 1][k];
      assert matchCounts == matchCounts[..|matchCounts| - 1] + [matchCounts[|matchCounts| - 1]];
      TotalAppend(matchCounts[..|matchCounts| - 1], matchCounts[|matchCounts| - 1]);
      rest + matchCounts[|matchCounts| - 1]
  }

  /** `calculateCyclomaticComplexity`: 1 plus the number of branching keywords, capped at 20. */
  function CyclomaticComplexity(matchCount: nat): (r: nat)
    ensures 1 <= r <= 20
    ensures matchCount < 20 ==> r == matchCount + 1
    ensures matchCount >= 20 ==> r == 20
  {
    MinInt(20, 1 + matchCount)
  }

  // ---- overall grade ----

  datatype Grade = APlus | A | AMinus | BPlus | B | BMinus | CPlus | C | CMinus | D | F

  const Grades: seq<Grade> := [APlus, A, AMinus, BPlus, B, BMinus, CPlus, C, CMinus, D, F]

  /** The base score of 85 less the deductions whose conditions hold. */
  function OverallScore(code: string, complexity: nat): int {
    85
      - (if |code| > 5000 then 10 else 0)
      - (if complexity > 15 then 15 else 0)
      - (if Contains(code, "eval(") then 20 else 0)
      - (if Contains(code, "innerHTML") then 10 else 0)
      - (if !Contains(code, "try") && Contains(code, "fetch") then 5 else 0)
  }

  /** The deductions total at most 60. */
  lemma OverallScoreRange(code: string, complexity: nat)
    ensures 25 <= OverallScore(code, complexity) <= 85
  {
  }

  /** Index into the grade table: `Math.floor((100 - score) / 8)` clamped to the table
      (Dafny's division by a positive divisor already rounds toward negative infinity). */
  function GradeIndex(score: int): (r: nat)
    ensures r < |Grades|
    ensures 100 - 8 * (r + 1) < score || r == |Grades| - 1
    ensures score <= 100 - 8 * r || r == 0
  {
    var raw := (100 - score) / 8;
    if raw < 0 then 0 else if raw > |Grades| - 1 then |Grades| - 1 else raw
  }

  /** Scores from 25 to 85 land strictly inside the table, and 85 gives the second grade. */
  lemma GradeIndexOfScore(score: int)
    requires 25 <= score <= 85
    ensures 1 <= GradeIndex(score) <= 9
    ensures score == 85 ==> GradeIndex(score) == 1
  {
  }

  /** `calculateOverallGrade`: the score starts at 85 and loses a fixed amount for each
      warning sign; `complexity` is `estimateComplexity(code)`. The grade is never A+ or
      F, and is A when nothing is deducted. */
  method CalculateOverallGrade(code: string, complexity: nat) returns (grade: Grade)
    ensures grade == Grades[GradeIndex(OverallScore(code, complexity))]
    ensures grade != APlus && grade != F
    ensures OverallScore(code, complexity) == 85 ==> grade == A
  {
    var score := 85;
    if |code| > 5000 {
      score := score - 10;
    }
    if complexity > 15 {
      score := score - 15;
    }
    if Contains(code, "eval(") {
      score := score - 20;
    }
    if Contains(code, "innerHTML") {
      score := score - 10;
    }
    if !Contains(code, "try") && Contains(code, "fetch") {
      score := score - 5;
    }
    assert score == OverallScore(code, complexity);
    OverallScoreRange(code, complexity);
    GradeIndexOfScore(score);
    grade := Grades[GradeIndex(score)];
  }

  // ---- issues ----

  datatype IssueType = Warning | Info
  datatype Severity = High | Medium | Low

  /** The three checks `findIssues` performs, in the order it performs them. */
  datatype Rule = VarDeclaration | LooseEquality | ConsoleLog

  datatype Issue = Issue(kind: IssueType, severity: Severity, line: nat, rule: Rule)

  function RuleRank(rule: Rule): nat {
    match rule
    case VarDeclaration => 0
    case LooseEquality => 1
    case ConsoleLog => 2
  }

  /** The text whose first occurrence locates the issue. */
  function Pattern(rule: Rule): string {
    match rule
    case VarDeclaration => "var "
    case LooseEquality => "=="
    case ConsoleLog => "console.log"
  }

  /** When a rule fires: loose equality only when `==` occurs and `===` never does. */
  predicate Fires(code: string, rule: Rule) {
    match rule
    case VarDeclaration => Contains(code, "var ")
    case LooseEquality => Contains(code, "==") && !Contains(code, "===")
    case ConsoleLog => Contains(code, "console.log")
  }

  /** The line of the pattern's first occurrence. */
  function LineOf(code: string, rule: Rule): nat {
    GetLineNumber(code, IndexOf(code, Pattern(rule)))
  }

  /** The issue a rule reports: console output is informational and low, the other two
      are medium warnings. */
  function IssueFor(code: string, rule: Rule): Issue {
    Issue(
      if rule == ConsoleLog then Info else Warning,
      if rule == ConsoleLog then Low else Medium,
      LineOf(code, rule),
      rule)
  }

  /** The issue of `rule` when it fires, nothing otherwise. */
  function IssueIf(code: string, rule: Rule): seq<Issue> {
    if Fires(code, rule) then [IssueFor(code, rule)] else []
  }

  /** The issues JavaScript code receives, one per firing rule in rule order. */
  function JavaScriptIssues(code: string): seq<Issue> {
    IssueIf(code, VarDeclaration) + IssueIf(code, LooseEquality) + IssueIf(code, ConsoleLog)
  }

  /** Every reported issue belongs to a rule that fires and is that rule's issue. */
  lemma JavaScriptIssuesSound(code: string)
    ensures |JavaScriptIssues(code)| <= 3
    ensures forall x :: x in JavaScriptIssues(code) ==> Fires(code, x.rule) && x == IssueFor(code, x.rule)
  {
    var a, b, c := IssueIf(code, VarDeclaration), IssueIf(code, LooseEquality), IssueIf(code, ConsoleLog);
    assert forall x :: x in a + b + c <==> x in a || x in b || x in c;
  }

  /** The issues follow the rule order, so no rule is reported twice. */
  lemma JavaScriptIssuesOrdered(code: string)
    ensures forall i, j :: 0 <= i < j < |JavaScriptIssues(code)| ==>
      RuleRank(JavaScriptIssues(code)[i].rule) < RuleRank(JavaScriptIssues(code)[j].rule)
  {
    var a, b, c := IssueIf(code, VarDeclaration), IssueIf(code, LooseEquality), IssueIf(code, ConsoleLog);
    assert forall i :: 0 <= i < |a| ==> RuleRank(a[i].rule) == 0;
    assert forall i :: 0 <= i < |b| ==> RuleRank(b[i].rule) == 1;
    assert forall i :: 0 <= i < |c| ==> RuleRank(c[i].rule) == 2;
  }

  /** Every rule that fires is reported. */
  lemma JavaScriptIssuesComplete(code: string)
    ensures forall rule :: Fires(code, rule) ==> IssueFor(code, rule) in JavaScriptIssues(code)
  {
    var a, b, c := IssueIf(code, VarDeclaration), IssueIf(code, LooseEquality), IssueIf(code, ConsoleLog);
    forall rule | Fires(code, rule) ensures IssueFor(code, rule) in a + b + c {
      match rule
      case VarDeclaration => assert IssueFor(code, rule) in a;
      case LooseEquality => assert IssueFor(code, rule) in b;
      case ConsoleLog => assert IssueFor(code, rule) in c;
    }
  }

  /** `findIssues`: nothing unless the language is JavaScript; otherwise one issue per
      rule that fires, in rule order, each on the line of the pattern's first occurrence. */
  method FindIssues(code: string, language: string) returns (issues: seq<Issue>)
    ensures issues == if language == "javascript" then JavaScriptIssues(code) else []
  {
    issues := [];
    if language == "javascript" {
      if Fires(code, VarDeclaration) {
        issues := issues + [Issue(Warning, Medium, LineOf(code, VarDeclaration), VarDeclaration)];
      }
      if Fires(code, LooseEquality) {
        issues := issues + [Issue(Warning, Medium, LineOf(code, LooseEquality), LooseEquality)];
      }
      if Fires(code, ConsoleLog) {
        issues := issues + [Issue(Info, Low, LineOf(code, ConsoleLog), ConsoleLog)];
      }
    }
  }

  // ---- duplicate lines ----

  /** Number of positions whose element equals an earlier one
      (`lines.filter((line, index) => lines.indexOf(line) !== index).length`). */
  function RepeatCount(lines: seq<string>): (r: nat)
    ensures r <= |lines|
  {
    if lines == [] then 0
    else
      var init := lines[..|lines| - 1];
      RepeatCount(init) + (if lines[|lines| - 1] in init then 1 else 0)
  }

  function Elements(lines: seq<string>): set<string> {
    set x | x in lines
  }

  /** Every line is either the first of its text or a repeat: the repeats number the
      lines less the distinct texts. */
  lemma {:induction false} RepeatCountDistinct(lines: seq<string>)
    ensures RepeatCount(lines) + |Elements(lines)| == |lines|
  {
    if lines != [] {
      var init, last := lines[..|lines| - 1], lines[|lines| - 1];
      RepeatCountDistinct(init);
      assert lines == init + [last];
      assert Elements(lines) == Elements(init) + {last};
    }
  }

  predicate IsLongLine(line: string) {
    |Trim(line)| > 10
  }

  function LongLines(code: string): seq<string> {
    Filter(Split(code, '\n'), IsLongLine)
  }

  /** `findDuplicateCode`: repeated lines among those longer than ten characters once
      trimmed, capped at 10. */
  function FindDuplicateCode(code: string): (r: nat)
    ensures r <= 10
    ensures r == MinInt(10, |LongLines(code)| - |Elements(LongLines(code))|)
  {
    RepeatCountDistinct(LongLines(code));
    MinInt(10, RepeatCount(LongLines(code)))
  }

  // ---- maintainability ----

  datatype Metrics = Metrics(complexity: real, duplicateCode: real, functionLength: real, naming: real)

  predicate UpToTen(x: real) {
    0.0 <= x <= 10.0
  }

  /** `metrics[key] || 5`: a zero metric counts as 5. */
  function OrFive(x: real): real {
    if x == 0.0 then 5.0 else x
  }

  /** `calculateMaintainabilityScore`: the weighted sum with weights 0.3, 0.2, 0.25 and
      0.25, which add up to one. */
  function MaintainabilityScore(m: Metrics): (r: real)
    ensures m.complexity >= 0.0 && m.duplicateCode >= 0.0 && m.functionLength >= 0.0 && m.naming >= 0.0 ==> r > 0.0
    ensures UpToTen(m.complexity) && UpToTen(m.duplicateCode) && UpToTen(m.functionLength) && UpToTen(m.naming) ==> r <= 10.0
    ensures MinReal(MinReal(OrFive(m.complexity), OrFive(m.duplicateCode)), MinReal(OrFive(m.functionLength), OrFive(m.naming))) <= r
    ensures r <= MaxReal(MaxReal(OrFive(m.complexity), OrFive(m.duplicateCode)), MaxReal(OrFive(m.functionLength), OrFive(m.naming)))
  {
    0.0
      + OrFive(m.complexity) * 0.3
      + OrFive(m.duplicateCode) * 0.2
      + OrFive(m.functionLength) * 0.25
      + OrFive(m.naming) * 0.25
  }

  /** Each weight is the effect of its metric: changing one non-zero metric by `d`,
      keeping it non-zero, changes the score by its weight times `d`. */
  lemma MaintainabilityWeights(m: Metrics, d: real)
    ensures m.complexity != 0.0 && m.complexity + d != 0.0 ==>
      MaintainabilityScore(m.(complexity := m.complexity + d)) == MaintainabilityScore(m) + 0.3 * d
    ensures m.duplicateCode != 0.0 && m.duplicateCode + d != 0.0 ==>
      MaintainabilityScore(m.(duplicateCode := m.duplicateCode + d)) == MaintainabilityScore(m) + 0.2 * d
    ensures m.functionLength != 0.0 && m.functionLength + d != 0.0 ==>
      MaintainabilityScore(m.(functionLength := m.functionLength + d)) == MaintainabilityScore(m) + 0.25 * d
    ensures m.naming != 0.0 && m.naming + d != 0.0 ==>
      MaintainabilityScore(m.(naming := m.naming + d)) == MaintainabilityScore(m) + 0.25 * d
  {
  }

  /** The weights add up to one: equal non-zero metrics score their common value, and
      all-zero metrics score 5. */
  lemma MaintainabilityOfEqualMetrics(v: real)
    ensures v != 0.0 ==> MaintainabilityScore(Metrics(v, v, v, v)) == v
    ensures MaintainabilityScore(Metrics(0.0, 0.0, 0.0, 0.0)) == 5.0
  {
  }

  datatype Suggestion = BreakDownComplexFunctions | ExtractDuplicateCode | CombineSmallFunctions | ImproveNaming

  function SuggestionRank(s: Suggestion): nat {
    match s
    case BreakDownComplexFunctions => 0
    case ExtractDuplicateCode => 1
    case CombineSmallFunctions => 2
    case ImproveNaming => 3
  }

  /** The threshold of each suggestion. */
  predicate Suggested(m: Metrics, s: Suggestion) {
    match s
    case BreakDownComplexFunctions => m.complexity > 7.0
    case ExtractDuplicateCode => m.duplicateCode > 3.0
    case CombineSmallFunctions => m.functionLength < 7.0
    case ImproveNaming => m.naming < 7.0
  }

  /** `getMaintainabilitySuggestions`: each suggestion exactly when its threshold holds,
      in a fixed order. */
  method GetMaintainabilitySuggestions(m: Metrics) returns (suggestions: seq<Suggestion>)
    ensures forall s :: s in suggestions <==> Suggested(m, s)
    ensures forall i, j :: 0 <= i < j < |suggestions| ==> SuggestionRank(suggestions[i]) < SuggestionRank(suggestions[j])
    ensures |suggestions| <= 4
  {
    suggestions := [];
    if m.complexity > 7.0 {
      suggestions := suggestions + [BreakDownComplexFunctions];
    }
    if m.duplicateCode > 3.0 {
      suggestions := suggestions + [ExtractDuplicateCode];
    }
    if m.functionLength < 7.0 {
      suggestions := suggestions + [CombineSmallFunctions];
    }
    if m.naming < 7.0 {
      suggestions := suggestions + [ImproveNaming];
    }
  }

  datatype Maintainability = Maintainability(score: real, metrics: Metrics, suggestions: seq<Suggestion>)

  /** `assessMaintainability`: the metrics of `code` (the keyword match count, the
      function-length and the naming scores come from regular-expression scans and are
      parameters), their score and suggestions. */
  method AssessMaintainability(code: string, branchMatches: nat, functionLength: real, naming: real)
    returns (result: Maintainability)
    ensures result.metrics == Metrics(CyclomaticComplexity(branchMatches) as real, FindDuplicateCode(code) as real, functionLength, naming)
    ensures result.score == MaintainabilityScore(result.metrics)
    ensures forall s :: s in result.suggestions <==> Suggested(result.metrics, s)
  {
    var metrics := Metrics(CyclomaticComplexity(branchMatches) as real, FindDuplicateCode(code) as real, functionLength, naming);
    var suggestions := GetMaintainabilitySuggestions(metrics);
    result := Maintainability(MaintainabilityScore(metrics), metrics, suggestions);
  }

  // ---- security and performance tables ----

  const VulnerabilityTypes: seq<string> := ["xss", "sqlInjection", "hardcodedSecrets", "unsafeEval", "insecureRandom"]

  /** `getVulnerabilitySeverity`, with its default of medium. */
  function VulnerabilitySeverity(kind: string): (r: Severity)
    ensures r == High <==> kind == "xss" || kind == "sqlInjection" || kind == "unsafeEval"
    ensures r == Low <==> kind == "insecureRandom"
  {
    if kind == "xss" || kind == "sqlInjection" || kind == "unsafeEval" then High
    else if kind == "hardcodedSecrets" then Medium
    else if kind == "insecureRandom" then Low
    else Medium
  }

  /** `getVulnerabilityDescription`, with its default for unknown types. */
  function VulnerabilityDescription(kind: string): (r: string)
    ensures kind !in VulnerabilityTypes ==> r == "Security issue detected"
  {
    if kind == "xss" then "Potential XSS vulnerability detected"
    else if kind == "sqlInjection" then "SQL injection vulnerability found"
    else if kind == "hardcodedSecrets" then "Hardcoded credentials detected"
    else if kind == "unsafeEval" then "Unsafe eval() usage found"
    else if kind == "insecureRandom" then "Insecure random number generation"
    else "Security issue detected"
  }

  /** `getPerformanceImpact`, with its default of low. */
  function PerformanceImpact(kind: string): (r: Severity)
    ensures r == High <==> kind == "inefficientLoop" || kind == "memoryLeak"
    ensures r == Medium <==> kind == "unnecessaryRerender" || kind == "inefficientQuery"
  {
    if kind == "inefficientLoop" || kind == "memoryLeak" then High
    else if kind == "unnecessaryRerender" || kind == "inefficientQuery" then Medium
    else Low
  }

  /** The security score: 10 less 1.5 per vulnerability found, never below 1. */
  function SecurityScore(vulnerabilities: nat): (r: real)
    ensures 1.0 <= r <= 10.0
    ensures r == 10.0 <==> vulnerabilities == 0
    ensures vulnerabilities >= 6 ==> r == 1.0
    ensures vulnerabilities <= 6 ==> r == 10.0 - 1.5 * (vulnerabilities as real)
  {
    MaxReal(1.0, 10.0 - (vulnerabilities as real) * 1.5)
  }

  /** The performance score: 10 less 0.8 per issue found, never below 1. */
  function PerformanceScore(issues: nat): (r: real)
    ensures 1.0 <= r <= 10.0
    ensures r == 10.0 <==> issues == 0
    ensures issues <= 11 ==> r == 10.0 - 0.8 * (issues as real)
    ensures issues >= 12 ==> r == 1.0
  {
    MaxReal(1.0, 10.0 - (issues as real) * 0.8)
  }

  /** More findings never raise either score. */
  lemma ScoresAntitone(m: nat, n: nat)
    requires m <= n
    ensures SecurityScore(n) <= SecurityScore(m)
    ensures PerformanceScore(n) <= PerformanceScore(m)
  {
  }
}
