/**
 * The two report checks the agent runs on its own draft: a structural
 * validator (required keywords, length, numbers, recommendations) and a
 * content scorer (six weighted checks, a 0-100 score and a letter grade).
 */
module ValidatorTools {
  import opened Text
  import opened Sequences

  /** Keywords every report must mention, in the order they are reported missing. */
  const RequiredSections: seq<string> :=
    ["jira", "sprint", "velocity", "zephyr", "test", "incident", "problem", "summary"]

  /** The validator's error and warning messages. */
  datatype Diagnostic = TooShort | TooLong | NoMetrics | NoRecommendations
  {
    function Message(): string
    {
      match this
      case TooShort => "Report is too short (less than 100 words)"
      case TooLong => "Report is very long (over 2000 words) - consider condensing"
      case NoMetrics => "Report should include specific metrics and numbers"
      case NoRecommendations => "Report should include actionable recommendations"
    }
  }

  const MinWords := 100
  const MaxWords := 2000

  /** The keys that do not occur in `text`, in their order in `keys`. */
  function Missing(keys: seq<string>, text: string): seq<string>
  {
    if keys == [] then []
    else
      var before := Missing(keys[..|keys| - 1], text);
      if Contains(text, keys[|keys| - 1]) then before else before + [keys[|keys| - 1]]
  }

  /** The missing keys are exactly the keys absent from `text`, kept in their order. */
  lemma {:induction false} MissingExact(keys: seq<string>, text: string)
    ensures forall k :: k in Missing(keys, text) <==> k in keys && !Contains(text, k)
    ensures IsSubsequence(Missing(keys, text), keys)
  {
    if keys != [] {
      var init, last := keys[..|keys| - 1], keys[|keys| - 1];
      MissingExact(init, text);
      assert keys == init + [last];
      var r := Missing(keys, text);
      if !Contains(text, last) {
        assert r[..|r| - 1] == Missing(init, text);
      }
    }
  }

  /** No key is missing exactly when every key occurs. */
  lemma NoneMissing(keys: seq<string>, text: string)
    ensures Missing(keys, text) == [] <==> forall k :: k in keys ==> Contains(text, k)
  {
    MissingExact(keys, text);
    if Missing(keys, text) != [] {
      assert Missing(keys, text)[0] in Missing(keys, text);
    }
  }

  /** A one-message list when `cond` holds, otherwise the empty list. */
  function When(cond: bool, d: Diagnostic): seq<Diagnostic>
  {
    if cond then [d] else []
  }

  datatype FormatReport = FormatReport(
    valid: bool,
    missingSections: seq<string>,
    errors: seq<Diagnostic>,
    warnings: seq<Diagnostic>,
    wordCount: nat)

  /** "recommend" or "suggest" occurs in the lowercased text. */
  predicate Recommends(lower: string)
  {
    Contains(lower, "recommend") || Contains(lower, "suggest")
  }

  /** The errors the validator reports for a text of `wordCount` words. */
  function FormatErrors(wordCount: nat): seq<Diagnostic>
  {
    When(wordCount < MinWords, TooShort)
  }

  /**
   * The warnings the validator reports, in the order it checks them, for a
   * text of `wordCount` words that does or does not contain a digit and a
   * recommendation keyword.
   */
  function FormatWarnings(wordCount: nat, hasDigit: bool, recommends: bool): seq<Diagnostic>
  {
    When(wordCount > MaxWords, TooLong) + When(!hasDigit, NoMetrics) + When(!recommends, NoRecommendations)
  }

  /**
   * The length error and the length warning never occur together, and each
   * warning is raised exactly when its condition holds.
   */
  lemma DiagnosticsExact(wordCount: nat, hasDigit: bool, recommends: bool)
    ensures var warnings := FormatWarnings(wordCount, hasDigit, recommends);
      && (TooShort in FormatErrors(wordCount) <==> wordCount < MinWords)
      && (TooLong in warnings <==> wordCount > MaxWords)
      && (NoMetrics in warnings <==> !hasDigit)
      && (NoRecommendations in warnings <==> !recommends)
      && !(TooShort in FormatErrors(wordCount) && TooLong in warnings)
  {
  }

  /** The section loop of the validator: the keys absent from `text`, in order. */
  method MissingSections(keys: seq<string>, text: string) returns (missing: seq<string>)
    ensures missing == Missing(keys, text)
  {
    missing := [];
    for i := 0 to |keys|
      invariant missing == Missing(keys[..i], text)
    {
      assert keys[..i + 1][..i] == keys[..i];
      if !Contains(text, keys[i]) {
        missing := missing + [keys[i]];
      }
    }
    assert keys[..|keys|] == keys;
  }

  /**
   * The length, data and recommendation checks of the validator, in the
   * order it makes them, for a text of `wordCount` words.
   */
  method Diagnose(wordCount: nat, hasDigit: bool, recommends: bool) returns (errors: seq<Diagnostic>, warnings: seq<Diagnostic>)
    ensures errors == FormatErrors(wordCount)
    ensures warnings == FormatWarnings(wordCount, hasDigit, recommends)
  {
    errors := [];
    warnings := [];
    if wordCount < MinWords {
      errors := errors + [TooShort];
    } else if wordCount > MaxWords {
      warnings := warnings + [TooLong];
    }
    ghost var lengthWarnings := warnings;
    assert lengthWarnings == When(wordCount > MaxWords, TooLong);

    if !hasDigit {
      warnings := warnings + [NoMetrics];
    }
    ghost var dataWarnings := warnings;
    assert dataWarnings == lengthWarnings + When(!hasDigit, NoMetrics);

    if !recommends {
      warnings := warnings + [NoRecommendations];
    }
    assert warnings == dataWarnings + When(!recommends, NoRecommendations);
  }

  /**
   * The format validator: the required sections missing from the lowercased
   * text, the word count, the length error, and the length, data and
   * recommendation warnings; valid exactly when long enough with no section
   * missing.
   */
  method ValidateReportFormat(reportText: string) returns (r: FormatReport)
    ensures r.missingSections == Missing(RequiredSections, Lower(reportText))
    ensures r.wordCount == |Words(reportText)|
    ensures r.errors == FormatErrors(r.wordCount)
    ensures r.warnings == FormatWarnings(r.wordCount, HasDigit(reportText), Recommends(Lower(reportText)))
    ensures r.valid <==> r.wordCount >= MinWords && r.missingSections == []
  {
    var reportLower := Lower(reportText);
    var missing := MissingSections(RequiredSections, reportLower);
    var wordCount := |Words(reportText)|;
    var errors, warnings := Diagnose(wordCount, HasDigit(reportText), Recommends(reportLower));
    var valid := |errors| == 0 && |missing| == 0;
    r := FormatReport(valid, missing, errors, warnings, wordCount);
  }

  /** A report whose text never says "summary" is never valid. */
  lemma SummaryRequired(reportText: string)
    requires !Contains(Lower(reportText), "summary")
    ensures "summary" in Missing(RequiredSections, Lower(reportText))
  {
    MissingExact(RequiredSections, Lower(reportText));
  }

  // ----- content quality -----

  const ProblemKeywords: seq<string> := ["problem", "issue", "concern", "decline", "failure"]
  const RecommendationKeywords: seq<string> := ["recommend", "suggest", "should", "action"]
  const SourceKeywords: seq<string> := ["jira", "sprint", "zephyr", "test", "incident"]

  /** How many of `keys` occur in `text`: `sum([k in text for k in keys])`. */
  function CountContained(keys: seq<string>, text: string): (n: nat)
    ensures n <= |keys|
  {
    if keys == [] then 0
    else CountContained(keys[..|keys| - 1], text) + (if Contains(text, keys[|keys| - 1]) then 1 else 0)
  }

  /** The six content checks, in the order the scorer runs them. */
  datatype QualityCheck =
    | ExecutiveSummary
    | SpecificMetrics
    | ProblemIdentification
    | ActionableRecommendations
    | SourceCoverage
    | Structure
  {
    /** Points lost when the check fails. */
    function Penalty(): nat
    {
      match this
      case ExecutiveSummary => 20
      case SpecificMetrics => 15
      case ProblemIdentification => 15
      case ActionableRecommendations => 20
      case SourceCoverage => 15
      case Structure => 15
    }

    function Strength(): string
    {
      match this
      case ExecutiveSummary => "Includes executive summary"
      case SpecificMetrics => "Includes specific metrics and data points"
      case ProblemIdentification => "Identifies specific problems"
      case ActionableRecommendations => "Provides actionable recommendations"
      case SourceCoverage => "Covers multiple data sources"
      case Structure => "Well-structured with clear sections"
    }

    function Improvement(): string
    {
      match this
      case ExecutiveSummary => "Missing executive summary"
      case SpecificMetrics => "Lacks specific metrics"
      case ProblemIdentification => "Doesn't clearly identify problems"
      case ActionableRecommendations => "Lacks actionable recommendations"
      case SourceCoverage => "Limited data source coverage"
      case Structure => "Poor structure and organization"
    }

    function Advice(): string
    {
      match this
      case ExecutiveSummary => "Add an executive summary at the beginning"
      case SpecificMetrics => "Include specific percentages, counts, and measurements"
      case ProblemIdentification => "Explicitly call out problem areas and quality concerns"
      case ActionableRecommendations => "Add specific recommendations for addressing identified issues"
      case SourceCoverage => "Ensure analysis covers Jira, Zephyr, and Incident data"
      case Structure => "Organize report into clear sections"
    }
  }

  /**
   * An entry of the scorer's three lists: the strength, improvement area or
   * recommendation that a check contributes. `Text()` is the message the
   * report shows.
   */
  datatype Remark = StrengthOf(check: QualityCheck) | ImprovementOf(check: QualityCheck) | AdviceOf(check: QualityCheck)
  {
    function Text(): string
    {
      match this
      case StrengthOf(c) => c.Strength()
      case ImprovementOf(c) => c.Improvement()
      case AdviceOf(c) => c.Advice()
    }
  }

  const QualityChecks: seq<QualityCheck> :=
    [ExecutiveSummary, SpecificMetrics, ProblemIdentification, ActionableRecommendations, SourceCoverage, Structure]

  /** Whether the lower-cased report mentions a summary. */
  predicate MentionsSummary(reportLower: string)
  {
    Contains(reportLower, "executive summary") || Contains(reportLower, "summary")
  }

  /** Whether some whitespace-separated word consists of digits only. */
  predicate HasNumberWord(words: seq<string>)
  {
    exists k :: 0 <= k < |words| && AllDigits(words[k])
  }

  /** What the scorer has collected so far. */
  datatype Assessment = Assessment(
    strengths: seq<Remark>,
    improvementAreas: seq<Remark>,
    recommendations: seq<Remark>,
    penalty: nat)

  /** The effect of one check on the collected assessment. */
  function Record(a: Assessment, c: QualityCheck, passed: bool): Assessment
  {
    if passed then a.(strengths := a.strengths + [StrengthOf(c)])
    else Assessment(a.strengths, a.improvementAreas + [ImprovementOf(c)],
                    a.recommendations + [AdviceOf(c)], a.penalty + c.Penalty())
  }

  /** The assessment after running the first `k` checks in order, check `checks[i]` having outcome `outcomes[i]`. */
  function Assess(checks: seq<QualityCheck>, outcomes: seq<bool>, k: nat): Assessment
    requires k <= |checks| == |outcomes|
  {
    if k == 0 then Assessment([], [], [], 0)
    else Record(Assess(checks, outcomes, k - 1), checks[k - 1], outcomes[k - 1])
  }

  /** The outcome of each of the six checks on `reportText`, in order. */
  function Outcomes(reportText: string): (r: seq<bool>)
    ensures |r| == |QualityChecks|
  {
    var reportLower := Lower(reportText);
    [MentionsSummary(reportLower),
     Contains(reportText, "%") && HasNumberWord(Words(reportText)),
     ContainsAny(reportLower, ProblemKeywords),
     ContainsAny(reportLower, RecommendationKeywords),
     CountContained(SourceKeywords, reportLower) >= 3,
     CountOccurrences(reportText, "\n\n") >= 2]
  }

  /** Sum of the penalties of the first `k` checks; every check costs at least 15 points. */
  function TotalPenalty(checks: seq<QualityCheck>, k: nat): (p: nat)
    requires k <= |checks|
    ensures p >= 15 * k
  {
    if k == 0 then 0 else TotalPenalty(checks, k - 1) + checks[k - 1].Penalty()
  }

  /** Each check run yields either one strength or one improvement area with its recommendation. */
  lemma {:induction false} AssessShape(checks: seq<QualityCheck>, outcomes: seq<bool>, k: nat)
    requires k <= |checks| == |outcomes|
    ensures var a := Assess(checks, outcomes, k);
      && |a.strengths| + |a.improvementAreas| == k
      && |a.improvementAreas| == |a.recommendations|
  {
    if k > 0 {
      AssessShape(checks, outcomes, k - 1);
    }
  }

  /** The penalty is at most the sum of the penalties of the checks run. */
  lemma {:induction false} AssessPenaltyBound(checks: seq<QualityCheck>, outcomes: seq<bool>, k: nat)
    requires k <= |checks| == |outcomes|
    ensures Assess(checks, outcomes, k).penalty <= TotalPenalty(checks, k)
  {
    if k > 0 {
      AssessPenaltyBound(checks, outcomes, k - 1);
    }
  }

  /** The penalty is zero exactly when every check run passed. */
  lemma {:induction false} AssessNoPenalty(checks: seq<QualityCheck>, outcomes: seq<bool>, k: nat)
    requires k <= |checks| == |outcomes|
    ensures Assess(checks, outcomes, k).penalty == 0 <==> forall i :: 0 <= i < k ==> outcomes[i]
  {
    if k > 0 {
      AssessNoPenalty(checks, outcomes, k - 1);
    }
  }

  /**
   * A check's strength is listed exactly when one of its runs passed, and its
   * improvement area and its recommendation exactly when one of its runs failed.
   */
  lemma {:induction false} AssessRecords(checks: seq<QualityCheck>, outcomes: seq<bool>, k: nat, c: QualityCheck)
    requires k <= |checks| == |outcomes|
    ensures StrengthOf(c) in Assess(checks, outcomes, k).strengths <==>
              exists i :: 0 <= i < k && checks[i] == c && outcomes[i]
    ensures ImprovementOf(c) in Assess(checks, outcomes, k).improvementAreas <==>
              exists i :: 0 <= i < k && checks[i] == c && !outcomes[i]
    ensures AdviceOf(c) in Assess(checks, outcomes, k).recommendations <==>
              exists i :: 0 <= i < k && checks[i] == c && !outcomes[i]
  {
    if k > 0 {
      AssessRecords(checks, outcomes, k - 1, c);
      if checks[k - 1] == c {
        if outcomes[k - 1] {
          assert exists i :: 0 <= i < k && checks[i] == c && outcomes[i];
        } else {
          assert exists i :: 0 <= i < k && checks[i] == c && !outcomes[i];
        }
      }
    }
  }

  /** The six penalties add up to exactly 100. */
  lemma PenaltiesTotal100()
    ensures TotalPenalty(QualityChecks, |QualityChecks|) == 100
  {
    assert TotalPenalty(QualityChecks, 2) == 35;
    assert TotalPenalty(QualityChecks, 4) == 70;
  }

  /** A report never loses more than 100 points, so the scorer's flooring at 0 never changes the score. */
  lemma ScoreNeverFloored(reportText: string)
    ensures Assess(QualityChecks, Outcomes(reportText), |QualityChecks|).penalty <= 100
  {
    AssessPenaltyBound(QualityChecks, Outcomes(reportText), |QualityChecks|);
    PenaltiesTotal100();
  }

  datatype Grade = A | B | C | D | F
  {
    /** Position on the scale, F lowest. */
    function Rank(): nat
    {
      match this
      case F => 0
      case D => 1
      case C => 2
      case B => 3
      case A => 4
    }
  }

  function ScoreToGrade(score: int): (g: Grade)
    ensures g == A <==> score >= 90
    ensures g == B <==> 80 <= score < 90
    ensures g == C <==> 70 <= score < 80
    ensures g == D <==> 60 <= score < 70
    ensures g == F <==> score < 60
  {
    if score >= 90 then A
    else if score >= 80 then B
    else if score >= 70 then C
    else if score >= 60 then D
    else F
  }

  /** A higher score never earns a lower grade. */
  lemma GradeMonotone(s1: int, s2: int)
    requires s1 <= s2
    ensures ScoreToGrade(s1).Rank() <= ScoreToGrade(s2).Rank()
  {
  }

  /** Passing the quality check is the same as earning A, B or C. */
  lemma PassingIsAtLeastC(score: int)
    ensures score >= 70 <==> ScoreToGrade(score).Rank() >= C.Rank()
  {
  }

  datatype QualityResult = QualityResult(
    qualityScore: int,
    grade: Grade,
    strengths: seq<Remark>,
    improvementAreas: seq<Remark>,
    recommendations: seq<Remark>,
    passesQualityCheck: bool)

  method CheckReportQuality(reportText: string) returns (r: QualityResult)
    ensures var a := Assess(QualityChecks, Outcomes(reportText), |QualityChecks|);
      && r.strengths == a.strengths
      && r.improvementAreas == a.improvementAreas
      && r.recommendations == a.recommendations
      && r.qualityScore == (if 100 - a.penalty < 0 then 0 else 100 - a.penalty)
    ensures 0 <= r.qualityScore <= 100
    ensures |r.strengths| + |r.improvementAreas| == |QualityChecks|
    ensures |r.improvementAreas| == |r.recommendations|
    ensures r.qualityScore == 100 <==> forall i :: 0 <= i < |QualityChecks| ==> Outcomes(reportText)[i]
    ensures r.grade == ScoreToGrade(r.qualityScore)
    ensures r.passesQualityCheck <==> r.qualityScore >= 70
  {
    var outcomes := Outcomes(reportText);
    r := ScoreOutcomes(outcomes);
  }

  /**
   * The scoring half of the checker: starting from 100, each check of the
   * table is applied in order to its outcome.
   */
  method ScoreOutcomes(outcomes: seq<bool>) returns (r: QualityResult)
    requires |outcomes| == |QualityChecks|
    ensures var a := Assess(QualityChecks, outcomes, |QualityChecks|);
      && r.strengths == a.strengths
      && r.improvementAreas == a.improvementAreas
      && r.recommendations == a.recommendations
      && r.qualityScore == (if 100 - a.penalty < 0 then 0 else 100 - a.penalty)
    ensures 0 <= r.qualityScore <= 100
    ensures |r.strengths| + |r.improvementAreas| == |QualityChecks|
    ensures |r.improvementAreas| == |r.recommendations|
    ensures r.qualityScore == 100 <==> forall i :: 0 <= i < |QualityChecks| ==> outcomes[i]
    ensures r.grade == ScoreToGrade(r.qualityScore)
    ensures r.passesQualityCheck <==> r.qualityScore >= 70
  {
    var strengths: seq<Remark> := [];
    var improvementAreas: seq<Remark> := [];
    var recommendations: seq<Remark> := [];
    var score := 100;
    for k := 0 to |QualityChecks|
      invariant score <= 100
      invariant Assessment(strengths, improvementAreas, recommendations, 100 - score) == Assess(QualityChecks, outcomes, k)
    {
      var c := QualityChecks[k];
      if outcomes[k] {
        strengths := strengths + [StrengthOf(c)];
      } else {
        improvementAreas := improvementAreas + [ImprovementOf(c)];
        recommendations := recommendations + [AdviceOf(c)];
        score := score - c.Penalty();
      }
    }
    AssessShape(QualityChecks, outcomes, |QualityChecks|);
    AssessNoPenalty(QualityChecks, outcomes, |QualityChecks|);
    score := if score < 0 then 0 else score;

    r := QualityResult(score, ScoreToGrade(score), strengths, improvementAreas, recommendations, score >= 70);
  }

  /**
   * Over the check table, a check's strength is listed exactly when its
   * outcome is a pass, and its improvement area and recommendation exactly
   * when it is a fail.
   */
  lemma CheckRecords(outcomes: seq<bool>, i: nat)
    requires |outcomes| == |QualityChecks| && i < |QualityChecks|
    ensures var a := Assess(QualityChecks, outcomes, |QualityChecks|);
      var c := QualityChecks[i];
      && (StrengthOf(c) in a.strengths <==> outcomes[i])
      && (ImprovementOf(c) in a.improvementAreas <==> !outcomes[i])
      && (AdviceOf(c) in a.recommendations <==> !outcomes[i])
  {
    AssessRecords(QualityChecks, outcomes, |QualityChecks|, QualityChecks[i]);
  }
}
