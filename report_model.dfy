/**
 * The quality report: problem areas with a severity and recommendations,
 * the critical ones among them, and the report's Markdown rendering. The
 * generation time is carried already formatted as `YYYY-MM-DD HH:MM:SS`.
 */
module ReportModel {
  import opened Sequences
  import opened Numeric
  import opened Text
  import opened IncidentModel

  datatype ProblemArea = ProblemArea(
    category: string,
    description: string,
    severity: Severity,
    recommendations: seq<string>)
  {
    predicate IsCritical()
    {
      severity == Critical
    }
  }

  datatype QualityReport = QualityReport(
    generatedAt: string,
    teamName: string,
    jiraSummary: string,
    zephyrSummary: string,
    incidentSummary: string,
    problemAreas: seq<ProblemArea>,
    executiveSummary: string)
  {
    /** The critical problem areas, in report order. */
    function CriticalProblems(): seq<ProblemArea>
    {
      Filter(problemAreas, (p: ProblemArea) => p.IsCritical())
    }

    predicate HasCriticalIssues()
    {
      |CriticalProblems()| > 0
    }
  }

  /**
   * The critical problems are exactly the critical problem areas, in their
   * report order, and the report has critical issues exactly when some
   * problem area is critical.
   */
  lemma CriticalProblemsExact(r: QualityReport)
    ensures forall p :: p in r.CriticalProblems() <==> p in r.problemAreas && p.severity == Critical
    ensures IsSubsequence(r.CriticalProblems(), r.problemAreas)
    ensures r.HasCriticalIssues() <==> exists i :: 0 <= i < |r.problemAreas| && r.problemAreas[i].severity == Critical
  {
    var isCritical := (p: ProblemArea) => p.IsCritical();
    FilterExact(r.problemAreas, isCritical);
    FilterOrdered(r.problemAreas, isCritical);
    if r.HasCriticalIssues() {
      assert r.CriticalProblems()[0] in r.problemAreas;
    } else {
      forall i | 0 <= i < |r.problemAreas|
        ensures r.problemAreas[i].severity != Critical
      {
        assert r.problemAreas[i] !in r.CriticalProblems();
      }
    }
  }

  // ---------------------------------------------------------------------------
  // Markdown rendering
  // ---------------------------------------------------------------------------

  /** The title, the generation time, and the executive summary. */
  function HeaderLines(r: QualityReport): (ls: seq<string>)
    ensures |ls| == 7
  {
    ["# Quality Report: " + r.teamName,
     "*Generated: " + r.generatedAt + "*",
     "",
     "## Executive Summary",
     r.executiveSummary,
     "",
     "## Problem Areas"]
  }

  /** The heading of the `n`-th problem area: its number, title-cased category and upper-cased severity. */
  function Heading(n: nat, p: ProblemArea): string
  {
    "### " + IntToString(n) + ". " + Title(p.category) + " - " + Upper(p.severity.Name())
  }

  /** One `- rec` line per recommendation, in order. */
  function BulletLines(recs: seq<string>): (ls: seq<string>)
    ensures |ls| == |recs|
  {
    if recs == [] then [] else BulletLines(recs[..|recs| - 1]) + ["- " + recs[|recs| - 1]]
  }

  /** The `i`-th bullet line is the `i`-th recommendation after "- ". */
  lemma {:induction false} BulletLinesEach(recs: seq<string>)
    ensures forall i :: 0 <= i < |recs| ==> BulletLines(recs)[i] == "- " + recs[i]
  {
    if recs != [] {
      BulletLinesEach(recs[..|recs| - 1]);
    }
  }

  /** The lines of the `n`-th problem area before its recommendations. */
  function ProblemIntro(n: nat, p: ProblemArea): (ls: seq<string>)
    ensures |ls| == 4 && ls[0] == Heading(n, p)
  {
    [Heading(n, p), p.description, "", "**Recommendations:**"]
  }

  /** The block of the `n`-th problem area. */
  function ProblemLines(n: nat, p: ProblemArea): (ls: seq<string>)
    ensures |ls| == 5 + |p.recommendations|
  {
    ProblemIntro(n, p) + BulletLines(p.recommendations) + [""]
  }

  /** The blocks of all problem areas, numbered from 1 in report order. */
  function ProblemsLines(ps: seq<ProblemArea>): seq<string>
  {
    if ps == [] then [] else ProblemsLines(ps[..|ps| - 1]) + ProblemLines(|ps|, ps[|ps| - 1])
  }

  /** The detailed analysis: the delivery, test-quality and incident summaries, in that order. */
  function FooterLines(r: QualityReport): (ls: seq<string>)
    ensures |ls| == 10
  {
    ["## Detailed Analysis",
     "",
     "### Jira Metrics",
     r.jiraSummary,
     "",
     "### Test Quality (Zephyr)",
     r.zephyrSummary,
     "",
     "### Incidents",
     r.incidentSummary]
  }

  /** The lines of the report before they are joined. */
  function ReportLines(r: QualityReport): seq<string>
  {
    HeaderLines(r) + ProblemsLines(r.problemAreas) + FooterLines(r)
  }

  /** Appends one `- rec` line per recommendation, in order. */
  method AppendBullets(lines0: seq<string>, recs: seq<string>) returns (lines: seq<string>)
    ensures lines == lines0 + BulletLines(recs)
  {
    lines := lines0;
    for k := 0 to |recs|
      invariant lines == lines0 + BulletLines(recs[..k])
    {
      assert recs[..k + 1][..k] == recs[..k];
      lines := lines + ["- " + recs[k]];
    }
    assert recs[..|recs|] == recs;
  }

  /**
   * Renders the report as Markdown: the header, one block per problem area
   * with one line per recommendation, then the detailed analysis, joined
   * with newlines.
   */
  method ToMarkdown(r: QualityReport) returns (md: string)
    ensures md == JoinLines(ReportLines(r))
  {
    var lines := HeaderLines(r);
    for i := 0 to |r.problemAreas|
      invariant lines == HeaderLines(r) + ProblemsLines(r.problemAreas[..i])
    {
      var problem := r.problemAreas[i];
      ghost var before := lines;
      lines := lines + ProblemIntro(i + 1, problem);
      lines := AppendBullets(lines, problem.recommendations);
      lines := lines + [""];
      Regroup(before, ProblemIntro(i + 1, problem), BulletLines(problem.recommendations), [""]);
      assert r.problemAreas[..i + 1][..i] == r.problemAreas[..i];
      Regroup(HeaderLines(r), ProblemsLines(r.problemAreas[..i]), ProblemLines(i + 1, problem), []);
    }
    assert r.problemAreas[..|r.problemAreas|] == r.problemAreas;
    lines := lines + FooterLines(r);
    md := JoinLines(lines);
  }

  /** The total size of the problem-area blocks: five lines each plus one per recommendation. */
  function BlockSize(ps: seq<ProblemArea>): nat
  {
    if ps == [] then 0 else BlockSize(ps[..|ps| - 1]) + 5 + |ps[|ps| - 1].recommendations|
  }

  lemma {:induction false} ProblemsLinesLength(ps: seq<ProblemArea>)
    ensures |ProblemsLines(ps)| == BlockSize(ps)
  {
    if ps != [] {
      ProblemsLinesLength(ps[..|ps| - 1]);
    }
  }

  /**
   * The report has 17 fixed lines plus, per problem area, five lines and one
   * per recommendation; the first line names the team and the last ten are
   * the detailed analysis.
   */
  lemma ReportLinesShape(r: QualityReport)
    ensures |ReportLines(r)| == 17 + BlockSize(r.problemAreas)
    ensures ReportLines(r)[0] == "# Quality Report: " + r.teamName
    ensures ReportLines(r)[..7] == HeaderLines(r)
    ensures ReportLines(r)[|ReportLines(r)| - 10..] == FooterLines(r)
  {
    ProblemsLinesLength(r.problemAreas);
  }

  /** The blocks of a prefix of the problem areas are a prefix of the blocks of all of them. */
  lemma {:induction false} ProblemsLinesPrefix(ps: seq<ProblemArea>, k: nat)
    requires k <= |ps|
    ensures |ProblemsLines(ps[..k])| <= |ProblemsLines(ps)|
    ensures ProblemsLines(ps)[..|ProblemsLines(ps[..k])|] == ProblemsLines(ps[..k])
    decreases |ps| - k
  {
    if k < |ps| {
      var shorter := ps[..|ps| - 1];
      assert shorter[..k] == ps[..k];
      ProblemsLinesPrefix(shorter, k);
    } else {
      assert ps[..k] == ps;
    }
  }

  /** A problem block: heading, description, a blank line, the label, one bullet per recommendation, a blank line. */
  lemma ProblemLinesContent(n: nat, p: ProblemArea)
    ensures var ls := ProblemLines(n, p);
      && ls[0] == Heading(n, p) && ls[1] == p.description && ls[2] == "" && ls[3] == "**Recommendations:**"
      && (forall k :: 0 <= k < |p.recommendations| ==> ls[4 + k] == "- " + p.recommendations[k])
      && ls[|ls| - 1] == ""
  {
    var ls := ProblemLines(n, p);
    var bullets := BulletLines(p.recommendations);
    BulletLinesEach(p.recommendations);
    forall k | 0 <= k < |p.recommendations|
      ensures ls[4 + k] == "- " + p.recommendations[k]
    {
      assert ls[4 + k] == bullets[k];
    }
  }

  /** The blocks of the first `i + 1` areas are those of the first `i` followed by the block of area `i`. */
  lemma ProblemsLinesSnoc(ps: seq<ProblemArea>, i: nat)
    requires i < |ps|
    ensures ProblemsLines(ps[..i + 1]) == ProblemsLines(ps[..i]) + ProblemLines(i + 1, ps[i])
  {
    var upto := ps[..i + 1];
    assert upto[..i] == ps[..i] && upto[i] == ps[i] && |upto| == i + 1;
  }

  /**
   * The `i`-th problem area (from 0) is rendered, under the number `i + 1`,
   * right after the blocks of the areas before it: the lines up to the end
   * of its block are the earlier blocks followed by its own.
   */
  lemma ProblemBlockAt(ps: seq<ProblemArea>, i: nat)
    requires i < |ps|
    ensures BlockSize(ps[..i + 1]) <= |ProblemsLines(ps)|
    ensures ProblemsLines(ps)[..BlockSize(ps[..i + 1])] == ProblemsLines(ps[..i]) + ProblemLines(i + 1, ps[i])
  {
    ProblemsLinesPrefix(ps, i + 1);
    ProblemsLinesLength(ps[..i + 1]);
    ProblemsLinesSnoc(ps, i);
  }

  /** The Markdown text opens with the title line. */
  lemma MarkdownStartsWithTitle(r: QualityReport)
    ensures var title := "# Quality Report: " + r.teamName;
      |title| < |JoinLines(ReportLines(r))|
      && JoinLines(ReportLines(r))[..|title| + 1] == title + "\n"
  {
    var lines := ReportLines(r);
    ReportLinesShape(r);
    assert lines == [lines[0]] + lines[1..];
    JoinLinesAppend([lines[0]], lines[1..]);
  }
}
