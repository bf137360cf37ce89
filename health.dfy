/**
 * Reduction of the per-metric health scores of a build to one health report: the
 * worst metric wins, and the report names it with its percentage and ratio.
 */
module HealthScoring {
  import opened Wrappers
  import opened Coverage

  /** The score of one metric, as an entry of the range-score map. */
  type Score = (CoverageMetric, int)

  /** A health value and the text that justifies it. */
  datatype HealthReport = HealthReport(score: int, description: string)

  /**
   * What scoring yields: no report, a report, or the case where a metric wins but
   * the coverage snapshot could not be obtained (the description step then
   * dereferences a missing report).
   */
  datatype HealthResult = NoHealth | Health(report: HealthReport) | MissingReport

  /** The running value of the minimum scan before any entry is seen. */
  const InitialMin: int := 100

  const DescriptionPrefix: string := "Clover Coverage: "

  /** The word the description uses for a metric. */
  function Label(m: CoverageMetric): string
  {
    match m
    case Method => "Methods"
    case Conditional => "Conditionals"
    case Statement => "Statements"
    case Element => "Elements"
  }

  predicate StartsWith(s: string, prefix: string)
  {
    |prefix| <= |s| && s[..|prefix|] == prefix
  }

  /**
   * The description of a health report whose worst metric is `m`:
   * prefix, label, the metric's percentage, and its ratio in parentheses.
   */
  function Describe(m: CoverageMetric, pc: ProjectCoverage): (d: string)
    ensures StartsWith(d, DescriptionPrefix + Label(m) + " ")
    ensures d[|d| - 1] == ')'
  {
    var ratio := pc.RatioOf(m);
    DescriptionPrefix + Label(m) + " " + ratio.percentage + "% (" + ratio.text + ")"
  }

  /** Reads back which metric a description names (the label after the prefix). */
  function MetricNamed(d: string): Option<CoverageMetric>
  {
    if StartsWith(d, DescriptionPrefix + Label(Method) + " ") then Some(Method)
    else if StartsWith(d, DescriptionPrefix + Label(Conditional) + " ") then Some(Conditional)
    else if StartsWith(d, DescriptionPrefix + Label(Statement) + " ") then Some(Statement)
    else if StartsWith(d, DescriptionPrefix + Label(Element) + " ") then Some(Element)
    else None
  }

  /** The description names the metric it was made for, whatever the snapshot's ratios. */
  lemma DescriptionNamesMetric(m: CoverageMetric, pc: ProjectCoverage)
    ensures MetricNamed(Describe(m, pc)) == Some(m)
  {
    var d := Describe(m, pc);
    var n := |DescriptionPrefix|;
    assert d[..n + |Label(m)| + 1] == DescriptionPrefix + Label(m) + " ";
    assert d[n] == Label(m)[0];
    forall x | x != m
      ensures !StartsWith(d, DescriptionPrefix + Label(x) + " ")
    {
      assert (DescriptionPrefix + Label(x) + " ")[n] == Label(x)[0];
    }
  }

  /**
   * The state of the scan after the first `n` entries: the index of the entry
   * holding the minimum so far (None while no entry has been below 100) and that
   * minimum. An entry replaces the current one only if it is strictly smaller.
   */
  function Scan(scores: seq<Score>, n: nat): (r: (Option<nat>, int))
    requires n <= |scores|
    ensures r.0.None? ==> r.1 == InitialMin
    ensures r.0.Some? ==> r.0.value < n && scores[r.0.value].1 == r.1 < InitialMin
  {
    if n == 0 then (None, InitialMin)
    else
      var (k, m) := Scan(scores, n - 1);
      if scores[n - 1].1 < m then (Some(n - 1), scores[n - 1].1) else (k, m)
  }

  /** The index of the entry the scan settles on, if any. */
  function Worst(scores: seq<Score>): Option<nat>
  {
    Scan(scores, |scores|).0
  }

  /** The health result the action derives from the scores and the snapshot. */
  function HealthOf(scores: seq<Score>, pc: Option<ProjectCoverage>): (h: HealthResult)
    ensures h.Health? ==> pc.Some? && h.report.score < InitialMin
    ensures h.MissingReport? ==> pc.None?
  {
    var (k, m) := Scan(scores, |scores|);
    match k
    case None => NoHealth
    case Some(i) =>
      if pc.Some? then Health(HealthReport(m, Describe(scores[i].0, pc.value)))
      else MissingReport
  }

  /**
   * What the scan finds among the first `n` entries: the minimum never exceeds 100
   * and is at most every score seen; nothing is found exactly when every score seen
   * is at least 100; what is found is the first entry holding the minimum, which is
   * below 100.
   */
  lemma {:induction false} ScanFindsFirstMinimum(scores: seq<Score>, n: nat)
    requires n <= |scores|
    ensures Scan(scores, n).1 <= InitialMin
    ensures forall j :: 0 <= j < n ==> Scan(scores, n).1 <= scores[j].1
    ensures Scan(scores, n).0.None? <==> forall j :: 0 <= j < n ==> scores[j].1 >= InitialMin
    ensures Scan(scores, n).0.None? ==> Scan(scores, n).1 == InitialMin
    ensures match Scan(scores, n).0
            case None => true
            case Some(i) =>
              && i < n
              && scores[i].1 == Scan(scores, n).1 < InitialMin
              && forall j :: 0 <= j < i ==> scores[j].1 > scores[i].1
  {
    if n > 0 {
      ScanFindsFirstMinimum(scores, n - 1);
    }
  }

  /**
   * The health result in terms of the scores: no report exactly when no score is
   * below 100; otherwise a report whose score is the first minimal score, at most
   * every score, and whose description is that of the first minimal entry's
   * metric; a missing snapshot turns a would-be report into MissingReport.
   */
  lemma HealthIsWorstMetric(scores: seq<Score>, pc: Option<ProjectCoverage>)
    ensures HealthOf(scores, pc) == NoHealth <==> forall j :: 0 <= j < |scores| ==> scores[j].1 >= 100
    ensures HealthOf(scores, pc) == MissingReport <==>
              pc.None? && exists j :: 0 <= j < |scores| && scores[j].1 < 100
    ensures match HealthOf(scores, pc)
            case Health(r) =>
              && pc.Some?
              && r.score < 100
              && (forall j :: 0 <= j < |scores| ==> r.score <= scores[j].1)
              && Worst(scores).Some?
              && var i := Worst(scores).value;
                 && i < |scores|
                 && scores[i].1 == r.score
                 && (forall j :: 0 <= j < i ==> scores[j].1 > r.score)
                 && r.description == Describe(scores[i].0, pc.value)
                 && MetricNamed(r.description) == Some(scores[i].0)
            case _ => true
  {
    ScanFindsFirstMinimum(scores, |scores|);
    match Worst(scores)
    case Some(i) =>
      if pc.Some? {
        DescriptionNamesMetric(scores[i].0, pc.value);
      }
    case None =>
  }

  /**
   * The reduction step of the action's health computation: one pass over the
   * scores keeping the strictly smallest so far, starting from 100, then the
   * description built piece by piece for the winning metric.
   */
  method ReduceScores(scores: seq<Score>, pc: Option<ProjectCoverage>) returns (h: HealthResult)
    ensures h == HealthOf(scores, pc)
  {
    var minValue := InitialMin;
    var minKey: Option<CoverageMetric> := None;
    ghost var minIndex: Option<nat> := None;
    for i := 0 to |scores|
      invariant (minIndex, minValue) == Scan(scores, i)
      invariant minIndex.None? ==> minKey.None?
      invariant minIndex.Some? ==> minIndex.value < i && minKey == Some(scores[minIndex.value].0)
    {
      if scores[i].1 < minValue {
        minKey := Some(scores[i].0);
        minValue := scores[i].1;
        minIndex := Some(i);
      }
    }
    if minKey.None? {
      return NoHealth;
    }
    if pc.None? {
      return MissingReport;
    }
    var ratio := pc.value.RatioOf(minKey.value);
    var description := DescriptionPrefix;
    description := description + Label(minKey.value) + " ";
    description := description + ratio.percentage;
    description := description + "% (";
    description := description + ratio.text;
    description := description + ")";
    h := Health(HealthReport(minValue, description));
  }

  /**
   * Worked example: methods fully healthy, statements at 33. The statement score
   * wins and the description names statements.
   */
  lemma StatementsDominate(pc: ProjectCoverage)
    ensures HealthOf([(Method, 100), (Statement, 33)], Some(pc)) ==
            Health(HealthReport(33, Describe(Statement, pc)))
  {
    var scores := [(Method, 100), (Statement, 33)];
    assert Scan(scores, 1) == (None, 100);
    assert Scan(scores, 2) == (Some(1), 33);
  }
}
