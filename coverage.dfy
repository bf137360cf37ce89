/**
 * The coverage data the build action consumes. The snapshot, its ratios and the
 * thresholds are built elsewhere in the plugin; only what the action reads of them
 * is modelled here.
 */
module Coverage {
  import opened Wrappers

  /** A build, identified by its position in the build history (oldest first). */
  type BuildId = nat

  /** The four coverage dimensions a threshold or a score applies to. */
  datatype CoverageMetric = Method | Conditional | Statement | Element

  /**
   * A covered/total ratio as the action renders it: the text of its percentage
   * and its own string form ("covered/total"). How the percentage is computed and
   * rounded belongs to Ratio, which is not part of this model.
   */
  datatype Ratio = Ratio(percentage: string, text: string)

  /**
   * The project-level coverage snapshot produced by the parser, with the build it
   * has been bound to (None until an owner is set).
   */
  datatype ProjectCoverage = ProjectCoverage(
    methodCoverage: Ratio,
    conditionalCoverage: Ratio,
    statementCoverage: Ratio,
    elementCoverage: Ratio,
    owner: Option<BuildId>)
  {
    /** The ratio the snapshot reports for metric `m`. */
    function RatioOf(m: CoverageMetric): Ratio
    {
      match m
      case Method => methodCoverage
      case Conditional => conditionalCoverage
      case Statement => statementCoverage
      case Element => elementCoverage
    }

    /** The snapshot after its owner has been set to `b`; the ratios are untouched. */
    function WithOwner(b: BuildId): (c: ProjectCoverage)
      ensures c.owner == Some(b)
      ensures forall m :: c.RatioOf(m) == RatioOf(m)
    {
      this.(owner := Some(b))
    }
  }

  /** A threshold configuration: the target percentage of each tracked metric. */
  datatype CoverageTarget = CoverageTarget(targets: map<CoverageMetric, int>)
}
