/**
 * The per-build coverage action: it keeps the base directory used to resolve the
 * report's relative paths, the healthy and unhealthy thresholds, and a reclaimable
 * cache of the parsed coverage snapshot.
 */
module BuildAction {
  import opened Wrappers
  import opened Coverage
  import opened HealthScoring
  import opened BuildHistory

  /** `s` ends with `suffix`. */
  predicate EndsWith(s: string, suffix: string)
  {
    |suffix| <= |s| && s[|s| - |suffix|..] == suffix
  }

  /**
   * The base directory the action keeps for a workspace path: the separator when
   * no path is given, and otherwise the path with a separator appended unless it
   * already ends with one.
   */
  function NormalizeBaseDir(workspacePath: Option<string>, separator: string): (dir: string)
    ensures EndsWith(dir, separator)
    ensures workspacePath.None? ==> dir == separator
    ensures workspacePath.Some? && EndsWith(workspacePath.value, separator) ==> dir == workspacePath.value
    ensures workspacePath.Some? && !EndsWith(workspacePath.value, separator) ==>
              dir == workspacePath.value + separator
  {
    match workspacePath
    case None => separator
    case Some(p) => if EndsWith(p, separator) then p else p + separator
  }

  /** Normalising a base directory a second time changes nothing. */
  lemma NormalizeIsIdempotent(workspacePath: Option<string>, separator: string)
    ensures var dir := NormalizeBaseDir(workspacePath, separator);
            NormalizeBaseDir(Some(dir), separator) == dir
  {
  }

  /**
   * The snapshot a report access yields: the cached one if it is still live;
   * otherwise the parsed one, bound to its owner, or nothing if parsing failed.
   */
  function Fetched(cached: Option<ProjectCoverage>, parsed: Result<ProjectCoverage, string>,
                   owner: BuildId): (r: Option<ProjectCoverage>)
    ensures cached.Some? ==> r == cached
    ensures cached.None? ==> (r.Some? <==> parsed.Ok?)
    ensures cached.None? && parsed.Ok? ==> r == Some(parsed.value.WithOwner(owner)) && r.value.owner == Some(owner)
  {
    if cached.Some? then cached
    else match parsed
      case Ok(c) => Some(c.WithOwner(owner))
      case Err(_) => None
  }

  /** The cache after an access that yielded `fetched`. */
  function CacheAfter(cached: Option<ProjectCoverage>, fetched: Option<ProjectCoverage>): Option<ProjectCoverage>
  {
    if fetched.Some? then fetched else cached
  }

  /**
   * Report accesses: a failed parse leaves the cache alone, and a second access
   * right after one that yielded a snapshot is a hit that returns the same snapshot.
   */
  lemma CacheAccessLaws(cached: Option<ProjectCoverage>, parsed: Result<ProjectCoverage, string>,
                        owner: BuildId)
    ensures cached.None? && parsed.Err? ==> CacheAfter(cached, Fetched(cached, parsed, owner)) == cached
    ensures var first := Fetched(cached, parsed, owner);
            first.Some? ==> Fetched(CacheAfter(cached, first), parsed, owner) == first
  {
  }

  class CloverBuildAction {
    /** The build this action belongs to. */
    const owner: BuildId
    /** The platform's path separator. */
    const separator: string
    var buildBaseDir: string
    var healthyTarget: Option<CoverageTarget>
    var unhealthyTarget: Option<CoverageTarget>
    /** The cached snapshot: None when never filled or reclaimed by the runtime. */
    var report: Option<ProjectCoverage>
    /** How many times the parser has been run for this action. */
    ghost var parses: nat

    /** The base directory ends with the separator and a cached snapshot belongs to this build. */
    ghost predicate Valid()
      reads this
    {
      && EndsWith(buildBaseDir, separator)
      && (report.Some? ==> report.value.owner == Some(owner))
    }

    /**
     * Creates the action with an initial snapshot `r`, which is bound to `owner`,
     * and the base directory normalised from `workspacePath`.
     */
    constructor (owner: BuildId, workspacePath: Option<string>, r: ProjectCoverage,
                 healthyTarget: Option<CoverageTarget>, unhealthyTarget: Option<CoverageTarget>,
                 separator: string)
      ensures Valid()
      ensures this.owner == owner && this.separator == separator
      ensures buildBaseDir == NormalizeBaseDir(workspacePath, separator)
      ensures this.healthyTarget == healthyTarget && this.unhealthyTarget == unhealthyTarget
      ensures report == Some(r.WithOwner(owner))
      ensures parses == 0
    {
      this.owner := owner;
      this.separator := separator;
      if workspacePath.None? {
        this.buildBaseDir := separator;
      } else if !EndsWith(workspacePath.value, separator) {
        this.buildBaseDir := workspacePath.value + separator;
      } else {
        this.buildBaseDir := workspacePath.value;
      }
      this.healthyTarget := healthyTarget;
      this.unhealthyTarget := unhealthyTarget;
      // the cached reference is the snapshot whose owner has just been set
      this.report := Some(r.WithOwner(owner));
      this.parses := 0;
    }

    /** The runtime drops the cached snapshot (memory pressure). */
    method Reclaim()
      requires Valid()
      modifies this`report
      ensures Valid()
      ensures report.None?
    {
      report := None;
    }

    /**
     * The coverage snapshot of this build. `locate` gives the report file of a build
     * and `parse` reads a report file against a base directory, or fails.
     */
    method GetResult(locate: BuildId -> string, parse: (string, string) -> Result<ProjectCoverage, string>)
      returns (r: Option<ProjectCoverage>)
      requires Valid()
      modifies this`report, this`parses
      ensures Valid()
      ensures r == Fetched(old(report), parse(locate(owner), buildBaseDir), owner)
      ensures report == CacheAfter(old(report), r)
      ensures r.Some? ==> r.value.owner == Some(owner)
      ensures old(report).Some? ==> parses == old(parses)
      ensures old(report).None? ==> parses == old(parses) + 1
    {
      if report.Some? {
        return report;
      }
      var reportFile := locate(owner);
      var parsed := parse(reportFile, buildBaseDir);
      parses := parses + 1;
      match parsed
      case Ok(c) =>
        var bound := c.WithOwner(owner);
        report := Some(bound);
        return Some(bound);
      case Err(_) =>
        return None;
    }

    /**
     * The build's health: nothing unless both thresholds are configured; otherwise
     * the scores `rangeScores` gives for the thresholds and the current snapshot,
     * reduced to the worst metric.
     */
    method GetBuildHealth(rangeScores: (CoverageTarget, CoverageTarget, Option<ProjectCoverage>) -> seq<Score>,
                          locate: BuildId -> string, parse: (string, string) -> Result<ProjectCoverage, string>)
      returns (h: HealthResult)
      requires Valid()
      modifies this`report, this`parses
      ensures Valid()
      ensures healthyTarget.None? || unhealthyTarget.None? ==>
                h == NoHealth && report == old(report) && parses == old(parses)
      ensures healthyTarget.Some? && unhealthyTarget.Some? ==>
                parses == old(parses) + (if old(report).Some? then 0 else 1)
      ensures healthyTarget.Some? && unhealthyTarget.Some? ==>
                var pc := Fetched(old(report), parse(locate(owner), buildBaseDir), owner);
                && report == CacheAfter(old(report), pc)
                && h == HealthOf(rangeScores(healthyTarget.value, unhealthyTarget.value, pc), pc)
    {
      if healthyTarget.None? || unhealthyTarget.None? {
        return NoHealth;
      }
      var pc := GetResult(locate, parse);
      var scores := rangeScores(healthyTarget.value, unhealthyTarget.value, pc);
      h := ReduceScores(scores, pc);
    }

    /** The coverage action of the nearest earlier build of `history` that did not fail and has one. */
    method PreviousResult(history: seq<Build<CloverBuildAction>>) returns (r: Option<CloverBuildAction>)
      requires owner < |history|
      ensures r.None? <==> NearestQualifying(history, owner).None?
      ensures r.Some? ==> r == history[NearestQualifying(history, owner).value].action
    {
      r := BuildHistory.PreviousResult(history, owner);
    }
  }

  /**
   * Two accesses with no reclamation in between: once a snapshot has been
   * obtained, the second access returns the same one without parsing; after a
   * failed parse the second access tries the parser again.
   */
  method AccessTwice(a: CloverBuildAction, locate: BuildId -> string,
                     parse: (string, string) -> Result<ProjectCoverage, string>)
    returns (first: Option<ProjectCoverage>, second: Option<ProjectCoverage>)
    requires a.Valid()
    modifies a`report, a`parses
    ensures a.Valid()
    ensures first.Some? ==> second == first
    ensures first.Some? ==> a.parses <= old(a.parses) + 1
    ensures first.None? ==> a.parses == old(a.parses) + 2
  {
    first := a.GetResult(locate, parse);
    second := a.GetResult(locate, parse);
  }

  /**
   * An access after the runtime reclaimed the snapshot parses again and yields
   * what a fill from that parse yields.
   */
  method AccessAfterReclaim(a: CloverBuildAction, locate: BuildId -> string,
                            parse: (string, string) -> Result<ProjectCoverage, string>)
    returns (r: Option<ProjectCoverage>)
    requires a.Valid()
    modifies a`report, a`parses
    ensures a.Valid()
    ensures r == Fetched(None, parse(locate(a.owner), a.buildBaseDir), a.owner)
    ensures a.parses == old(a.parses) + 1
  {
    a.Reclaim();
    r := a.GetResult(locate, parse);
  }

  /**
   * Reclamation is invisible to callers: a snapshot parsed after one reclamation
   * and the one reparsed after the next are the same.
   */
  method ReparseAfterReclaim(a: CloverBuildAction, locate: BuildId -> string,
                             parse: (string, string) -> Result<ProjectCoverage, string>)
    returns (first: Option<ProjectCoverage>, second: Option<ProjectCoverage>)
    requires a.Valid()
    modifies a`report, a`parses
    ensures a.Valid()
    ensures first.Some? ==> second == first
    ensures a.parses == old(a.parses) + 2
  {
    a.Reclaim();
    first := a.GetResult(locate, parse);
    a.Reclaim();
    second := a.GetResult(locate, parse);
  }
}
