# Clover build action — a Dafny model

This project models `CloverBuildAction`, the per-build action of the Hudson Clover
plugin. The action makes a build's coverage report available and derives a health
report from it. It has four pieces of logic:

- **Health reduction** (`HealthScoring`). The action takes the per-metric scores
  computed for the healthy and unhealthy thresholds and scans them in iteration
  order. It keeps the strictly smallest score, starting from 100. It then describes
  the winning metric as `Clover Coverage: <Label> <percentage>% (<ratio>)`.
  If no score is below 100, there is no health report. This includes the case of
  no scores at all.
- **Predecessor walk** (`BuildHistory`). Starting from a build, the action walks back
  through the earlier builds. It skips failed builds and returns the first coverage
  action it finds. A build history is a sequence listed oldest first, so the
  predecessor of build `i` is build `i - 1`.
- **Base-directory normalisation** (`BuildAction.NormalizeBaseDir` and the
  constructor). A missing workspace path becomes the separator. A path without a
  trailing separator gets one appended.
- **Report cache** (`BuildAction.CloverBuildAction`). The action holds a reclaimable
  reference to the parsed snapshot, modelled as an `Option` field. `Reclaim` stands
  for the runtime dropping the referent. `GetResult` returns a live entry as it is.
  On a miss it parses the report, binds the snapshot to the build and stores it.
  If the parse fails, it returns nothing and leaves the cache alone.

Collaborators outside the action are inputs to the model:
- the range-score function of `CoverageTarget`;
- the report locator and the parser, as function-typed parameters;
- the rendering of a `Ratio`, as two strings;
- the platform separator, as a constructor parameter.

The source passes the snapshot returned by `getResult()` on to the range-score
function even when it is null. If a metric then wins, the source dereferences the
missing snapshot while writing the description
(src/main/java/hudson/plugins/clover/CloverBuildAction.java:57). The model gives
that outcome its own value, `HealthResult.MissingReport`.

Two consequences of the scan are easy to miss, and the model keeps both:
- Ties go to the first minimal entry in the score map's iteration order, not to a
  fixed metric order. The model takes that order as the order of the score
  sequence.
- There is no health report when every score is exactly 100, just as when no
  metric is scored at all.

## Model

| member | source | states |
|---|---|---|
| HealthScoring.ReduceScores | src/main/java/hudson/plugins/clover/CloverBuildAction.java:43-86 | the one-pass scan (strict `<`, start value 100) and the description built piece by piece give exactly `HealthOf` of the scores and snapshot |
| HealthScoring.ScanFindsFirstMinimum | src/main/java/hudson/plugins/clover/CloverBuildAction.java:43-51 | after any prefix, the running minimum is at most 100 and at most every score seen. Nothing is found iff every score seen is at least 100. A found entry holds the minimum, is below 100 and is strictly smaller than every earlier entry (first one wins on ties) |
| HealthScoring.HealthIsWorstMetric | src/main/java/hudson/plugins/clover/CloverBuildAction.java:43-86 | no report iff no score is below 100 (so also for an empty or all-100 map). A report's score is below 100, at most every score, and equal to the first minimal entry. Its description is that entry's metric's description and names that metric. MissingReport iff the snapshot is absent and some score is below 100 |
| HealthScoring.Describe | src/main/java/hudson/plugins/clover/CloverBuildAction.java:53-82 | the description starts with `Clover Coverage: ` followed by the metric's label (`Methods`, `Conditionals`, `Statements` or `Elements`) and a space, and ends with `)` |
| HealthScoring.DescriptionNamesMetric | src/main/java/hudson/plugins/clover/CloverBuildAction.java:53-82 | reading the label back from a description gives the metric it was built for, whatever the ratios |
| HealthScoring.StatementsDominate | src/main/java/hudson/plugins/clover/CloverBuildAction.java:43-82 | scores Methods 100 and Statements 33 give a report of 33 described for Statements |
| BuildHistory.NearestQualifyingIsNearest | src/main/java/hudson/plugins/clover/CloverBuildAction.java:111-123 | the build found lies strictly before the start, did not fail and has an action. Every build between it and the start failed or has no action. None means every predecessor failed or has no action |
| BuildHistory.PreviousResult | src/main/java/hudson/plugins/clover/CloverBuildAction.java:111-123 | the walk returns nothing iff no predecessor qualifies, and otherwise the action of the nearest qualifying predecessor; the start build is never examined |
| BuildHistory.FailedBuildsAreSkipped | src/main/java/hudson/plugins/clover/CloverBuildAction.java:113-121 | from a failed build without coverage, a failed build with coverage is skipped in favour of the successful one before it |
| BuildAction.NormalizeBaseDir | src/main/java/hudson/plugins/clover/CloverBuildAction.java:129-134 | the stored directory always ends with the separator. A missing path gives exactly the separator. A path already ending with it is kept. Otherwise exactly one separator is appended |
| BuildAction.NormalizeIsIdempotent | src/main/java/hudson/plugins/clover/CloverBuildAction.java:129-134 | normalising an already normalised directory leaves it unchanged |
| BuildAction.CacheAccessLaws | src/main/java/hudson/plugins/clover/CloverBuildAction.java:142-161 | a failed parse on a miss leaves the cache as it was; an access right after one that yielded a snapshot is a hit returning that same snapshot |
| BuildAction.CloverBuildAction.constructor | src/main/java/hudson/plugins/clover/CloverBuildAction.java:125-138 | owner and thresholds are stored and the base directory is normalised. The initial snapshot is cached with its owner set, so the object invariant holds |
| BuildAction.CloverBuildAction.Reclaim | src/main/java/hudson/plugins/clover/CloverBuildAction.java:37 | the cached reference is cleared and nothing else changes |
| BuildAction.CloverBuildAction.GetResult | src/main/java/hudson/plugins/clover/CloverBuildAction.java:142-161 | returns what `Fetched` gives for the old cache and the parse of this build's report against the base directory. The cache then holds the returned snapshot, or is unchanged when nothing is returned. A returned snapshot is owned by this build. A hit runs no parse (the parse count is unchanged); a miss runs exactly one. Only the cache field and the parse count change |
| BuildAction.CloverBuildAction.GetBuildHealth | src/main/java/hudson/plugins/clover/CloverBuildAction.java:39-87 | without both thresholds there is no report, the cache is not touched and nothing is parsed. Otherwise the cache is accessed as `GetResult` does (one parse only on a miss), and the result is `HealthOf` of the range scores for that snapshot |
| BuildAction.CloverBuildAction.PreviousResult | src/main/java/hudson/plugins/clover/CloverBuildAction.java:105-107 | the walk from the action's own build gives the action of the nearest qualifying predecessor, or nothing |
| BuildAction.AccessTwice | src/main/java/hudson/plugins/clover/CloverBuildAction.java:142-156 | with no reclamation in between, once an access has yielded a snapshot the next access yields the same one and at most one parse has run in all; after a failed parse the next access parses again |
| BuildAction.AccessAfterReclaim | src/main/java/hudson/plugins/clover/CloverBuildAction.java:143-156 | after reclamation an access runs exactly one parse and yields the snapshot a fill from that parse yields |
| HealthScoring.Scan | src/main/java/hudson/plugins/clover/CloverBuildAction.java:43-50 | the state of the scan after a prefix: with nothing found the running minimum is still 100; a found index lies in the prefix and holds the running minimum, which is below 100 |
| HealthScoring.HealthOf | src/main/java/hudson/plugins/clover/CloverBuildAction.java:43-86 | the reference result of the health computation: a report only with a snapshot present and with a score below 100; MissingReport only when the snapshot is absent |
| BuildHistory.NearestQualifying | src/main/java/hudson/plugins/clover/CloverBuildAction.java:111-123 | the reference definition of the walk: the index of the latest qualifying build before the start, which always lies before the start |
| Coverage.ProjectCoverage.WithOwner | src/main/java/hudson/plugins/clover/CloverBuildAction.java:137 | setting the owner binds the snapshot to the build and leaves every metric's ratio unchanged |
| BuildAction.Fetched | src/main/java/hudson/plugins/clover/CloverBuildAction.java:143-160 | the snapshot an access yields: a live cached one as is; on a miss, something exactly when the parse succeeds, and then the parsed snapshot bound to the owner |
| BuildAction.ReparseAfterReclaim | src/main/java/hudson/plugins/clover/CloverBuildAction.java:143-156 | two accesses each after a reclamation run two parses and, once the first yields a snapshot, the second yields the same one |

## Left out

- `CoverageTarget.getRangeScores`: it is not part of this model, so it is a function-typed input. The per-metric interpolation, its clamping to 0..100 and its monotonicity are therefore not stated here.
- `Ratio.getPercentage` and `Ratio.toString`: a ratio is modelled as the two strings the description uses; the arithmetic and rounding behind them are not modelled.
- `CloverPublisher.getCloverXmlReport` and `CloverCoverageParser.parse`: file location and XML parsing are I/O, modelled as function-typed parameters. The parse is a function, so two parses of the same file give the same snapshot; a report file that changes on disk between accesses is not modelled.
- The warning logged on a failed parse: an I/O side effect with nothing to verify.
- `synchronized` on `getResult`: the model is sequential, so concurrent fills and the serialisation of parses are not modelled.
- Garbage collection of the weak reference: modelled as the explicit `Reclaim` method, which a caller may invoke between any two accesses. The `transient` field being null after deserialisation is the same `None` state. The snapshot the constructor is given and a snapshot reparsed after it is reclaimed are not related by the action: the parser's output is whatever it reads from the report file.
- The parse count `parses` is a ghost field of the model, not a field of the action; it exists to state that a hit does not parse.
- `ProjectCoverage.setOwner` mutates the shared snapshot object. The model binds the owner on a copy of the value, so aliasing between the constructor's argument and the cached snapshot is not modelled.
- `getIconFileName`, `getDisplayName`, `getUrlName` and `getTarget`: presentation constants and a pass-through.
- The delegating accessors (`findPackageCoverage` … `getElements`) and the `load` factory: thin pass-throughs to `ProjectCoverage`, which is not part of this model.
- The `default` branch of the metric switch: unreachable, since the metric is one of four values.
