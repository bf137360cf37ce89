/**
 * The walk back through a job's build history to the nearest earlier build that
 * carries a coverage action and did not fail.
 */
module BuildHistory {
  import opened Wrappers

  /**
   * The outcome a build finished with. A build still running has no outcome yet
   * (null in Hudson), which the walk treats like any outcome other than Failure;
   * here it is one of the non-Failure values.
   */
  datatype BuildResult = Success | Unstable | Failure | NotBuilt | Aborted

  /** A build as the walk sees it: its outcome and the coverage action attached to it, if any. */
  datatype Build<A> = Build(result: BuildResult, action: Option<A>)

  /** A predecessor the walk stops at: not a failure, and carrying an action. */
  predicate Qualifies<A>(b: Build<A>)
  {
    b.result != Failure && b.action.Some?
  }

  /**
   * The index of the latest qualifying build among `builds[..n]`, i.e. among the
   * predecessors of build `n` when `builds` lists a job's builds oldest first.
   */
  function NearestQualifying<A>(builds: seq<Build<A>>, n: nat): (r: Option<nat>)
    requires n <= |builds|
    ensures r.Some? ==> r.value < n
  {
    if n == 0 then None
    else if Qualifies(builds[n - 1]) then Some(n - 1)
    else NearestQualifying(builds, n - 1)
  }

  /**
   * NearestQualifying finds the closest qualifying predecessor: it lies strictly
   * before `n`, qualifies, and every build between it and `n` was skipped because
   * it failed or has no action; None means no predecessor qualifies.
   */
  lemma {:induction false} NearestQualifyingIsNearest<A>(builds: seq<Build<A>>, n: nat)
    requires n <= |builds|
    ensures match NearestQualifying(builds, n)
            case None =>
              forall j :: 0 <= j < n ==> builds[j].result == Failure || builds[j].action.None?
            case Some(i) =>
              && i < n
              && builds[i].result != Failure
              && builds[i].action.Some?
              && forall j :: i < j < n ==> builds[j].result == Failure || builds[j].action.None?
  {
    if n > 0 && !Qualifies(builds[n - 1]) {
      NearestQualifyingIsNearest(builds, n - 1);
    }
  }

  /**
   * The action of the nearest predecessor of build `start` that did not fail and
   * carries one. The start build itself is never examined.
   */
  method PreviousResult<A>(builds: seq<Build<A>>, start: nat) returns (r: Option<A>)
    requires start < |builds|
    ensures r.None? <==> NearestQualifying(builds, start).None?
    ensures r.Some? ==> r == builds[NearestQualifying(builds, start).value].action
  {
    var b: nat := start;
    while true
      invariant b <= start
      invariant NearestQualifying(builds, b) == NearestQualifying(builds, start)
      decreases b
    {
      if b == 0 {
        // the first build has no predecessor
        return None;
      }
      b := b - 1;
      if builds[b].result == Failure {
        continue;
      }
      var action := builds[b].action;
      if action.Some? {
        return action;
      }
    }
  }

  /**
   * Worked example: from a failed build without coverage, past a failed build with
   * coverage, to a successful build with coverage; the failed one is skipped.
   */
  lemma FailedBuildsAreSkipped<A>(older: A, failed: A)
    ensures NearestQualifying([Build(Success, Some(older)), Build(Failure, Some(failed)), Build(Failure, None)], 2) == Some(0)
  {
  }
}
