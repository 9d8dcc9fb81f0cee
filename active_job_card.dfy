/**
 * The active-job card: which status changes the driver is offered for the
 * job's current status. Only the buttons that call `onUpdateStatus` count;
 * Navigate and Map open other views and change no status.
 */
module ActiveJobCard {
  import opened DriverModel

  /** The statuses the card's buttons move to, in the order they are shown. */
  function AvailableActions(s: JobStatus): seq<JobStatus> {
    match s
    case Assigned => [Cancelled]
    case OnWay => [Arrived]
    case Arrived => [Started, Cancelled]
    case Started => [Completed]
    case Completed => []
    case Cancelled => []
  }

  /** The job lifecycle the card is meant to drive: the chain to "completed" plus the two cancellations. */
  predicate LifecycleMove(a: JobStatus, b: JobStatus) {
    || (a == Assigned && (b == OnWay || b == Cancelled))
    || (a == OnWay && b == Arrived)
    || (a == Arrived && (b == Started || b == Cancelled))
    || (a == Started && b == Completed)
  }

  /** Buttons are offered exactly for the active statuses (`isActive()`). */
  lemma ActionsExactlyWhenActive(s: JobStatus)
    ensures |AvailableActions(s)| > 0 <==> IsActiveStatus(s)
  {
  }

  /** Every button the card shows is a lifecycle move. */
  lemma ActionsAreLifecycleMoves(a: JobStatus, b: JobStatus)
    requires b in AvailableActions(a)
    ensures LifecycleMove(a, b)
  {
  }

  /** No status offers "on_way", although the lifecycle leaves "assigned" for it. */
  lemma NoStatusOffersOnWay(s: JobStatus)
    ensures OnWay !in AvailableActions(s)
    ensures LifecycleMove(Assigned, OnWay)
  {
  }

  /** A sequence of statuses produced by pressing the given table's buttons, starting from `p[0]`. */
  predicate IsCardWalk(p: seq<JobStatus>, actions: JobStatus -> seq<JobStatus>) {
    |p| >= 1 && forall i :: 0 <= i < |p| - 1 ==> p[i + 1] in actions(p[i])
  }

  /**
   * As written: starting from "assigned", the buttons lead only to
   * "cancelled"; "on_way", "arrived", "started" and "completed" are never
   * reached, so no job can be completed through the card.
   */
  lemma {:induction false} AssignedWalksOnlyCancel(p: seq<JobStatus>)
    requires IsCardWalk(p, AvailableActions) && p[0] == Assigned
    ensures forall i :: 0 <= i < |p| ==> p[i] == Assigned || p[i] == Cancelled
    decreases |p|
  {
    if |p| > 1 {
      assert IsCardWalk(p[..|p| - 1], AvailableActions);
      AssignedWalksOnlyCancel(p[..|p| - 1]);
      assert p[|p| - 2] == Assigned || p[|p| - 2] == Cancelled;
      assert p[|p| - 1] in AvailableActions(p[|p| - 2]);
    }
  }

  /** The card with the missing step: "assigned" also offers "on_way". */
  function CorrectedActions(s: JobStatus): seq<JobStatus> {
    match s
    case Assigned => [OnWay, Cancelled]
    case _ => AvailableActions(s)
  }

  /** The corrected card offers exactly the lifecycle moves. */
  lemma CorrectedActionsAreLifecycle(a: JobStatus, b: JobStatus)
    ensures b in CorrectedActions(a) <==> LifecycleMove(a, b)
  {
  }

  /** With the corrected card, every active status has a walk of buttons that completes the job. */
  lemma CorrectedCardCanComplete(s: JobStatus)
    requires IsActiveStatus(s)
    ensures exists p :: IsCardWalk(p, CorrectedActions) && p[0] == s && p[|p| - 1] == Completed
  {
    var walk := [Assigned, OnWay, Arrived, Started, Completed];
    assert IsCardWalk(walk, CorrectedActions);
    var k := match s
      case Assigned => 0
      case OnWay => 1
      case Arrived => 2
      case Started => 3
      case _ => 4;
    var p := walk[k..];
    assert IsCardWalk(p, CorrectedActions) by {
      forall i | 0 <= i < |p| - 1
        ensures p[i + 1] in CorrectedActions(p[i])
      {
        assert p[i] == walk[k + i] && p[i + 1] == walk[k + i + 1];
      }
    }
    assert p[0] == s;
  }
}
