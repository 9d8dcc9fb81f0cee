/**
 * The standalone ride transition table: nine states and, for each, the
 * list of states it may move to. Nothing in the application consults it;
 * it is modelled as a relation and the shape of its graph is proved.
 */
module RideStateMachine {

  datatype RideState =
    | Requested | Searching | Queued | Assigned | OnWay | Arrived | InProgress | Completed | Cancelled

  /** `rideTransitions[s]`, in the table's order. */
  function Successors(s: RideState): seq<RideState> {
    match s
    case Requested => [Searching, Queued]
    case Searching => [Assigned, Cancelled]
    case Queued => [Assigned, Cancelled]
    case Assigned => [OnWay]
    case OnWay => [Arrived]
    case Arrived => [InProgress]
    case InProgress => [Completed]
    case Completed => []
    case Cancelled => []
  }

  predicate CanMove(a: RideState, b: RideState) {
    b in Successors(a)
  }

  predicate IsTerminal(s: RideState) {
    |Successors(s)| == 0
  }

  /** The number of moves on the longest path leaving `s`. */
  function Height(s: RideState): nat {
    match s
    case Requested => 6
    case Searching | Queued => 5
    case Assigned => 4
    case OnWay => 3
    case Arrived => 2
    case InProgress => 1
    case Completed | Cancelled => 0
  }

  /** Exactly "completed" and "cancelled" have no successors. */
  lemma TerminalStates(s: RideState)
    ensures IsTerminal(s) <==> s == Completed || s == Cancelled
  {
  }

  /** From "requested" the only moves are to "searching" or "queued". */
  lemma RequestedMoves(b: RideState)
    ensures CanMove(Requested, b) <==> b == Searching || b == Queued
  {
  }

  /** "cancelled" is entered only from "searching" or "queued". */
  lemma CancelledPredecessors(a: RideState)
    ensures CanMove(a, Cancelled) <==> a == Searching || a == Queued
  {
  }

  /** assigned, on_way, arrived and in_progress each have exactly one successor: the next state of the chain. */
  lemma ForcedChain()
    ensures Successors(Assigned) == [OnWay] && Successors(OnWay) == [Arrived]
    ensures Successors(Arrived) == [InProgress] && Successors(InProgress) == [Completed]
  {
  }

  /** Every move strictly lowers the height, so the table has no cycle. */
  lemma MoveLowersHeight(a: RideState, b: RideState)
    requires CanMove(a, b)
    ensures Height(b) < Height(a)
  {
  }

  /** A walk through the table: consecutive states are related by a move. */
  predicate IsPath(p: seq<RideState>) {
    |p| >= 1 && forall i :: 0 <= i < |p| - 1 ==> CanMove(p[i], p[i + 1])
  }

  /** A path of k moves ends at least k below where it started. */
  lemma {:induction false} PathDescends(p: seq<RideState>)
    requires IsPath(p)
    ensures Height(p[|p| - 1]) + |p| - 1 <= Height(p[0])
    decreases |p|
  {
    if |p| > 1 {
      assert IsPath(p[1..]) by {
        forall i | 0 <= i < |p[1..]| - 1
          ensures CanMove(p[1..][i], p[1..][i + 1])
        {
          assert CanMove(p[i + 1], p[i + 2]);
        }
      }
      PathDescends(p[1..]);
      MoveLowersHeight(p[0], p[1]);
    }
  }

  /** No path returns to the state it started from. */
  lemma NoCycle(p: seq<RideState>)
    requires IsPath(p) && |p| > 1
    ensures p[|p| - 1] != p[0]
  {
    PathDescends(p);
  }

  /** Every path is finite: at most seven states, six moves from "requested". */
  lemma PathLengthBounded(p: seq<RideState>)
    requires IsPath(p)
    ensures |p| <= 7
  {
    PathDescends(p);
  }

  /** A path from "requested" that cannot be extended ends in "completed" or "cancelled". */
  lemma MaximalPathsEndTerminal(p: seq<RideState>)
    requires IsPath(p) && p[0] == Requested && IsTerminal(p[|p| - 1])
    ensures p[|p| - 1] == Completed || p[|p| - 1] == Cancelled
  {
    TerminalStates(p[|p| - 1]);
  }

  /** Every state that is not terminal can still move, so no walk gets stuck before "completed" or "cancelled". */
  lemma OnlyTerminalsAreStuck(s: RideState)
    requires s != Completed && s != Cancelled
    ensures exists b :: CanMove(s, b)
  {
    assert CanMove(s, Successors(s)[0]);
  }

  /** Both endings are reachable from "requested". */
  lemma BothEndingsReachable()
    ensures IsPath([Requested, Searching, Assigned, OnWay, Arrived, InProgress, Completed])
    ensures IsPath([Requested, Queued, Cancelled])
  {
  }
}
