/** The submarine surfacing lifecycle and its table of legal transitions. */
module SubmarineTransitions {

  datatype SubState = SUBMERGED | SURFACING | SURFACED | DESTROYED

  /** The legal successors of each state; DESTROYED is terminal. */
  function Successors(s: SubState): seq<SubState> {
    match s
    case SUBMERGED => [SURFACING, DESTROYED]
    case SURFACING => [SURFACED, DESTROYED]
    case SURFACED => [SUBMERGED, DESTROYED]
    case DESTROYED => []
  }

  /** An edge of the table: never a self-loop, and nothing leaves DESTROYED. */
  function IsValidTransition(from: SubState, to: SubState): (r: bool)
    ensures r ==> from != to
    ensures from == DESTROYED ==> !r
  {
    to in Successors(from)
  }

  /** Destruction is reachable in one step from every other state, and is terminal. */
  lemma {:induction false} DestroyedFromAnywhere(s: SubState)
    ensures s != DESTROYED <==> IsValidTransition(s, DESTROYED)
    ensures Successors(DESTROYED) == []
  {
  }

  /** No state lists itself as a successor. */
  lemma {:induction false} NoSelfLoops(s: SubState)
    ensures !IsValidTransition(s, s)
  {
  }

  /** The surfacing cycle: the next state of the lifecycle when not destroyed. */
  function CycleNext(s: SubState): SubState
    requires s != DESTROYED
  {
    match s
    case SUBMERGED => SURFACING
    case SURFACING => SURFACED
    case SURFACED => SUBMERGED
  }

  /**
   * Apart from destruction each state has exactly one successor, its cycle successor:
   * SUBMERGED -> SURFACING -> SURFACED -> SUBMERGED.
   */
  lemma {:induction false} OnlyCycleBesidesDestruction(s: SubState, t: SubState)
    requires s != DESTROYED && t != DESTROYED
    ensures IsValidTransition(s, t) <==> t == CycleNext(s)
  {
  }

  /** A sequence of states in which each step is a legal transition. */
  predicate IsPath(p: seq<SubState>) {
    forall i :: 0 <= i < |p| - 1 ==> IsValidTransition(p[i], p[i + 1])
  }

  /** A legal path that starts submerged and avoids destruction is forced around the cycle. */
  lemma {:induction false} PathFollowsCycle(p: seq<SubState>, k: nat)
    requires IsPath(p) && |p| > 0 && p[0] == SUBMERGED
    requires forall i :: 0 <= i < |p| ==> p[i] != DESTROYED
    requires k < |p|
    ensures p[k] == [SUBMERGED, SURFACING, SURFACED][k % 3]
  {
    if k > 0 {
      PathFollowsCycle(p, k - 1);
      assert IsValidTransition(p[k - 1], p[k]);
      OnlyCycleBesidesDestruction(p[k - 1], p[k]);
    }
  }

  /** In particular SUBMERGED never reaches SURFACED in one step. */
  lemma {:induction false} NoDirectSurface()
    ensures !IsValidTransition(SUBMERGED, SURFACED)
  {
  }
}
