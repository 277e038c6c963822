/** Orchestrates surfacing: SUBMERGED -> SURFACING, then SURFACED one second later. */
module SurfacingController {
  import opened Wrappers
  import opened SubmarineTransitions
  import opened SubmarineStateMachine
  import opened SubmarineFacade
  import SurfacingRules

  /** The delay, in milliseconds, between starting to surface and being surfaced. */
  const SurfacingDelay: nat := 1000

  class Controller {
    const facade: Facade
    /**
     * The submarine ids whose surfacing-complete timers are pending, in firing order
     * (every timer has the same delay, so they fire in the order they were set).
     */
    var pendingCompletions: seq<string>

    constructor(facade: Facade)
      ensures this.facade == facade && pendingCompletions == []
    {
      this.facade := facade;
      pendingCompletions := [];
    }

    /**
     * Starts surfacing a submerged submarine: it moves to SURFACING, its sector is
     * computed for transmission, and the completion timer is set.  Any other submarine,
     * or one that is not submerged, is left alone.
     */
    method RequestSurface(subId: string, row: int, col: int) returns (sector: Option<int>)
      requires facade.Valid()
      modifies this, if subId in facade.submarines then {facade.submarines[subId]} else {}
      ensures var acts := subId in facade.submarines && old(facade.submarines[subId].state) == SUBMERGED;
        (acts ==> facade.submarines[subId].state == SURFACING &&
                  sector == Some(SurfacingRules.GetSector(row, col)) &&
                  pendingCompletions == old(pendingCompletions) + [subId]) &&
        (!acts ==> sector == None && pendingCompletions == old(pendingCompletions) &&
                   (subId in facade.submarines ==> facade.submarines[subId].state == old(facade.submarines[subId].state)))
      ensures forall k :: k in facade.submarines && k != subId ==>
        facade.submarines[k].state == old(facade.submarines[k].state)
    {
      sector := None;
      var sub := facade.GetSub(subId);
      if sub.None? || sub.value.state != SUBMERGED {
        return;
      }
      sub.value.TransitionTo(SURFACING);
      sector := Some(SurfacingRules.GetSector(row, col));
      pendingCompletions := pendingCompletions + [subId];
    }

    /** The timer callback: a submarine still SURFACING becomes SURFACED. */
    method OnSurfacingComplete(subId: string)
      requires facade.Valid()
      modifies if subId in facade.submarines then {facade.submarines[subId]} else {}
      ensures subId in facade.submarines ==>
        facade.submarines[subId].state ==
          (if old(facade.submarines[subId].state) == SURFACING then SURFACED
           else old(facade.submarines[subId].state))
      ensures forall k :: k in facade.submarines && k != subId ==>
        facade.submarines[k].state == old(facade.submarines[k].state)
    {
      var sub := facade.GetSub(subId);
      if sub.None? || sub.value.state != SURFACING {
        return;
      }
      sub.value.TransitionTo(SURFACED);
    }

    /** The oldest pending timer fires. */
    method FireNextTimer()
      requires facade.Valid() && pendingCompletions != []
      modifies this, facade.submarines.Values
      ensures pendingCompletions == old(pendingCompletions[1..])
      ensures var id := old(pendingCompletions[0]);
        id in facade.submarines ==>
          facade.submarines[id].state ==
            (if old(facade.submarines[id].state) == SURFACING then SURFACED
             else old(facade.submarines[id].state))
      ensures forall k :: k in facade.submarines && k != old(pendingCompletions[0]) ==>
        facade.submarines[k].state == old(facade.submarines[k].state)
    {
      var id := pendingCompletions[0];
      pendingCompletions := pendingCompletions[1..];
      OnSurfacingComplete(id);
    }

    /** A surfaced submarine dives again; any other state is left alone. */
    method RequestSubmerge(subId: string)
      requires facade.Valid()
      modifies if subId in facade.submarines then {facade.submarines[subId]} else {}
      ensures subId in facade.submarines ==>
        facade.submarines[subId].state ==
          (if old(facade.submarines[subId].state) == SURFACED then SUBMERGED
           else old(facade.submarines[subId].state))
      ensures forall k :: k in facade.submarines && k != subId ==>
        facade.submarines[k].state == old(facade.submarines[k].state)
    {
      var sub := facade.GetSub(subId);
      if sub.None? || sub.value.state != SURFACED {
        return;
      }
      sub.value.TransitionTo(SUBMERGED);
    }

    /** Fatal damage destroys a known submarine from any state. */
    method HandleDestruction(subId: string)
      requires facade.Valid()
      modifies if subId in facade.submarines then {facade.submarines[subId]} else {}
      ensures subId in facade.submarines ==> facade.submarines[subId].state == DESTROYED
      ensures forall k :: k in facade.submarines && k != subId ==>
        facade.submarines[k].state == old(facade.submarines[k].state)
    {
      var sub := facade.GetSub(subId);
      if sub.Some? {
        DestroyedFromAnywhere(sub.value.state);
        sub.value.TransitionTo(DESTROYED);
      }
    }
  }
}
