/** The authoritative state machine of one submarine on the client. */
module SubmarineStateMachine {
  import opened SubmarineTransitions

  /** A subscribed callback, identified by a token. */
  type Listener = nat

  datatype SubEvent = SubStateChanged | SubSurfaced

  /** One emission: the event, its payload and the listeners it reached. */
  datatype Emission = Emission(event: SubEvent, state: SubState, oldState: SubState,
                               subId: string, notified: set<Listener>)

  /** Moving and firing are both allowed only while submerged. */
  predicate MayMove(s: SubState) { s == SUBMERGED }
  predicate MayFire(s: SubState) { s == SUBMERGED }

  /** The gates agree, and they are open exactly where surfacing may begin. */
  lemma {:induction false} GatesOpenWhereSurfacingStarts(s: SubState)
    ensures MayMove(s) == MayFire(s)
    ensures MayMove(s) <==> IsValidTransition(s, SURFACING)
    ensures s == DESTROYED <==> Successors(s) == []
  {
  }

  class SubmarineMachine {
    const id: string
    var state: SubState
    var listeners: set<Listener>
    /** Every emission so far, in order. */
    var emitted: seq<Emission>

    constructor(id: string)
      ensures this.id == id && state == SUBMERGED && listeners == {} && emitted == []
    {
      this.id := id;
      state := SUBMERGED;
      listeners := {};
      emitted := [];
    }

    /** Moving and firing are allowed exactly where surfacing may begin. */
    function CanMove(): (r: bool)
      reads this
      ensures r <==> state == SUBMERGED
      ensures r <==> IsValidTransition(state, SURFACING)
    {
      MayMove(state)
    }

    function CanFire(): (r: bool)
      reads this
      ensures r <==> state == SUBMERGED
      ensures r <==> IsValidTransition(state, SURFACING)
    {
      MayFire(state)
    }

    /** Destroyed is the one state with no way out. */
    function IsDestroyed(): (r: bool)
      reads this
      ensures r <==> state == DESTROYED
      ensures r <==> Successors(state) == []
    {
      state == DESTROYED
    }

    /**
     * Moves to `newState` when the table allows it, notifying every current listener
     * once; a transition to the current state is silently ignored and an illegal one
     * only warns.
     */
    method TransitionTo(newState: SubState)
      modifies this
      ensures listeners == old(listeners)
      ensures old(state) != newState && IsValidTransition(old(state), newState) ==>
        state == newState &&
        emitted == old(emitted) + [Emission(SubStateChanged, newState, old(state), id, listeners)]
      ensures old(state) == newState || !IsValidTransition(old(state), newState) ==>
        state == old(state) && emitted == old(emitted)
      ensures old(state) == DESTROYED ==> state == DESTROYED
    {
      if state == newState {
        return;
      }
      if IsValidTransition(state, newState) {
        var oldState := state;
        state := newState;
        emitted := emitted + [Emission(SubStateChanged, newState, oldState, id, listeners)];
      }
    }

    method Subscribe(callback: Listener)
      modifies this
      ensures listeners == old(listeners) + {callback}
      ensures state == old(state) && emitted == old(emitted)
    {
      listeners := listeners + {callback};
    }

    method Unsubscribe(callback: Listener)
      modifies this
      ensures listeners == old(listeners) - {callback}
      ensures state == old(state) && emitted == old(emitted)
    {
      listeners := listeners - {callback};
    }
  }
}
