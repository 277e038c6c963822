/** The game-wide registry of submarine state machines, keyed by submarine id. */
module SubmarineFacade {
  import opened Wrappers
  import opened SubmarineTransitions
  import opened SubmarineStateMachine

  class Facade {
    var submarines: map<string, SubmarineMachine>

    /** Each machine is registered under its own id, and no machine under two ids. */
    ghost predicate Valid()
      reads this, submarines.Values
    {
      (forall k :: k in submarines ==> submarines[k].id == k) &&
      (forall k1, k2 :: k1 in submarines && k2 in submarines && k1 != k2 ==>
        submarines[k1] != submarines[k2])
    }

    constructor()
      ensures submarines == map[] && Valid()
    {
      submarines := map[];
    }

    /**
     * Registers a fresh SUBMERGED machine for every id not yet known; machines already
     * registered are kept, with their state.
     */
    method Init(ids: seq<string>)
      requires Valid()
      modifies this
      ensures Valid()
      ensures submarines.Keys == old(submarines.Keys) + set i | i in ids
      ensures forall k :: k in old(submarines) ==> submarines[k] == old(submarines[k])
      ensures forall k :: k in submarines && k !in old(submarines) ==>
        fresh(submarines[k]) && submarines[k].state == SUBMERGED &&
        submarines[k].listeners == {} && submarines[k].emitted == []
    {
      var n := 0;
      while n < |ids|
        invariant 0 <= n <= |ids|
        invariant submarines.Keys == old(submarines.Keys) + set i | i in ids[..n]
        invariant forall k :: k in old(submarines) ==> submarines[k] == old(submarines[k])
        invariant forall k :: k in submarines && k !in old(submarines) ==>
          fresh(submarines[k]) && submarines[k].state == SUBMERGED &&
          submarines[k].listeners == {} && submarines[k].emitted == []
        invariant Valid()
      {
        var id := ids[n];
        if id !in submarines {
          var m := new SubmarineMachine(id);
          submarines := submarines[id := m];
        }
        assert ids[..n + 1] == ids[..n] + [id];
        n := n + 1;
      }
      assert ids[..n] == ids;
    }

    function GetSub(id: string): (r: Option<SubmarineMachine>)
      reads this
      ensures r.Some? <==> id in submarines
      ensures r.Some? ==> r.value == submarines[id]
    {
      if id in submarines then Some(submarines[id]) else None
    }

    /** An unknown id can neither move nor fire, and has no state. */
    function CanMove(id: string): (r: bool)
      reads this, submarines.Values
      ensures r <==> GetState(id) == Some(SUBMERGED)
    {
      id in submarines && submarines[id].CanMove()
    }

    function CanFire(id: string): (r: bool)
      reads this, submarines.Values
      ensures r <==> GetState(id) == Some(SUBMERGED)
    {
      id in submarines && submarines[id].CanFire()
    }

    function GetState(id: string): (r: Option<SubState>)
      reads this, submarines.Values
      ensures r.Some? <==> id in submarines
      ensures r.Some? ==> r.value == submarines[id].state
    {
      if id in submarines then Some(submarines[id].state) else None
    }

    /**
     * Subscribing through the registry reaches only the named machine: its listener set
     * grows, its state and emissions stay, and an unknown id changes nothing.
     */
    method Subscribe(id: string, callback: Listener)
      requires Valid()
      modifies if id in submarines then {submarines[id]} else {}
      ensures Valid() && submarines == old(submarines)
      ensures id in submarines ==>
        submarines[id].listeners == old(submarines[id].listeners) + {callback} &&
        submarines[id].state == old(submarines[id].state) &&
        submarines[id].emitted == old(submarines[id].emitted)
      ensures forall k :: k in submarines && k != id ==> unchanged(submarines[k])
    {
      if id in submarines {
        submarines[id].Subscribe(callback);
      }
    }

    /** Unsubscribing through the registry likewise reaches only the named machine. */
    method Unsubscribe(id: string, callback: Listener)
      requires Valid()
      modifies if id in submarines then {submarines[id]} else {}
      ensures Valid() && submarines == old(submarines)
      ensures id in submarines ==>
        submarines[id].listeners == old(submarines[id].listeners) - {callback} &&
        submarines[id].state == old(submarines[id].state) &&
        submarines[id].emitted == old(submarines[id].emitted)
      ensures forall k :: k in submarines && k != id ==> unchanged(submarines[k])
    {
      if id in submarines {
        submarines[id].Unsubscribe(callback);
      }
    }
  }
}
