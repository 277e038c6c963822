/**
 * EngineerController of src/control: the slot buttons of the engineer's station,
 * the interaction lock and the cross-off requests.
 */
module EngineerControl {
  import opened Wrappers
  import opened ClientView
  import opened BaseControl

  const CrossOff := "CROSS_OFF"
  const ToggleReactor := "TOGGLE_REACTOR"
  const DirectorCmd := "DIRECTOR_CMD"

  /** The engineer handler table replaces the base one. */
  const EngineerHandlers: set<string> := {CrossOff, ToggleReactor, DirectorCmd}

  /** The registry id of a slot button: `${direction}:${slotId}`. */
  function SlotKey(v: CrossedSlot): string {
    v.direction + ":" + v.slotId
  }

  /** One direction's slots in visiting order: the frame slots, then the reactor slots. */
  function DirectionVisits(d: DirectionView): (vs: seq<CrossedSlot>)
    ensures |vs| == |d.frameSlots| + |d.reactorSlots|
  {
    IdVisits(d.direction, d.frameSlots, |d.frameSlots|) + IdVisits(d.direction, d.reactorSlots, |d.reactorSlots|)
  }

  /** The first `n` slot ids of one slot table of a direction. */
  function IdVisits(direction: string, ids: seq<string>, n: nat): (vs: seq<CrossedSlot>)
    requires n <= |ids|
    ensures |vs| == n && forall i :: 0 <= i < n ==> vs[i] == CrossedSlot(direction, ids[i])
  {
    if n == 0 then [] else IdVisits(direction, ids, n - 1) + [CrossedSlot(direction, ids[n - 1])]
  }

  /** Every slot of the first directions, in the order updateEngineView visits them. */
  function Visits(ds: seq<DirectionView>): seq<CrossedSlot> {
    if ds == [] then [] else Visits(ds[..|ds| - 1]) + DirectionVisits(ds[|ds| - 1])
  }

  /** A crossed slot is disabled and inactive; any other is enabled and active iff the engineer may act. */
  function SlotFlags(crossed: bool, canInteract: bool): (f: ButtonFlags)
    ensures crossed ==> !f.enabled && !f.active
    ensures !crossed ==> f.enabled == canInteract && f.active == canInteract
  {
    if crossed then ButtonFlags(false, false)
    else if canInteract then ButtonFlags(true, true)
    else ButtonFlags(false, false)
  }

  /** The visit of one slot: its button, when registered, gets SlotFlags. */
  function VisitSlot(buttons: map<string, ButtonFlags>, v: CrossedSlot, crossedOut: seq<CrossedSlot>,
                     canInteract: bool): map<string, ButtonFlags> {
    if SlotKey(v) in buttons then buttons[SlotKey(v) := SlotFlags(v in crossedOut, canInteract)] else buttons
  }

  /** The registry after visiting `vs` in order. */
  function VisitSlots(buttons: map<string, ButtonFlags>, vs: seq<CrossedSlot>, crossedOut: seq<CrossedSlot>,
                      canInteract: bool): (r: map<string, ButtonFlags>)
    ensures r.Keys == buttons.Keys
  {
    if vs == [] then buttons
    else VisitSlot(VisitSlots(buttons, vs[..|vs| - 1], crossedOut, canInteract), vs[|vs| - 1], crossedOut, canInteract)
  }

  /** Buttons that name no visited slot are untouched. */
  lemma {:induction false} UnvisitedUntouched(buttons: map<string, ButtonFlags>, vs: seq<CrossedSlot>,
                                              crossedOut: seq<CrossedSlot>, canInteract: bool, k: string)
    requires k in buttons && forall i :: 0 <= i < |vs| ==> SlotKey(vs[i]) != k
    ensures VisitSlots(buttons, vs, crossedOut, canInteract)[k] == buttons[k]
  {
    if vs != [] {
      UnvisitedUntouched(buttons, vs[..|vs| - 1], crossedOut, canInteract, k);
    }
  }

  /**
   * When no two visited slots share a button id, each visited slot's button ends with
   * its own SlotFlags: disabled and inactive if crossed, otherwise following the lock.
   */
  lemma {:induction false} VisitedSlotFlags(buttons: map<string, ButtonFlags>, vs: seq<CrossedSlot>,
                                            crossedOut: seq<CrossedSlot>, canInteract: bool, i: nat)
    requires i < |vs| && SlotKey(vs[i]) in buttons
    requires forall j :: 0 <= j < |vs| && j != i ==> SlotKey(vs[j]) != SlotKey(vs[i])
    ensures VisitSlots(buttons, vs, crossedOut, canInteract)[SlotKey(vs[i])] == SlotFlags(vs[i] in crossedOut, canInteract)
  {
    var init := vs[..|vs| - 1];
    if i == |vs| - 1 {
    } else {
      assert init[i] == vs[i];
      forall j | 0 <= j < |init| && j != i
        ensures SlotKey(init[j]) != SlotKey(init[i])
      {
        assert init[j] == vs[j];
      }
      VisitedSlotFlags(buttons, init, crossedOut, canInteract, i);
    }
  }

  /** Every field of an EngineerController. */
  datatype EngineerVars = EngineerVars(base: BaseVars, engineState: Option<EngineView>, locked: bool)

  /** updateEngineView: without a layout nothing changes, otherwise the lock and every slot button follow the state. */
  function EngineerView(e: EngineerVars, sub: SubView): (r: EngineerVars)
    ensures e.engineState.None? ==> r == e
    ensures e.engineState.Some? ==> r.locked == (sub.submarineState != "MOVED")
    ensures e.engineState.Some? ==> r == e.(locked := r.locked, base := e.base.(buttons :=
      VisitSlots(e.base.buttons, Visits(e.engineState.value.directions), e.engineState.value.crossedOutSlots,
                 sub.submarineState == "MOVED")))
  {
    match e.engineState
    case None => e
    case Some(ev) =>
      var canInteract := sub.submarineState == "MOVED";
      e.(locked := !canInteract,
         base := e.base.(buttons := VisitSlots(e.base.buttons, Visits(ev.directions), ev.crossedOutSlots, canInteract)))
  }

  /** onGameStateUpdate: adopts the player's submarine's layout and refreshes the view. */
  function EngineerStateUpdate(e: EngineerVars, state: Option<GameView>): (r: EngineerVars)
    ensures r.base.socket == e.base.socket && r.base.sent == e.base.sent
  {
    if e.base.socket.None? || e.base.socket.value.playerId == "" || state.None? then e
    else match PlayerSub(state.value.submarines, e.base.socket.value.playerId)
      case None => e
      case Some(sub) => EngineerView(e.(engineState := sub.engineLayout), sub)
  }

  /** handleCrossOff: asks the server to cross off only while unlocked. */
  function EngineerCrossOff(e: EngineerVars, direction: Option<string>, slotId: Option<string>): (r: EngineerVars)
    ensures e.locked || e.base.socket.None? ==> r == e
    ensures !e.locked && e.base.socket.Some? ==>
      r == e.(base := e.base.(sent := e.base.sent + [CrossOffCall(direction, slotId)]))
  {
    if e.locked || e.base.socket.None? then e
    else e.(base := e.base.(sent := e.base.sent + [CrossOffCall(direction, slotId)]))
  }

  /**
   * Every engineer handler destructures its payload (handleDirectorCmd reads `cmd.type`),
   * so a handled event without one throws; a director command routed to a handled event
   * throws as that event does.
   */
  predicate EngineerThrows(eventType: string, payload: Option<Payload>)
    decreases payload, 1
  {
    eventType in EngineerHandlers &&
    (payload.None? || (eventType == DirectorCmd && EngineerDirectorThrows(payload.value)))
  }

  predicate EngineerDirectorThrows(cmd: Payload)
    decreases cmd, 0
  {
    match RouteDirectorCmd(cmd, EngineerHandlers)
    case ToEvent(t, p) => EngineerThrows(t, p)
    case _ => false
  }

  /** The engineer handler table; TOGGLE_REACTOR only logs. */
  function EngineerEvent(e: EngineerVars, eventType: string, payload: Option<Payload>): (r: EngineerVars)
    ensures EngineerThrows(eventType, payload) ==> r == e
    ensures eventType !in EngineerHandlers ==> r == e.(base := e.base.(warnings := e.base.warnings + [eventType]))
    ensures eventType == ToggleReactor ==> r == e
    decreases payload, 1
  {
    if eventType == CrossOff then
      if payload.None? then e else EngineerCrossOff(e, payload.value.direction, payload.value.slotId)
    else if eventType == ToggleReactor then e
    else if eventType == DirectorCmd then
      if payload.None? then e else EngineerDirector(e, payload.value)
    else e.(base := e.base.(warnings := e.base.warnings + [eventType]))
  }

  /** handleDirectorCmd with the engineer's state hook and handler table. */
  function EngineerDirector(e: EngineerVars, cmd: Payload): (r: EngineerVars)
    ensures cmd.cmdType == Some(StateUpdate) ==> r == EngineerStateUpdate(e, CommandState(cmd))
    ensures cmd.cmdType.None? || (cmd.cmdType.value != StateUpdate && cmd.cmdType.value !in EngineerHandlers) ==> r == e
    ensures cmd.cmdType == Some(ToggleReactor) ==> r == e
    ensures EngineerDirectorThrows(cmd) ==> r == e
    decreases cmd, 0
  {
    match RouteDirectorCmd(cmd, EngineerHandlers)
    case ToStateHook(s) => EngineerStateUpdate(e, s)
    case ToEvent(t, p) => EngineerEvent(e, t, p)
    case Ignored => e
  }

  /** No cross-off request leaves a station whose submarine has not MOVED. */
  lemma {:induction false} CrossOffOnlyAfterMove(e: EngineerVars, sub: SubView, direction: Option<string>, slotId: Option<string>)
    requires e.engineState.Some?
    ensures var v := EngineerView(e, sub);
      |EngineerCrossOff(v, direction, slotId).base.sent| > |v.base.sent| ==> sub.submarineState == "MOVED"
  {
  }

  class EngineerController {
    const base: BaseController
    var engineState: Option<EngineView>
    var locked: bool

    function Vars(): EngineerVars
      reads this, base
    {
      EngineerVars(base.Vars(), engineState, locked)
    }

    /** The controller starts locked, with no layout. */
    constructor()
      ensures fresh(base)
      ensures Vars() == EngineerVars(BaseVars(map[], map[], map[], None, None, false, [], [], []), None, true)
    {
      base := new BaseController();
      engineState := None;
      locked := true;
    }

    /** One slot table of one direction: `for (const [slotId, _] of Object.entries(...))`. */
    method VisitIds(direction: string, ids: seq<string>, crossedOut: seq<CrossedSlot>, canInteract: bool)
      modifies base
      ensures base.Vars() == old(base.Vars()).(buttons := base.buttons)
      ensures base.buttons == VisitSlots(old(base.buttons), IdVisits(direction, ids, |ids|), crossedOut, canInteract)
    {
      for j := 0 to |ids|
        invariant base.Vars() == old(base.Vars()).(buttons := base.buttons)
        invariant base.buttons == VisitSlots(old(base.buttons), IdVisits(direction, ids, j), crossedOut, canInteract)
      {
        VisitOne(old(base.buttons), IdVisits(direction, ids, j), CrossedSlot(direction, ids[j]), crossedOut, canInteract);
        var id := direction + ":" + ids[j];
        if id in base.buttons {
          var isCrossed := CrossedSlot(direction, ids[j]) in crossedOut;
          base.RegisterButton(id, SlotFlags(isCrossed, canInteract));
        }
      }
    }

    /** updateEngineView: visits every frame and reactor slot of every direction. */
    method UpdateEngineView(sub: SubView)
      modifies this, base
      ensures Vars() == EngineerView(old(Vars()), sub)
    {
      if engineState.None? {
        return;
      }
      var ev := engineState.value;
      var canInteract := sub.submarineState == "MOVED";
      locked := !canInteract;
      ghost var start := base.buttons;
      var ds := ev.directions;
      for i := 0 to |ds|
        invariant base.Vars() == old(base.Vars()).(buttons := base.buttons)
        invariant base.buttons == VisitSlots(start, Visits(ds[..i]), ev.crossedOutSlots, canInteract)
        invariant engineState == old(engineState) && locked == !canInteract
      {
        var d := ds[i];
        ghost var b0 := base.buttons;
        VisitIds(d.direction, d.frameSlots, ev.crossedOutSlots, canInteract);
        ghost var b1 := base.buttons;
        assert b1 == VisitSlots(b0, IdVisits(d.direction, d.frameSlots, |d.frameSlots|), ev.crossedOutSlots, canInteract);
        VisitIds(d.direction, d.reactorSlots, ev.crossedOutSlots, canInteract);
        assert base.buttons ==
          VisitSlots(b1, IdVisits(d.direction, d.reactorSlots, |d.reactorSlots|), ev.crossedOutSlots, canInteract);
        VisitDirection(start, ds, i, ev.crossedOutSlots, canInteract);
      }
      assert ds[..|ds|] == ds;
    }

    /** onGameStateUpdate: the player's submarine's layout becomes the engine state. */
    method OnGameStateUpdate(state: Option<GameView>)
      modifies this, base
      ensures Vars() == EngineerStateUpdate(old(Vars()), state)
    {
      if base.socket.None? || base.socket.value.playerId == "" || state.None? {
        return;
      }
      var found := PlayerSub(state.value.submarines, base.socket.value.playerId);
      if found.None? {
        return;
      }
      engineState := found.value.engineLayout;
      UpdateEngineView(found.value);
    }

    /** handleCrossOff: socket.crossOffSystem(direction, slotId) unless locked. */
    method HandleCrossOff(direction: Option<string>, slotId: Option<string>)
      modifies base
      ensures Vars() == EngineerCrossOff(old(Vars()), direction, slotId)
    {
      if locked {
        return;
      }
      if base.socket.Some? {
        base.Send(CrossOffCall(direction, slotId));
      }
    }

    /** handleEvent with the engineer handler table. */
    method HandleEvent(eventType: string, payload: Option<Payload>) returns (threw: bool)
      modifies this, base
      ensures threw <==> EngineerThrows(eventType, payload)
      ensures Vars() == EngineerEvent(old(Vars()), eventType, payload)
      decreases payload, 1
    {
      threw := false;
      if eventType in EngineerHandlers && payload.None? {
        return true;
      }
      if eventType == CrossOff {
        HandleCrossOff(payload.value.direction, payload.value.slotId);
      } else if eventType == ToggleReactor {
      } else if eventType == DirectorCmd {
        threw := HandleDirectorCmd(payload.value);
      } else {
        base.Warn(eventType);
      }
    }

    /** handleDirectorCmd: a 'stateUpdate' runs onGameStateUpdate, a known type is handled as an event. */
    method HandleDirectorCmd(cmd: Payload) returns (threw: bool)
      modifies this, base
      ensures threw <==> EngineerDirectorThrows(cmd)
      ensures Vars() == EngineerDirector(old(Vars()), cmd)
      decreases cmd, 0
    {
      threw := false;
      var route := RouteDirectorCmd(cmd, EngineerHandlers);
      match route
      case ToStateHook(s) => OnGameStateUpdate(s);
      case ToEvent(t, p) => threw := HandleEvent(t, p);
      case Ignored =>
    }
  }

  /** Visiting one more slot is one VisitSlot step. */
  lemma {:induction false} VisitOne(buttons: map<string, ButtonFlags>, done: seq<CrossedSlot>, v: CrossedSlot,
                 crossedOut: seq<CrossedSlot>, canInteract: bool)
    ensures VisitSlots(buttons, done + [v], crossedOut, canInteract) ==
      VisitSlot(VisitSlots(buttons, done, crossedOut, canInteract), v, crossedOut, canInteract)
  {
    assert (done + [v])[..|done|] == done;
  }

  /** Visiting `xs` then `ys` is visiting `xs + ys`. */
  lemma {:induction false} VisitAppend(buttons: map<string, ButtonFlags>, xs: seq<CrossedSlot>, ys: seq<CrossedSlot>,
                                       crossedOut: seq<CrossedSlot>, canInteract: bool)
    ensures VisitSlots(buttons, xs + ys, crossedOut, canInteract) ==
      VisitSlots(VisitSlots(buttons, xs, crossedOut, canInteract), ys, crossedOut, canInteract)
    decreases |ys|
  {
    if ys == [] {
      assert xs + ys == xs;
    } else {
      var init := ys[..|ys| - 1];
      assert (xs + ys)[..|xs + ys| - 1] == xs + init;
      VisitAppend(buttons, xs, init, crossedOut, canInteract);
    }
  }

  /** The directions visited so far grow by one direction's slots. */
  /** Visiting the first i + 1 directions is visiting the first i, then direction i's frames, then its reactors. */
  lemma {:induction false} VisitDirection(start: map<string, ButtonFlags>, ds: seq<DirectionView>, i: nat,
                       crossedOut: seq<CrossedSlot>, canInteract: bool)
    requires i < |ds|
    ensures VisitSlots(start, Visits(ds[..i + 1]), crossedOut, canInteract) ==
      VisitSlots(VisitSlots(VisitSlots(start, Visits(ds[..i]), crossedOut, canInteract),
                            IdVisits(ds[i].direction, ds[i].frameSlots, |ds[i].frameSlots|), crossedOut, canInteract),
                 IdVisits(ds[i].direction, ds[i].reactorSlots, |ds[i].reactorSlots|), crossedOut, canInteract)
  {
    var done := Visits(ds[..i]);
    var frames := IdVisits(ds[i].direction, ds[i].frameSlots, |ds[i].frameSlots|);
    var reactors := IdVisits(ds[i].direction, ds[i].reactorSlots, |ds[i].reactorSlots|);
    VisitsSnoc(ds, i);
    VisitAppend(start, done, frames, crossedOut, canInteract);
    VisitAppend(start, done + frames, reactors, crossedOut, canInteract);
  }

  lemma {:induction false} VisitsSnoc(ds: seq<DirectionView>, i: nat)
    requires i < |ds|
    ensures Visits(ds[..i + 1]) ==
      (Visits(ds[..i]) + IdVisits(ds[i].direction, ds[i].frameSlots, |ds[i].frameSlots|)) +
      IdVisits(ds[i].direction, ds[i].reactorSlots, |ds[i].reactorSlots|)
  {
    assert ds[..i + 1][..i] == ds[..i];
    var done := Visits(ds[..i]);
    var frames := IdVisits(ds[i].direction, ds[i].frameSlots, |ds[i].frameSlots|);
    var reactors := IdVisits(ds[i].direction, ds[i].reactorSlots, |ds[i].reactorSlots|);
    assert done + (frames + reactors) == (done + frames) + reactors;
  }
}
