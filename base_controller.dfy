/**
 * BaseController: the button, visual and feature registries, event routing,
 * socket binding and the lockdown shared by every station controller.
 * A station controller holds one BaseController (composition stands for the
 * JavaScript subclassing) and adds its own handlers.
 */
module BaseControl {
  import opened Wrappers
  import opened ClientView

  /** The flags of a registered button's control API (the result of wireButton). */
  datatype ButtonFlags = ButtonFlags(enabled: bool, active: bool)

  /** A registered display object: a gauge row of the XO panel, the teletype terminal, or another one. */
  datatype Visual = GaugeRow(interactive: bool, level: int) | TerminalVisual | PlainVisual

  /** What a bound socket offers the controller: the player's id and its cached state. */
  datatype SocketInfo = SocketInfo(playerId: string, lastState: Option<GameView>)

  /** A call made on the bound socket. */
  datatype SocketCall =
    | Emit(event: string, arg: Option<string>)
    | ChargeGaugeCall(key: Option<string>)
    | CrossOffCall(direction: Option<string>, slotId: Option<string>)

  /**
   * An event payload; a field the sender did not set is `None` (undefined).  A
   * Director command carries `cmdType` and `cmdPayload`; `state` is the payload
   * object read as a game state.
   */
  datatype Payload = Payload(
    id: Option<string>, isActive: bool,
    direction: Option<string>, key: Option<string>, slotId: Option<string>,
    cmdType: Option<string>, cmdPayload: Option<Payload>, state: Option<GameView>)

  /** Every field of a BaseController, as one value. */
  datatype BaseVars = BaseVars(
    buttons: map<string, ButtonFlags>, visuals: map<string, Visual>, features: map<string, nat>,
    socket: Option<SocketInfo>, lastState: Option<GameView>,
    hasSceneChange: bool, sceneChanges: seq<string>, warnings: seq<string>, sent: seq<SocketCall>)

  const IsolateSystem := "ISOLATE_SYSTEM"
  const DeactivateAll := "DEACTIVATE_ALL"
  const SwapBack := "SWAP_BACK"
  const StateUpdate := "stateUpdate"

  /** The base handler table's keys. */
  const BaseHandlers: set<string> := {IsolateSystem, DeactivateAll, SwapBack}

  /**
   * handleSystemIsolation on a registry: every button but `id` is enabled exactly when
   * the isolation is released; the named button and every active flag are untouched.
   */
  function Isolated(buttons: map<string, ButtonFlags>, id: Option<string>, isActive: bool): (r: map<string, ButtonFlags>)
    ensures r.Keys == buttons.Keys
    ensures forall k :: k in r ==> r[k].active == buttons[k].active
    ensures forall k :: k in r && Some(k) == id ==> r[k] == buttons[k]
    ensures forall k :: k in r && Some(k) != id ==> r[k].enabled == !isActive
  {
    map k | k in buttons :: if Some(k) == id then buttons[k] else buttons[k].(enabled := !isActive)
  }

  /** Isolating twice with the same request is the same as isolating once. */
  lemma {:induction false} IsolationIdempotent(buttons: map<string, ButtonFlags>, id: Option<string>, isActive: bool)
    ensures Isolated(Isolated(buttons, id, isActive), id, isActive) == Isolated(buttons, id, isActive)
  {
    var once := Isolated(buttons, id, isActive);
    var twice := Isolated(once, id, isActive);
    assert twice.Keys == once.Keys;
    forall k | k in once
      ensures twice[k] == once[k]
    {
      if Some(k) != id {
        assert twice[k] == ButtonFlags(!isActive, once[k].active);
      }
    }
  }

  /** handleDisconnect: a lockdown with no exempt button disables every registered button. */
  function Disconnected(buttons: map<string, ButtonFlags>): (r: map<string, ButtonFlags>)
    ensures r.Keys == buttons.Keys
    ensures forall k :: k in r ==> !r[k].enabled && r[k].active == buttons[k].active
  {
    Isolated(buttons, None, true)
  }

  /**
   * The base handlers that destructure their payload: ISOLATE_SYSTEM and DEACTIVATE_ALL
   * with no payload throw a TypeError before anything changes.
   */
  predicate BaseThrows(eventType: string, payload: Option<Payload>) {
    (eventType == IsolateSystem || eventType == DeactivateAll) && payload.None?
  }

  /** What the base handler table does with one event. */
  function BaseEvent(v: BaseVars, eventType: string, payload: Option<Payload>): (r: BaseVars)
    ensures BaseThrows(eventType, payload) ==> r == v
    ensures eventType !in BaseHandlers ==> r == v.(warnings := v.warnings + [eventType])
    ensures eventType in BaseHandlers ==> r.warnings == v.warnings
    ensures r.visuals == v.visuals && r.features == v.features && r.socket == v.socket
    ensures r.lastState == v.lastState && r.sent == v.sent && r.buttons.Keys == v.buttons.Keys
    ensures eventType == SwapBack ==>
      r.sceneChanges == v.sceneChanges + (if v.hasSceneChange then ["primary"] else [])
    ensures (eventType == IsolateSystem || eventType == DeactivateAll) && payload.Some? ==>
      r.buttons == Isolated(v.buttons, payload.value.id, payload.value.isActive)
  {
    if eventType == IsolateSystem || eventType == DeactivateAll then
      match payload
      case None => v
      case Some(p) => v.(buttons := Isolated(v.buttons, p.id, p.isActive))
    else if eventType == SwapBack then
      if v.hasSceneChange then v.(sceneChanges := v.sceneChanges + ["primary"]) else v
    else
      v.(warnings := v.warnings + [eventType])
  }

  /** Where handleDirectorCmd sends a command. */
  datatype DirectorRoute =
    | ToStateHook(state: Option<GameView>)
    | ToEvent(eventType: string, payload: Option<Payload>)
    | Ignored

  /** The payload of a command read as a game state. */
  function CommandState(cmd: Payload): Option<GameView> {
    match cmd.cmdPayload
    case None => None
    case Some(p) => p.state
  }

  /**
   * handleDirectorCmd's routing for a controller with the given handler keys: a
   * 'stateUpdate' command goes to the state hook, a command naming a handler is
   * routed as an event with the command's payload, and anything else is dropped.
   */
  function RouteDirectorCmd(cmd: Payload, handlers: set<string>): (r: DirectorRoute)
    ensures r.ToStateHook? <==> cmd.cmdType == Some(StateUpdate)
    ensures r.ToStateHook? ==> r.state == CommandState(cmd)
    ensures r.ToEvent? <==> cmd.cmdType.Some? && cmd.cmdType.value != StateUpdate && cmd.cmdType.value in handlers
    ensures r.ToEvent? ==> r.eventType == cmd.cmdType.value && r.payload == cmd.cmdPayload
  {
    match cmd.cmdType
    case None => Ignored
    case Some(t) =>
      if t == StateUpdate then ToStateHook(CommandState(cmd))
      else if t in handlers then ToEvent(t, cmd.cmdPayload)
      else Ignored
  }

  class BaseController {
    var buttons: map<string, ButtonFlags>
    var visuals: map<string, Visual>
    var features: map<string, nat>
    var socket: Option<SocketInfo>
    var lastState: Option<GameView>
    /** Whether onSceneChange is set, and the scene names it was called with. */
    var hasSceneChange: bool
    var sceneChanges: seq<string>
    /** The event types reported as unhandled. */
    var warnings: seq<string>
    /** The calls made on the bound socket. */
    var sent: seq<SocketCall>

    function Vars(): BaseVars
      reads this
    {
      BaseVars(buttons, visuals, features, socket, lastState, hasSceneChange, sceneChanges, warnings, sent)
    }

    constructor()
      ensures Vars() == BaseVars(map[], map[], map[], None, None, false, [], [], [])
    {
      buttons := map[];
      visuals := map[];
      features := map[];
      socket := None;
      lastState := None;
      hasSceneChange := false;
      sceneChanges := [];
      warnings := [];
      sent := [];
    }

    /** registerButton: a later registration under the same id replaces the earlier one. */
    method RegisterButton(id: string, api: ButtonFlags)
      modifies this
      ensures Vars() == old(Vars()).(buttons := old(buttons)[id := api])
    {
      buttons := buttons[id := api];
    }

    /** registerVisual: a later registration under the same id replaces the earlier one. */
    method RegisterVisual(id: string, displayObject: Visual)
      modifies this
      ensures Vars() == old(Vars()).(visuals := old(visuals)[id := displayObject])
    {
      visuals := visuals[id := displayObject];
    }

    /** setEnabled on the control API registered under `id`. */
    method SetEnabled(id: string, enabled: bool)
      requires id in buttons
      modifies this
      ensures Vars() == old(Vars()).(buttons := old(buttons)[id := old(buttons)[id].(enabled := enabled)])
    {
      buttons := buttons[id := buttons[id].(enabled := enabled)];
    }

    /** setActive on the control API registered under `id`. */
    method SetActive(id: string, active: bool)
      requires id in buttons
      modifies this
      ensures Vars() == old(Vars()).(buttons := old(buttons)[id := old(buttons)[id].(active := active)])
    {
      buttons := buttons[id := buttons[id].(active := active)];
    }

    /** A call made on the bound socket (the caller has checked what the source checks). */
    method Send(call: SocketCall)
      modifies this
      ensures Vars() == old(Vars()).(sent := old(sent) + [call])
    {
      sent := sent + [call];
    }

    /** The "unhandled event" warning of handleEvent. */
    method Warn(eventType: string)
      modifies this
      ensures Vars() == old(Vars()).(warnings := old(warnings) + [eventType])
    {
      warnings := warnings + [eventType];
    }

    /** A display object's own setter (setGaugeLevel, setInteractiveState) on the visual under `id`. */
    method SetVisual(id: string, displayObject: Visual)
      requires id in visuals
      modifies this
      ensures Vars() == old(Vars()).(visuals := old(visuals)[id := displayObject])
    {
      visuals := visuals[id := displayObject];
    }

    /** The scene manager installs (or removes) the onSceneChange callback. */
    method SetSceneChangeCallback(present: bool)
      modifies this
      ensures Vars() == old(Vars()).(hasSceneChange := present)
    {
      hasSceneChange := present;
    }

    /** bindSocket: keeps the socket and adopts its cached state when it has one. */
    method BindSocket(s: SocketInfo)
      modifies this
      ensures Vars() == old(Vars()).(socket := Some(s),
                                     lastState := if s.lastState.Some? then s.lastState else old(lastState))
    {
      socket := Some(s);
      if s.lastState.Some? {
        lastState := s.lastState;
      }
    }

    /** bindFeatures: a copy of the registry replaces the features. */
    method BindFeatures(registry: map<string, nat>)
      modifies this
      ensures Vars() == old(Vars()).(features := registry)
    {
      features := registry;
    }

    /** handleSystemIsolation: setEnabled(!isActive) on every registered button except `id`. */
    method HandleSystemIsolation(id: Option<string>, isActive: bool)
      modifies this
      ensures Vars() == old(Vars()).(buttons := Isolated(old(buttons), id, isActive))
    {
      var todo := buttons.Keys;
      var result := buttons;
      while todo != {}
        invariant todo <= buttons.Keys && result.Keys == buttons.Keys
        invariant forall k :: k in result ==>
          result[k] == if k in todo || Some(k) == id then buttons[k] else buttons[k].(enabled := !isActive)
        decreases todo
      {
        var k :| k in todo;
        if Some(k) != id {
          result := result[k := result[k].(enabled := !isActive)];
        }
        todo := todo - {k};
      }
      buttons := result;
    }

    /** handleDisconnect: lockdown of every button. */
    method HandleDisconnect()
      modifies this
      ensures Vars() == old(Vars()).(buttons := Disconnected(old(buttons)))
    {
      HandleSystemIsolation(None, true);
    }

    /** handleGameState: the state is cached only while a socket is bound. */
    method HandleGameState(state: Option<GameView>)
      modifies this
      ensures old(socket).None? ==> Vars() == old(Vars())
      ensures old(socket).Some? ==> Vars() == old(Vars()).(lastState := state)
    {
      if socket.None? {
        return;
      }
      lastState := state;
    }

    /** handleEvent with the base handler table. */
    method HandleEvent(eventType: string, payload: Option<Payload>) returns (threw: bool)
      modifies this
      ensures threw <==> BaseThrows(eventType, payload)
      ensures Vars() == BaseEvent(old(Vars()), eventType, payload)
    {
      threw := false;
      if eventType == IsolateSystem || eventType == DeactivateAll {
        if payload.None? {
          return true;
        }
        HandleSystemIsolation(payload.value.id, payload.value.isActive);
      } else if eventType == SwapBack {
        if hasSceneChange {
          sceneChanges := sceneChanges + ["primary"];
        }
      } else {
        Warn(eventType);
      }
    }

    /** handleDirectorCmd; the base state hook does nothing. */
    method HandleDirectorCmd(cmd: Payload) returns (threw: bool)
      modifies this
      ensures threw <==> RouteDirectorCmd(cmd, BaseHandlers).ToEvent? && BaseThrows(cmd.cmdType.value, cmd.cmdPayload)
      ensures RouteDirectorCmd(cmd, BaseHandlers).ToEvent? ==>
        Vars() == BaseEvent(old(Vars()), cmd.cmdType.value, cmd.cmdPayload)
      ensures !RouteDirectorCmd(cmd, BaseHandlers).ToEvent? ==> Vars() == old(Vars())
    {
      threw := false;
      var route := RouteDirectorCmd(cmd, BaseHandlers);
      if route.ToEvent? {
        threw := HandleEvent(route.eventType, route.payload);
      }
    }

    /** destroy: drops the socket and empties the three registries. */
    method Destroy()
      modifies this
      ensures Vars() == old(Vars()).(socket := None, buttons := map[], visuals := map[], features := map[])
    {
      socket := None;
      features := map[];
      buttons := map[];
      visuals := map[];
    }
  }
}
