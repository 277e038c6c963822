/** ConnController: the captain's helm buttons and move requests. */
module ConnControl {
  import opened Wrappers
  import opened ClientView
  import opened BaseControl
  import MapUtils

  datatype Heading = N | S | E | W

  /** The order in which updateHelmUI visits the helm buttons. */
  const Headings: seq<Heading> := [N, S, E, W]

  const MoveHelm := "MOVE_HELM"

  function HeadingIndex(d: Heading): (i: nat)
    ensures i < |Headings| && Headings[i] == d
  {
    match d
    case N => 0
    case S => 1
    case E => 2
    case W => 3
  }

  function HeadingName(d: Heading): string {
    match d
    case N => "N"
    case S => "S"
    case E => "E"
    case W => "W"
  }

  function Opposite(d: Heading): (o: Heading)
    ensures o != d && HeadingIndex(o) / 2 == HeadingIndex(d) / 2
  {
    match d
    case N => S
    case S => N
    case E => W
    case W => E
  }

  /** The registry id of a helm button: `helm_${dir.toLowerCase()}`. */
  function HelmKey(d: Heading): string {
    match d
    case N => "helm_n"
    case S => "helm_s"
    case E => "helm_e"
    case W => "helm_w"
  }

  /** Which helm button a registry id names, if any. */
  function KeyHeading(k: string): (r: Option<Heading>)
    ensures r.Some? ==> HelmKey(r.value) == k
    ensures forall d :: HelmKey(d) == k ==> r == Some(d)
  {
    if k == "helm_n" then Some(N)
    else if k == "helm_s" then Some(S)
    else if k == "helm_e" then Some(E)
    else if k == "helm_w" then Some(W)
    else None
  }

  /** The cell one step from the submarine in direction `d` (rows grow southwards). */
  function Target(sub: SubView, d: Heading): (p: Position)
    ensures MapUtils.GetRange(Some(MapUtils.GridPoint(sub.row, sub.col)), Some(MapUtils.GridPoint(p.row, p.col))) == 1
  {
    match d
    case N => Position(sub.row - 1, sub.col)
    case S => Position(sub.row + 1, sub.col)
    case E => Position(sub.row, sub.col + 1)
    case W => Position(sub.row, sub.col - 1)
  }

  /** `pastTrack?.some(pos => ...)`: an absent track contains nothing. */
  predicate InTrack(track: Option<seq<Position>>, p: Position) {
    track.Some? && p in track.value
  }

  /**
   * validateMove: the target must lie inside the board (rows by board.length and
   * columns by board[0].length, both strict), be water (0) and not be on the track.
   * A cell beyond the end of a shorter row reads undefined, which is not water.
   */
  function ValidateMove(board: seq<seq<int>>, sub: SubView, d: Heading): (ok: bool)
    requires |board| > 0
    ensures ok ==> 0 <= Target(sub, d).row < |board| && 0 <= Target(sub, d).col < |board[0]|
    ensures ok ==> Target(sub, d).col < |board[Target(sub, d).row]| &&
                   board[Target(sub, d).row][Target(sub, d).col] == 0
    ensures ok ==> !InTrack(sub.pastTrack, Target(sub, d))
    ensures !ok ==> !(0 <= Target(sub, d).row < |board| && 0 <= Target(sub, d).col < |board[0]|) ||
                    Target(sub, d).col >= |board[Target(sub, d).row]| ||
                    board[Target(sub, d).row][Target(sub, d).col] != 0 ||
                    InTrack(sub.pastTrack, Target(sub, d))
  {
    var t := Target(sub, d);
    if t.row < 0 || t.row >= |board| || t.col < 0 || t.col >= |board[0]| then false
    else if t.col >= |board[t.row]| || board[t.row][t.col] != 0 then false
    else !InTrack(sub.pastTrack, t)
  }

  /**
   * The last move, when it names a heading, forbids its opposite; ' ' or an
   * absent move forbids nothing.
   */
  predicate Reverses(lastMove: Option<string>, d: Heading) {
    lastMove == Some(HeadingName(Opposite(d)))
  }

  /** The enabled flag updateHelmUI gives the button of heading `d`. */
  function HelmEnabled(state: GameView, sub: SubView, d: Heading): (enabled: bool)
    requires |state.board| > 0
    ensures state.phase != "LIVE" || sub.submarineState != "SUBMERGED" ==> !enabled
    ensures Reverses(sub.lastMove, d) ==> !enabled
    ensures state.phase == "LIVE" && sub.submarineState == "SUBMERGED" && !Reverses(sub.lastMove, d) ==>
      enabled == ValidateMove(state.board, sub, d)
  {
    if state.phase != "LIVE" || sub.submarineState != "SUBMERGED" then false
    else if Reverses(sub.lastMove, d) then false
    else ValidateMove(state.board, sub, d)
  }

  /** An enabled helm button always leads one step onto a free water cell, never back. */
  lemma {:induction false} EnabledHelmIsLegalStep(state: GameView, sub: SubView, d: Heading)
    requires |state.board| > 0 && HelmEnabled(state, sub, d)
    ensures sub.lastMove != Some(HeadingName(Opposite(d)))
    ensures var t := Target(sub, d);
      0 <= t.row < |state.board| && 0 <= t.col < |state.board[t.row]| && state.board[t.row][t.col] == 0 &&
      !InTrack(sub.pastTrack, t)
  {
  }

  /** The registry after the first `done` helm buttons have been visited. */
  function HelmUpdated(buttons: map<string, ButtonFlags>, state: GameView, sub: SubView, done: nat): map<string, ButtonFlags>
    requires |state.board| > 0
  {
    map k | k in buttons ::
      match KeyHeading(k)
      case Some(d) =>
        if HeadingIndex(d) < done then buttons[k].(enabled := HelmEnabled(state, sub, d)) else buttons[k]
      case None => buttons[k]
  }

  /**
   * updateHelmUI's registry: every registered helm button gets its HelmEnabled flag,
   * its active flag and every other button are untouched, and no button is added.
   */
  function HelmButtons(buttons: map<string, ButtonFlags>, state: GameView, sub: SubView): (r: map<string, ButtonFlags>)
    requires |state.board| > 0
    ensures r.Keys == buttons.Keys
    ensures forall d :: HelmKey(d) in buttons ==>
      r[HelmKey(d)] == ButtonFlags(HelmEnabled(state, sub, d), buttons[HelmKey(d)].active)
    ensures forall k :: k in buttons && KeyHeading(k).None? ==> r[k] == buttons[k]
  {
    HelmUpdated(buttons, state, sub, |Headings|)
  }

  /** Visiting one more helm button updates exactly that button. */
  lemma {:induction false} HelmStep(buttons: map<string, ButtonFlags>, state: GameView, sub: SubView, i: nat)
    requires |state.board| > 0 && i < |Headings|
    ensures var key := HelmKey(Headings[i]);
      HelmUpdated(buttons, state, sub, i + 1) ==
        if key in buttons then
          HelmUpdated(buttons, state, sub, i)[key := buttons[key].(enabled := HelmEnabled(state, sub, Headings[i]))]
        else HelmUpdated(buttons, state, sub, i)
  {
    var key := HelmKey(Headings[i]);
    assert KeyHeading(key) == Some(Headings[i]);
    assert HeadingIndex(Headings[i]) == i;
  }

  /** MOVE_HELM destructures its payload; the base handlers do as they do in the base controller. */
  predicate ConnThrows(eventType: string, payload: Option<Payload>) {
    if eventType == MoveHelm then payload.None? else BaseThrows(eventType, payload)
  }

  /** What the Conn handler table does with one event: MOVE_HELM, then the base table. */
  function ConnEvent(v: BaseVars, eventType: string, payload: Option<Payload>): (r: BaseVars)
    ensures ConnThrows(eventType, payload) ==> r == v
    ensures eventType == MoveHelm && v.socket.Some? && payload.Some? ==>
      r == v.(sent := v.sent + [Emit("move", payload.value.direction)])
    ensures eventType == MoveHelm && (v.socket.None? || payload.None?) ==> r == v
    ensures eventType != MoveHelm ==> r == BaseEvent(v, eventType, payload)
  {
    if eventType == MoveHelm then
      match payload
      case None => v
      case Some(p) => if v.socket.Some? then v.(sent := v.sent + [Emit("move", p.direction)]) else v
    else BaseEvent(v, eventType, payload)
  }

  class ConnController {
    const base: BaseController

    constructor()
      ensures fresh(base)
      ensures base.Vars() == BaseVars(map[], map[], map[], None, None, false, [], [], [])
    {
      base := new BaseController();
    }

    /** updateHelmUI: sets the enabled flag of each registered helm button. */
    method UpdateHelmUI(state: GameView, sub: SubView)
      requires |state.board| > 0
      modifies base
      ensures base.Vars() == old(base.Vars()).(buttons := HelmButtons(old(base.buttons), state, sub))
    {
      var isLive := state.phase == "LIVE";
      var isSubmerged := sub.submarineState == "SUBMERGED";
      for i := 0 to |Headings|
        invariant base.Vars() == old(base.Vars()).(buttons := HelmUpdated(old(base.buttons), state, sub, i))
      {
        var d := Headings[i];
        var key := HelmKey(d);
        HelmStep(old(base.buttons), state, sub, i);
        if key in base.buttons {
          if !isLive || !isSubmerged {
            base.SetEnabled(key, false);
          } else if Reverses(sub.lastMove, d) {
            base.SetEnabled(key, false);
          } else {
            var isValid := ValidateMove(state.board, sub, d);
            base.SetEnabled(key, isValid);
          }
        }
      }
    }

    /** onGameStateUpdate: updates the helm of the player's own submarine, if the player has one. */
    method OnGameStateUpdate(state: Option<GameView>)
      requires state.Some? ==> |state.value.board| > 0
      modifies base
      ensures state.None? || old(base.socket).None? ==> base.Vars() == old(base.Vars())
      ensures state.Some? && old(base.socket).Some? ==>
        (match PlayerSub(state.value.submarines, old(base.socket).value.playerId)
         case None => base.Vars() == old(base.Vars())
         case Some(sub) => base.Vars() == old(base.Vars()).(buttons := HelmButtons(old(base.buttons), state.value, sub)))
    {
      if state.None? || base.socket.None? {
        return;
      }
      var found := PlayerSub(state.value.submarines, base.socket.value.playerId);
      if found.None? {
        return;
      }
      UpdateHelmUI(state.value, found.value);
    }

    /** handleGameState: caches the state while bound, then runs onGameStateUpdate. */
    method HandleGameState(state: Option<GameView>)
      requires state.Some? ==> |state.value.board| > 0
      modifies base
      ensures old(base.socket).None? ==> base.Vars() == old(base.Vars())
      ensures old(base.socket).Some? ==> base.lastState == state && base.socket == old(base.socket)
      ensures old(base.socket).Some? && state.Some? ==>
        (match PlayerSub(state.value.submarines, old(base.socket).value.playerId)
         case None => base.Vars() == old(base.Vars()).(lastState := state)
         case Some(sub) =>
           base.Vars() == old(base.Vars()).(lastState := state, buttons := HelmButtons(old(base.buttons), state.value, sub)))
      ensures old(base.socket).Some? && state.None? ==> base.Vars() == old(base.Vars()).(lastState := state)
    {
      base.HandleGameState(state);
      if base.socket.Some? {
        OnGameStateUpdate(state);
      }
    }

    /** handleMove: asks the server to move, when a socket is bound. */
    method HandleMove(direction: Option<string>)
      modifies base
      ensures old(base.socket).Some? ==> base.Vars() == old(base.Vars()).(sent := old(base.sent) + [Emit("move", direction)])
      ensures old(base.socket).None? ==> base.Vars() == old(base.Vars())
    {
      if base.socket.Some? {
        base.Send(Emit("move", direction));
      }
    }

    /** handleEvent with the Conn handler table. */
    method HandleEvent(eventType: string, payload: Option<Payload>) returns (threw: bool)
      modifies base
      ensures threw <==> ConnThrows(eventType, payload)
      ensures base.Vars() == ConnEvent(old(base.Vars()), eventType, payload)
    {
      if eventType == MoveHelm {
        if payload.None? {
          return true;
        }
        HandleMove(payload.value.direction);
        threw := false;
      } else {
        threw := base.HandleEvent(eventType, payload);
      }
    }
  }
}
