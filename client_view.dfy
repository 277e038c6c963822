/**
 * The game state as the station controllers under src/control and the damage
 * controller read it: one record per submarine, with the four role slots, the
 * client-side submarine state and the parts of the engine layout they show.
 */
module ClientView {
  import opened Wrappers

  /** One cell of a submarine's past track. */
  datatype Position = Position(row: int, col: int)

  /** One entry of an engine layout's crossedOutSlots. */
  datatype CrossedSlot = CrossedSlot(direction: string, slotId: string)

  /** One direction of an engine layout: its frame and reactor slot ids, in key order. */
  datatype DirectionView = DirectionView(direction: string, frameSlots: seq<string>, reactorSlots: seq<string>)

  /** An engine layout as sent to the engineer's station. */
  datatype EngineView = EngineView(directions: seq<DirectionView>, crossedOutSlots: seq<CrossedSlot>)

  /**
   * One submarine.  `lastMove` is submarineStateData.POST_MOVEMENT.directionMoved and
   * `xoChargedGauge` is submarineStateData.MOVED.xoChargedGauge read as a truth value;
   * an absent track, gauge table or layout is `None`.
   */
  datatype SubView = SubView(
    id: string,
    co: Option<string>, xo: Option<string>, sonar: Option<string>, eng: Option<string>,
    submarineState: string,
    lastMove: Option<string>,
    xoChargedGauge: bool,
    row: int, col: int,
    pastTrack: Option<seq<Position>>,
    actionGauges: Option<map<string, int>>,
    engineLayout: Option<EngineView>,
    health: int)

  /** A state update: the phase, the submarines and the board (0 is water). */
  datatype GameView = GameView(phase: string, submarines: seq<SubView>, board: seq<seq<int>>)

  /** The player holds one of the four role slots of the submarine. */
  predicate HoldsRole(s: SubView, pid: string) {
    s.co == Some(pid) || s.xo == Some(pid) || s.sonar == Some(pid) || s.eng == Some(pid)
  }

  /**
   * `submarines.find(s => s.co === id || s.xo === id || s.sonar === id || s.eng === id)`,
   * as an index: the first submarine on which the player holds a role.
   */
  function FindPlayerSub(subs: seq<SubView>, pid: string): (r: Option<nat>)
    ensures r.Some? ==> r.value < |subs| && HoldsRole(subs[r.value], pid)
    ensures r.Some? ==> forall j :: 0 <= j < r.value ==> !HoldsRole(subs[j], pid)
    ensures r.None? <==> forall j :: 0 <= j < |subs| ==> !HoldsRole(subs[j], pid)
  {
    if subs == [] then None
    else if HoldsRole(subs[0], pid) then Some(0)
    else match FindPlayerSub(subs[1..], pid)
      case None => None
      case Some(k) => Some(k + 1)
  }

  /** The player's submarine itself, when there is one. */
  function PlayerSub(subs: seq<SubView>, pid: string): (r: Option<SubView>)
    ensures r.Some? ==> r.value in subs && HoldsRole(r.value, pid)
    ensures r.None? ==> forall s :: s in subs ==> !HoldsRole(s, pid)
  {
    match FindPlayerSub(subs, pid)
    case None => None
    case Some(i) => Some(subs[i])
  }
}
