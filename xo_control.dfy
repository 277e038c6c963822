/**
 * XOController of src/control: the first officer's gauge levels, the interaction
 * lock, the rows' interactive flags and the charge / discharge requests.
 */
module XoControl {
  import opened Wrappers
  import opened ClientView
  import opened BaseControl

  /** The keys of subsystemLevels, in their declaration order. */
  const LevelKeys: seq<string> := ["sonar", "drone", "mine", "torpedo", "silence", "scenario"]

  const MaxLevels: map<string, int> :=
    map["sonar" := 3, "drone" := 3, "mine" := 3, "torpedo" := 3, "silence" := 5, "scenario" := 5]

  const InitialLevels: map<string, int> :=
    map["sonar" := 0, "drone" := 0, "mine" := 0, "torpedo" := 0, "silence" := 0, "scenario" := 0]

  const ChargeSubsystem := "CHARGE_SUBSYSTEM"
  const DischargeSubsystem := "DISCHARGE_SUBSYSTEM"
  const DirectorCmd := "DIRECTOR_CMD"

  /** The XO handler table replaces the base one. */
  const XoHandlers: set<string> := {ChargeSubsystem, DischargeSubsystem, DirectorCmd}

  /** Every subsystem has a cap: 3 for the four weapons and sensors, 5 for silence and the scenario. */
  lemma {:induction false} CapsTable()
    ensures MaxLevels.Keys == InitialLevels.Keys == set k | k in LevelKeys
    ensures forall i :: 0 <= i < 4 ==> MaxLevels[LevelKeys[i]] == 3
    ensures MaxLevels["silence"] == 5 && MaxLevels["scenario"] == 5
  {
  }

  /** `level >= max`; an unknown key reads undefined on both sides, which is never full. */
  predicate IsFull(levels: map<string, int>, key: Option<string>) {
    key.Some? && key.value in levels && key.value in MaxLevels && levels[key.value] >= MaxLevels[key.value]
  }

  /** `level < max`, the test handleDischarge returns on; false for an unknown key. */
  predicate IsBelowCap(levels: map<string, int>, key: Option<string>) {
    key.Some? && key.value in levels && key.value in MaxLevels && levels[key.value] < MaxLevels[key.value]
  }

  /**
   * isInteractionLocked: locked unless the phase is LIVE, the clock runs, the
   * submarine has MOVED and its XO has not charged yet.
   */
  function Locked(phase: string, sub: SubView, clockRunning: bool): (locked: bool)
    ensures !locked <==> phase == "LIVE" && clockRunning && sub.submarineState == "MOVED" && !sub.xoChargedGauge
  {
    var isLive := phase == "LIVE";
    var isMoved := sub.submarineState == "MOVED";
    var hasCharged := isMoved && sub.xoChargedGauge;
    !isLive || !clockRunning || (isMoved && hasCharged) || !isMoved
  }

  /** A row may be clicked to charge (unlocked and not full) or to discharge (LIVE and full). */
  function RowInteractive(levels: map<string, int>, key: string, locked: bool, isLive: bool): (on: bool)
    ensures !IsFull(levels, Some(key)) ==> (on <==> !locked)
    ensures IsFull(levels, Some(key)) ==> (on <==> isLive)
  {
    var isFull := IsFull(levels, Some(key));
    (!locked && !isFull) || (isLive && isFull)
  }

  predicate IsRowId(id: string) {
    |id| >= 4 && id[..4] == "row_"
  }

  /** `id.replace('row_', '')` for an id that starts with the prefix. */
  function RowKey(id: string): (key: string)
    requires IsRowId(id)
    ensures id == "row_" + key
  {
    id[4..]
  }

  /** The gauge value the server reports for `key`, when it reports one. */
  function Reported(gauges: Option<map<string, int>>, key: string): Option<int> {
    if gauges.Some? && key in gauges.value then Some(gauges.value[key]) else None
  }

  /** The levels after syncing the first `done` keys. */
  function SyncedLevels(levels: map<string, int>, gauges: Option<map<string, int>>, done: nat): map<string, int>
    requires done <= |LevelKeys|
  {
    map k | k in levels :: if k in LevelKeys[..done] && Reported(gauges, k).Some? then Reported(gauges, k).value else levels[k]
  }

  /** The gauge rows after syncing the first `done` keys (setGaugeLevel on row_<key>). */
  function SyncedRows(visuals: map<string, Visual>, gauges: Option<map<string, int>>, done: nat): map<string, Visual>
    requires done <= |LevelKeys|
  {
    map id | id in visuals ::
      if IsRowId(id) && RowKey(id) in LevelKeys[..done] && Reported(gauges, RowKey(id)).Some? && visuals[id].GaugeRow?
      then visuals[id].(level := Reported(gauges, RowKey(id)).value)
      else visuals[id]
  }

  /** The rows' interactive flags after the lock has been computed. */
  function InteractiveRows(visuals: map<string, Visual>, levels: map<string, int>, locked: bool, isLive: bool): map<string, Visual> {
    map id | id in visuals ::
      if IsRowId(id) && visuals[id].GaugeRow?
      then visuals[id].(interactive := RowInteractive(levels, RowKey(id), locked, isLive))
      else visuals[id]
  }

  /** Every field of an XOController. */
  datatype XoVars = XoVars(base: BaseVars, levels: map<string, int>, locked: bool)

  /**
   * onGameStateUpdate for the player's submarine `sub`: levels follow the server's
   * gauges for the keys it reports, the lock is recomputed and every gauge row's
   * interactive flag follows RowInteractive.
   */
  function XoSubUpdate(x: XoVars, phase: string, sub: SubView, clockRunning: bool): (r: XoVars)
    ensures r.levels.Keys == x.levels.Keys && r.base.visuals.Keys == x.base.visuals.Keys
    ensures forall k :: k in x.levels && k in LevelKeys ==>
      r.levels[k] == if Reported(sub.actionGauges, k).Some? then Reported(sub.actionGauges, k).value else x.levels[k]
    ensures r.locked == Locked(phase, sub, clockRunning)
    ensures forall id :: id in r.base.visuals && IsRowId(id) && x.base.visuals[id].GaugeRow? ==>
      r.base.visuals[id].GaugeRow? &&
      r.base.visuals[id].interactive == RowInteractive(r.levels, RowKey(id), r.locked, phase == "LIVE")
    ensures r.base == x.base.(visuals := r.base.visuals)
    ensures forall k :: k in x.levels && k !in LevelKeys ==> r.levels[k] == x.levels[k]
    ensures forall id :: id in r.base.visuals && IsRowId(id) && x.base.visuals[id].GaugeRow? ==>
      r.base.visuals[id].level ==
        if RowKey(id) in LevelKeys && Reported(sub.actionGauges, RowKey(id)).Some?
        then Reported(sub.actionGauges, RowKey(id)).value else x.base.visuals[id].level
    ensures forall id :: id in r.base.visuals && !(IsRowId(id) && x.base.visuals[id].GaugeRow?) ==>
      r.base.visuals[id] == x.base.visuals[id]
  {
    var levels := SyncedLevels(x.levels, sub.actionGauges, |LevelKeys|);
    var synced := SyncedRows(x.base.visuals, sub.actionGauges, |LevelKeys|);
    var locked := Locked(phase, sub, clockRunning);
    XoVars(x.base.(visuals := InteractiveRows(synced, levels, locked, phase == "LIVE")), levels, locked)
  }

  /** onGameStateUpdate: nothing happens without a socket, a player id, a state or the player's submarine. */
  function XoStateUpdate(x: XoVars, state: Option<GameView>, clockRunning: bool): (r: XoVars)
    ensures x.base.socket.None? || x.base.socket.value.playerId == "" || state.None? ==> r == x
    ensures x.base.socket.Some? && x.base.socket.value.playerId != "" && state.Some? ==>
      (match PlayerSub(state.value.submarines, x.base.socket.value.playerId)
       case None => r == x
       case Some(sub) => r == XoSubUpdate(x, state.value.phase, sub, clockRunning))
    ensures r.base.sent == x.base.sent && r.base.warnings == x.base.warnings &&
            r.base.buttons == x.base.buttons && r.base.socket == x.base.socket
  {
    if x.base.socket.None? || x.base.socket.value.playerId == "" || state.None? then x
    else match PlayerSub(state.value.submarines, x.base.socket.value.playerId)
      case None => x
      case Some(sub) => XoSubUpdate(x, state.value.phase, sub, clockRunning)
  }

  /** handleCharge: asks the server to charge only when unlocked and not full. */
  function XoCharge(x: XoVars, key: Option<string>): (r: XoVars)
    ensures x.locked || IsFull(x.levels, key) || x.base.socket.None? ==> r == x
    ensures !x.locked && !IsFull(x.levels, key) && x.base.socket.Some? ==>
      r == x.(base := x.base.(sent := x.base.sent + [ChargeGaugeCall(key)]))
  {
    if x.locked || IsFull(x.levels, key) || x.base.socket.None? then x
    else x.(base := x.base.(sent := x.base.sent + [ChargeGaugeCall(key)]))
  }

  /**
   * handleDischarge: emits 'discharge_gauge' unless the level is below the cap.  A
   * key naming no subsystem compares undefined with undefined and is not below it.
   */
  function XoDischarge(x: XoVars, key: Option<string>): (r: XoVars)
    ensures IsBelowCap(x.levels, key) || x.base.socket.None? ==> r == x
    ensures !IsBelowCap(x.levels, key) && x.base.socket.Some? ==>
      r == x.(base := x.base.(sent := x.base.sent + [Emit("discharge_gauge", key)]))
  {
    if IsBelowCap(x.levels, key) || x.base.socket.None? then x
    else x.(base := x.base.(sent := x.base.sent + [Emit("discharge_gauge", key)]))
  }

  /**
   * Every XO handler destructures its payload (handleDirectorCmd reads `cmd.type`), so a
   * handled event without one throws; a director command routed to a handled event throws
   * as that event does.
   */
  predicate XoThrows(eventType: string, payload: Option<Payload>)
    decreases payload, 1
  {
    eventType in XoHandlers &&
    (payload.None? || (eventType == DirectorCmd && XoDirectorThrows(payload.value)))
  }

  predicate XoDirectorThrows(cmd: Payload)
    decreases cmd, 0
  {
    match RouteDirectorCmd(cmd, XoHandlers)
    case ToEvent(t, p) => XoThrows(t, p)
    case _ => false
  }

  /** The XO handler table; the base handlers (ISOLATE_SYSTEM, ...) are not in it. */
  function XoEvent(x: XoVars, clockRunning: bool, eventType: string, payload: Option<Payload>): (r: XoVars)
    ensures XoThrows(eventType, payload) ==> r == x
    ensures eventType !in XoHandlers ==> r == x.(base := x.base.(warnings := x.base.warnings + [eventType]))
    ensures eventType in XoHandlers ==> r.base.warnings == x.base.warnings
    decreases payload, 1
  {
    if eventType == ChargeSubsystem then
      if payload.None? then x else XoCharge(x, payload.value.key)
    else if eventType == DischargeSubsystem then
      if payload.None? then x else XoDischarge(x, payload.value.key)
    else if eventType == DirectorCmd then
      if payload.None? then x else XoDirector(x, clockRunning, payload.value)
    else x.(base := x.base.(warnings := x.base.warnings + [eventType]))
  }

  /** handleDirectorCmd with the XO state hook and handler table. */
  function XoDirector(x: XoVars, clockRunning: bool, cmd: Payload): (r: XoVars)
    ensures r.base.warnings == x.base.warnings
    ensures XoDirectorThrows(cmd) ==> r == x
    decreases cmd, 0
  {
    match RouteDirectorCmd(cmd, XoHandlers)
    case ToStateHook(s) => XoStateUpdate(x, s, clockRunning)
    case ToEvent(t, p) => XoEvent(x, clockRunning, t, p)
    case Ignored => x
  }

  /** With the XO table, a lockdown event is reported as unhandled and locks nothing. */
  lemma {:induction false} XoIgnoresIsolation(x: XoVars, clockRunning: bool, payload: Option<Payload>)
    ensures XoEvent(x, clockRunning, IsolateSystem, payload).base.buttons == x.base.buttons
  {
  }

  /** A charge request can only be sent while the XO may act after a move. */
  lemma {:induction false} ChargeSentOnlyWhenUnlocked(x: XoVars, phase: string, sub: SubView, clockRunning: bool, key: Option<string>)
    ensures var y := XoSubUpdate(x, phase, sub, clockRunning);
      |XoCharge(y, key).base.sent| > |y.base.sent| ==>
        phase == "LIVE" && clockRunning && sub.submarineState == "MOVED" && !sub.xoChargedGauge
  {
  }

  class XoController {
    const base: BaseController
    var levels: map<string, int>
    var locked: bool

    function Vars(): XoVars
      reads this, base
    {
      XoVars(base.Vars(), levels, locked)
    }

    constructor()
      ensures fresh(base)
      ensures Vars() == XoVars(BaseVars(map[], map[], map[], None, None, false, [], [], []), InitialLevels, false)
    {
      base := new BaseController();
      levels := InitialLevels;
      locked := false;
    }

    /** Step 1 of onGameStateUpdate: copies each reported gauge into levels and its row. */
    method SyncLevels(gauges: Option<map<string, int>>)
      modifies this, base
      ensures levels == SyncedLevels(old(levels), gauges, |LevelKeys|)
      ensures base.Vars() == old(base.Vars()).(visuals := SyncedRows(old(base.visuals), gauges, |LevelKeys|))
      ensures locked == old(locked)
    {
      for i := 0 to |LevelKeys|
        invariant levels == SyncedLevels(old(levels), gauges, i)
        invariant base.Vars() == old(base.Vars()).(visuals := SyncedRows(old(base.visuals), gauges, i))
        invariant locked == old(locked)
      {
        var key := LevelKeys[i];
        SyncStep(old(levels), old(base.visuals), gauges, i);
        var reported := Reported(gauges, key);
        if reported.Some? {
          SyncedAgree(old(levels), old(base.visuals), gauges, i, reported.value);
          if key in levels {
            levels := levels[key := reported.value];
          }
          var rowId := "row_" + key;
          if rowId in base.visuals && base.visuals[rowId].GaugeRow? {
            base.SetVisual(rowId, base.visuals[rowId].(level := reported.value));
          }
        }
      }
    }

    /** Step 2 of onGameStateUpdate: setInteractiveState on every gauge row. */
    method UpdateRows(isLive: bool)
      modifies base
      ensures base.Vars() == old(base.Vars()).(visuals := InteractiveRows(old(base.visuals), levels, locked, isLive))
    {
      var todo := base.visuals.Keys;
      var result := base.visuals;
      while todo != {}
        invariant todo <= old(base.visuals).Keys && result.Keys == old(base.visuals).Keys
        invariant base.Vars() == old(base.Vars())
        invariant forall id :: id in result ==>
          result[id] == (if id !in todo && IsRowId(id) && old(base.visuals)[id].GaugeRow?
                         then old(base.visuals)[id].(interactive := RowInteractive(levels, RowKey(id), locked, isLive))
                         else old(base.visuals)[id])
        decreases todo
      {
        var id :| id in todo;
        if IsRowId(id) && result[id].GaugeRow? {
          var key := RowKey(id);
          var isFull := IsFull(levels, Some(key));
          var canCharge := !locked && !isFull;
          var canDischarge := isLive && isFull;
          result := result[id := result[id].(interactive := canCharge || canDischarge)];
        }
        todo := todo - {id};
      }
      base.visuals := result;
    }

    /** onGameStateUpdate, with the shared simulation clock's running flag as a parameter. */
    method OnGameStateUpdate(state: Option<GameView>, clockRunning: bool)
      modifies this, base
      ensures Vars() == XoStateUpdate(old(Vars()), state, clockRunning)
    {
      if base.socket.None? || base.socket.value.playerId == "" || state.None? {
        return;
      }
      var found := PlayerSub(state.value.submarines, base.socket.value.playerId);
      if found.None? {
        return;
      }
      var sub := found.value;
      SyncLevels(sub.actionGauges);
      var isLive := state.value.phase == "LIVE";
      locked := Locked(state.value.phase, sub, clockRunning);
      UpdateRows(isLive);
    }

    /** handleCharge: socket.chargeGauge(key) unless locked or full. */
    method HandleCharge(key: Option<string>)
      modifies base
      ensures Vars() == XoCharge(old(Vars()), key)
    {
      if locked || IsFull(levels, key) {
        return;
      }
      if base.socket.Some? {
        base.Send(ChargeGaugeCall(key));
      }
    }

    /** handleDischarge: emits 'discharge_gauge' unless the level is below the cap. */
    method HandleDischarge(key: Option<string>)
      modifies base
      ensures Vars() == XoDischarge(old(Vars()), key)
    {
      if IsBelowCap(levels, key) {
        return;
      }
      if base.socket.Some? {
        base.Send(Emit("discharge_gauge", key));
      }
    }

    /** handleEvent with the XO handler table. */
    method HandleEvent(eventType: string, payload: Option<Payload>, clockRunning: bool) returns (threw: bool)
      modifies this, base
      ensures threw <==> XoThrows(eventType, payload)
      ensures Vars() == XoEvent(old(Vars()), clockRunning, eventType, payload)
      decreases payload, 1
    {
      threw := false;
      if eventType in XoHandlers && payload.None? {
        return true;
      }
      if eventType == ChargeSubsystem {
        HandleCharge(payload.value.key);
      } else if eventType == DischargeSubsystem {
        HandleDischarge(payload.value.key);
      } else if eventType == DirectorCmd {
        threw := HandleDirectorCmd(payload.value, clockRunning);
      } else {
        base.Warn(eventType);
      }
    }

    /** handleDirectorCmd: a 'stateUpdate' runs onGameStateUpdate, a known type is handled as an event. */
    method HandleDirectorCmd(cmd: Payload, clockRunning: bool) returns (threw: bool)
      modifies this, base
      ensures threw <==> XoDirectorThrows(cmd)
      ensures Vars() == XoDirector(old(Vars()), clockRunning, cmd)
      decreases cmd, 0
    {
      threw := false;
      var route := RouteDirectorCmd(cmd, XoHandlers);
      match route
      case ToStateHook(s) => OnGameStateUpdate(s, clockRunning);
      case ToEvent(t, p) => threw := HandleEvent(t, p, clockRunning);
      case Ignored =>
    }
  }

  /** The partly synced maps have the same keys and row kinds, and setting a row's level forgets any earlier sync of it. */
  lemma {:induction false} SyncedAgree(levels: map<string, int>, visuals: map<string, Visual>,
                                       gauges: Option<map<string, int>>, i: nat, v: int)
    requires i < |LevelKeys|
    ensures LevelKeys[i] in SyncedLevels(levels, gauges, i) <==> LevelKeys[i] in levels
    ensures var rowId := "row_" + LevelKeys[i];
      (rowId in SyncedRows(visuals, gauges, i) <==> rowId in visuals) &&
      (rowId in visuals ==>
        SyncedRows(visuals, gauges, i)[rowId].GaugeRow? == visuals[rowId].GaugeRow? &&
        (visuals[rowId].GaugeRow? ==>
          SyncedRows(visuals, gauges, i)[rowId].(level := v) == visuals[rowId].(level := v)))
  {
  }

  lemma {:induction false} SyncStep(levels: map<string, int>, visuals: map<string, Visual>, gauges: Option<map<string, int>>, i: nat)
    requires i < |LevelKeys|
    ensures var key := LevelKeys[i];
      SyncedLevels(levels, gauges, i + 1) ==
      if Reported(gauges, key).Some? && key in levels
      then SyncedLevels(levels, gauges, i)[key := Reported(gauges, key).value]
      else SyncedLevels(levels, gauges, i)
    ensures var key := LevelKeys[i]; var rowId := "row_" + key;
      SyncedRows(visuals, gauges, i + 1) ==
      if Reported(gauges, key).Some? && rowId in visuals && visuals[rowId].GaugeRow?
      then SyncedRows(visuals, gauges, i)[rowId := visuals[rowId].(level := Reported(gauges, key).value)]
      else SyncedRows(visuals, gauges, i)
  {
    var key := LevelKeys[i];
    var rowId := "row_" + key;
    assert LevelKeys[..i + 1] == LevelKeys[..i] + [key];
    assert forall k :: k in LevelKeys[..i + 1] <==> k in LevelKeys[..i] || k == key;
    assert IsRowId(rowId) && RowKey(rowId) == key by {
      assert rowId[..4] == "row_";
    }
    forall id | id in visuals && IsRowId(id) && RowKey(id) == key
      ensures id == rowId
    {
    }
  }
}
