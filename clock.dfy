/** The simulation clock (RUNNING / FROZEN) and the game-phase manager. */
module Clock {

  type Listener = nat

  datatype ClockEvent = ClockStart | ClockStop

  /** One emission of the clock and the listeners it reached. */
  datatype ClockEmission = ClockEmission(event: ClockEvent, notified: set<Listener>)

  class SimulationClock {
    var running: bool
    var listeners: set<Listener>
    var emitted: seq<ClockEmission>

    constructor()
      ensures !running && listeners == {} && emitted == []
    {
      running := false;
      listeners := {};
      emitted := [];
    }

    /** Starts the clock; emits CLOCK_START only when it was stopped. */
    method Start()
      modifies this
      ensures running && listeners == old(listeners)
      ensures emitted == old(emitted) + (if old(running) then [] else [ClockEmission(ClockStart, listeners)])
    {
      if !running {
        running := true;
        emitted := emitted + [ClockEmission(ClockStart, listeners)];
      }
    }

    /** Stops the clock; emits CLOCK_STOP only when it was running. */
    method Stop()
      modifies this
      ensures !running && listeners == old(listeners)
      ensures emitted == old(emitted) + (if old(running) then [ClockEmission(ClockStop, listeners)] else [])
    {
      if running {
        running := false;
        emitted := emitted + [ClockEmission(ClockStop, listeners)];
      }
    }

    /** isRunning: the flag that Start sets and Stop clears. */
    function IsRunning(): (r: bool)
      reads this
      ensures r <==> running
    {
      running
    }

    method Subscribe(callback: Listener)
      modifies this
      ensures listeners == old(listeners) + {callback}
      ensures running == old(running) && emitted == old(emitted)
    {
      listeners := listeners + {callback};
    }

    method Unsubscribe(callback: Listener)
      modifies this
      ensures listeners == old(listeners) - {callback}
      ensures running == old(running) && emitted == old(emitted)
    {
      listeners := listeners - {callback};
    }
  }

  /** Repeated starts are idempotent: two starts emit at most one event and end running. */
  method StartTwice(c: SimulationClock)
    modifies c
    ensures c.running
    ensures |c.emitted| == |old(c.emitted)| + (if old(c.running) then 0 else 1)
  {
    c.Start();
    c.Start();
  }

  /** Repeated stops are idempotent: two stops emit at most one event and end stopped. */
  method StopTwice(c: SimulationClock)
    modifies c
    ensures !c.running
    ensures |c.emitted| == |old(c.emitted)| + (if old(c.running) then 1 else 0)
  {
    c.Stop();
    c.Stop();
  }

  datatype GamePhase = LOBBY | GAME_BEGINNING | LIVE | INTERRUPT | GAME_OVER

  /** The legal successors of each phase. */
  function PhaseSuccessors(p: GamePhase): seq<GamePhase> {
    match p
    case LOBBY => [GAME_BEGINNING, INTERRUPT, LIVE]
    case GAME_BEGINNING => [INTERRUPT, LIVE]
    case LIVE => [INTERRUPT, GAME_OVER, LOBBY]
    case INTERRUPT => [LIVE, GAME_OVER]
    case GAME_OVER => [LOBBY]
  }

  /** _isValidTransition: an edge of the table; no phase leads to itself, and GAME_OVER leads only to LOBBY. */
  function IsValidPhaseTransition(from: GamePhase, to: GamePhase): (r: bool)
    ensures r ==> from != to
    ensures from == GAME_OVER ==> (r <==> to == LOBBY)
  {
    to in PhaseSuccessors(from)
  }

  /**
   * Properties of the phase table: GAME_OVER leads only back to LOBBY, the lobby
   * cannot jump to GAME_OVER, no phase lists itself, and GAME_OVER is reached only
   * from LIVE or INTERRUPT.
   */
  lemma {:induction false} PhaseTableShape(p: GamePhase, q: GamePhase)
    ensures IsValidPhaseTransition(GAME_OVER, q) <==> q == LOBBY
    ensures !IsValidPhaseTransition(LOBBY, GAME_OVER)
    ensures !IsValidPhaseTransition(p, p)
    ensures IsValidPhaseTransition(p, GAME_OVER) <==> p == LIVE || p == INTERRUPT
  {
  }

  datatype PhaseEmission = PhaseChange(phase: GamePhase, oldPhase: GamePhase, notified: set<Listener>)

  /** What setPhase(to) emits from `from`: one PHASE_CHANGE along a table edge, nothing otherwise. */
  function PhaseChangeLog(from: GamePhase, to: GamePhase, notified: set<Listener>): seq<PhaseEmission> {
    if from != to && IsValidPhaseTransition(from, to) then [PhaseChange(to, from, notified)] else []
  }

  class GamePhaseManager {
    var phase: GamePhase
    var listeners: set<Listener>
    var emitted: seq<PhaseEmission>

    constructor()
      ensures phase == LOBBY && listeners == {} && emitted == []
    {
      phase := LOBBY;
      listeners := {};
      emitted := [];
    }

    /**
     * Moves to `newPhase` along a table edge, emitting one PHASE_CHANGE; the current
     * phase is a no-op and an illegal request changes nothing.
     */
    method SetPhase(newPhase: GamePhase)
      modifies this
      ensures listeners == old(listeners)
      ensures old(phase) != newPhase && IsValidPhaseTransition(old(phase), newPhase) ==>
        phase == newPhase && emitted == old(emitted) + [PhaseChange(newPhase, old(phase), listeners)]
      ensures old(phase) == newPhase || !IsValidPhaseTransition(old(phase), newPhase) ==>
        phase == old(phase) && emitted == old(emitted)
      ensures emitted == old(emitted) + PhaseChangeLog(old(phase), newPhase, listeners)
    {
      if phase == newPhase {
        return;
      }
      if IsValidPhaseTransition(phase, newPhase) {
        var oldPhase := phase;
        phase := newPhase;
        emitted := emitted + [PhaseChange(newPhase, oldPhase, listeners)];
      }
    }

    function GetPhase(): (p: GamePhase)
      reads this
      ensures p == phase
    {
      phase
    }

    method Subscribe(callback: Listener)
      modifies this
      ensures listeners == old(listeners) + {callback}
      ensures phase == old(phase) && emitted == old(emitted)
    {
      listeners := listeners + {callback};
    }

    method Unsubscribe(callback: Listener)
      modifies this
      ensures listeners == old(listeners) - {callback}
      ensures phase == old(phase) && emitted == old(emitted)
    {
      listeners := listeners - {callback};
    }
  }

  /** Every recorded phase change follows a table edge. */
  ghost predicate ChangesFollowTable(log: seq<PhaseEmission>) {
    forall i :: 0 <= i < |log| ==> IsValidPhaseTransition(log[i].oldPhase, log[i].phase)
  }

  /** SetPhase keeps the log of phase changes consistent with the table. */
  method SetPhaseKeepsLogLegal(m: GamePhaseManager, newPhase: GamePhase)
    requires ChangesFollowTable(m.emitted)
    modifies m
    ensures ChangesFollowTable(m.emitted)
  {
    m.SetPhase(newPhase);
  }
}
