/** The central coordinator of global interrupts: at most one is active at a time. */
module InterruptManager {
  import opened Wrappers
  import opened Clock

  /** An interrupt: its type and a payload of named values. */
  datatype Interrupt = Interrupt(kind: string, payload: map<string, string>)

  datatype InterruptEvent = InterruptStarted | InterruptUpdated | InterruptResolved | InterruptEnded

  datatype InterruptEmission = InterruptEmission(event: InterruptEvent, interrupt: Interrupt,
                                                 notified: set<Listener>)

  class Manager {
    const clock: SimulationClock
    const phases: GamePhaseManager
    var active: Option<Interrupt>
    var listeners: set<Listener>
    var emitted: seq<InterruptEmission>

    constructor(clock: SimulationClock, phases: GamePhaseManager)
      ensures this.clock == clock && this.phases == phases
      ensures active == None && listeners == {} && emitted == []
    {
      this.clock := clock;
      this.phases := phases;
      active := None;
      listeners := {};
      emitted := [];
    }

    /**
     * Starts an interrupt unless one is already active: the clock stops, the phase
     * manager is asked for INTERRUPT and interruptStarted is emitted.
     */
    method RequestInterrupt(kind: string, payload: map<string, string>)
      modifies this, clock, phases
      ensures listeners == old(listeners)
      ensures old(active).Some? ==>
        active == old(active) && emitted == old(emitted) &&
        clock.running == old(clock.running) && phases.phase == old(phases.phase)
      ensures clock.listeners == old(clock.listeners) && phases.listeners == old(phases.listeners)
      ensures old(active).Some? ==> clock.emitted == old(clock.emitted) && phases.emitted == old(phases.emitted)
      ensures old(active).None? ==>
        clock.emitted == old(clock.emitted) + (if old(clock.running) then [ClockEmission(ClockStop, clock.listeners)] else []) &&
        phases.emitted == old(phases.emitted) + PhaseChangeLog(old(phases.phase), INTERRUPT, phases.listeners)
      ensures old(active).None? ==>
        active == Some(Interrupt(kind, payload)) && !clock.running &&
        phases.phase == (if IsValidPhaseTransition(old(phases.phase), INTERRUPT) then INTERRUPT
                         else old(phases.phase)) &&
        emitted == old(emitted) + [InterruptEmission(InterruptStarted, Interrupt(kind, payload), listeners)]
    {
      if active.Some? {
        return;
      }
      active := Some(Interrupt(kind, payload));
      clock.Stop();
      phases.SetPhase(INTERRUPT);
      emitted := emitted + [InterruptEmission(InterruptStarted, active.value, listeners)];
    }

    /** Merges `payload` into the active interrupt's payload when the type matches. */
    method UpdateInterrupt(kind: string, payload: map<string, string>)
      modifies this
      ensures listeners == old(listeners)
      ensures old(active).Some? && old(active).value.kind == kind ==>
        active == Some(Interrupt(kind, old(active).value.payload + payload)) &&
        emitted == old(emitted) + [InterruptEmission(InterruptUpdated, active.value, listeners)]
      ensures !(old(active).Some? && old(active).value.kind == kind) ==>
        active == old(active) && emitted == old(emitted)
    {
      if active.Some? && active.value.kind == kind {
        active := Some(Interrupt(kind, active.value.payload + payload));
        emitted := emitted + [InterruptEmission(InterruptUpdated, active.value, listeners)];
      }
    }

    /**
     * Resolves the active interrupt of this type: interruptResolved, then the interrupt
     * ends.  Any other type changes nothing.
     */
    method ResolveInterrupt(kind: string)
      modifies this, clock, phases
      ensures listeners == old(listeners)
      ensures !(old(active).Some? && old(active).value.kind == kind) ==>
        active == old(active) && emitted == old(emitted) &&
        clock.running == old(clock.running) && phases.phase == old(phases.phase)
      ensures clock.listeners == old(clock.listeners) && phases.listeners == old(phases.listeners)
      ensures !(old(active).Some? && old(active).value.kind == kind) ==>
        clock.emitted == old(clock.emitted) && phases.emitted == old(phases.emitted)
      ensures old(active).Some? && old(active).value.kind == kind ==>
        clock.emitted == old(clock.emitted) + (if old(clock.running) then [] else [ClockEmission(ClockStart, clock.listeners)]) &&
        phases.emitted == old(phases.emitted) + PhaseChangeLog(old(phases.phase), LIVE, phases.listeners)
      ensures old(active).Some? && old(active).value.kind == kind ==>
        active == None && clock.running &&
        phases.phase == EndPhase(old(phases.phase)) &&
        emitted == old(emitted) + [InterruptEmission(InterruptResolved, old(active).value, listeners),
                                   InterruptEmission(InterruptEnded, old(active).value, listeners)]
    {
      if active.None? || active.value.kind != kind {
        return;
      }
      emitted := emitted + [InterruptEmission(InterruptResolved, active.value, listeners)];
      EndInterrupt();
    }

    /** Clears the active interrupt, restarts the clock and returns to LIVE unless the game is over. */
    method EndInterrupt()
      modifies this, clock, phases
      ensures listeners == old(listeners)
      ensures old(active).None? ==>
        active == None && emitted == old(emitted) &&
        clock.running == old(clock.running) && phases.phase == old(phases.phase)
      ensures clock.listeners == old(clock.listeners) && phases.listeners == old(phases.listeners)
      ensures old(active).None? ==> clock.emitted == old(clock.emitted) && phases.emitted == old(phases.emitted)
      ensures old(active).Some? ==>
        clock.emitted == old(clock.emitted) + (if old(clock.running) then [] else [ClockEmission(ClockStart, clock.listeners)]) &&
        phases.emitted == old(phases.emitted) + PhaseChangeLog(old(phases.phase), LIVE, phases.listeners)
      ensures old(active).Some? ==>
        active == None && clock.running && phases.phase == EndPhase(old(phases.phase)) &&
        emitted == old(emitted) + [InterruptEmission(InterruptEnded, old(active).value, listeners)]
    {
      if active.None? {
        return;
      }
      var ended := active.value;
      active := None;
      clock.Start();
      if phases.GetPhase() != GAME_OVER {
        phases.SetPhase(LIVE);
      }
      emitted := emitted + [InterruptEmission(InterruptEnded, ended, listeners)];
    }

    function GetActiveInterrupt(): (r: Option<Interrupt>)
      reads this
      ensures r == active
    {
      active
    }

    method Subscribe(callback: Listener)
      modifies this
      ensures listeners == old(listeners) + {callback}
      ensures active == old(active) && emitted == old(emitted)
    {
      listeners := listeners + {callback};
    }

    method Unsubscribe(callback: Listener)
      modifies this
      ensures listeners == old(listeners) - {callback}
      ensures active == old(active) && emitted == old(emitted)
    {
      listeners := listeners - {callback};
    }
  }

  /** The phase an interrupt leaves behind, given the phase when it ends. */
  function EndPhase(p: GamePhase): (q: GamePhase)
    ensures p == GAME_OVER ==> q == GAME_OVER
    ensures p == INTERRUPT ==> q == LIVE
    ensures q == p || IsValidPhaseTransition(p, q)
  {
    if p != GAME_OVER && IsValidPhaseTransition(p, LIVE) then LIVE else p
  }

  /**
   * From LIVE, an interrupt followed by its resolution restores LIVE with the clock
   * running and no interrupt left.
   */
  method InterruptRoundTrip(m: Manager, kind: string, payload: map<string, string>)
    requires m.active.None? && m.phases.phase == LIVE
    modifies m, m.clock, m.phases
    ensures m.active.None? && m.phases.phase == LIVE && m.clock.running
  {
    m.RequestInterrupt(kind, payload);
    assert m.phases.phase == INTERRUPT;
    m.ResolveInterrupt(kind);
  }
}
