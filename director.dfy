/**
 * The Director: a mock server that replays a scenario's timeline of events,
 * step by step or on timers, and injects events by hand.
 */
module DirectorMode {
  import opened Wrappers

  /** An event payload; the model keeps its content as text. */
  type Data = string

  /** A timeline entry: an event name, its payload and the delay before it on timers. */
  datatype TimelineEvent = TimelineEvent(eventType: string, data: Option<Data>, delay: Option<int>)

  datatype Scenario = Scenario(name: Option<string>, timeline: Option<seq<TimelineEvent>>, initialState: Option<Data>)

  /** loadScenario's argument: a registry key or a scenario object. */
  datatype ScenarioRef = ByKey(key: string) | ByValue(scenario: Scenario)

  /** One `emit(name, data)` to the Director's listeners. */
  datatype Emission = Emission(eventName: string, data: Option<Data>)

  /** A pending setTimeout of _executeNext, with the event it will emit. */
  datatype Timer = Timer(id: nat, event: TimelineEvent)

  /** The two event names that carry a game state. */
  predicate IsStateEvent(name: string) {
    name == "state" || name == "GAME_STATE"
  }

  /** clearTimeout: the timer with that id is no longer pending. */
  function Cancel(timers: seq<Timer>, id: Option<nat>): (r: seq<Timer>)
    ensures forall t :: t in r <==> t in timers && Some(t.id) != id
    ensures |r| <= |timers|
  {
    if timers == [] then []
    else if Some(timers[0].id) == id then Cancel(timers[1..], id)
    else [timers[0]] + Cancel(timers[1..], id)
  }

  /** Everything a Director holds, as one value. */
  datatype DirectorVars = DirectorVars(
    scenarios: map<string, Scenario>, currentScenario: Option<Scenario>,
    timeline: seq<TimelineEvent>, timelineIndex: nat, isPaused: bool,
    timerId: Option<nat>, timers: seq<Timer>, nextTimer: nat,
    lastEmittedEvent: Option<Emission>, lastState: Option<Data>, emitted: seq<Emission>)

  /** _emitEvent on a snapshot: a state event is cached, and the event is recorded and emitted. */
  function EmittedBy(v: DirectorVars, event: TimelineEvent): DirectorVars {
    v.(lastState := if IsStateEvent(event.eventType) then event.data else v.lastState,
       lastEmittedEvent := Some(Emission(event.eventType, event.data)),
       emitted := v.emitted + [Emission(event.eventType, event.data)])
  }

  /** _executeNext on a snapshot: unless paused or at the end, the next event is taken and a timer set for it. */
  function Scheduled(v: DirectorVars): DirectorVars {
    if v.isPaused || v.timelineIndex >= |v.timeline| then v
    else v.(timelineIndex := v.timelineIndex + 1,
            timers := v.timers + [Timer(v.nextTimer, v.timeline[v.timelineIndex])],
            timerId := Some(v.nextTimer), nextTimer := v.nextTimer + 1)
  }

  class Director {
    var scenarios: map<string, Scenario>
    var currentScenario: Option<Scenario>
    var timeline: seq<TimelineEvent>
    var timelineIndex: nat
    var isPaused: bool
    /** The id of the last timer set, and the timers still pending. */
    var timerId: Option<nat>
    var timers: seq<Timer>
    var nextTimer: nat
    var lastEmittedEvent: Option<Emission>
    var lastState: Option<Data>
    /** Everything emitted to the listeners, oldest first. */
    var emitted: seq<Emission>

    /** The cursor never runs past the timeline, and timer ids are issued once. */
    ghost predicate Valid()
      reads this
    {
      timelineIndex <= |timeline| &&
      (forall i :: 0 <= i < |timers| ==> timers[i].id < nextTimer) &&
      (timerId.Some? ==> timerId.value < nextTimer)
    }

    function Vars(): DirectorVars
      reads this
    {
      DirectorVars(scenarios, currentScenario, timeline, timelineIndex, isPaused,
                   timerId, timers, nextTimer, lastEmittedEvent, lastState, emitted)
    }

    constructor()
      ensures Valid()
      ensures scenarios == map[] && currentScenario.None? && timeline == [] && timelineIndex == 0
      ensures !isPaused && timerId.None? && timers == [] && lastEmittedEvent.None? && lastState.None? && emitted == []
    {
      scenarios := map[];
      currentScenario := None;
      timeline := [];
      timelineIndex := 0;
      isPaused := false;
      timerId := None;
      timers := [];
      nextTimer := 0;
      lastEmittedEvent := None;
      lastState := None;
      emitted := [];
    }

    /** registerScenarios: the registry's entries are added, replacing those of the same key. */
    method RegisterScenarios(registry: map<string, Scenario>)
      requires Valid()
      modifies this
      ensures Valid() && scenarios == old(scenarios) + registry
      ensures timeline == old(timeline) && timelineIndex == old(timelineIndex) && emitted == old(emitted)
      ensures Vars() == old(Vars()).(scenarios := old(scenarios) + registry)
    {
      scenarios := scenarios + registry;
    }

    /**
     * loadScenario: an unknown key changes nothing; a scenario found installs its
     * timeline at index 0, unpaused, and emits and caches its initial state if it has one.
     */
    method LoadScenario(keyOrScenario: ScenarioRef)
      requires Valid()
      modifies this
      ensures Valid()
      ensures keyOrScenario.ByKey? && keyOrScenario.key !in old(scenarios) ==>
        currentScenario == old(currentScenario) && timeline == old(timeline) &&
        timelineIndex == old(timelineIndex) && isPaused == old(isPaused) &&
        lastState == old(lastState) && emitted == old(emitted)
      ensures keyOrScenario.ByValue? || keyOrScenario.key in old(scenarios) ==>
        var scenario := if keyOrScenario.ByValue? then keyOrScenario.scenario else old(scenarios)[keyOrScenario.key];
        currentScenario == Some(scenario) && timeline == scenario.timeline.GetOr([]) &&
        timelineIndex == 0 && !isPaused &&
        lastState == (if scenario.initialState.Some? then scenario.initialState else old(lastState)) &&
        emitted == old(emitted) + (if scenario.initialState.Some? then [Emission("state", scenario.initialState)] else [])
      ensures scenarios == old(scenarios) && timers == old(timers) && timerId == old(timerId)
      ensures lastEmittedEvent == old(lastEmittedEvent) && nextTimer == old(nextTimer)
    {
      var scenario: Scenario;
      if keyOrScenario.ByKey? {
        if keyOrScenario.key !in scenarios {
          return;
        }
        scenario := scenarios[keyOrScenario.key];
      } else {
        scenario := keyOrScenario.scenario;
      }
      currentScenario := Some(scenario);
      timeline := scenario.timeline.GetOr([]);
      timelineIndex := 0;
      isPaused := false;
      if scenario.initialState.Some? {
        lastState := scenario.initialState;
        emitted := emitted + [Emission("state", scenario.initialState)];
      }
    }

    /** _emitEvent: a state event is cached, and every one is recorded as the last emitted and emitted. */
    method EmitEvent(event: TimelineEvent)
      requires Valid()
      modifies this
      ensures Valid()
      ensures lastState == if IsStateEvent(event.eventType) then event.data else old(lastState)
      ensures lastEmittedEvent == Some(Emission(event.eventType, event.data))
      ensures emitted == old(emitted) + [Emission(event.eventType, event.data)]
      ensures timeline == old(timeline) && timelineIndex == old(timelineIndex) && isPaused == old(isPaused)
      ensures timers == old(timers) && timerId == old(timerId) && nextTimer == old(nextTimer)
      ensures scenarios == old(scenarios) && currentScenario == old(currentScenario)
      ensures Vars() == EmittedBy(old(Vars()), event)
    {
      if IsStateEvent(event.eventType) {
        lastState := event.data;
      }
      lastEmittedEvent := Some(Emission(event.eventType, event.data));
      emitted := emitted + [Emission(event.eventType, event.data)];
    }

    /** step: the event under the cursor is emitted and the cursor advances; at the end nothing happens. */
    method Step()
      requires Valid()
      modifies this
      ensures Valid()
      ensures old(timelineIndex) >= |timeline| ==>
        timelineIndex == old(timelineIndex) && emitted == old(emitted) &&
        lastState == old(lastState) && lastEmittedEvent == old(lastEmittedEvent)
      ensures old(timelineIndex) < |timeline| ==>
        var event := timeline[old(timelineIndex)];
        timelineIndex == old(timelineIndex) + 1 &&
        emitted == old(emitted) + [Emission(event.eventType, event.data)] &&
        lastEmittedEvent == Some(Emission(event.eventType, event.data)) &&
        lastState == if IsStateEvent(event.eventType) then event.data else old(lastState)
      ensures timeline == old(timeline) && isPaused == old(isPaused) && timers == old(timers) && timerId == old(timerId)
      ensures old(timelineIndex) >= |old(timeline)| ==> Vars() == old(Vars())
      ensures old(timelineIndex) < |old(timeline)| ==>
        Vars() == EmittedBy(old(Vars()).(timelineIndex := old(timelineIndex) + 1), old(timeline)[old(timelineIndex)])
    {
      if timelineIndex >= |timeline| {
        return;
      }
      var event := timeline[timelineIndex];
      timelineIndex := timelineIndex + 1;
      EmitEvent(event);
    }

    /** _executeNext: unless paused or at the end, the next event is taken and a timer set for it. */
    method ExecuteNext()
      requires Valid()
      modifies this
      ensures Valid()
      ensures isPaused || old(timelineIndex) >= |timeline| ==>
        timelineIndex == old(timelineIndex) && timers == old(timers) && timerId == old(timerId)
      ensures !isPaused && old(timelineIndex) < |timeline| ==>
        timelineIndex == old(timelineIndex) + 1 &&
        timers == old(timers) + [Timer(old(nextTimer), timeline[old(timelineIndex)])] &&
        timerId == Some(old(nextTimer))
      ensures timeline == old(timeline) && isPaused == old(isPaused) && emitted == old(emitted)
      ensures lastState == old(lastState) && lastEmittedEvent == old(lastEmittedEvent)
      ensures Vars() == Scheduled(old(Vars()))
    {
      if isPaused || timelineIndex >= |timeline| {
        return;
      }
      var event := timeline[timelineIndex];
      timelineIndex := timelineIndex + 1;
      timers := timers + [Timer(nextTimer, event)];
      timerId := Some(nextTimer);
      nextTimer := nextTimer + 1;
    }

    /** play: a non-empty timeline is unpaused and its next event scheduled. */
    method Play()
      requires Valid()
      modifies this
      ensures Valid()
      ensures |timeline| == 0 ==> isPaused == old(isPaused) && timers == old(timers) && timelineIndex == old(timelineIndex)
      ensures |timeline| > 0 ==> !isPaused
      ensures |timeline| > 0 && old(timelineIndex) < |timeline| ==>
        timelineIndex == old(timelineIndex) + 1 && timers == old(timers) + [Timer(old(nextTimer), timeline[old(timelineIndex)])]
      ensures timeline == old(timeline) && emitted == old(emitted)
      ensures |old(timeline)| == 0 ==> Vars() == old(Vars())
      ensures |old(timeline)| > 0 ==> Vars() == Scheduled(old(Vars()).(isPaused := false))
    {
      if |timeline| == 0 {
        return;
      }
      isPaused := false;
      ExecuteNext();
    }

    /** A pending timer fires: its event is emitted and the one after it scheduled. */
    method TimerFires(k: nat)
      requires Valid() && k < |timers|
      modifies this
      ensures Valid()
      ensures var event := old(timers)[k].event;
        emitted == old(emitted) + [Emission(event.eventType, event.data)] &&
        lastEmittedEvent == Some(Emission(event.eventType, event.data))
      ensures var rest := old(timers)[..k] + old(timers)[k + 1..];
        if isPaused || old(timelineIndex) >= |timeline| then timers == rest && timelineIndex == old(timelineIndex)
        else timers == rest + [Timer(old(nextTimer), timeline[old(timelineIndex)])] && timelineIndex == old(timelineIndex) + 1
      ensures timeline == old(timeline) && isPaused == old(isPaused)
      ensures Vars() == Scheduled(EmittedBy(old(Vars()).(timers := old(timers)[..k] + old(timers)[k + 1..]), old(timers)[k].event))
    {
      var t := timers[k];
      timers := timers[..k] + timers[k + 1..];
      EmitEvent(t.event);
      ExecuteNext();
    }

    /** pause: paused, and the last timer set is cancelled. */
    method Pause()
      requires Valid()
      modifies this
      ensures Valid() && isPaused
      ensures timers == (if old(timerId).Some? then Cancel(old(timers), old(timerId)) else old(timers)) && timerId.None?
      ensures timeline == old(timeline) && timelineIndex == old(timelineIndex) && emitted == old(emitted)
      ensures lastState == old(lastState)
      ensures Vars() == old(Vars()).(isPaused := true, timerId := None,
        timers := if old(timerId).Some? then Cancel(old(timers), old(timerId)) else old(timers))
    {
      isPaused := true;
      if timerId.Some? {
        timers := Cancel(timers, timerId);
        timerId := None;
      }
    }

    /** resume: only a paused Director resumes, scheduling the next event. */
    method Resume()
      requires Valid()
      modifies this
      ensures Valid()
      ensures !old(isPaused) ==>
        isPaused == old(isPaused) && timelineIndex == old(timelineIndex) &&
        timers == old(timers) && timerId == old(timerId) && emitted == old(emitted)
      ensures old(isPaused) ==> !isPaused
      ensures old(isPaused) && old(timelineIndex) < |timeline| ==>
        timelineIndex == old(timelineIndex) + 1 &&
        timers == old(timers) + [Timer(old(nextTimer), timeline[old(timelineIndex)])]
      ensures timeline == old(timeline) && emitted == old(emitted)
      ensures !old(isPaused) ==> Vars() == old(Vars())
      ensures old(isPaused) ==> Vars() == Scheduled(old(Vars()).(isPaused := false))
    {
      if !isPaused {
        return;
      }
      isPaused := false;
      ExecuteNext();
    }

    /** reset: back to the start, unpaused, the last timer cancelled and the initial state emitted again. */
    method Reset()
      requires Valid()
      modifies this
      ensures Valid()
      ensures timelineIndex == 0 && !isPaused && timerId.None?
      ensures timers == if old(timerId).Some? then Cancel(old(timers), old(timerId)) else old(timers)
      ensures var init := if currentScenario.Some? then currentScenario.value.initialState else None;
        emitted == old(emitted) + (if init.Some? then [Emission("state", init)] else [])
      ensures lastState == old(lastState) && lastEmittedEvent == old(lastEmittedEvent)
      ensures timeline == old(timeline) && currentScenario == old(currentScenario)
      ensures var init := if old(currentScenario).Some? then old(currentScenario).value.initialState else None;
        Vars() == old(Vars()).(timelineIndex := 0, isPaused := false, timerId := None,
          timers := if old(timerId).Some? then Cancel(old(timers), old(timerId)) else old(timers),
          emitted := old(emitted) + (if init.Some? then [Emission("state", init)] else []))
    {
      timelineIndex := 0;
      isPaused := false;
      if timerId.Some? {
        timers := Cancel(timers, timerId);
        timerId := None;
      }
      if currentScenario.Some? && currentScenario.value.initialState.Some? {
        emitted := emitted + [Emission("state", currentScenario.value.initialState)];
      }
    }

    /** injectEvent: emitted as given, and cached when it carries a state; the last emitted event is untouched. */
    method InjectEvent(eventName: string, data: Option<Data>)
      requires Valid()
      modifies this
      ensures Valid()
      ensures lastState == if IsStateEvent(eventName) then data else old(lastState)
      ensures emitted == old(emitted) + [Emission(eventName, data)]
      ensures lastEmittedEvent == old(lastEmittedEvent)
      ensures timeline == old(timeline) && timelineIndex == old(timelineIndex) && isPaused == old(isPaused) && timers == old(timers)
      ensures Vars() == old(Vars()).(lastState := if IsStateEvent(eventName) then data else old(lastState),
                                     emitted := old(emitted) + [Emission(eventName, data)])
    {
      if IsStateEvent(eventName) {
        lastState := data;
      }
      emitted := emitted + [Emission(eventName, data)];
    }
  }
}
