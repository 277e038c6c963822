/**
 * MessagesController: compares each game state with the previous one and turns
 * the differences (moves, damage, phase changes) into player messages.
 */
module MessagesControl {
  import opened Wrappers
  import opened MessageVocabulary
  import opened MessageBuilder

  /** The submarine fields the detectors read; each may be undefined. */
  datatype MsgSub = MsgSub(name: Option<string>, x: Option<int>, y: Option<int>, health: Option<int>)

  datatype MsgState = MsgState(phase: Option<string>, submarines: Option<seq<MsgSub>>)

  datatype Event = Event(eventType: string, data: seq<(string, DataValue)>)

  /** `state.submarines || []`. */
  function Subs(s: MsgState): seq<MsgSub> {
    s.submarines.GetOr([])
  }

  function Abs(n: int): nat {
    if n < 0 then -n else n
  }

  /** `newPos.c - oldPos.c`, where an undefined coordinate gives NaN (None). */
  function Delta(a: Option<int>, b: Option<int>): Option<int> {
    if a.Some? && b.Some? then Some(b.value - a.value) else None
  }

  /** getMovementDirection. */
  function MovementDirection(o: MsgSub, n: MsgSub): (r: string)
    ensures r == "east" || r == "west" || r == "south" || r == "north"
  {
    var dx, dy := Delta(o.x, n.x), Delta(o.y, n.y);
    if dx.Some? && dy.Some? && Abs(dx.value) > Abs(dy.value) then
      (if dx.value > 0 then "east" else "west")
    else if dy.Some? && dy.value > 0 then "south"
    else "north"
  }

  /**
   * East or west exactly when |dx| > |dy| (by the sign of dx), otherwise south
   * when dy > 0 and north else; a tie is vertical and every comparison with
   * NaN is false.
   */
  lemma {:induction false} MovementDirectionRule(o: MsgSub, n: MsgSub)
    ensures var d, dx, dy := MovementDirection(o, n), Delta(o.x, n.x), Delta(o.y, n.y);
      var horizontal := dx.Some? && dy.Some? && Abs(dx.value) > Abs(dy.value);
      (horizontal ==> d == (if dx.value > 0 then "east" else "west")) &&
      (!horizontal ==> d == (if dy.Some? && dy.value > 0 then "south" else "north"))
  {
  }

  /** A one-cell step is named by its heading: rows and columns as x and y. */
  lemma {:induction false} StepDirections(o: MsgSub, x: int, y: int)
    requires o.x == Some(x) && o.y == Some(y)
    ensures MovementDirection(o, o.(x := Some(x + 1))) == "east"
    ensures MovementDirection(o, o.(x := Some(x - 1))) == "west"
    ensures MovementDirection(o, o.(y := Some(y + 1))) == "south"
    ensures MovementDirection(o, o.(y := Some(y - 1))) == "north"
  {
  }

  function SubLabel(sub: MsgSub, i: nat): string {
    if sub.name.Some? && sub.name.value != "" then sub.name.value else "Submarine " + NatToString(i + 1)
  }

  predicate Moved(o: MsgSub, n: MsgSub) {
    o.x != n.x || o.y != n.y
  }

  /** `sub.health || 0`. */
  function Health(s: MsgSub): int {
    s.health.GetOr(0)
  }

  predicate Damaged(o: MsgSub, n: MsgSub) {
    Health(n) < Health(o)
  }

  function MoveEvent(olds: seq<MsgSub>, news: seq<MsgSub>, i: nat): Event
    requires i < |olds| && i < |news|
  {
    Event(Movement, [("submarine", Str(SubLabel(news[i], i))), ("direction", Str(MovementDirection(olds[i], news[i])))])
  }

  function DamageEvent(olds: seq<MsgSub>, news: seq<MsgSub>, i: nat): Event
    requires i < |olds| && i < |news|
  {
    Event(Damage, [("submarine", Str(SubLabel(news[i], i))), ("damage", Num(Health(olds[i]) - Health(news[i]))),
                   ("source", Str("unknown"))])
  }

  predicate Increasing(r: seq<nat>) {
    forall a, b :: 0 <= a < b < |r| ==> r[a] < r[b]
  }

  /** The indices below `n` where both submarines exist and the position changed. */
  function MovedIndices(olds: seq<MsgSub>, news: seq<MsgSub>, n: nat): (r: seq<nat>)
    requires n <= |news|
    ensures forall a :: 0 <= a < |r| ==> r[a] < n && r[a] < |olds|
  {
    if n == 0 then []
    else
      MovedIndices(olds, news, n - 1) + (if n - 1 < |olds| && Moved(olds[n - 1], news[n - 1]) then [n - 1] else [])
  }

  /** The indices listed are exactly those below `n` where the condition holds, in increasing order. */
  lemma {:induction false} MovedIndicesExact(olds: seq<MsgSub>, news: seq<MsgSub>, n: nat)
    requires n <= |news|
    ensures var r := MovedIndices(olds, news, n);
      (forall i: nat :: i in r <==> i < n && i < |olds| && Moved(olds[i], news[i])) &&
      (forall a, b :: 0 <= a < b < |r| ==> r[a] < r[b])
  {
    MovedIndicesMembers(olds, news, n);
    MovedIndicesIncrease(olds, news, n);
  }

  lemma {:induction false} MovedIndicesMembers(olds: seq<MsgSub>, news: seq<MsgSub>, n: nat)
    requires n <= |news|
    ensures forall i: nat :: i in MovedIndices(olds, news, n) <==> i < n && i < |olds| && Moved(olds[i], news[i])
  {
    if n > 0 {
      MovedIndicesMembers(olds, news, n - 1);
      var r0 := MovedIndices(olds, news, n - 1);
      var extra := if n - 1 < |olds| && Moved(olds[n - 1], news[n - 1]) then [n - 1] else [];
      assert MovedIndices(olds, news, n) == r0 + extra;
      forall i: nat
        ensures i in r0 + extra <==> i < n && i < |olds| && Moved(olds[i], news[i])
      {
        assert i in r0 + extra <==> i in r0 || i in extra;
      }
    }
  }

  lemma {:induction false} MovedIndicesIncrease(olds: seq<MsgSub>, news: seq<MsgSub>, n: nat)
    requires n <= |news|
    ensures Increasing(MovedIndices(olds, news, n))
  {
    if n > 0 {
      MovedIndicesIncrease(olds, news, n - 1);
      var r0 := MovedIndices(olds, news, n - 1);
      var extra := if n - 1 < |olds| && Moved(olds[n - 1], news[n - 1]) then [n - 1] else [];
      var r := r0 + extra;
      assert MovedIndices(olds, news, n) == r;
      forall a, b | 0 <= a < b < |r|
        ensures r[a] < r[b]
      {
        if b < |r0| {
          assert r[a] == r0[a] && r[b] == r0[b];
        } else {
          assert r[a] == r0[a] < n - 1;
          assert r[b] == extra[0] == n - 1;
        }
      }
    }
  }

  /** The indices below `n` where both submarines exist and health fell. */
  function DamagedIndices(olds: seq<MsgSub>, news: seq<MsgSub>, n: nat): (r: seq<nat>)
    requires n <= |news|
    ensures forall a :: 0 <= a < |r| ==> r[a] < n && r[a] < |olds|
  {
    if n == 0 then []
    else
      DamagedIndices(olds, news, n - 1) + (if n - 1 < |olds| && Damaged(olds[n - 1], news[n - 1]) then [n - 1] else [])
  }

  /** The indices listed are exactly those below `n` where the condition holds, in increasing order. */
  lemma {:induction false} DamagedIndicesExact(olds: seq<MsgSub>, news: seq<MsgSub>, n: nat)
    requires n <= |news|
    ensures var r := DamagedIndices(olds, news, n);
      (forall i: nat :: i in r <==> i < n && i < |olds| && Damaged(olds[i], news[i])) &&
      (forall a, b :: 0 <= a < b < |r| ==> r[a] < r[b])
  {
    DamagedIndicesMembers(olds, news, n);
    DamagedIndicesIncrease(olds, news, n);
  }

  lemma {:induction false} DamagedIndicesMembers(olds: seq<MsgSub>, news: seq<MsgSub>, n: nat)
    requires n <= |news|
    ensures forall i: nat :: i in DamagedIndices(olds, news, n) <==> i < n && i < |olds| && Damaged(olds[i], news[i])
  {
    if n > 0 {
      DamagedIndicesMembers(olds, news, n - 1);
      var r0 := DamagedIndices(olds, news, n - 1);
      var extra := if n - 1 < |olds| && Damaged(olds[n - 1], news[n - 1]) then [n - 1] else [];
      assert DamagedIndices(olds, news, n) == r0 + extra;
      forall i: nat
        ensures i in r0 + extra <==> i < n && i < |olds| && Damaged(olds[i], news[i])
      {
        assert i in r0 + extra <==> i in r0 || i in extra;
      }
    }
  }

  lemma {:induction false} DamagedIndicesIncrease(olds: seq<MsgSub>, news: seq<MsgSub>, n: nat)
    requires n <= |news|
    ensures Increasing(DamagedIndices(olds, news, n))
  {
    if n > 0 {
      DamagedIndicesIncrease(olds, news, n - 1);
      var r0 := DamagedIndices(olds, news, n - 1);
      var extra := if n - 1 < |olds| && Damaged(olds[n - 1], news[n - 1]) then [n - 1] else [];
      var r := r0 + extra;
      assert DamagedIndices(olds, news, n) == r;
      forall a, b | 0 <= a < b < |r|
        ensures r[a] < r[b]
      {
        if b < |r0| {
          assert r[a] == r0[a] && r[b] == r0[b];
        } else {
          assert r[a] == r0[a] < n - 1;
          assert r[b] == extra[0] == n - 1;
        }
      }
    }
  }

  /** The movement events of the first `n` new submarines. */
  function MovementEvents(olds: seq<MsgSub>, news: seq<MsgSub>, n: nat): (r: seq<Event>)
    requires n <= |news|
    ensures |r| <= n && |r| <= |olds|
    ensures forall k :: 0 <= k < |r| ==> r[k].eventType == Movement
  {
    if n == 0 then []
    else
      MovementEvents(olds, news, n - 1) +
        (if n - 1 < |olds| && Moved(olds[n - 1], news[n - 1]) then [MoveEvent(olds, news, n - 1)] else [])
  }

  /** The damage events of the first `n` new submarines. */
  function DamageEvents(olds: seq<MsgSub>, news: seq<MsgSub>, n: nat): (r: seq<Event>)
    requires n <= |news|
    ensures |r| <= n && |r| <= |olds|
    ensures forall k :: 0 <= k < |r| ==> r[k].eventType == Damage
  {
    if n == 0 then []
    else
      DamageEvents(olds, news, n - 1) +
        (if n - 1 < |olds| && Damaged(olds[n - 1], news[n - 1]) then [DamageEvent(olds, news, n - 1)] else [])
  }

  /** Movement events correspond one to one, in order, to the indices where both submarines exist and moved. */
  lemma {:induction false} MovementEventsPerMovedIndex(olds: seq<MsgSub>, news: seq<MsgSub>, n: nat)
    requires n <= |news|
    ensures var r, idx := MovementEvents(olds, news, n), MovedIndices(olds, news, n);
      |r| == |idx| && forall k :: 0 <= k < |r| ==> r[k] == MoveEvent(olds, news, idx[k])
  {
    if n > 0 {
      MovementEventsPerMovedIndex(olds, news, n - 1);
      var r0, idx0 := MovementEvents(olds, news, n - 1), MovedIndices(olds, news, n - 1);
      if n - 1 < |olds| && Moved(olds[n - 1], news[n - 1]) {
        var r, idx := MovementEvents(olds, news, n), MovedIndices(olds, news, n);
        MovedStep(olds, news, n);
        assert r == r0 + [MoveEvent(olds, news, n - 1)];
        assert idx == idx0 + [n - 1];
        forall k | 0 <= k < |r| ensures r[k] == MoveEvent(olds, news, idx[k]) {
          if k < |r0| {
            assert r[k] == r0[k] && idx[k] == idx0[k];
          }
        }
      } else {
        assert MovementEvents(olds, news, n) == r0;
        assert MovedIndices(olds, news, n) == idx0;
      }
    }
  }

  /** One unfolding of MovementEvents at a moved index. */
  lemma {:induction false} MovedStep(olds: seq<MsgSub>, news: seq<MsgSub>, n: nat)
    requires 0 < n <= |news| && n - 1 < |olds| && Moved(olds[n - 1], news[n - 1])
    ensures MovementEvents(olds, news, n) == MovementEvents(olds, news, n - 1) + [MoveEvent(olds, news, n - 1)]
  {
  }

  /** Damage events correspond one to one, in order, to the indices where health fell, and each damage is positive. */
  lemma {:induction false} DamageEventsPerDamagedIndex(olds: seq<MsgSub>, news: seq<MsgSub>, n: nat)
    requires n <= |news|
    ensures var r, idx := DamageEvents(olds, news, n), DamagedIndices(olds, news, n);
      |r| == |idx| &&
      forall k :: 0 <= k < |r| ==> r[k] == DamageEvent(olds, news, idx[k]) && Health(olds[idx[k]]) - Health(news[idx[k]]) > 0
  {
    if n > 0 {
      DamageEventsPerDamagedIndex(olds, news, n - 1);
      var r0, idx0 := DamageEvents(olds, news, n - 1), DamagedIndices(olds, news, n - 1);
      if n - 1 < |olds| && Damaged(olds[n - 1], news[n - 1]) {
        assert DamageEvents(olds, news, n) == r0 + [DamageEvent(olds, news, n - 1)];
        assert DamagedIndices(olds, news, n) == idx0 + [n - 1];
      } else {
        assert DamageEvents(olds, news, n) == r0;
        assert DamagedIndices(olds, news, n) == idx0;
      }
    }
  }

  /** `${newState.phase}`. */
  function PhaseText(p: Option<string>): string {
    match p
    case Some(s) => s
    case None => "undefined"
  }

  /** detectGameEvents: one GAME_EVENTS event exactly when the phase changed. */
  function GameEventsOf(o: MsgState, n: MsgState): (r: seq<Event>)
    ensures |r| == (if o.phase != n.phase then 1 else 0)
    ensures |r| == 1 ==> r[0] == Event(GameEvents, [("event", Str("Phase changed to " + PhaseText(n.phase)))])
  {
    if o.phase != n.phase then [Event(GameEvents, [("event", Str("Phase changed to " + PhaseText(n.phase)))])]
    else []
  }

  /** detectEvents: movement, then damage, then system (none are detected), then game events. */
  function AllEvents(o: MsgState, n: MsgState): (r: seq<Event>)
    ensures |r| <= 2 * |Subs(n)| + 1
    ensures forall k :: 0 <= k < |r| ==> r[k].eventType in {Movement, Damage, GameEvents}
  {
    MovementEvents(Subs(o), Subs(n), |Subs(n)|) + DamageEvents(Subs(o), Subs(n), |Subs(n)|) + [] + GameEventsOf(o, n)
  }

  /** Two equal states produce no event. */
  lemma {:induction false} NoChangeNoEvents(s: MsgState)
    ensures AllEvents(s, s) == []
  {
    var subs := Subs(s);
    SameSubsNoEvents(subs, |subs|);
  }

  lemma {:induction false} SameSubsNoEvents(subs: seq<MsgSub>, n: nat)
    requires n <= |subs|
    ensures MovementEvents(subs, subs, n) == [] && DamageEvents(subs, subs, n) == []
  {
    if n > 0 {
      SameSubsNoEvents(subs, n - 1);
    }
  }

  /** Every detected event has a known type, so buildMessage never drops one. */
  lemma {:induction false} DetectedEventsHaveTemplates(o: MsgState, n: MsgState)
    ensures forall e :: e in AllEvents(o, n) ==> GetMessageTemplate(e.eventType).Some?
  {
    var olds, news := Subs(o), Subs(n);
    var ms, ds := MovementEvents(olds, news, |news|), DamageEvents(olds, news, |news|);
    MovementEventsPerMovedIndex(olds, news, |news|);
    DamageEventsPerDamagedIndex(olds, news, |news|);
    assert forall e :: e in ms ==> e.eventType == Movement;
    assert forall e :: e in ds ==> e.eventType == Damage;
    assert forall e :: e in AllEvents(o, n) ==> e in ms || e in ds || e in GameEventsOf(o, n);
  }

  /** The values present in a list of options, in order. */
  function Present<T>(xs: seq<Option<T>>): seq<T>
  {
    if xs == [] then []
    else
      var rest := Present(xs[..|xs| - 1]);
      if xs[|xs| - 1].Some? then rest + [xs[|xs| - 1].value] else rest
  }

  lemma {:induction false} PresentSnoc<T>(xs: seq<Option<T>>, x: Option<T>)
    ensures Present(xs + [x]) == Present(xs) + (if x.Some? then [x.value] else [])
  {
    assert (xs + [x])[..|xs|] == xs;
  }

  /** When every option is present, each value sits at its own index. */
  lemma {:induction false} PresentAll<T>(xs: seq<Option<T>>)
    requires forall i :: 0 <= i < |xs| ==> xs[i].Some?
    ensures |Present(xs)| == |xs| && forall k :: 0 <= k < |xs| ==> Some(Present(xs)[k]) == xs[k]
  {
    if xs != [] {
      var front := xs[..|xs| - 1];
      PresentAll(front);
      assert forall k :: 0 <= k < |front| ==> front[k] == xs[k];
    }
  }

  /** buildMessage applied to each event, in order. */
  function BuiltEach(events: seq<Event>, now: int): (r: seq<Option<Message>>)
    ensures |r| == |events|
    ensures forall k :: 0 <= k < |events| ==> r[k] == Built(events[k].eventType, events[k].data, now)
  {
    if events == [] then []
    else
      var last := events[|events| - 1];
      BuiltEach(events[..|events| - 1], now) + [Built(last.eventType, last.data, now)]
  }

  /** One more event adds its message, if it has one, at the end. */
  lemma {:induction false} MessagesForSnoc(events: seq<Event>, i: nat, now: int)
    requires i < |events|
    ensures MessagesFor(events[..i + 1], now) ==
      MessagesFor(events[..i], now) + (match Built(events[i].eventType, events[i].data, now)
        case Some(m) => [m]
        case None => [])
  {
    var b := Built(events[i].eventType, events[i].data, now);
    assert events[..i + 1][..i] == events[..i];
    PresentSnoc(BuiltEach(events[..i], now), b);
  }

  /** The messages built from a list of events; events of unknown type are skipped. */
  function MessagesFor(events: seq<Event>, now: int): seq<Message>
  {
    Present(BuiltEach(events, now))
  }

  /** Events of a known type each give exactly one message, built from that event, in order. */
  lemma {:induction false} MessagesPerEvent(events: seq<Event>, now: int)
    requires forall e :: e in events ==> GetMessageTemplate(e.eventType).Some?
    ensures var r := MessagesFor(events, now);
      |r| == |events| && forall k :: 0 <= k < |r| ==> Some(r[k]) == Built(events[k].eventType, events[k].data, now)
  {
    var built := BuiltEach(events, now);
    forall i | 0 <= i < |built|
      ensures built[i].Some?
    {
      assert events[i] in events;
    }
    PresentAll(built);
  }

  class MessagesController {
    const playerSub: Option<string>
    const playerRole: Option<string>
    var previousState: Option<MsgState>
    /** The messages handed to the renderer, oldest first. */
    var shown: seq<Message>

    constructor(playerSub: Option<string>, playerRole: Option<string>)
      ensures this.playerSub == playerSub && this.playerRole == playerRole
      ensures previousState.None? && shown == []
    {
      this.playerSub := playerSub;
      this.playerRole := playerRole;
      previousState := None;
      shown := [];
    }

    method DetectMovementEvents(o: MsgState, n: MsgState) returns (events: seq<Event>)
      ensures events == MovementEvents(Subs(o), Subs(n), |Subs(n)|)
    {
      var oldSubs, newSubs := Subs(o), Subs(n);
      events := [];
      for i := 0 to |newSubs|
        invariant events == MovementEvents(oldSubs, newSubs, i)
      {
        if i < |oldSubs| && Moved(oldSubs[i], newSubs[i]) {
          events := events + [MoveEvent(oldSubs, newSubs, i)];
        }
      }
    }

    method DetectDamageEvents(o: MsgState, n: MsgState) returns (events: seq<Event>)
      ensures events == DamageEvents(Subs(o), Subs(n), |Subs(n)|)
    {
      var oldSubs, newSubs := Subs(o), Subs(n);
      events := [];
      for i := 0 to |newSubs|
        invariant events == DamageEvents(oldSubs, newSubs, i)
      {
        if i < |oldSubs| && Health(newSubs[i]) < Health(oldSubs[i]) {
          events := events + [DamageEvent(oldSubs, newSubs, i)];
        }
      }
    }

    method DetectEvents(o: MsgState, n: MsgState) returns (events: seq<Event>)
      ensures events == AllEvents(o, n)
    {
      var movement := DetectMovementEvents(o, n);
      var damage := DetectDamageEvents(o, n);
      events := movement + damage + [] + GameEventsOf(o, n);
    }

    /**
     * handleStateUpdate, with `Date.now()` as `now`: the first state is only
     * stored; later ones show a message per detected event and become the
     * previous state.
     */
    method HandleStateUpdate(newState: MsgState, now: int)
      modifies this
      ensures previousState == Some(newState)
      ensures old(previousState).None? ==> shown == old(shown)
      ensures old(previousState).Some? ==>
        shown == old(shown) + MessagesFor(AllEvents(old(previousState).value, newState), now)
    {
      if previousState.None? {
        previousState := Some(newState);
        return;
      }
      var events := DetectEvents(previousState.value, newState);
      var added: seq<Message> := [];
      for i := 0 to |events|
        invariant added == MessagesFor(events[..i], now)
        invariant previousState == old(previousState) && shown == old(shown)
      {
        var message := BuildMessage(events[i].eventType, events[i].data, now);
        MessagesForSnoc(events, i, now);
        if message.Some? {
          added := added + [message.value];
        }
      }
      assert events[..|events|] == events;
      shown := shown + added;
      previousState := Some(newState);
    }
  }
}
