/**
 * The engine layout of a submarine and its random generator.  Math.random is an
 * oracle `pick`: the k-th call of Math.floor(Math.random() * n) yields pick(k) % n,
 * and every method returns how many draws it consumed.
 */
module EngineLayout {
  import opened Wrappers

  datatype System = Vessel | Detection | Weapons | Reactor

  const Systems: seq<System> := [Vessel, Detection, Weapons, Reactor]
  const NonReactorSystems: seq<System> := [Vessel, Detection, Weapons]
  const Directions: seq<string> := ["N", "E", "W", "S"]
  const FrameSlotIds: seq<string> := ["slot01", "slot02", "slot03"]
  const ReactorSlotIds: seq<string> := ["reactor01", "reactor02", "reactor03"]
  const CircuitColors: seq<string> := ["#3498db", "#2ecc71", "#e74c3c"]
  const CircuitIds: seq<string> := ["circuit_1", "circuit_2", "circuit_3"]

  type Oracle = nat -> nat

  /** The k-th draw scaled to an index below n. */
  function Choose(pick: Oracle, k: nat, n: nat): (i: nat)
    requires n > 0
    ensures i < n
  {
    pick(k) % n
  }

  /** A crossed-out slot, as the engineer reports it. */
  datatype SlotRef = SlotRef(direction: string, slotId: string)

  datatype Connection = Connection(direction: string, slotType: string, slotId: string, system: System)

  datatype Circuit = Circuit(id: string, color: string, connections: seq<Connection>)

  datatype DirectionLayout = DirectionLayout(frameSlots: map<string, System>, reactorSlots: map<string, System>)

  datatype EngineLayout = EngineLayout(directions: map<string, DirectionLayout>,
                                       circuits: seq<Circuit>,
                                       crossedOutSlots: seq<SlotRef>)

  /** How many slots of a slot map hold `s`. */
  function CountIn(slots: map<string, System>, s: System): nat {
    |set k | k in slots && slots[k] == s|
  }

  /** countSystemsInDirection: the frame slots only, every system starting at 0. */
  function CountSystemsInDirection(dl: DirectionLayout): (counts: map<System, nat>)
    ensures counts.Keys == set s | s in Systems
    ensures forall s :: s in counts ==> counts[s] == CountIn(dl.frameSlots, s)
  {
    map s | s in Systems :: CountIn(dl.frameSlots, s)
  }

  /** Reactor slots do not count: the counts only depend on the frame slots. */
  lemma {:induction false} CountIgnoresReactorSlots(dl: DirectionLayout, r: map<string, System>)
    ensures CountSystemsInDirection(dl) == CountSystemsInDirection(dl.(reactorSlots := r))
  {
  }

  lemma {:induction false} CountInEmpty(s: System)
    ensures CountIn(map[], s) == 0
  {
    var e: map<string, System> := map[];
    assert (set k | k in e && e[k] == s) == {};
  }

  /** Inserting a new key adds one to the count of its value only. */
  lemma {:induction false} CountInInsert(m: map<string, System>, key: string, v: System, s: System)
    requires key !in m
    ensures CountIn(m[key := v], s) == CountIn(m, s) + (if v == s then 1 else 0)
  {
    var m' := m[key := v];
    var before := set k | k in m && m[k] == s;
    var after := set k | k in m' && m'[k] == s;
    if v == s {
      assert after == before + {key};
    } else {
      assert after == before;
    }
  }

  /** A slot map whose slots hold pairwise-distinct systems counts each system at most once. */
  lemma {:induction false} CountInDistinct(m: map<string, System>, s: System)
    requires forall a, b :: a in m && b in m && a != b ==> m[a] != m[b]
    ensures CountIn(m, s) <= 1
  {
    var ks := set k | k in m && m[k] == s;
    if ks != {} {
      var x :| x in ks;
      assert ks == {x};
    }
  }

  /** Fisher-Yates: for i from the end down to 1, swap a[i] with a[pick % (i + 1)]. */
  method ShuffleArray<T>(a: array<T>, pick: Oracle, k: nat) returns (k': nat)
    modifies a
    ensures multiset(a[..]) == old(multiset(a[..]))
    ensures k' == k + (if a.Length > 0 then a.Length - 1 else 0)
  {
    k' := k;
    if a.Length == 0 {
      return;
    }
    var i := a.Length - 1;
    while i > 0
      invariant 0 <= i < a.Length
      invariant multiset(a[..]) == old(multiset(a[..]))
      invariant k' == k + (a.Length - 1 - i)
    {
      var j := Choose(pick, k', i + 1);
      k' := k' + 1;
      a[i], a[j] := a[j], a[i];
      i := i - 1;
    }
  }

  /** The frame slots of a direction hold three pairwise-distinct systems. */
  ghost predicate FrameOk(dl: DirectionLayout) {
    dl.frameSlots.Keys == (set id | id in FrameSlotIds) &&
    (forall i, j :: 0 <= i < j < |FrameSlotIds| ==>
      dl.frameSlots[FrameSlotIds[i]] != dl.frameSlots[FrameSlotIds[j]])
  }

  /** No two frame slots of a direction hold the same system. */
  lemma {:induction false} FrameInjective(dl: DirectionLayout)
    requires FrameOk(dl)
    ensures forall a, b :: a in dl.frameSlots && b in dl.frameSlots && a != b ==>
      dl.frameSlots[a] != dl.frameSlots[b]
  {
    forall a, b | a in dl.frameSlots && b in dl.frameSlots && a != b
      ensures dl.frameSlots[a] != dl.frameSlots[b]
    {
      var i :| 0 <= i < |FrameSlotIds| && FrameSlotIds[i] == a;
      var j :| 0 <= j < |FrameSlotIds| && FrameSlotIds[j] == b;
    }
  }

  /**
   * The reactor slots of a direction: each non-reactor system appears at most once
   * among them, and only when that keeps it at two slots or fewer in the direction.
   */
  ghost predicate ReactorOk(dl: DirectionLayout) {
    dl.reactorSlots.Keys == (set id | id in ReactorSlotIds) &&
    forall s :: s in NonReactorSystems ==>
      CountIn(dl.reactorSlots, s) <= 1 &&
      (CountIn(dl.reactorSlots, s) > 0 ==> CountIn(dl.frameSlots, s) + CountIn(dl.reactorSlots, s) <= 2)
  }

  /** A permutation of the four systems starts with three distinct ones. */
  lemma {:induction false} PermutationPrefixDistinct(s: seq<System>)
    requires multiset(s) == multiset(Systems)
    ensures |s| == 4 && s[0] != s[1] && s[0] != s[2] && s[1] != s[2]
  {
    assert |s| == |multiset(s)| == |multiset(Systems)| == 4;
    assert s == [s[0], s[1], s[2], s[3]];
  
  }

  /** Frame slots of one direction: a shuffled copy of the four systems, first three kept. */
  method DistributeFrame(pick: Oracle, k: nat) returns (frame: map<string, System>, k': nat)
    ensures FrameOk(DirectionLayout(frame, map[]))
    ensures k' == k + 3
  {
    var shuffled := new System[4](i requires 0 <= i < 4 => Systems[i]);
    assert shuffled[..] == Systems;
    k' := ShuffleArray(shuffled, pick, k);
    PermutationPrefixDistinct(shuffled[..]);
    frame := FrameOf(shuffled[0], shuffled[1], shuffled[2]);
  }

  /** slot01, slot02, slot03 holding x, y, z. */
  function FrameOf(x: System, y: System, z: System): (frame: map<string, System>)
    requires x != y && x != z && y != z
    ensures FrameOk(DirectionLayout(frame, map[]))
  {
    var m := map["slot01" := x, "slot02" := y, "slot03" := z];
    assert m.Keys == {"slot01", "slot02", "slot03"};
    assert FrameSlotIds == ["slot01", "slot02", "slot03"];
    assert "slot01" != "slot02" && "slot01" != "slot03" && "slot02" != "slot03" by {
      assert "slot01"[5] != "slot02"[5] && "slot01"[5] != "slot03"[5] && "slot02"[5] != "slot03"[5];
    }
    m
  }

  /** 'reactor', then each non-reactor system not used yet whose count is below 2. */
  method ReactorChoices(usedNonReactor: set<System>, systemCounts: map<System, nat>)
    returns (availableSystems: seq<System>)
    requires forall s :: s in NonReactorSystems ==> s in systemCounts
    ensures |availableSystems| >= 1 && availableSystems[0] == Reactor
    ensures forall i :: 1 <= i < |availableSystems| ==>
      (availableSystems[i] in NonReactorSystems &&
       availableSystems[i] !in usedNonReactor && systemCounts[availableSystems[i]] < 2)
    ensures forall s :: s in NonReactorSystems && s !in usedNonReactor && systemCounts[s] < 2 ==>
      s in availableSystems
  {
    availableSystems := [Reactor];
    var m := 0;
    while m < 3
      invariant 0 <= m <= 3
      invariant |availableSystems| >= 1 && availableSystems[0] == Reactor
      invariant forall i :: 1 <= i < |availableSystems| ==>
        (availableSystems[i] in NonReactorSystems &&
         availableSystems[i] !in usedNonReactor && systemCounts[availableSystems[i]] < 2)
      invariant forall j :: (0 <= j < m && NonReactorSystems[j] !in usedNonReactor &&
        systemCounts[NonReactorSystems[j]] < 2) ==> NonReactorSystems[j] in availableSystems
    {
      var system := NonReactorSystems[m];
      if system !in usedNonReactor && systemCounts[system] < 2 {
        availableSystems := availableSystems + [system];
      }
      m := m + 1;
    }
  }

  /**
   * What the reactor-slot loop keeps about one system: its count is its frame count plus
   * the reactor slots it fills so far, and a non-reactor system is marked used exactly when
   * it fills one.
   */
  ghost predicate SystemProgress(dl: DirectionLayout, reactorAssignment: map<string, System>,
                                 usedNonReactor: set<System>, systemCounts: map<System, nat>, s: System) {
    s in systemCounts &&
    systemCounts[s] == CountIn(dl.frameSlots, s) + CountIn(reactorAssignment, s) &&
    (s != Reactor ==>
      (s in usedNonReactor <==> CountIn(reactorAssignment, s) > 0) &&
      CountIn(reactorAssignment, s) <= 1 &&
      (CountIn(reactorAssignment, s) > 0 ==> CountIn(dl.frameSlots, s) + CountIn(reactorAssignment, s) <= 2))
  }

  /** The reactor-slot loop's bookkeeping, for every system. */
  ghost predicate ReactorProgress(dl: DirectionLayout, reactorAssignment: map<string, System>,
                                  usedNonReactor: set<System>, systemCounts: map<System, nat>) {
    systemCounts.Keys == (set s | s in Systems) &&
    forall s :: s in Systems ==> SystemProgress(dl, reactorAssignment, usedNonReactor, systemCounts, s)
  }

  /** One reactor slot: choose among the available systems and record the choice. */
  method FillReactorSlot(dl: DirectionLayout, reactorAssignment: map<string, System>,
                         usedNonReactor: set<System>, systemCounts: map<System, nat>,
                         slot: string, pick: Oracle, k: nat)
    returns (assignment': map<string, System>, used': set<System>, counts': map<System, nat>)
    requires slot !in reactorAssignment
    requires ReactorProgress(dl, reactorAssignment, usedNonReactor, systemCounts)
    ensures assignment'.Keys == reactorAssignment.Keys + {slot}
    ensures ReactorProgress(dl, assignment', used', counts')
  {
    var availableSystems := ReactorChoices(usedNonReactor, systemCounts);
    var chosenSystem := availableSystems[Choose(pick, k, |availableSystems|)];
    ProgressAfterChoice(dl, reactorAssignment, usedNonReactor, systemCounts, slot, chosenSystem);
    assignment' := reactorAssignment[slot := chosenSystem];
    used' := if chosenSystem != Reactor then usedNonReactor + {chosenSystem} else usedNonReactor;
    counts' := systemCounts[chosenSystem := systemCounts[chosenSystem] + 1];
  }

  /** Recording an allowed choice for a fresh reactor slot keeps the loop's bookkeeping exact. */
  lemma {:induction false} ProgressAfterChoice(dl: DirectionLayout, reactorAssignment: map<string, System>,
                            usedNonReactor: set<System>, systemCounts: map<System, nat>,
                            slot: string, chosen: System)
    requires slot !in reactorAssignment
    requires ReactorProgress(dl, reactorAssignment, usedNonReactor, systemCounts)
    requires chosen == Reactor ||
      (chosen in NonReactorSystems && chosen !in usedNonReactor && systemCounts[chosen] < 2)
    ensures ReactorProgress(dl, reactorAssignment[slot := chosen],
      if chosen != Reactor then usedNonReactor + {chosen} else usedNonReactor,
      systemCounts[chosen := systemCounts[chosen] + 1])
  {
    assert chosen in Systems;
    forall s | s in Systems
      ensures SystemProgress(dl, reactorAssignment[slot := chosen],
        if chosen != Reactor then usedNonReactor + {chosen} else usedNonReactor,
        systemCounts[chosen := systemCounts[chosen] + 1], s)
    {
      SystemAfterChoice(dl, reactorAssignment, usedNonReactor, systemCounts, slot, chosen, s);
    }
  }

  /** The same, for one system. */
  lemma {:induction false} SystemAfterChoice(dl: DirectionLayout, reactorAssignment: map<string, System>,
                          usedNonReactor: set<System>, systemCounts: map<System, nat>,
                          slot: string, chosen: System, s: System)
    requires slot !in reactorAssignment
    requires SystemProgress(dl, reactorAssignment, usedNonReactor, systemCounts, s)
    requires SystemProgress(dl, reactorAssignment, usedNonReactor, systemCounts, chosen)
    requires chosen == Reactor || (chosen !in usedNonReactor && systemCounts[chosen] < 2)
    ensures SystemProgress(dl, reactorAssignment[slot := chosen],
      if chosen != Reactor then usedNonReactor + {chosen} else usedNonReactor,
      systemCounts[chosen := systemCounts[chosen] + 1], s)
  {
    CountInInsert(reactorAssignment, slot, chosen, s);
  }

  /**
   * Fills the three reactor slots: each pick is among 'reactor' and the non-reactor
   * systems not yet used in a reactor slot whose count is still below 2.
   */
  method AssignReactorSlots(dl: DirectionLayout, pick: Oracle, k: nat)
    returns (reactorAssignment: map<string, System>, k': nat)
    ensures ReactorOk(dl.(reactorSlots := reactorAssignment))
    ensures k' == k + 3
  {
    reactorAssignment := map[];
    var usedNonReactor: set<System> := {};
    var systemCounts := CountSystemsInDirection(dl);
    k' := k;
    forall s ensures CountIn(reactorAssignment, s) == 0 { CountInEmpty(s); }
    var n := 0;
    while n < 3
      invariant 0 <= n <= 3 && k' == k + n
      invariant reactorAssignment.Keys == set id | id in ReactorSlotIds[..n]
      invariant ReactorProgress(dl, reactorAssignment, usedNonReactor, systemCounts)
    {
      var slot := ReactorSlotIds[n];
      reactorAssignment, usedNonReactor, systemCounts :=
        FillReactorSlot(dl, reactorAssignment, usedNonReactor, systemCounts, slot, pick, k');
      k' := k' + 1;
      assert ReactorSlotIds[..n + 1] == ReactorSlotIds[..n] + [slot];
      n := n + 1;
    }
    assert ReactorSlotIds[..3] == ReactorSlotIds;
    ProgressDone(dl, reactorAssignment, usedNonReactor, systemCounts);
  }

  /** With all three reactor slots filled, the bookkeeping gives the reactor rule. */
  lemma {:induction false} ProgressDone(dl: DirectionLayout, reactorAssignment: map<string, System>,
                     usedNonReactor: set<System>, systemCounts: map<System, nat>)
    requires ReactorProgress(dl, reactorAssignment, usedNonReactor, systemCounts)
    requires reactorAssignment.Keys == set id | id in ReactorSlotIds
    ensures ReactorOk(dl.(reactorSlots := reactorAssignment))
  {
    forall s | s in NonReactorSystems
      ensures CountIn(reactorAssignment, s) <= 1 &&
        (CountIn(reactorAssignment, s) > 0 ==> CountIn(dl.frameSlots, s) + CountIn(reactorAssignment, s) <= 2)
    {
      assert s in Systems && s != Reactor;
      assert SystemProgress(dl, reactorAssignment, usedNonReactor, systemCounts, s);
    }
  }

  /** Each direction's frame slots, then (for all directions) the reactor slots. */
  method DistributeSystems(pick: Oracle, k: nat) returns (directions: map<string, DirectionLayout>, k': nat)
    ensures directions.Keys == set d | d in Directions
    ensures forall d :: d in directions ==> FrameOk(directions[d]) && ReactorOk(directions[d])
    ensures k' == k + 24
  {
    directions := map[];
    k' := k;
    var n := 0;
    while n < 4
      invariant 0 <= n <= 4 && k' == k + 3 * n
      invariant directions.Keys == set d | d in Directions[..n]
      invariant forall d :: d in directions ==> FrameOk(directions[d]) && directions[d].reactorSlots == map[]
    {
      var frame;
      frame, k' := DistributeFrame(pick, k');
      directions := directions[Directions[n] := DirectionLayout(frame, map[])];
      assert Directions[..n + 1] == Directions[..n] + [Directions[n]];
      n := n + 1;
    }
    n := 0;
    while n < 4
      invariant 0 <= n <= 4 && k' == k + 12 + 3 * n
      invariant directions.Keys == set d | d in Directions
      invariant forall d :: d in directions ==> FrameOk(directions[d])
      invariant forall i :: 0 <= i < n ==> ReactorOk(directions[Directions[i]])
    {
      var dir := Directions[n];
      var reactorAssignment;
      reactorAssignment, k' := AssignReactorSlots(directions[dir], pick, k');
      directions := directions[dir := directions[dir].(reactorSlots := reactorAssignment)];
      n := n + 1;
    }
  }

  /** A frame slot together with the system it holds. */
  datatype FrameRef = FrameRef(direction: string, slotId: string, system: System)

  function KeyOf(c: Connection): (string, string) { (c.direction, c.slotId) }

  /** The slot keys of a list of connections, in order. */
  function KeysOf(cs: seq<Connection>): (r: seq<(string, string)>)
    ensures |r| == |cs| && forall i :: 0 <= i < |cs| ==> r[i] == KeyOf(cs[i])
  {
    if cs == [] then [] else KeysOf(cs[..|cs| - 1]) + [KeyOf(cs[|cs| - 1])]
  }

  /** All connections of a list of circuits, circuit after circuit. */
  function Flatten(circuits: seq<Circuit>): seq<Connection> {
    if circuits == [] then []
    else Flatten(circuits[..|circuits| - 1]) + circuits[|circuits| - 1].connections
  }

  /** The still unused frame slots holding `s` (or, with None, any non-reactor system). */
  function Available(all: seq<FrameRef>, used: set<(string, string)>, s: Option<System>): (r: seq<FrameRef>)
    ensures forall i :: 0 <= i < |r| ==>
      (r[i] in all && (r[i].direction, r[i].slotId) !in used &&
       (if s.Some? then r[i].system == s.value else r[i].system != Reactor))
  {
    if all == [] then []
    else
      var rest := Available(all[1..], used, s);
      var keep := (all[0].direction, all[0].slotId) !in used &&
        (if s.Some? then all[0].system == s.value else all[0].system != Reactor);
      if keep then [all[0]] + rest else rest
  }

  /** A connection is a frame slot of the layout holding a non-reactor system. */
  ghost predicate ConnectionOk(directions: map<string, DirectionLayout>, c: Connection) {
    c.slotType == "frame" && c.system != Reactor &&
    c.direction in directions && c.slotId in directions[c.direction].frameSlots &&
    directions[c.direction].frameSlots[c.slotId] == c.system
  }

  ghost predicate CircuitsOk(directions: map<string, DirectionLayout>, circuits: seq<Circuit>) {
    |circuits| == 3 &&
    (forall i :: 0 <= i < 3 ==>
      circuits[i].id == CircuitIds[i] && circuits[i].color == CircuitColors[i] &&
      |circuits[i].connections| <= 4 &&
      forall j :: 0 <= j < |circuits[i].connections| ==>
        ConnectionOk(directions, circuits[i].connections[j])) &&
    NoDup(KeysOf(Flatten(circuits)))
  }

  lemma {:induction false} KeysOfAppend(a: seq<Connection>, b: seq<Connection>)
    ensures KeysOf(a + b) == KeysOf(a) + KeysOf(b)
  {
  }

  /** Adding a key that is not yet present keeps a list duplicate-free. */
  lemma {:induction false} NoDupAppend<T>(s: seq<T>, x: T)
    requires NoDup(s) && x !in s
    ensures NoDup(s + [x])
  {
  }

  function ToConnection(f: FrameRef): Connection {
    Connection(f.direction, "frame", f.slotId, f.system)
  }

  /** A frame reference names a real frame slot of the layout and the system it holds. */
  ghost predicate FrameRefOk(directions: map<string, DirectionLayout>, f: FrameRef) {
    f.direction in directions && f.slotId in directions[f.direction].frameSlots &&
    directions[f.direction].frameSlots[f.slotId] == f.system
  }

  /** Every frame slot, direction by direction (N, E, W, S) and slot by slot. */
  method CollectFrameSlots(directions: map<string, DirectionLayout>) returns (allFrameSlots: seq<FrameRef>)
    requires directions.Keys == set d | d in Directions
    requires forall d :: d in directions ==> FrameOk(directions[d])
    ensures |allFrameSlots| == 12
    ensures forall f :: f in allFrameSlots ==> FrameRefOk(directions, f)
  {
    allFrameSlots := [];
    var d := 0;
    while d < 4
      invariant 0 <= d <= 4 && |allFrameSlots| == 3 * d
      invariant forall f :: f in allFrameSlots ==> FrameRefOk(directions, f)
    {
      var dir := Directions[d];
      var s := 0;
      while s < 3
        invariant 0 <= s <= 3 && |allFrameSlots| == 3 * d + s
        invariant forall f :: f in allFrameSlots ==> FrameRefOk(directions, f)
      {
        var slot := FrameSlotIds[s];
        allFrameSlots := allFrameSlots + [FrameRef(dir, slot, directions[dir].frameSlots[slot])];
        s := s + 1;
      }
      d := d + 1;
    }
  }

  /** A shuffled copy of the non-reactor systems holds no 'reactor'. */
  lemma {:induction false} NoReactorInPermutation(s: seq<System>)
    requires multiset(s) == multiset(NonReactorSystems)
    ensures forall j :: 0 <= j < |s| ==> s[j] != Reactor
  {
    forall j | 0 <= j < |s|
      ensures s[j] != Reactor
    {
      assert s[j] in multiset(s);
    }
  }

  /** Appending a connection on an unused slot keeps the slot keys distinct and the used set exact. */
  lemma {:induction false} AppendFreshSlot(prior: seq<Connection>, connections: seq<Connection>, conn: Connection,
                        used: set<(string, string)>)
    requires NoDup(KeysOf(prior + connections))
    requires used == set x | x in KeysOf(prior + connections)
    requires KeyOf(conn) !in used
    ensures NoDup(KeysOf(prior + (connections + [conn])))
    ensures used + {KeyOf(conn)} == set x | x in KeysOf(prior + (connections + [conn]))
  {
    var ks := KeysOf(prior + connections);
    assert prior + (connections + [conn]) == (prior + connections) + [conn];
    KeysOfAppend(prior + connections, [conn]);
    assert KeysOf(prior + (connections + [conn])) == ks + [KeyOf(conn)];
    assert KeyOf(conn) !in ks;
    NoDupAppend(ks, KeyOf(conn));
    SetOfAppend(ks, KeyOf(conn));
  }

  /** The elements of a list with one more entry. */
  lemma {:induction false} SetOfAppend<T>(s: seq<T>, x: T)
    ensures (set y | y in s + [x]) == (set y | y in s) + {x}
  {
  }

  /** A slot picked from the available ones is an unused real frame slot of a non-reactor system. */
  lemma {:induction false} PickedSlotOk(directions: map<string, DirectionLayout>, all: seq<FrameRef>,
                     used: set<(string, string)>, wanted: Option<System>, c: nat)
    requires forall f :: f in all ==> FrameRefOk(directions, f)
    requires wanted.Some? ==> wanted.value != Reactor
    requires c < |Available(all, used, wanted)|
    ensures ConnectionOk(directions, ToConnection(Available(all, used, wanted)[c]))
    ensures KeyOf(ToConnection(Available(all, used, wanted)[c])) !in used
  {
    var chosen := Available(all, used, wanted)[c];
    assert chosen in all;
  }

  /** The three non-reactor systems in a shuffled order. */
  method ShuffledRequired(pick: Oracle, k: nat) returns (required: seq<System>, k': nat)
    ensures multiset(required) == multiset(NonReactorSystems)
    ensures |required| == 3 && forall j :: 0 <= j < 3 ==> required[j] != Reactor
  {
    var a := new System[3](j requires 0 <= j < 3 => NonReactorSystems[j]);
    assert a[..] == NonReactorSystems;
    k' := ShuffleArray(a, pick, k);
    required := a[..];
    NoReactorInPermutation(required);
  }

  /** Connects one more unused frame slot, picked among the available ones. */
  method AddSlot(directions: map<string, DirectionLayout>, allFrameSlots: seq<FrameRef>,
                 prior: seq<Connection>, connections: seq<Connection>, used: set<(string, string)>,
                 wanted: Option<System>, pick: Oracle, k: nat)
    returns (connections': seq<Connection>, used': set<(string, string)>, k': nat)
    requires forall f :: f in allFrameSlots ==> FrameRefOk(directions, f)
    requires wanted.Some? ==> wanted.value != Reactor
    requires |Available(allFrameSlots, used, wanted)| > 0
    requires forall j :: 0 <= j < |connections| ==> ConnectionOk(directions, connections[j])
    requires NoDup(KeysOf(prior + connections)) && used == set x | x in KeysOf(prior + connections)
    ensures |connections'| == |connections| + 1 && connections'[..|connections|] == connections
    ensures forall j :: 0 <= j < |connections'| ==> ConnectionOk(directions, connections'[j])
    ensures NoDup(KeysOf(prior + connections')) && used' == set x | x in KeysOf(prior + connections')
    ensures k' == k + 1
  {
    var availableSlots := Available(allFrameSlots, used, wanted);
    var c := Choose(pick, k, |availableSlots|);
    var conn := ToConnection(availableSlots[c]);
    PickedSlotOk(directions, allFrameSlots, used, wanted, c);
    AppendFreshSlot(prior, connections, conn, used);
    connections' := connections + [conn];
    used' := used + {KeyOf(conn)};
    k' := k + 1;
  }

  /**
   * Circuit i: one unused frame slot of every non-reactor system (in a shuffled order)
   * when one is left, then one more unused non-reactor frame slot.  `prior` are the
   * connections of the earlier circuits, whose slots make up `usedSlots`.
   */
  method BuildCircuit(directions: map<string, DirectionLayout>, allFrameSlots: seq<FrameRef>,
                      prior: seq<Connection>, usedSlots: set<(string, string)>,
                      i: nat, pick: Oracle, k: nat)
    returns (circuit: Circuit, used': set<(string, string)>, k': nat)
    requires i < 3
    requires forall f :: f in allFrameSlots ==> FrameRefOk(directions, f)
    requires NoDup(KeysOf(prior)) && usedSlots == set x | x in KeysOf(prior)
    ensures circuit.id == CircuitIds[i] && circuit.color == CircuitColors[i]
    ensures |circuit.connections| <= 4
    ensures forall j :: 0 <= j < |circuit.connections| ==> ConnectionOk(directions, circuit.connections[j])
    ensures NoDup(KeysOf(prior + circuit.connections))
    ensures used' == set x | x in KeysOf(prior + circuit.connections)
  {
    var connections: seq<Connection> := [];
    used' := usedSlots;
    var required;
    required, k' := ShuffledRequired(pick, k);
    assert prior + connections == prior;
    var r := 0;
    while r < 4
      invariant 0 <= r <= 4 && |connections| <= r
      invariant forall j :: 0 <= j < |connections| ==> ConnectionOk(directions, connections[j])
      invariant NoDup(KeysOf(prior + connections))
      invariant used' == set x | x in KeysOf(prior + connections)
    {
      var wanted: Option<System> := if r < 3 then Some(required[r]) else None;
      if |Available(allFrameSlots, used', wanted)| > 0 && (r < 3 || |connections| < 4) {
        connections, used', k' := AddSlot(directions, allFrameSlots, prior, connections, used', wanted, pick, k');
      }
      r := r + 1;
    }
    circuit := Circuit(CircuitIds[i], CircuitColors[i], connections);
  }

  /** Circuit number `i` has its id and colour, at most four connections, all on real frame slots. */
  ghost predicate CircuitShapeOk(directions: map<string, DirectionLayout>, i: nat, circuit: Circuit) {
    i < 3 && circuit.id == CircuitIds[i] && circuit.color == CircuitColors[i] &&
    |circuit.connections| <= 4 &&
    forall j :: 0 <= j < |circuit.connections| ==> ConnectionOk(directions, circuit.connections[j])
  }

  /** Appending the next circuit keeps every earlier circuit's shape and extends the flattened list. */
  lemma {:induction false} AppendCircuit(directions: map<string, DirectionLayout>, circuits: seq<Circuit>, circuit: Circuit)
    requires forall c :: 0 <= c < |circuits| ==> CircuitShapeOk(directions, c, circuits[c])
    requires CircuitShapeOk(directions, |circuits|, circuit)
    ensures forall c :: 0 <= c < |circuits| + 1 ==> CircuitShapeOk(directions, c, (circuits + [circuit])[c])
    ensures Flatten(circuits + [circuit]) == Flatten(circuits) + circuit.connections
  {
    assert (circuits + [circuit])[..|circuits + [circuit]| - 1] == circuits;
  }

  /** The three circuits, built one after the other over a shared set of used slots. */
  method GenerateCircuits(directions: map<string, DirectionLayout>, pick: Oracle, k: nat)
    returns (circuits: seq<Circuit>, k': nat)
    requires directions.Keys == set d | d in Directions
    requires forall d :: d in directions ==> FrameOk(directions[d])
    ensures CircuitsOk(directions, circuits)
  {
    var allFrameSlots := CollectFrameSlots(directions);
    circuits := [];
    var usedSlots: set<(string, string)> := {};
    k' := k;
    var i := 0;
    while i < 3
      invariant 0 <= i <= 3 && |circuits| == i
      invariant forall c :: 0 <= c < i ==> CircuitShapeOk(directions, c, circuits[c])
      invariant NoDup(KeysOf(Flatten(circuits)))
      invariant usedSlots == set x | x in KeysOf(Flatten(circuits))
    {
      var circuit;
      circuit, usedSlots, k' := BuildCircuit(directions, allFrameSlots, Flatten(circuits), usedSlots, i, pick, k');
      AppendCircuit(directions, circuits, circuit);
      circuits := circuits + [circuit];
      i := i + 1;
    }
    assert forall c :: 0 <= c < 3 ==> CircuitShapeOk(directions, c, circuits[c]);
  }

  ghost predicate LayoutOk(layout: EngineLayout) {
    layout.directions.Keys == (set d | d in Directions) &&
    (forall d :: d in layout.directions ==> FrameOk(layout.directions[d]) && ReactorOk(layout.directions[d])) &&
    CircuitsOk(layout.directions, layout.circuits) &&
    layout.crossedOutSlots == []
  }

  /** A fresh layout: directions N, E, W, S, systems distributed, three circuits, nothing crossed out. */
  method GenerateLayout(pick: Oracle, k: nat) returns (layout: EngineLayout, k': nat)
    ensures LayoutOk(layout)
  {
    var directions;
    directions, k' := DistributeSystems(pick, k);
    var circuits;
    circuits, k' := GenerateCircuits(directions, pick, k');
    layout := EngineLayout(directions, circuits, []);
  }

  /**
   * In a generated direction each non-reactor system sits in at most one reactor slot
   * and in at most two slots overall; a frame holds each system at most once.
   */
  lemma {:induction false} GeneratedDirectionCounts(dl: DirectionLayout, s: System)
    requires FrameOk(dl) && ReactorOk(dl) && s in NonReactorSystems
    ensures CountIn(dl.frameSlots, s) <= 1
    ensures CountIn(dl.reactorSlots, s) <= 1
    ensures CountIn(dl.frameSlots, s) + CountIn(dl.reactorSlots, s) <= 2
  {
    FrameInjective(dl);
    CountInDistinct(dl.frameSlots, s);
  }
}
