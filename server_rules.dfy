/**
 * The rules of the logical game server on plain values: who sits in which role slot,
 * where a submarine may go, gauge charging, and what crossing out an engine slot does.
 */
module ServerRules {
  import opened Wrappers
  import opened BoardLayout
  import opened EngineLayout
  import MapUtils

  type PlayerId = string

  /** A connected player; connectionOrder is the connection time the server was given. */
  datatype Player = Player(id: PlayerId, name: string, connectionOrder: int, ready: bool)

  /** The four role slots of a submarine: captain, first officer, sonar and engineer. */
  datatype Role = Co | Xo | Sonar | Eng

  datatype SubmarineState = WaitingForAction | DoingPostMovementActions

  /** What the crew has done since the captain's last move. */
  datatype PostMovement = PostMovement(engineerCrossedOutSystem: bool, xoChargedGauge: bool,
                                       directionMoved: string)

  /** A submarine record; an empty role slot is a role missing from `roles`. */
  datatype Submarine = Submarine(
    id: string, name: string, roles: map<Role, PlayerId>,
    engineLayout: EngineLayout, actionGauges: map<string, int>,
    row: int, col: int, health: int,
    submarineState: SubmarineState, postMovement: PostMovement)

  const GaugeNames: set<string> := {"mine", "torpedo", "drone", "sonar", "silence"}
  const InitialHealth: int := 4

  /** The charge limit of a gauge: 5 for silence, 3 for every other gauge. */
  function GaugeCap(gauge: string): int {
    if gauge == "silence" then 5 else 3
  }

  /** The five gauges, each between 0 and its limit. */
  predicate GaugesOk(g: map<string, int>) {
    g.Keys == GaugeNames && forall k :: k in g ==> 0 <= g[k] <= GaugeCap(k)
  }

  /** Every gauge at its limit, so the first officer has nothing left to charge. */
  predicate GaugesFull(g: map<string, int>) {
    "mine" in g && "torpedo" in g && "sonar" in g && "silence" in g && "drone" in g &&
    g["mine"] == 3 && g["torpedo"] == 3 && g["sonar"] == 3 && g["silence"] == 5 && g["drone"] == 3
  }

  /** With the five gauges in range, "full" means each one is at its own limit. */
  lemma {:induction false} FullMeansAtCap(g: map<string, int>)
    requires GaugesOk(g)
    ensures GaugesFull(g) <==> forall k :: k in g ==> g[k] == GaugeCap(k)
  {
    if GaugesFull(g) {
      forall k | k in g
        ensures g[k] == GaugeCap(k)
      {
        assert k in GaugeNames;
      }
    }
  }

  // ---------------------------------------------------------------------------
  // Players and role slots

  /** `players.find(p => p.id === pid)`, as the first matching index. */
  function FindPlayer(players: seq<Player>, pid: PlayerId): (r: Option<nat>)
    ensures r.None? <==> forall i :: 0 <= i < |players| ==> players[i].id != pid
    ensures r.Some? ==> (r.value < |players| && players[r.value].id == pid &&
      forall i :: 0 <= i < r.value ==> players[i].id != pid)
  {
    if players == [] then None
    else if players[0].id == pid then Some(0)
    else match FindPlayer(players[1..], pid)
      case None => None
      case Some(i) => Some(i + 1)
  }

  /** `players.filter(p => p.id !== pid)`. */
  function RemovePlayer(players: seq<Player>, pid: PlayerId): (r: seq<Player>)
    ensures forall p :: p in r <==> p in players && p.id != pid
    ensures Subsequence(r, players)
    ensures forall p: Player :: p.id != pid ==> multiset(r)[p] == multiset(players)[p]
  {
    if players == [] then []
    else
      assert players == [players[0]] + players[1..];
      var rest := RemovePlayer(players[1..], pid);
      if players[0].id == pid then rest
      else
        assert ([players[0]] + rest)[1..] == rest;
        [players[0]] + rest
  }

  /** `pid` sits in some role slot of some submarine. */
  predicate HoldsRole(subs: seq<Submarine>, pid: PlayerId) {
    exists i, r :: 0 <= i < |subs| && r in subs[i].roles && subs[i].roles[r] == pid
  }

  /** No player sits in two role slots. */
  predicate RolesUnique(subs: seq<Submarine>) {
    forall i, j, r1, r2 ::
      (0 <= i < |subs| && 0 <= j < |subs| && r1 in subs[i].roles && r2 in subs[j].roles &&
       subs[i].roles[r1] == subs[j].roles[r2]) ==> i == j && r1 == r2
  }

  /** Every role slot of every submarine is taken by a player listed in `ready`. */
  predicate AllRolesReady(subs: seq<Submarine>, ready: seq<PlayerId>) {
    forall i, r :: 0 <= i < |subs| ==> r in subs[i].roles && subs[i].roles[r] in ready
  }

  /** The ready list has no duplicates and only holds players sitting in a role slot. */
  predicate ReadyOk(ready: seq<PlayerId>, subs: seq<Submarine>) {
    NoDup(ready) && forall id :: id in ready ==> HoldsRole(subs, id)
  }

  /** `subs.find(s => s[role] === pid)`, as the first matching index. */
  function FindByRole(subs: seq<Submarine>, role: Role, pid: PlayerId): (r: Option<nat>)
    ensures r.None? <==> forall i :: 0 <= i < |subs| ==> !(role in subs[i].roles && subs[i].roles[role] == pid)
    ensures r.Some? ==> (r.value < |subs| && role in subs[r.value].roles && subs[r.value].roles[role] == pid &&
      forall i :: 0 <= i < r.value ==> !(role in subs[i].roles && subs[i].roles[role] == pid))
  {
    if subs == [] then None
    else if role in subs[0].roles && subs[0].roles[role] == pid then Some(0)
    else match FindByRole(subs[1..], role, pid)
      case None => None
      case Some(i) => Some(i + 1)
  }

  /** With the crews unchanged, the same submarine is found for a role. */
  lemma {:induction false} SameCrewsSameFind(subs: seq<Submarine>, t: seq<Submarine>, role: Role, pid: PlayerId)
    requires |t| == |subs| && forall j :: 0 <= j < |t| ==> t[j].roles == subs[j].roles
    ensures FindByRole(t, role, pid) == FindByRole(subs, role, pid)
  {
    if subs != [] {
      assert t[0].roles == subs[0].roles;
      forall j | 0 <= j < |t[1..]|
        ensures t[1..][j].roles == subs[1..][j].roles
      {
        assert t[1..][j] == t[j + 1] && subs[1..][j] == subs[j + 1];
      }
      SameCrewsSameFind(subs[1..], t[1..], role, pid);
    }
  }

  /** `subs.find(s => s.id !== id)`, as the first matching index. */
  function FindOther(subs: seq<Submarine>, id: string): (r: Option<nat>)
    ensures r.None? <==> forall i :: 0 <= i < |subs| ==> subs[i].id == id
    ensures r.Some? ==> (r.value < |subs| && subs[r.value].id != id &&
      forall i :: 0 <= i < r.value ==> subs[i].id == id)
  {
    if subs == [] then None
    else if subs[0].id != id then Some(0)
    else match FindOther(subs[1..], id)
      case None => None
      case Some(i) => Some(i + 1)
  }

  function VacateRoles(roles: map<Role, PlayerId>, pid: PlayerId): map<Role, PlayerId> {
    map r | r in roles && roles[r] != pid :: roles[r]
  }

  /** Every role slot holding `pid`, on every submarine, is emptied. */
  function Vacate(subs: seq<Submarine>, pid: PlayerId): (r: seq<Submarine>)
    ensures |r| == |subs|
    ensures forall i :: 0 <= i < |r| ==> r[i] == subs[i].(roles := VacateRoles(subs[i].roles, pid))
  {
    seq(|subs|, i requires 0 <= i < |subs| => subs[i].(roles := VacateRoles(subs[i].roles, pid)))
  }

  /** After vacating, `pid` holds no role and every other player holds what they held. */
  lemma {:induction false} VacateOutcome(subs: seq<Submarine>, pid: PlayerId)
    ensures !HoldsRole(Vacate(subs, pid), pid)
    ensures forall q :: q != pid ==> (HoldsRole(Vacate(subs, pid), q) <==> HoldsRole(subs, q))
    ensures RolesUnique(subs) ==> RolesUnique(Vacate(subs, pid))
  {
    var v := Vacate(subs, pid);
    forall q | q != pid
      ensures HoldsRole(v, q) <==> HoldsRole(subs, q)
    {
      if HoldsRole(subs, q) {
        var i, r :| 0 <= i < |subs| && r in subs[i].roles && subs[i].roles[r] == q;
        assert r in v[i].roles && v[i].roles[r] == q;
      }
    }
  }

  /** `pid` takes the (empty) slot `role` of submarine i. */
  function AssignRole(subs: seq<Submarine>, i: nat, role: Role, pid: PlayerId): seq<Submarine>
    requires i < |subs|
  {
    subs[i := subs[i].(roles := subs[i].roles[role := pid])]
  }

  /** A slot of `AssignRole` is the new slot or a slot the submarines already had. */
  lemma {:induction false} AssignedSlot(v: seq<Submarine>, i: nat, role: Role, pid: PlayerId, j: int, q: Role)
    requires i < |v| && 0 <= j < |v|
    ensures var r := AssignRole(v, i, role, pid);
      q in r[j].roles <==> (j == i && q == role) || q in v[j].roles
    ensures var r := AssignRole(v, i, role, pid);
      q in r[j].roles && !(j == i && q == role) ==> r[j].roles[q] == v[j].roles[q]
  {
  }

  /** A player who holds no slot takes an empty one: still nobody sits in two slots. */
  lemma {:induction false} AssignFreshKeepsUnique(v: seq<Submarine>, i: nat, role: Role, pid: PlayerId)
    requires RolesUnique(v) && i < |v| && role !in v[i].roles && !HoldsRole(v, pid)
    ensures RolesUnique(AssignRole(v, i, role, pid))
  {
    var r := AssignRole(v, i, role, pid);
    forall j1, j2, q1, q2 | 0 <= j1 < |r| && 0 <= j2 < |r| && q1 in r[j1].roles && q2 in r[j2].roles &&
                            r[j1].roles[q1] == r[j2].roles[q2]
      ensures j1 == j2 && q1 == q2
    {
      AssignedSlot(v, i, role, pid, j1, q1);
      AssignedSlot(v, i, role, pid, j2, q2);
      var new1 := j1 == i && q1 == role;
      var new2 := j2 == i && q2 == role;
    }
  }

  /** After the assignment the player sits in exactly the new slot. */
  lemma {:induction false} AssignFreshOnlySlot(v: seq<Submarine>, i: nat, role: Role, pid: PlayerId)
    requires i < |v| && !HoldsRole(v, pid)
    ensures var r := AssignRole(v, i, role, pid);
      r[i].roles[role] == pid &&
      forall j, q :: (0 <= j < |r| && q in r[j].roles && r[j].roles[q] == pid) ==> j == i && q == role
  {
    var r := AssignRole(v, i, role, pid);
    forall j, q | 0 <= j < |r| && q in r[j].roles && r[j].roles[q] == pid
      ensures j == i && q == role
    {
      AssignedSlot(v, i, role, pid, j, q);
      if !(j == i && q == role) {
        assert HoldsRole(v, pid);
      }
    }
  }

  /** Filling an empty slot changes no other player's seating. */
  lemma {:induction false} AssignFreshKeepsOthers(v: seq<Submarine>, i: nat, role: Role, pid: PlayerId, p: PlayerId)
    requires i < |v| && role !in v[i].roles && p != pid
    ensures HoldsRole(AssignRole(v, i, role, pid), p) <==> HoldsRole(v, p)
  {
    var r := AssignRole(v, i, role, pid);
    if HoldsRole(r, p) {
      var j, q :| 0 <= j < |r| && q in r[j].roles && r[j].roles[q] == p;
      AssignedSlot(v, i, role, pid, j, q);
    }
    if HoldsRole(v, p) {
      var j, q :| 0 <= j < |v| && q in v[j].roles && v[j].roles[q] == p;
      AssignedSlot(v, i, role, pid, j, q);
    }
  }

  /**
   * Taking an empty slot after vacating one's own slots: the player then sits in exactly
   * that slot, nobody sits in two slots, and every other player keeps their slot.
   */
  lemma {:induction false} SelectRoleOutcome(subs: seq<Submarine>, i: nat, role: Role, pid: PlayerId)
    requires RolesUnique(subs) && i < |subs| && role !in subs[i].roles
    ensures var r := AssignRole(Vacate(subs, pid), i, role, pid);
      RolesUnique(r) && r[i].roles[role] == pid &&
      (forall j, q :: (0 <= j < |r| && q in r[j].roles && r[j].roles[q] == pid) ==> j == i && q == role) &&
      (forall p :: p != pid ==> (HoldsRole(r, p) <==> HoldsRole(subs, p)))
  {
    var v := Vacate(subs, pid);
    VacateOutcome(subs, pid);
    AssignFreshKeepsUnique(v, i, role, pid);
    AssignFreshOnlySlot(v, i, role, pid);
    forall p | p != pid
      ensures HoldsRole(AssignRole(v, i, role, pid), p) <==> HoldsRole(subs, p)
    {
      AssignFreshKeepsOthers(v, i, role, pid, p);
    }
  }

  /** Removing a player from the ready list and from their slots keeps the list consistent. */
  lemma {:induction false} UnreadyKeepsReadyOk(ready: seq<PlayerId>, subs: seq<Submarine>, subs': seq<Submarine>, pid: PlayerId)
    requires ReadyOk(ready, subs)
    requires forall q :: q != pid && HoldsRole(subs, q) ==> HoldsRole(subs', q)
    ensures ReadyOk(Without(ready, pid), subs')
  {
    WithoutKeepsNoDup(ready, pid);
  }

  // ---------------------------------------------------------------------------
  // Positions and movement

  datatype Verdict = Accept | Reject | Throws

  /**
   * The server's cell test. The bounds are checked with `<=` against the board's height and
   * the width of its first row, so a row one past the last reaches a missing row and the
   * lookup throws (as does reading the width of an empty board), while a column one past
   * the end reads a missing cell and is rejected; otherwise only water is accepted.
   */
  function CheckPosition(board: Board, row: int, col: int): (v: Verdict)
    ensures v == Throws <==> row == |board| && (|board| == 0 || 0 <= col <= |board[0]|)
    ensures v == Accept <==>
      0 <= row < |board| && 0 <= col <= |board[0]| && col < |board[row]| && board[row][col] == W
  {
    if !(0 <= row <= |board|) then Reject
    else if |board| == 0 then Throws
    else if !(0 <= col <= |board[0]|) then Reject
    else if row == |board| then Throws
    else if col == |board[row]| || col > |board[row]| then Reject
    else if board[row][col] == W then Accept
    else Reject
  }

  /** On the 15 x 15 board, exactly row 15 (with a column from 0 to 15) throws. */
  lemma {:induction false} SquareBoardVerdicts(board: Board, row: int, col: int)
    requires IsSquareBoard(board)
    ensures CheckPosition(board, row, col) == Throws <==> row == Size && 0 <= col <= Size
    ensures CheckPosition(board, row, col) == Accept <==>
      0 <= row < Size && 0 <= col < Size && board[row][col] == W
  {
  }

  predicate IsCompass(d: string) {
    d == "N" || d == "S" || d == "E" || d == "W"
  }

  function RowDelta(d: string): int {
    if d == "N" then -1 else if d == "S" then 1 else 0
  }

  function ColDelta(d: string): int {
    if d == "E" then 1 else if d == "W" then -1 else 0
  }

  /** The captain's move: one cell, then the crew owes the post-movement actions. */
  function AfterMove(s: Submarine, direction: string): (t: Submarine)
    requires IsCompass(direction)
    ensures MapUtils.GetRange(Some(MapUtils.GridPoint(s.row, s.col)), Some(MapUtils.GridPoint(t.row, t.col))) == 1
    ensures t.submarineState == DoingPostMovementActions
    ensures !t.postMovement.engineerCrossedOutSystem && t.postMovement.directionMoved == direction
    ensures t.postMovement.xoChargedGauge <==> GaugesFull(s.actionGauges)
    ensures t.(row := s.row, col := s.col, submarineState := s.submarineState, postMovement := s.postMovement) == s
  {
    s.(row := s.row + RowDelta(direction), col := s.col + ColDelta(direction),
       submarineState := DoingPostMovementActions,
       postMovement := PostMovement(false, GaugesFull(s.actionGauges), direction))
  }

  /** The compass directions are exactly the engine directions. */
  lemma {:induction false} CompassIsEngineDirection(d: string)
    ensures IsCompass(d) <==> d in Directions
  {
  }

  // ---------------------------------------------------------------------------
  // The first officer's gauge

  predicate CanCharge(s: Submarine, gauge: string) {
    s.submarineState == DoingPostMovementActions && !s.postMovement.xoChargedGauge &&
    gauge in s.actionGauges && s.actionGauges[gauge] < GaugeCap(gauge)
  }

  /**
   * One gauge rises by exactly 1; the first officer's action is recorded, and once the
   * engineer has also acted both flags reset and the submarine waits for the next move.
   */
  function AfterCharge(s: Submarine, gauge: string): (t: Submarine)
    requires CanCharge(s, gauge)
    ensures t.actionGauges.Keys == s.actionGauges.Keys
    ensures t.actionGauges[gauge] == s.actionGauges[gauge] + 1 <= GaugeCap(gauge)
    ensures forall k :: k in s.actionGauges && k != gauge ==> t.actionGauges[k] == s.actionGauges[k]
    ensures GaugesOk(s.actionGauges) ==> GaugesOk(t.actionGauges)
    ensures s.postMovement.engineerCrossedOutSystem ==>
      t.submarineState == WaitingForAction && !t.postMovement.engineerCrossedOutSystem &&
      !t.postMovement.xoChargedGauge
    ensures !s.postMovement.engineerCrossedOutSystem ==>
      t.submarineState == DoingPostMovementActions && t.postMovement.xoChargedGauge
    ensures t.postMovement.directionMoved == s.postMovement.directionMoved
    ensures t.engineLayout == s.engineLayout && t.health == s.health && t.roles == s.roles
  {
    var charged := s.actionGauges[gauge := s.actionGauges[gauge] + 1];
    if s.postMovement.engineerCrossedOutSystem then
      s.(actionGauges := charged, submarineState := WaitingForAction,
         postMovement := s.postMovement.(engineerCrossedOutSystem := false, xoChargedGauge := false))
    else
      s.(actionGauges := charged, postMovement := s.postMovement.(xoChargedGauge := true))
  }

  /** A charge closes the first officer's window until the next move. */
  lemma {:induction false} ChargeOncePerMove(s: Submarine, gauge: string, other: string)
    requires CanCharge(s, gauge)
    ensures !CanCharge(AfterCharge(s, gauge), other)
  {
  }

  // ---------------------------------------------------------------------------
  // The engineer's cross-off

  function SlotKey(s: SlotRef): (string, string) {
    (s.direction, s.slotId)
  }

  function RefOf(key: (string, string)): SlotRef {
    SlotRef(key.0, key.1)
  }

  predicate CanCrossOff(s: Submarine, direction: string, slotId: string) {
    s.submarineState == DoingPostMovementActions &&
    !s.postMovement.engineerCrossedOutSystem && direction == s.postMovement.directionMoved &&
    SlotRef(direction, slotId) !in s.engineLayout.crossedOutSlots
  }

  /** Every connection of the circuit is crossed out. */
  predicate CircuitComplete(c: Circuit, crossed: seq<SlotRef>) {
    forall j :: 0 <= j < |c.connections| ==> RefOf(KeyOf(c.connections[j])) in crossed
  }

  /** `circuits.filter(c => complete)`, in order. */
  function Completed(circuits: seq<Circuit>, crossed: seq<SlotRef>): (r: seq<Circuit>)
    ensures forall c :: c in r <==> c in circuits && CircuitComplete(c, crossed)
  {
    if circuits == [] then []
    else
      var last := circuits[|circuits| - 1];
      Completed(circuits[..|circuits| - 1], crossed) + (if CircuitComplete(last, crossed) then [last] else [])
  }

  function SetOf<T>(s: seq<T>): set<T> {
    set x | x in s
  }

  /** The slots of all completed circuits. */
  function ClearedKeys(circuits: seq<Circuit>, crossed: seq<SlotRef>): set<(string, string)> {
    SetOf(KeysOf(Flatten(Completed(circuits, crossed))))
  }

  lemma {:induction false} FlattenAppend(a: seq<Circuit>, c: Circuit)
    ensures Flatten(a + [c]) == Flatten(a) + c.connections
  {
    assert (a + [c])[..|a + [c]| - 1] == a;
  }

  /** The slots of the completed circuits are crossed out and are slots of the layout's circuits. */
  lemma {:induction false} CompletedKeys(circuits: seq<Circuit>, crossed: seq<SlotRef>)
    ensures forall k :: k in KeysOf(Flatten(Completed(circuits, crossed))) ==>
      RefOf(k) in crossed && k in KeysOf(Flatten(circuits))
  {
    if circuits != [] {
      var init := circuits[..|circuits| - 1];
      var last := circuits[|circuits| - 1];
      assert circuits == init + [last];
      CompletedKeys(init, crossed);
      FlattenAppend(init, last);
      KeysOfAppend(Flatten(init), last.connections);
      var ci := Completed(init, crossed);
      if CircuitComplete(last, crossed) {
        FlattenAppend(ci, last);
        KeysOfAppend(Flatten(ci), last.connections);
        var b := KeysOf(last.connections);
        forall k | k in b
          ensures RefOf(k) in crossed
        {
          var j :| 0 <= j < |b| && b[j] == k;
          assert k == KeyOf(last.connections[j]);
        }
      } else {
        assert Completed(circuits, crossed) == ci;
      }
    }
  }

  /** A duplicate-free list whose left part is replaced by a duplicate-free selection from it. */
  lemma {:induction false} NoDupSelectLeft<T>(a: seq<T>, fa: seq<T>, b: seq<T>)
    requires NoDup(fa + b) && NoDup(a) && forall x :: x in a ==> x in fa
    ensures NoDup(a + b)
  {
    forall x, y | 0 <= x < y < |a + b|
      ensures (a + b)[x] != (a + b)[y]
    {
      if y < |a| {
        assert (a + b)[x] == a[x] && (a + b)[y] == a[y];
      } else if x >= |a| {
        assert (a + b)[x] == (fa + b)[x - |a| + |fa|];
        assert (a + b)[y] == (fa + b)[y - |a| + |fa|];
      } else {
        assert (a + b)[x] in fa;
        var x' :| 0 <= x' < |fa| && fa[x'] == (a + b)[x];
        assert (a + b)[x] == (fa + b)[x'];
        assert (a + b)[y] == (fa + b)[y - |a| + |fa|];
      }
    }
  }

  lemma {:induction false} NoDupPrefix<T>(a: seq<T>, b: seq<T>)
    requires NoDup(a + b)
    ensures NoDup(a)
  {
    forall x, y | 0 <= x < y < |a|
      ensures a[x] != a[y]
    {
      assert a[x] == (a + b)[x] && a[y] == (a + b)[y];
    }
  }

  /** The slots of the completed circuits are pairwise distinct whenever the circuits' slots are. */
  lemma {:induction false} CompletedKeysNoDup(circuits: seq<Circuit>, crossed: seq<SlotRef>)
    requires NoDup(KeysOf(Flatten(circuits)))
    ensures NoDup(KeysOf(Flatten(Completed(circuits, crossed))))
  {
    if circuits != [] {
      var init := circuits[..|circuits| - 1];
      var last := circuits[|circuits| - 1];
      assert circuits == init + [last];
      FlattenAppend(init, last);
      KeysOfAppend(Flatten(init), last.connections);
      NoDupPrefix(KeysOf(Flatten(init)), KeysOf(last.connections));
      CompletedKeysNoDup(init, crossed);
      CompletedKeys(init, crossed);
      var ci := Completed(init, crossed);
      if CircuitComplete(last, crossed) {
        FlattenAppend(ci, last);
        KeysOfAppend(Flatten(ci), last.connections);
        NoDupSelectLeft(KeysOf(Flatten(ci)), KeysOf(Flatten(init)), KeysOf(last.connections));
      } else {
        assert Completed(circuits, crossed) == ci;
      }
    }
  }

  /** The crossed-out slots whose key is not in `drop`, in their order. */
  function Keep(s: seq<SlotRef>, drop: set<(string, string)>): (r: seq<SlotRef>)
    ensures forall x :: x in r <==> x in s && SlotKey(x) !in drop
    ensures |r| <= |s|
  {
    if s == [] then [] else (if SlotKey(s[0]) in drop then [] else [s[0]]) + Keep(s[1..], drop)
  }

  lemma {:induction false} KeepAppend(a: seq<SlotRef>, b: seq<SlotRef>, drop: set<(string, string)>)
    ensures Keep(a + b, drop) == Keep(a, drop) + Keep(b, drop)
  {
    if a != [] {
      var head := if SlotKey(a[0]) in drop then [] else [a[0]];
      assert (a + b)[0] == a[0];
      assert (a + b)[1..] == a[1..] + b;
      assert Keep(a + b, drop) == head + Keep(a[1..] + b, drop);
      KeepAppend(a[1..], b, drop);
      assert Keep(a, drop) == head + Keep(a[1..], drop);
    } else {
      assert a + b == b;
    }
  }

  lemma {:induction false} KeepNothing(s: seq<SlotRef>, drop: set<(string, string)>)
    requires forall j :: 0 <= j < |s| ==> SlotKey(s[j]) !in drop
    ensures Keep(s, drop) == s
  {
    if s != [] {
      KeepNothing(s[1..], drop);
    }
  }

  lemma {:induction false} KeepKeep(s: seq<SlotRef>, d: set<(string, string)>, e: set<(string, string)>)
    ensures Keep(Keep(s, d), e) == Keep(s, d + e)
  {
    if s != [] {
      KeepKeep(s[1..], d, e);
      var head := if SlotKey(s[0]) in d then [] else [s[0]];
      KeepAppend(head, Keep(s[1..], d), e);
    }
  }

  lemma {:induction false} KeepNoDup(s: seq<SlotRef>, drop: set<(string, string)>)
    requires NoDup(s)
    ensures NoDup(Keep(s, drop))
  {
    if s != [] {
      KeepNoDup(s[1..], drop);
      assert s[0] !in s[1..];
    }
  }

  /** A slot is determined by its key. */
  lemma {:induction false} SlotKeyInjective(x: SlotRef, y: SlotRef)
    ensures SlotKey(x) == SlotKey(y) ==> x == y
  {
  }

  /** The tail of a duplicate-free list is duplicate-free and misses the head. */
  lemma {:induction false} NoDupTail<T>(s: seq<T>)
    requires NoDup(s) && s != []
    ensures NoDup(s[1..])
  {
    var t := s[1..];
    forall x, y | 0 <= x < y < |t|
      ensures t[x] != t[y]
    {
      assert t[x] == s[x + 1] && t[y] == s[y + 1];
    }
  }

  /** In a duplicate-free list no later entry shares the head's key. */
  lemma {:induction false} HeadKeyUnique(r: seq<SlotRef>)
    requires NoDup(r) && r != []
    ensures forall j :: 0 <= j < |r[1..]| ==> SlotKey(r[1..][j]) !in {SlotKey(r[0])}
  {
    forall j | 0 <= j < |r[1..]|
      ensures SlotKey(r[1..][j]) !in {SlotKey(r[0])}
    {
      assert r[1..][j] == r[j + 1] && r[0] != r[j + 1];
      SlotKeyInjective(r[1..][j], r[0]);
    }
  }

  /** The head of a duplicate-free list survives dropping the key of a later entry. */
  lemma {:induction false} KeepPastHead(r: seq<SlotRef>, i: nat)
    requires NoDup(r) && 0 < i < |r|
    ensures Keep(r, {SlotKey(r[i])}) == [r[0]] + Keep(r[1..], {SlotKey(r[i])})
  {
    assert r[0] != r[i];
    SlotKeyInjective(r[0], r[i]);
  }

  /** Removing the head of a duplicate-free list drops exactly its key. */
  lemma {:induction false} RemoveHeadIsKeep(r: seq<SlotRef>)
    requires NoDup(r) && r != []
    ensures r[1..] == Keep(r, {SlotKey(r[0])})
  {
    NoDupTail(r);
    HeadKeyUnique(r);
    KeepNothing(r[1..], {SlotKey(r[0])});
  }

  /** Removing the one entry of a duplicate-free list at i drops exactly that key. */
  lemma {:induction false} RemoveUniqueIsKeep(r: seq<SlotRef>, i: nat)
    requires NoDup(r) && i < |r|
    ensures r[..i] + r[i + 1..] == Keep(r, {SlotKey(r[i])})
  {
    if i == 0 {
      assert r[..0] + r[1..] == r[1..];
      RemoveHeadIsKeep(r);
    } else {
      var t := r[1..];
      NoDupTail(r);
      calc {
        r[..i] + r[i + 1..];
      == { assert r[..i] == [r[0]] + t[..i - 1]; assert r[i + 1..] == t[i..]; }
        ([r[0]] + t[..i - 1]) + t[i..];
      ==
        [r[0]] + (t[..i - 1] + t[i..]);
      == { RemoveUniqueIsKeep(t, i - 1); assert t[i - 1] == r[i]; }
        [r[0]] + Keep(t, {SlotKey(r[i])});
      == { KeepPastHead(r, i); }
        Keep(r, {SlotKey(r[i])});
      }
    }
  }

  /** Cutting one entry out of a duplicate-free list leaves it duplicate-free. */
  lemma {:induction false} RemoveAtKeepsNoDup<T>(s: seq<T>, i: nat)
    requires NoDup(s) && i < |s|
    ensures NoDup(s[..i] + s[i + 1..])
  {
    var r := s[..i] + s[i + 1..];
    forall x, y | 0 <= x < y < |r|
      ensures r[x] != r[y]
    {
      var x' := if x < i then x else x + 1;
      var y' := if y < i then y else y + 1;
      assert r[x] == s[x'] && r[y] == s[y'];
    }
  }

  /** `findIndex` by slot key: the first position holding `key`, or -1. */
  function FindIndex(s: seq<SlotRef>, key: (string, string)): (i: int)
    ensures -1 <= i < |s|
    ensures i == -1 <==> forall j :: 0 <= j < |s| ==> SlotKey(s[j]) != key
    ensures i >= 0 ==> SlotKey(s[i]) == key && forall j :: 0 <= j < i ==> SlotKey(s[j]) != key
  {
    if s == [] then -1
    else if SlotKey(s[0]) == key then 0
    else
      var t := FindIndex(s[1..], key);
      if t == -1 then -1 else t + 1
  }

  /** `splice(i, 1)`: index -1 counts from the end, so it removes the last entry. */
  function SpliceOne(s: seq<SlotRef>, i: int): seq<SlotRef>
    requires -1 <= i < |s|
  {
    if i >= 0 then s[..i] + s[i + 1..] else if s == [] then [] else s[..|s| - 1]
  }

  lemma {:induction false} SpliceOneKeepsNoDup(s: seq<SlotRef>, i: int)
    requires -1 <= i < |s| && NoDup(s)
    ensures NoDup(SpliceOne(s, i))
  {
    if i >= 0 {
      RemoveAtKeepsNoDup(s, i);
    } else if s != [] {
      assert SpliceOne(s, i) == s[..|s| - 1];
    }
  }

  /** The next key of the clearing loop is still present: it was crossed and not yet removed. */
  lemma {:induction false} ClearStepFinds(crossed: seq<SlotRef>, toRemove: seq<(string, string)>, j: nat, r: seq<SlotRef>)
    requires NoDup(toRemove) && j < |toRemove|
    requires RefOf(toRemove[j]) in crossed
    requires r == Keep(crossed, SetOf(toRemove[..j]))
    ensures RefOf(toRemove[j]) in r && SlotKey(RefOf(toRemove[j])) == toRemove[j]
    ensures toRemove[j] !in SetOf(toRemove[..j])
  {
    var key := toRemove[j];
    forall x | 0 <= x < j
      ensures toRemove[..j][x] != key
    {
    }
  }

  /** The clearing loop's findIndex locates the next key. */
  lemma {:induction false} ClearStepLocates(crossed: seq<SlotRef>, toRemove: seq<(string, string)>, j: nat, r: seq<SlotRef>)
    requires NoDup(toRemove) && j < |toRemove|
    requires RefOf(toRemove[j]) in crossed
    requires r == Keep(crossed, SetOf(toRemove[..j]))
    ensures 0 <= FindIndex(r, toRemove[j]) < |r| && SlotKey(r[FindIndex(r, toRemove[j])]) == toRemove[j]
  {
    ClearStepFinds(crossed, toRemove, j, r);
    var w :| 0 <= w < |r| && r[w] == RefOf(toRemove[j]);
    assert SlotKey(r[w]) == toRemove[j];
  }

  /** The keys of a prefix grow by one key at a time. */
  lemma {:induction false} SetOfPrefix<T>(s: seq<T>, j: nat)
    requires j < |s|
    ensures SetOf(s[..j + 1]) == SetOf(s[..j]) + {s[j]}
  {
    assert s[..j + 1] == s[..j] + [s[j]];
  }

  /** One removal of the clearing loop drops exactly the next key. */
  lemma {:induction false} ClearStep(crossed: seq<SlotRef>, toRemove: seq<(string, string)>, j: nat, r: seq<SlotRef>)
    requires NoDup(crossed) && NoDup(toRemove) && j < |toRemove|
    requires RefOf(toRemove[j]) in crossed
    requires r == Keep(crossed, SetOf(toRemove[..j]))
    ensures FindIndex(r, toRemove[j]) >= 0
    ensures SpliceOne(r, FindIndex(r, toRemove[j])) == Keep(crossed, SetOf(toRemove[..j + 1]))
  {
    var key := toRemove[j];
    var dropped := SetOf(toRemove[..j]);
    ClearStepLocates(crossed, toRemove, j, r);
    var idx := FindIndex(r, key);
    KeepNoDup(crossed, dropped);
    RemoveUniqueIsKeep(r, idx);
    KeepKeep(crossed, dropped, {key});
    SetOfPrefix(toRemove, j);
  }

  /**
   * Removes the crossed-out entry of every connection of every completed circuit, circuit
   * after circuit, locating each with findIndex and removing it with splice(index, 1).
   * With distinct crossed slots and distinct circuit slots this is a plain filter.
   */
  method ClearCompletedCircuits(crossed: seq<SlotRef>, circuits: seq<Circuit>) returns (r: seq<SlotRef>)
    ensures NoDup(crossed) ==> NoDup(r)
    ensures NoDup(crossed) && NoDup(KeysOf(Flatten(circuits))) ==>
      r == Keep(crossed, ClearedKeys(circuits, crossed))
  {
    var toRemove := KeysOf(Flatten(Completed(circuits, crossed)));
    ghost var exact := NoDup(crossed) && NoDup(toRemove) &&
      forall k :: k in toRemove ==> RefOf(k) in crossed;
    CompletedKeys(circuits, crossed);
    if NoDup(KeysOf(Flatten(circuits))) {
      CompletedKeysNoDup(circuits, crossed);
    }
    assert NoDup(crossed) && NoDup(KeysOf(Flatten(circuits))) ==> exact;
    r := crossed;
    KeepNothing(crossed, {});
    assert SetOf(toRemove[..0]) == {};
    var j := 0;
    while j < |toRemove|
      invariant 0 <= j <= |toRemove|
      invariant NoDup(crossed) ==> NoDup(r)
      invariant exact ==> r == Keep(crossed, SetOf(toRemove[..j]))
    {
      var idx := FindIndex(r, toRemove[j]);
      if exact {
        ClearStep(crossed, toRemove, j, r);
      }
      if NoDup(crossed) {
        SpliceOneKeepsNoDup(r, idx);
      }
      r := SpliceOne(r, idx);
      j := j + 1;
    }
    assert toRemove[..j] == toRemove;
  }

  /** Both slots of a direction, frame and reactor, are crossed out. */
  predicate DirectionCrossedOut(dl: DirectionLayout, direction: string, crossed: seq<SlotRef>) {
    (forall k :: k in dl.frameSlots ==> SlotRef(direction, k) in crossed) &&
    (forall k :: k in dl.reactorSlots ==> SlotRef(direction, k) in crossed)
  }

  /** Every reactor slot holding 'reactor', in every direction, is crossed out. */
  predicate AllReactorsCrossedOut(directions: map<string, DirectionLayout>, crossed: seq<SlotRef>) {
    forall d, k :: (d in directions && k in directions[d].reactorSlots &&
      directions[d].reactorSlots[k] == Reactor) ==> SlotRef(d, k) in crossed
  }

  /** The crossed-out list once the slot is recorded and completed circuits are cleared, before any damage. */
  function ClearedAfterCross(s: Submarine, direction: string, slotId: string): (r: seq<SlotRef>)
    ensures forall x :: x in r ==> x in s.engineLayout.crossedOutSlots || x == SlotRef(direction, slotId)
  {
    var c1 := s.engineLayout.crossedOutSlots + [SlotRef(direction, slotId)];
    Keep(c1, ClearedKeys(s.engineLayout.circuits, c1))
  }

  /**
   * The health a cross-off costs: one point when the moved direction is entirely crossed
   * out, one more when every reactor is, both judged on the list after circuit clearing.
   */
  function Penalty(s: Submarine, direction: string, slotId: string): (p: nat)
    requires direction in s.engineLayout.directions
    ensures p <= 2
    ensures var cleared := ClearedAfterCross(s, direction, slotId);
      (p == 0 <==> !DirectionCrossedOut(s.engineLayout.directions[direction], direction, cleared) &&
                   !AllReactorsCrossedOut(s.engineLayout.directions, cleared)) &&
      (p == 2 <==> DirectionCrossedOut(s.engineLayout.directions[direction], direction, cleared) &&
                   AllReactorsCrossedOut(s.engineLayout.directions, cleared))
  {
    var cleared := ClearedAfterCross(s, direction, slotId);
    (if DirectionCrossedOut(s.engineLayout.directions[direction], direction, cleared) then 1 else 0) +
    (if AllReactorsCrossedOut(s.engineLayout.directions, cleared) then 1 else 0)
  }

  /**
   * The outcome of a cross-off: the slot is recorded, completed circuits are cleared, a
   * fully crossed direction and a full set of crossed reactors each cost one health point
   * and clear every crossed slot, and health never drops below 0.
   */
  function AfterCrossOff(s: Submarine, direction: string, slotId: string): (t: Submarine)
    requires direction in s.engineLayout.directions
    ensures var p := Penalty(s, direction, slotId);
      (s.health >= 0 ==> t.health == if s.health <= p then 0 else s.health - p) &&
      t.engineLayout.crossedOutSlots == if p == 0 then ClearedAfterCross(s, direction, slotId) else []
    ensures t.health < s.health <==> s.health > 0 && Penalty(s, direction, slotId) > 0
    ensures t.engineLayout.directions == s.engineLayout.directions
    ensures t.engineLayout.circuits == s.engineLayout.circuits
    ensures t.health >= 0
    ensures s.health >= 0 ==> s.health - 2 <= t.health <= s.health
    ensures t.health < s.health ==> t.engineLayout.crossedOutSlots == []
    ensures forall x :: x in t.engineLayout.crossedOutSlots ==>
      x in s.engineLayout.crossedOutSlots || x == SlotRef(direction, slotId)
    ensures s.postMovement.xoChargedGauge ==>
      t.submarineState == WaitingForAction && !t.postMovement.engineerCrossedOutSystem &&
      !t.postMovement.xoChargedGauge
    ensures !s.postMovement.xoChargedGauge ==>
      t.submarineState == s.submarineState && t.postMovement.engineerCrossedOutSystem
    ensures t.postMovement.directionMoved == s.postMovement.directionMoved
    ensures t.actionGauges == s.actionGauges && t.roles == s.roles && t.id == s.id
    ensures t.row == s.row && t.col == s.col
  {
    var cleared := ClearedAfterCross(s, direction, slotId);
    var directionOut := DirectionCrossedOut(s.engineLayout.directions[direction], direction, cleared);
    var reactorsOut := AllReactorsCrossedOut(s.engineLayout.directions, cleared);
    var h := s.health - (if directionOut then 1 else 0) - (if reactorsOut then 1 else 0);
    var done := s.postMovement.xoChargedGauge;
    s.(engineLayout := s.engineLayout.(crossedOutSlots := if directionOut || reactorsOut then [] else cleared),
       health := if h < 0 then 0 else h,
       submarineState := if done then WaitingForAction else s.submarineState,
       postMovement := if done then s.postMovement.(engineerCrossedOutSystem := false, xoChargedGauge := false)
                       else s.postMovement.(engineerCrossedOutSystem := true))
  }

  /**
   * The cross-off as the server performs it on the submarine: record the slot, flag the
   * engineer's action, splice out the slots of completed circuits, then apply the damage.
   */
  method CrossOff(s: Submarine, direction: string, slotId: string) returns (t: Submarine)
    requires CanCrossOff(s, direction, slotId) && direction in s.engineLayout.directions
    requires NoDup(s.engineLayout.crossedOutSlots) && NoDup(KeysOf(Flatten(s.engineLayout.circuits)))
    ensures t == AfterCrossOff(s, direction, slotId)
  {
    var layout := s.engineLayout;
    var c1 := layout.crossedOutSlots + [SlotRef(direction, slotId)];
    NoDupAppend(layout.crossedOutSlots, SlotRef(direction, slotId));
    var cleared := ClearCompletedCircuits(c1, layout.circuits);
    var directionOut := DirectionCrossedOut(layout.directions[direction], direction, cleared);
    var reactorsOut := AllReactorsCrossedOut(layout.directions, cleared);
    var health := s.health;
    var crossed := cleared;
    if directionOut {
      health := health - 1;
      crossed := [];
    }
    if reactorsOut {
      health := health - 1;
      crossed := [];
    }
    if health < 0 {
      health := 0;
    }
    var pm := s.postMovement.(engineerCrossedOutSystem := true);
    var state := s.submarineState;
    if pm.xoChargedGauge && pm.engineerCrossedOutSystem {
      pm := pm.(engineerCrossedOutSystem := false, xoChargedGauge := false);
      state := WaitingForAction;
    }
    t := s.(engineLayout := layout.(crossedOutSlots := crossed),
            health := health, submarineState := state, postMovement := pm);
  }

  /** The engineer of submarine i crosses out a slot; the fleet invariant is kept. */
  method CrossOffAt(subs: seq<Submarine>, ready: seq<PlayerId>, i: nat, direction: string, slotId: string)
    returns (r: seq<Submarine>)
    requires FleetOk(subs, ready) && i < |subs| && CanCrossOff(subs[i], direction, slotId)
    ensures direction in subs[i].engineLayout.directions
    ensures r == subs[i := AfterCrossOff(subs[i], direction, slotId)]
    ensures FleetOk(r, ready)
  {
    FleetCrossOff(subs, ready, i, direction, slotId);
    var t := CrossOff(subs[i], direction, slotId);
    r := subs[i := t];
  }

  /** The crossed-out list stays duplicate-free across a cross-off. */
  lemma {:induction false} CrossOffKeepsNoDup(s: Submarine, direction: string, slotId: string)
    requires direction in s.engineLayout.directions
    requires NoDup(s.engineLayout.crossedOutSlots) && SlotRef(direction, slotId) !in s.engineLayout.crossedOutSlots
    ensures NoDup(AfterCrossOff(s, direction, slotId).engineLayout.crossedOutSlots)
  {
    var c1 := s.engineLayout.crossedOutSlots + [SlotRef(direction, slotId)];
    NoDupAppend(s.engineLayout.crossedOutSlots, SlotRef(direction, slotId));
    KeepNoDup(c1, ClearedKeys(s.engineLayout.circuits, c1));
  }

  /**
   * When the cross-off completes a circuit, none of that circuit's slots stays crossed out;
   * every crossed slot outside the completed circuits stays unless damage cleared them all.
   */
  lemma {:induction false} CrossOffClearsCompletedCircuit(s: Submarine, direction: string, slotId: string, c: Circuit)
    requires direction in s.engineLayout.directions
    requires c in s.engineLayout.circuits
    requires CircuitComplete(c, s.engineLayout.crossedOutSlots + [SlotRef(direction, slotId)])
    ensures forall j :: 0 <= j < |c.connections| ==>
      RefOf(KeyOf(c.connections[j])) !in AfterCrossOff(s, direction, slotId).engineLayout.crossedOutSlots
  {
    var c1 := s.engineLayout.crossedOutSlots + [SlotRef(direction, slotId)];
    var cs := s.engineLayout.circuits;
    assert c in Completed(cs, c1);
    forall j | 0 <= j < |c.connections|
      ensures KeyOf(c.connections[j]) in ClearedKeys(cs, c1)
    {
      ConnectionInFlatten(Completed(cs, c1), c, j);
    }
  }

  lemma {:induction false} ConnectionInFlatten(cs: seq<Circuit>, c: Circuit, j: nat)
    requires c in cs && j < |c.connections|
    ensures KeyOf(c.connections[j]) in KeysOf(Flatten(cs))
  {
    var init := cs[..|cs| - 1];
    var last := cs[|cs| - 1];
    assert cs == init + [last];
    FlattenAppend(init, last);
    KeysOfAppend(Flatten(init), last.connections);
    if c == last {
      assert KeysOf(last.connections)[j] == KeyOf(c.connections[j]);
    } else {
      ConnectionInFlatten(init, c, j);
    }
  }

  /** A crossed slot outside every completed circuit survives a cross-off that costs no health. */
  lemma {:induction false} CrossOffKeepsOtherSlots(s: Submarine, direction: string, slotId: string, x: SlotRef)
    requires direction in s.engineLayout.directions
    requires x in s.engineLayout.crossedOutSlots + [SlotRef(direction, slotId)]
    requires SlotKey(x) !in ClearedKeys(s.engineLayout.circuits, s.engineLayout.crossedOutSlots + [SlotRef(direction, slotId)])
    requires AfterCrossOff(s, direction, slotId).health == s.health && s.health > 0
    ensures x in AfterCrossOff(s, direction, slotId).engineLayout.crossedOutSlots
  {
  }

  /**
   * The two post-movement actions in either order end the turn: the submarine waits for
   * the next move with both flags reset.
   */
  lemma {:induction false} BothActionsEndTurn(s: Submarine, gauge: string, slotId: string)
    requires s.submarineState == DoingPostMovementActions
    requires !s.postMovement.engineerCrossedOutSystem && !s.postMovement.xoChargedGauge
    requires s.postMovement.directionMoved in s.engineLayout.directions
    ensures (CanCharge(s, gauge) && CanCrossOff(AfterCharge(s, gauge), s.postMovement.directionMoved, slotId)) ==>
      var t := AfterCrossOff(AfterCharge(s, gauge), s.postMovement.directionMoved, slotId);
      t.submarineState == WaitingForAction && !t.postMovement.engineerCrossedOutSystem && !t.postMovement.xoChargedGauge
    ensures (CanCrossOff(s, s.postMovement.directionMoved, slotId) &&
      CanCharge(AfterCrossOff(s, s.postMovement.directionMoved, slotId), gauge)) ==>
      var t := AfterCharge(AfterCrossOff(s, s.postMovement.directionMoved, slotId), gauge);
      t.submarineState == WaitingForAction && !t.postMovement.engineerCrossedOutSystem && !t.postMovement.xoChargedGauge
  {
  }

  // ---------------------------------------------------------------------------
  // What every submarine record keeps

  /**
   * Gauges in range, health between 0 and 4, a well-formed engine layout with a
   * duplicate-free crossed-out list, and a real compass direction once the captain moved.
   */
  ghost predicate SubOk(s: Submarine) {
    GaugesOk(s.actionGauges) && 0 <= s.health <= InitialHealth &&
    LayoutOk(s.engineLayout.(crossedOutSlots := [])) && NoDup(s.engineLayout.crossedOutSlots) &&
    (s.submarineState == DoingPostMovementActions ==> s.postMovement.directionMoved in Directions)
  }

  lemma {:induction false} MoveKeepsSubOk(s: Submarine, direction: string)
    requires SubOk(s) && IsCompass(direction)
    ensures SubOk(AfterMove(s, direction))
  {
  }

  lemma {:induction false} ChargeKeepsSubOk(s: Submarine, gauge: string)
    requires SubOk(s) && CanCharge(s, gauge)
    ensures SubOk(AfterCharge(s, gauge))
  {
  }

  lemma {:induction false} CrossOffKeepsSubOk(s: Submarine, direction: string, slotId: string)
    requires SubOk(s) && CanCrossOff(s, direction, slotId)
    ensures direction in s.engineLayout.directions
    ensures SubOk(AfterCrossOff(s, direction, slotId))
  {
    CrossOffKeepsNoDup(s, direction, slotId);
    var t := AfterCrossOff(s, direction, slotId);
    assert t.engineLayout.(crossedOutSlots := []) == s.engineLayout.(crossedOutSlots := []);
  }

  /** Every submarine has announced its start position. */
  predicate AllSubsChosen(subs: seq<Submarine>, chosen: seq<string>) {
    forall i :: 0 <= i < |subs| ==> subs[i].id in chosen
  }

  // ---------------------------------------------------------------------------
  // The fleet invariant

  /**
   * Submarines A and B, each well-formed; nobody sits in two role slots; the ready list
   * has no duplicates and only holds players sitting in a slot.
   */
  ghost predicate FleetOk(subs: seq<Submarine>, ready: seq<PlayerId>) {
    |subs| == 2 && subs[0].id == "A" && subs[1].id == "B" &&
    (forall i :: 0 <= i < |subs| ==> SubOk(subs[i])) &&
    RolesUnique(subs) && ReadyOk(ready, subs)
  }

  /** Replacing a submarine by a well-formed one with the same id and crew keeps the invariant. */
  lemma {:induction false} FleetUpdate(subs: seq<Submarine>, ready: seq<PlayerId>, i: nat, s: Submarine)
    requires FleetOk(subs, ready) && i < |subs|
    requires SubOk(s) && s.id == subs[i].id && s.roles == subs[i].roles
    ensures FleetOk(subs[i := s], ready)
  {
    var t := subs[i := s];
    UpdateKeepsSubsOk(subs, t, i);
    forall j | 0 <= j < |t|
      ensures t[j].roles == subs[j].roles
    {
    }
    SameCrews(subs, t);
    assert ReadyOk(ready, t);
  }

  /** Replacing one well-formed submarine by another keeps every submarine well-formed. */
  lemma {:induction false} UpdateKeepsSubsOk(subs: seq<Submarine>, t: seq<Submarine>, i: nat)
    requires forall j :: 0 <= j < |subs| ==> SubOk(subs[j])
    requires |t| == |subs| && i < |t| && SubOk(t[i])
    requires forall j :: 0 <= j < |t| && j != i ==> t[j] == subs[j]
    ensures forall j :: 0 <= j < |t| ==> SubOk(t[j])
  {
    forall j | 0 <= j < |t|
      ensures SubOk(t[j])
    {
      if j != i {
        assert t[j] == subs[j];
      }
    }
  }

  /** The role predicates only look at the crews. */
  lemma {:induction false} SameCrews(subs: seq<Submarine>, t: seq<Submarine>)
    requires |subs| == |t| && forall j :: 0 <= j < |t| ==> t[j].roles == subs[j].roles
    ensures RolesUnique(t) == RolesUnique(subs)
    ensures forall q :: HoldsRole(t, q) == HoldsRole(subs, q)
  {
    forall q | HoldsRole(subs, q)
      ensures HoldsRole(t, q)
    {
      var j, r :| 0 <= j < |subs| && r in subs[j].roles && subs[j].roles[r] == q;
      assert r in t[j].roles && t[j].roles[r] == q;
    }
  }

  /** Placing a submarine keeps the invariant. */
  lemma {:induction false} FleetPlace(subs: seq<Submarine>, ready: seq<PlayerId>, i: nat, row: int, col: int)
    requires FleetOk(subs, ready) && i < |subs|
    ensures FleetOk(subs[i := subs[i].(row := row, col := col)], ready)
  {
    FleetUpdate(subs, ready, i, subs[i].(row := row, col := col));
  }

  /** A move keeps the invariant. */
  lemma {:induction false} FleetMove(subs: seq<Submarine>, ready: seq<PlayerId>, i: nat, direction: string)
    requires FleetOk(subs, ready) && i < |subs| && IsCompass(direction)
    ensures FleetOk(subs[i := AfterMove(subs[i], direction)], ready)
  {
    MoveKeepsSubOk(subs[i], direction);
    FleetUpdate(subs, ready, i, AfterMove(subs[i], direction));
  }

  /** Charging a gauge keeps the invariant. */
  lemma {:induction false} FleetCharge(subs: seq<Submarine>, ready: seq<PlayerId>, i: nat, gauge: string)
    requires FleetOk(subs, ready) && i < |subs| && CanCharge(subs[i], gauge)
    ensures FleetOk(subs[i := AfterCharge(subs[i], gauge)], ready)
  {
    ChargeKeepsSubOk(subs[i], gauge);
    FleetUpdate(subs, ready, i, AfterCharge(subs[i], gauge));
  }

  /** Crossing out a slot keeps the invariant. */
  lemma {:induction false} FleetCrossOff(subs: seq<Submarine>, ready: seq<PlayerId>, i: nat, direction: string, slotId: string)
    requires FleetOk(subs, ready) && i < |subs| && CanCrossOff(subs[i], direction, slotId)
    ensures direction in subs[i].engineLayout.directions
    ensures NoDup(subs[i].engineLayout.crossedOutSlots) && NoDup(KeysOf(Flatten(subs[i].engineLayout.circuits)))
    ensures FleetOk(subs[i := AfterCrossOff(subs[i], direction, slotId)], ready)
  {
    CrossOffKeepsSubOk(subs[i], direction, slotId);
    assert CircuitsOk(subs[i].engineLayout.directions, subs[i].engineLayout.circuits);
    FleetUpdate(subs, ready, i, AfterCrossOff(subs[i], direction, slotId));
  }

  /** Installing a fresh engine layout keeps the invariant. */
  lemma {:induction false} FleetFreshLayout(subs: seq<Submarine>, ready: seq<PlayerId>, i: nat, layout: EngineLayout)
    requires FleetOk(subs, ready) && i < |subs| && LayoutOk(layout)
    ensures FleetOk(subs[i := subs[i].(engineLayout := layout)], ready)
  {
    FreshLayoutKeepsSubOk(subs[i], layout);
    FleetUpdate(subs, ready, i, subs[i].(engineLayout := layout));
  }

  /** Of the two submarines, the one whose id differs from submarine i's is the other one. */
  lemma {:induction false} OtherSubmarine(subs: seq<Submarine>, i: nat)
    requires |subs| == 2 && subs[0].id == "A" && subs[1].id == "B" && i < 2
    ensures FindOther(subs, subs[i].id) == Some(1 - i)
  {
    assert "A"[0] != "B"[0];
    assert subs[1..][0] == subs[1];
  }

  /** A fresh engine layout keeps a submarine well-formed. */
  lemma {:induction false} FreshLayoutKeepsSubOk(s: Submarine, layout: EngineLayout)
    requires SubOk(s) && LayoutOk(layout)
    ensures SubOk(s.(engineLayout := layout))
  {
    assert layout.(crossedOutSlots := []) == layout;
  }

  /** A player who leaves every slot and the ready list leaves the invariant intact. */
  lemma {:induction false} FleetVacate(subs: seq<Submarine>, ready: seq<PlayerId>, pid: PlayerId)
    requires FleetOk(subs, ready)
    ensures FleetOk(Vacate(subs, pid), Without(ready, pid))
  {
    VacateOutcome(subs, pid);
    UnreadyKeepsReadyOk(ready, subs, Vacate(subs, pid), pid);
    var v := Vacate(subs, pid);
    assert forall j :: 0 <= j < |v| ==> SubOk(v[j]);
  }

  /** Taking an empty slot, after leaving the old ones and the ready list, keeps the invariant. */
  lemma {:induction false} FleetSelect(subs: seq<Submarine>, ready: seq<PlayerId>, i: nat, role: Role, pid: PlayerId)
    requires FleetOk(subs, ready) && i < |subs| && role !in subs[i].roles
    ensures FleetOk(AssignRole(Vacate(subs, pid), i, role, pid), Without(ready, pid))
  {
    SelectRoleOutcome(subs, i, role, pid);
    var r := AssignRole(Vacate(subs, pid), i, role, pid);
    UnreadyKeepsReadyOk(ready, subs, r, pid);
    assert forall j :: 0 <= j < |r| ==> SubOk(r[j]);
  }

  /** A crew member joins the ready list once. */
  lemma {:induction false} FleetReady(subs: seq<Submarine>, ready: seq<PlayerId>, pid: PlayerId)
    requires FleetOk(subs, ready) && HoldsRole(subs, pid) && pid !in ready
    ensures FleetOk(subs, ready + [pid])
  {
    NoDupAppend(ready, pid);
  }

  /** A player leaves the ready list. */
  lemma {:induction false} FleetUnready(subs: seq<Submarine>, ready: seq<PlayerId>, pid: PlayerId)
    requires FleetOk(subs, ready)
    ensures FleetOk(subs, Without(ready, pid))
  {
    UnreadyKeepsReadyOk(ready, subs, subs, pid);
  }

  // ---------------------------------------------------------------------------
  // Player numbers

  /**
   * The number a new player gets: counting up from 1, the first number no connected
   * player holds.
   */
  method NextPlayerNumber(used: set<nat>) returns (n: nat)
    ensures n >= 1 && n !in used
    ensures forall m :: 1 <= m < n ==> m in used
  {
    n := 1;
    while n in used
      invariant n >= 1
      invariant forall m :: 1 <= m < n ==> m in used
      decreases set v | v in used && v >= n
    {
      ghost var before := set v | v in used && v >= n;
      n := n + 1;
      assert (set v | v in used && v >= n) < before by {
        assert n - 1 in before;
      }
    }
  }

  /** The smallest free number is unique: any number with the same two properties equals it. */
  lemma {:induction false} SmallestFreeUnique(used: set<nat>, a: nat, b: nat)
    requires a >= 1 && a !in used && forall m :: 1 <= m < a ==> m in used
    requires b >= 1 && b !in used && forall m :: 1 <= m < b ==> m in used
    ensures a == b
  {
  }

  /** A freshly created submarine: empty slots, empty gauges, full health, at (0, 0). */
  /**
   * A submarine as createSubmarine builds it: named after its id, no crew, every action
   * gauge empty, at (0, 0) with full health, waiting for action with the post-movement
   * flags cleared, and a fresh engine layout with nothing crossed out.
   */
  ghost predicate FreshSubmarine(sub: Submarine, id: string) {
    sub.id == id && sub.name == "Sub " + id && sub.roles == map[] &&
    LayoutOk(sub.engineLayout) && sub.engineLayout.crossedOutSlots == [] &&
    sub.actionGauges == map["mine" := 0, "torpedo" := 0, "drone" := 0, "sonar" := 0, "silence" := 0] &&
    sub.row == 0 && sub.col == 0 && sub.health == InitialHealth &&
    sub.submarineState == WaitingForAction && sub.postMovement == PostMovement(false, false, " ")
  }

  method CreateSubmarine(id: string, pick: Oracle, k: nat) returns (sub: Submarine, k': nat)
    ensures FreshSubmarine(sub, id)
    ensures sub.id == id && sub.name == "Sub " + id && sub.roles == map[]
    ensures LayoutOk(sub.engineLayout)
    ensures sub.actionGauges == map["mine" := 0, "torpedo" := 0, "drone" := 0, "sonar" := 0, "silence" := 0]
    ensures GaugesOk(sub.actionGauges)
    ensures sub.row == 0 && sub.col == 0 && sub.health == InitialHealth
    ensures sub.submarineState == WaitingForAction
    ensures sub.postMovement == PostMovement(false, false, " ")
  {
    var layout;
    layout, k' := GenerateLayout(pick, k);
    sub := Submarine(id, "Sub " + id, map[], layout,
                     map["mine" := 0, "torpedo" := 0, "drone" := 0, "sonar" := 0, "silence" := 0],
                     0, 0, InitialHealth, WaitingForAction, PostMovement(false, false, " "));
  }
}
