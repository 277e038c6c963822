/**
 * The logical game server: the in-memory rules engine for the two-submarine game.
 *
 * The server keeps a table of player numbers beside one record, `serverState`, that every
 * operation rewrites and whose `version` it bumps. Each operation is first stated as a
 * step function from one ServerState to the next, with the invariant it keeps proved as a
 * lemma; the class LogicalServer then applies those steps to its fields.
 *
 * The 3000 ms timers become entries of `timers`, fired in order by FireNextTimer; the
 * callbacks the caller passes in are recorded, in the order they run, in `callbacks`;
 * Math.random is the oracle `pick` with the draw counter `draws`; Date.now is the
 * `now` argument of AddPlayer.
 */
module Server {
  import opened Wrappers
  import opened BoardLayout
  import opened EngineLayout
  import opened ServerRules

  datatype ServerPhase = Lobby | GameBeginning | InGame

  datatype GameState = ChoosingStartPositions | RealTimePlay

  /** A pending 3000 ms timer. */
  datatype Timer = StartGameTimer | ResumeRealTimePlayTimer

  /** A caller-supplied callback, as invoked. */
  datatype Callback =
    | AllRolesReadyCallback
    | GameStartedCallback
    | ResumingRealTimePlayCallback
    | GameOverCallback(winner: string)

  /**
   * The shared server state. The two start-position lists are the bookkeeping the server
   * keeps for the one game state that has any (choosing start positions).
   */
  datatype ServerState = ServerState(
    version: nat,
    currentState: ServerPhase,
    players: seq<Player>,
    adminId: Option<PlayerId>,
    submarines: seq<Submarine>,
    ready: seq<PlayerId>,
    board: Board,
    gameState: GameState,
    playerIdsReadyToContinue: seq<PlayerId>,
    submarineIdsWithStartPositionChosen: seq<string>)

  /** An admin, when there is one, is a connected player. */
  predicate AdminPresent(st: ServerState) {
    st.adminId.Some? ==> FindPlayer(st.players, st.adminId.value).Some?
  }

  /** Submarines A and B, in that order. */
  predicate TwoSubmarines(st: ServerState) {
    |st.submarines| == 2 && st.submarines[0].id == "A" && st.submarines[1].id == "B"
  }

  /** The invariant every operation keeps. */
  ghost predicate StateOk(st: ServerState) {
    FleetOk(st.submarines, st.ready) && AdminPresent(st)
  }

  /** The state a new server starts in, around its two freshly created submarines. */
  function InitialState(subs: seq<Submarine>): (st: ServerState)
    ensures st.version == 0 && st.currentState == Lobby && st.players == [] && st.adminId == None
    ensures st.submarines == subs && st.ready == [] && st.board == GenerateBoard()
    ensures st.gameState == ChoosingStartPositions
    ensures st.playerIdsReadyToContinue == [] && st.submarineIdsWithStartPositionChosen == []
  {
    ServerState(0, Lobby, [], None, subs, [], GenerateBoard(), ChoosingStartPositions, [], [])
  }

  /** Two freshly created submarines A and B make a valid initial state. */
  lemma {:induction false} InitialStateOk(a: Submarine, b: Submarine)
    requires a.id == "A" && b.id == "B" && a.roles == map[] && b.roles == map[]
    requires LayoutOk(a.engineLayout) && LayoutOk(b.engineLayout)
    requires GaugesOk(a.actionGauges) && GaugesOk(b.actionGauges)
    requires a.health == InitialHealth && b.health == InitialHealth
    requires a.submarineState == WaitingForAction && b.submarineState == WaitingForAction
    ensures StateOk(InitialState([a, b]))
  {
    CreatedSubOk(a);
    CreatedSubOk(b);
    var subs := [a, b];
    assert forall i :: 0 <= i < |subs| ==> SubOk(subs[i]);
  }

  /** A freshly created submarine satisfies the per-submarine invariant. */
  lemma {:induction false} CreatedSubOk(s: Submarine)
    requires LayoutOk(s.engineLayout) && GaugesOk(s.actionGauges)
    requires s.health == InitialHealth && s.submarineState == WaitingForAction
    ensures SubOk(s)
  {
    assert s.engineLayout.(crossedOutSlots := []) == s.engineLayout;
  }

  // ---------------------------------------------------------------------------
  // Players

  /** The name a player with number n gets on arrival. */
  function NumberedName(n: nat): string {
    "Player " + NatToString(n)
  }

  /** The name of the first player with this id, if any. */
  function PlayerName(st: ServerState, pid: PlayerId): (name: Option<string>)
    ensures name.None? <==> forall p :: p in st.players ==> p.id != pid
    ensures name.Some? ==>
      exists i :: 0 <= i < |st.players| && st.players[i].id == pid && st.players[i].name == name.value &&
                  forall j :: 0 <= j < i ==> st.players[j].id != pid
  {
    match FindPlayer(st.players, pid)
    case None => None
    case Some(i) => Some(st.players[i].name)
  }

  /**
   * A new connection is appended to the player list, not ready; the first player to arrive
   * while no admin is set becomes admin.
   */
  function JoinState(st: ServerState, pid: PlayerId, name: string, now: int): (r: ServerState)
    ensures r.players == st.players + [Player(pid, name, now, false)]
    ensures r.adminId == (if st.adminId.None? then Some(pid) else st.adminId)
    ensures r.version == st.version + 1
    ensures r.(players := st.players, adminId := st.adminId, version := st.version) == st
  {
    st.(players := st.players + [Player(pid, name, now, false)],
        adminId := if st.adminId.None? then Some(pid) else st.adminId,
        version := st.version + 1)
  }

  /** A join keeps the invariant; afterwards there is an admin and the new player can be found. */
  lemma {:induction false} JoinKeepsStateOk(st: ServerState, pid: PlayerId, name: string, now: int)
    requires StateOk(st)
    ensures var r := JoinState(st, pid, name, now);
      StateOk(r) && r.adminId.Some? && FindPlayer(r.players, pid).Some?
  {
    var r := JoinState(st, pid, name, now);
    assert r.players[|st.players|].id == pid;
    if st.adminId.Some? {
      var i := FindPlayer(st.players, st.adminId.value).value;
      assert r.players[i].id == st.adminId.value;
    }
  }

  /**
   * A disconnection removes the player's record and ready entry and empties their role
   * slots; the admin is cleared only if it was them, and nobody is promoted.
   */
  function DisconnectState(st: ServerState, pid: PlayerId): (r: ServerState)
    ensures r.players == RemovePlayer(st.players, pid)
    ensures r.ready == Without(st.ready, pid)
    ensures r.submarines == Vacate(st.submarines, pid)
    ensures r.adminId == (if st.adminId == Some(pid) then None else st.adminId)
    ensures r.version == st.version + 1
    ensures r.(players := st.players, ready := st.ready, submarines := st.submarines,
               adminId := st.adminId, version := st.version) == st
  {
    st.(players := RemovePlayer(st.players, pid),
        ready := Without(st.ready, pid),
        submarines := Vacate(st.submarines, pid),
        adminId := if st.adminId == Some(pid) then None else st.adminId,
        version := st.version + 1)
  }

  /**
   * A disconnection keeps the invariant and leaves no trace of the player: no record, no
   * slot, no ready entry, not admin; every other player keeps their record and their slots.
   */
  lemma {:induction false} DisconnectKeepsStateOk(st: ServerState, pid: PlayerId)
    requires StateOk(st)
    ensures var r := DisconnectState(st, pid);
      StateOk(r) && FindPlayer(r.players, pid).None? && !HoldsRole(r.submarines, pid) &&
      pid !in r.ready && r.adminId != Some(pid) &&
      (forall p :: p in st.players && p.id != pid ==> p in r.players) &&
      (forall q :: q != pid ==> (HoldsRole(r.submarines, q) <==> HoldsRole(st.submarines, q)))
  {
    var r := DisconnectState(st, pid);
    VacateOutcome(st.submarines, pid);
    FleetVacate(st.submarines, st.ready, pid);
    if r.adminId.Some? {
      var a := r.adminId.value;
      var i := FindPlayer(st.players, a).value;
      assert st.players[i] in r.players;
    }
    forall i | 0 <= i < |r.players|
      ensures r.players[i].id != pid
    {
      assert r.players[i] in r.players;
    }
  }

  /** In the lobby, renames the first player with this id; otherwise nothing happens. */
  function ChangeNameState(st: ServerState, pid: PlayerId, newName: string): (r: ServerState)
    ensures (st.currentState != Lobby || FindPlayer(st.players, pid).None?) ==> r == st
    ensures st.currentState == Lobby && FindPlayer(st.players, pid).Some? ==>
      var i := FindPlayer(st.players, pid).value;
      |r.players| == |st.players| && r.players[i].name == newName &&
      r.players[i] == st.players[i].(name := newName) &&
      (forall j :: 0 <= j < |st.players| && j != i ==> r.players[j] == st.players[j]) &&
      r.version == st.version + 1 &&
      r.(players := st.players, version := st.version) == st
  {
    if st.currentState != Lobby then st
    else match FindPlayer(st.players, pid)
      case None => st
      case Some(i) =>
        st.(players := st.players[i := st.players[i].(name := newName)], version := st.version + 1)
  }

  /** Renaming keeps the invariant, and every player keeps their id. */
  lemma {:induction false} ChangeNameKeepsStateOk(st: ServerState, pid: PlayerId, newName: string)
    requires StateOk(st)
    ensures var r := ChangeNameState(st, pid, newName);
      StateOk(r) && |r.players| == |st.players| &&
      forall j :: 0 <= j < |r.players| ==> r.players[j].id == st.players[j].id
  {
    var r := ChangeNameState(st, pid, newName);
    if r.adminId.Some? {
      var i := FindPlayer(st.players, r.adminId.value).value;
      assert r.players[i].id == r.adminId.value;
    }
  }

  // ---------------------------------------------------------------------------
  // The lobby

  /**
   * In the lobby, takes slot `role` of submarine `sub` when the index is in range and the
   * slot is empty: the player leaves their previous slots and is no longer ready, and then
   * sits in exactly that slot. The version is bumped whether or not the slot was taken.
   */
  function SelectRoleState(st: ServerState, pid: PlayerId, sub: int, role: Role): (r: ServerState)
    ensures st.currentState != Lobby ==> r == st
    ensures st.currentState == Lobby ==>
      r.version == st.version + 1 &&
      r.(submarines := st.submarines, ready := st.ready, version := st.version) == st
    ensures st.currentState == Lobby && !(0 <= sub < |st.submarines| && role !in st.submarines[sub].roles) ==>
      r.submarines == st.submarines && r.ready == st.ready
    ensures st.currentState == Lobby && 0 <= sub < |st.submarines| && role !in st.submarines[sub].roles ==>
      r.submarines == AssignRole(Vacate(st.submarines, pid), sub, role, pid) &&
      r.ready == Without(st.ready, pid) && pid !in r.ready
  {
    if st.currentState != Lobby then st
    else if 0 <= sub < |st.submarines| && role !in st.submarines[sub].roles then
      st.(submarines := AssignRole(Vacate(st.submarines, pid), sub, role, pid),
          ready := Without(st.ready, pid),
          version := st.version + 1)
    else st.(version := st.version + 1)
  }

  /**
   * Selecting a role keeps the invariant; a player who takes a slot then sits in exactly
   * that slot, and every other player keeps their slots.
   */
  lemma {:induction false} SelectRoleKeepsStateOk(st: ServerState, pid: PlayerId, sub: int, role: Role)
    requires StateOk(st)
    ensures StateOk(SelectRoleState(st, pid, sub, role))
    ensures st.currentState == Lobby && 0 <= sub < |st.submarines| && role !in st.submarines[sub].roles ==>
      var r := SelectRoleState(st, pid, sub, role);
      r.submarines[sub].roles[role] == pid &&
      (forall j, q :: (0 <= j < |r.submarines| && q in r.submarines[j].roles &&
                       r.submarines[j].roles[q] == pid) ==> j == sub && q == role) &&
      (forall p :: p != pid ==> (HoldsRole(r.submarines, p) <==> HoldsRole(st.submarines, p)))
  {
    if st.currentState == Lobby && 0 <= sub < |st.submarines| && role !in st.submarines[sub].roles {
      SelectRoleOutcome(st.submarines, sub, role, pid);
      FleetSelect(st.submarines, st.ready, sub, role, pid);
    }
  }

  /** In the lobby, empties every slot of the player and takes them off the ready list. */
  function LeaveRoleState(st: ServerState, pid: PlayerId): (r: ServerState)
    ensures st.currentState != Lobby ==> r == st
    ensures st.currentState == Lobby ==>
      r.submarines == Vacate(st.submarines, pid) && r.ready == Without(st.ready, pid) &&
      r.version == st.version + 1 &&
      r.(submarines := st.submarines, ready := st.ready, version := st.version) == st
  {
    if st.currentState != Lobby then st
    else st.(submarines := Vacate(st.submarines, pid), ready := Without(st.ready, pid),
             version := st.version + 1)
  }

  /**
   * Leaving keeps the invariant; in the lobby the player then holds no slot and is not
   * ready, and everybody else keeps their slots.
   */
  lemma {:induction false} LeaveRoleKeepsStateOk(st: ServerState, pid: PlayerId)
    requires StateOk(st)
    ensures var r := LeaveRoleState(st, pid);
      StateOk(r) &&
      (st.currentState == Lobby ==>
        !HoldsRole(r.submarines, pid) && pid !in r.ready &&
        forall q :: q != pid ==> (HoldsRole(r.submarines, q) <==> HoldsRole(st.submarines, q)))
  {
    VacateOutcome(st.submarines, pid);
    FleetVacate(st.submarines, st.ready, pid);
  }

  /** The ready list after `pid` says ready: appended once, and only when sitting in a slot. */
  function ReadyList(st: ServerState, pid: PlayerId): (r: seq<PlayerId>)
    ensures pid in r <==> pid in st.ready || HoldsRole(st.submarines, pid)
    ensures forall q :: q != pid ==> (q in r <==> q in st.ready)
    ensures st.ready <= r && |r| <= |st.ready| + 1
  {
    if HoldsRole(st.submarines, pid) && pid !in st.ready then st.ready + [pid] else st.ready
  }

  /** `pid` saying ready in the lobby makes every slot of both submarines a ready player. */
  predicate BeginsGame(st: ServerState, pid: PlayerId) {
    st.currentState == Lobby && AllRolesReady(st.submarines, ReadyList(st, pid))
  }

  /**
   * In the lobby, a player sitting in a slot joins the ready list (once). When every slot
   * of both submarines is then held by a ready player the game begins: the state becomes
   * game_beginning and the version is bumped twice.
   */
  function ReadyState(st: ServerState, pid: PlayerId): (r: ServerState)
    ensures st.currentState != Lobby ==> r == st
    ensures st.currentState == Lobby ==>
      r.ready == ReadyList(st, pid) &&
      r.currentState == (if BeginsGame(st, pid) then GameBeginning else Lobby) &&
      r.version == st.version + (if BeginsGame(st, pid) then 2 else 1) &&
      r.(ready := st.ready, currentState := st.currentState, version := st.version) == st
  {
    if st.currentState != Lobby then st
    else
      var ready := ReadyList(st, pid);
      if AllRolesReady(st.submarines, ready)
      then st.(ready := ready, currentState := GameBeginning, version := st.version + 2)
      else st.(ready := ready, version := st.version + 1)
  }

  /** Saying ready keeps the invariant. */
  lemma {:induction false} ReadyKeepsStateOk(st: ServerState, pid: PlayerId)
    requires StateOk(st)
    ensures StateOk(ReadyState(st, pid))
  {
    if st.currentState == Lobby && HoldsRole(st.submarines, pid) && pid !in st.ready {
      FleetReady(st.submarines, st.ready, pid);
    }
  }

  /**
   * A game only begins with eight distinct ready players, one in each slot of each
   * submarine: every slot is taken, and no player sits in two.
   */
  lemma {:induction false} BeginsGameSeatsEveryone(st: ServerState, pid: PlayerId, i: nat, r: Role)
    requires StateOk(st) && BeginsGame(st, pid) && i < |st.submarines|
    ensures r in st.submarines[i].roles && st.submarines[i].roles[r] in ReadyList(st, pid)
    ensures forall j, q ::
      (0 <= j < |st.submarines| && q in st.submarines[j].roles &&
       st.submarines[j].roles[q] == st.submarines[i].roles[r]) ==> j == i && q == r
  {
  }

  /** In the lobby, takes the player off the ready list. */
  function NotReadyState(st: ServerState, pid: PlayerId): (r: ServerState)
    ensures st.currentState != Lobby ==> r == st
    ensures st.currentState == Lobby ==>
      pid !in r.ready && (forall q :: q != pid ==> (q in r.ready <==> q in st.ready)) &&
      r.version == st.version + 1 &&
      r.(ready := st.ready, version := st.version) == st
  {
    if st.currentState != Lobby then st
    else st.(ready := Without(st.ready, pid), version := st.version + 1)
  }

  /** Saying not ready keeps the invariant. */
  lemma {:induction false} NotReadyKeepsStateOk(st: ServerState, pid: PlayerId)
    requires StateOk(st)
    ensures StateOk(NotReadyState(st, pid))
  {
    FleetUnready(st.submarines, st.ready, pid);
  }

  // ---------------------------------------------------------------------------
  // Choosing start positions

  /** The captain's submarine, while the start positions are chosen and it has not chosen yet. */
  function StartChooser(st: ServerState, pid: PlayerId): (r: Option<nat>)
    ensures r.Some? <==> (FindByRole(st.submarines, Co, pid).Some? &&
      st.gameState == ChoosingStartPositions &&
      st.submarines[FindByRole(st.submarines, Co, pid).value].id !in st.submarineIdsWithStartPositionChosen)
    ensures r.Some? ==> (r.value < |st.submarines| && Co in st.submarines[r.value].roles &&
      st.submarines[r.value].roles[Co] == pid &&
      st.submarines[r.value].id !in st.submarineIdsWithStartPositionChosen)
  {
    match FindByRole(st.submarines, Co, pid)
    case None => None
    case Some(i) =>
      if st.gameState == ChoosingStartPositions && st.submarines[i].id !in st.submarineIdsWithStartPositionChosen
      then Some(i) else None
  }

  /** Row 15 passes the captain's bounds test and then throws. */
  predicate ChooseStartThrows(st: ServerState, pid: PlayerId, row: int, col: int) {
    StartChooser(st, pid).Some? && CheckPosition(st.board, row, col) == Throws
  }

  /** The captain's choice is taken. */
  predicate ChooseStartPlaces(st: ServerState, pid: PlayerId, row: int, col: int) {
    StartChooser(st, pid).Some? && CheckPosition(st.board, row, col) == Accept
  }

  /** Both submarines have chosen and every crew member has said they are ready to continue. */
  predicate ResumeDue(st: ServerState) {
    AllSubsChosen(st.submarines, st.submarineIdsWithStartPositionChosen) &&
    AllRolesReady(st.submarines, st.playerIdsReadyToContinue)
  }

  /**
   * The captain places the submarine, once, on a water cell, and its id joins the list of
   * submarines that have chosen. The version is bumped in every case that does not throw.
   */
  function ChooseStartState(st: ServerState, pid: PlayerId, row: int, col: int): (r: ServerState)
    requires !ChooseStartThrows(st, pid, row, col)
    ensures r.version == st.version + 1
    ensures ChooseStartPlaces(st, pid, row, col) ==>
      var i := StartChooser(st, pid).value;
      r.submarines == st.submarines[i := st.submarines[i].(row := row, col := col)] &&
      r.submarineIdsWithStartPositionChosen == st.submarineIdsWithStartPositionChosen + [st.submarines[i].id]
    ensures !ChooseStartPlaces(st, pid, row, col) ==>
      r.submarines == st.submarines &&
      r.submarineIdsWithStartPositionChosen == st.submarineIdsWithStartPositionChosen
    ensures r.(submarines := st.submarines, version := st.version,
               submarineIdsWithStartPositionChosen := st.submarineIdsWithStartPositionChosen) == st
  {
    match StartChooser(st, pid)
    case None => st.(version := st.version + 1)
    case Some(i) =>
      if CheckPosition(st.board, row, col) == Accept then
        st.(submarines := st.submarines[i := st.submarines[i].(row := row, col := col)],
            submarineIdsWithStartPositionChosen := st.submarineIdsWithStartPositionChosen + [st.submarines[i].id],
            version := st.version + 1)
      else st.(version := st.version + 1)
  }

  /** Choosing a start position keeps the invariant. */
  lemma {:induction false} ChooseStartKeepsStateOk(st: ServerState, pid: PlayerId, row: int, col: int)
    requires StateOk(st) && !ChooseStartThrows(st, pid, row, col)
    ensures StateOk(ChooseStartState(st, pid, row, col))
  {
    if ChooseStartPlaces(st, pid, row, col) {
      FleetPlace(st.submarines, st.ready, StartChooser(st, pid).value, row, col);
    }
  }

  /**
   * A submarine that has chosen stands on a water cell of the board and cannot choose
   * again; a refused choice leaves the captain free to choose.
   */
  lemma {:induction false} ChooseStartOnce(st: ServerState, pid: PlayerId, row: int, col: int)
    requires !ChooseStartThrows(st, pid, row, col)
    ensures ChooseStartPlaces(st, pid, row, col) ==>
      var r := ChooseStartState(st, pid, row, col);
      var i := StartChooser(st, pid).value;
      0 <= r.submarines[i].row < |r.board| && 0 <= r.submarines[i].col < |r.board[r.submarines[i].row]| &&
      r.board[r.submarines[i].row][r.submarines[i].col] == W &&
      StartChooser(r, pid).None?
    ensures !ChooseStartPlaces(st, pid, row, col) ==>
      StartChooser(ChooseStartState(st, pid, row, col), pid) == StartChooser(st, pid)
  {
    if ChooseStartPlaces(st, pid, row, col) {
      var i := StartChooser(st, pid).value;
      var r := ChooseStartState(st, pid, row, col);
      SameCrewsSameFind(st.submarines, r.submarines, Co, pid);
      assert r.submarineIdsWithStartPositionChosen[|st.submarineIdsWithStartPositionChosen|] == st.submarines[i].id;
    }
  }

  /**
   * While the start positions are chosen, records (once) that the player is ready to
   * continue. The version is bumped in every case.
   */
  function ReadyToContinueState(st: ServerState, pid: PlayerId): (r: ServerState)
    ensures r.version == st.version + 1
    ensures st.gameState == ChoosingStartPositions ==>
      pid in r.playerIdsReadyToContinue &&
      (forall q :: q != pid ==> (q in r.playerIdsReadyToContinue <==> q in st.playerIdsReadyToContinue)) &&
      |r.playerIdsReadyToContinue| <= |st.playerIdsReadyToContinue| + 1
    ensures st.gameState != ChoosingStartPositions ==>
      r.playerIdsReadyToContinue == st.playerIdsReadyToContinue
    ensures r.(playerIdsReadyToContinue := st.playerIdsReadyToContinue, version := st.version) == st
  {
    if st.gameState == ChoosingStartPositions && pid !in st.playerIdsReadyToContinue
    then st.(playerIdsReadyToContinue := st.playerIdsReadyToContinue + [pid], version := st.version + 1)
    else st.(version := st.version + 1)
  }

  /** The resume timer is set when this call added the player and play is then due to resume. */
  predicate ContinueSchedulesResume(st: ServerState, pid: PlayerId) {
    st.gameState == ChoosingStartPositions && pid !in st.playerIdsReadyToContinue &&
    ResumeDue(ReadyToContinueState(st, pid))
  }

  /**
   * Saying ready to continue keeps the invariant, and saying it twice changes nothing
   * beyond the version.
   */
  lemma {:induction false} ReadyToContinueKeepsStateOk(st: ServerState, pid: PlayerId)
    requires StateOk(st)
    ensures StateOk(ReadyToContinueState(st, pid))
    ensures var r := ReadyToContinueState(st, pid);
      ReadyToContinueState(r, pid) == r.(version := r.version + 1) && !ContinueSchedulesResume(r, pid)
  {
    var r := ReadyToContinueState(st, pid);
    assert AdminPresent(r);
  }

  // ---------------------------------------------------------------------------
  // The timers

  /** `renewed` is `subs` with each engine layout replaced by a well-formed one. */
  ghost predicate FreshLayouts(subs: seq<Submarine>, renewed: seq<Submarine>) {
    |renewed| == |subs| &&
    forall i :: 0 <= i < |renewed| ==>
      LayoutOk(renewed[i].engineLayout) && renewed[i] == subs[i].(engineLayout := renewed[i].engineLayout)
  }

  /**
   * Every submarine gets a freshly generated engine layout, drawn in order from the
   * oracle starting at draw k.
   */
  method RegenerateLayouts(subs: seq<Submarine>, pick: Oracle, k: nat) returns (renewed: seq<Submarine>, k': nat)
    ensures |renewed| == |subs|
    ensures forall i :: 0 <= i < |renewed| ==>
      LayoutOk(renewed[i].engineLayout) && renewed[i] == subs[i].(engineLayout := renewed[i].engineLayout)
  {
    renewed := subs;
    k' := k;
    var i := 0;
    while i < |subs|
      invariant 0 <= i <= |subs| == |renewed|
      invariant forall j :: 0 <= j < i ==>
        LayoutOk(renewed[j].engineLayout) && renewed[j] == subs[j].(engineLayout := renewed[j].engineLayout)
      invariant forall j :: i <= j < |subs| ==> renewed[j] == subs[j]
    {
      var layout;
      layout, k' := GenerateLayout(pick, k');
      renewed := renewed[i := renewed[i].(engineLayout := layout)];
      i := i + 1;
    }
  }

  /**
   * The start-game timer's work: the game is on with the fresh layouts, the board is
   * rebuilt and the start positions are to be chosen.
   */
  function StartGameState(st: ServerState, renewed: seq<Submarine>): (r: ServerState)
    ensures r.currentState == InGame && r.gameState == ChoosingStartPositions
    ensures r.board == GenerateBoard() && IsSquareBoard(r.board)
    ensures r.submarines == renewed && r.version == st.version + 1
    ensures r.(currentState := st.currentState, gameState := st.gameState, board := st.board,
               submarines := st.submarines, version := st.version) == st
  {
    st.(currentState := InGame, submarines := renewed, board := GenerateBoard(),
        gameState := ChoosingStartPositions, version := st.version + 1)
  }

  /** Starting the game with fresh layouts keeps the invariant, crews and ready list included. */
  lemma {:induction false} StartGameKeepsStateOk(st: ServerState, renewed: seq<Submarine>)
    requires StateOk(st) && FreshLayouts(st.submarines, renewed)
    ensures StateOk(StartGameState(st, renewed))
  {
    var subs := st.submarines;
    forall i | 0 <= i < |renewed|
      ensures SubOk(renewed[i])
    {
      FreshLayoutKeepsSubOk(subs[i], renewed[i].engineLayout);
    }
    SameCrews(subs, renewed);
  }

  /**
   * The resume timer's work: real-time play begins and the start-position bookkeeping
   * is emptied.
   */
  function ResumeState(st: ServerState): (r: ServerState)
    ensures r.gameState == RealTimePlay
    ensures r.playerIdsReadyToContinue == [] && r.submarineIdsWithStartPositionChosen == []
    ensures r.version == st.version + 1
    ensures r.(gameState := st.gameState, playerIdsReadyToContinue := st.playerIdsReadyToContinue,
               submarineIdsWithStartPositionChosen := st.submarineIdsWithStartPositionChosen,
               version := st.version) == st
  {
    st.(gameState := RealTimePlay, playerIdsReadyToContinue := [], submarineIdsWithStartPositionChosen := [],
        version := st.version + 1)
  }

  /** Once play has resumed, start positions and readiness to continue are refused. */
  lemma {:induction false} ResumeClosesChoosing(st: ServerState, pid: PlayerId, row: int, col: int)
    ensures var r := ResumeState(st);
      StartChooser(r, pid).None? && ChooseStartState(r, pid, row, col).submarines == r.submarines &&
      ReadyToContinueState(r, pid).playerIdsReadyToContinue == []
  {
  }

  // ---------------------------------------------------------------------------
  // Real-time play

  /** The captain's submarine, while it waits for a move. */
  function Mover(st: ServerState, pid: PlayerId): (r: Option<nat>)
    ensures r.Some? <==> (FindByRole(st.submarines, Co, pid).Some? &&
      st.submarines[FindByRole(st.submarines, Co, pid).value].submarineState == WaitingForAction)
    ensures r.Some? ==> (r.value < |st.submarines| && Co in st.submarines[r.value].roles &&
      st.submarines[r.value].roles[Co] == pid && st.submarines[r.value].submarineState == WaitingForAction)
  {
    match FindByRole(st.submarines, Co, pid)
    case None => None
    case Some(i) => if st.submarines[i].submarineState == WaitingForAction then Some(i) else None
  }

  /** The game is on and in real-time play. */
  predicate Playing(st: ServerState) {
    st.currentState == InGame && st.gameState == RealTimePlay
  }

  /** A waiting captain asks for a compass direction during play. */
  predicate MoveEligible(st: ServerState, pid: PlayerId, direction: string) {
    Playing(st) && Mover(st, pid).Some? && IsCompass(direction)
  }

  /** The bounds-and-water verdict on the cell the captain moves to. */
  function MoveVerdict(st: ServerState, pid: PlayerId, direction: string): (v: Verdict)
    requires MoveEligible(st, pid, direction)
    ensures var s := st.submarines[Mover(st, pid).value];
      v == CheckPosition(st.board, s.row + RowDelta(direction), s.col + ColDelta(direction))
  {
    var s := st.submarines[Mover(st, pid).value];
    CheckPosition(st.board, s.row + RowDelta(direction), s.col + ColDelta(direction))
  }

  /** A step onto row 15 passes the bounds test and then throws. */
  predicate MoveThrows(st: ServerState, pid: PlayerId, direction: string) {
    MoveEligible(st, pid, direction) && MoveVerdict(st, pid, direction) == Throws
  }

  /**
   * During real-time play the captain moves one cell N, S, E or W onto water, and the crew
   * then owes the post-movement actions. Outside play nothing happens, not even the version.
   */
  function MoveState(st: ServerState, pid: PlayerId, direction: string): (r: ServerState)
    requires !MoveThrows(st, pid, direction)
    ensures !Playing(st) ==> r == st
    ensures Playing(st) ==> r.version == st.version + 1
    ensures MoveEligible(st, pid, direction) && MoveVerdict(st, pid, direction) == Accept ==>
      var i := Mover(st, pid).value;
      r.submarines == st.submarines[i := AfterMove(st.submarines[i], direction)]
    ensures !(MoveEligible(st, pid, direction) && MoveVerdict(st, pid, direction) == Accept) ==>
      r.submarines == st.submarines
    ensures r.(submarines := st.submarines, version := st.version) == st
  {
    if !Playing(st) then st
    else if MoveEligible(st, pid, direction) && MoveVerdict(st, pid, direction) == Accept then
      var i := Mover(st, pid).value;
      st.(submarines := st.submarines[i := AfterMove(st.submarines[i], direction)], version := st.version + 1)
    else st.(version := st.version + 1)
  }

  /** A move keeps the invariant. */
  lemma {:induction false} MoveKeepsStateOk(st: ServerState, pid: PlayerId, direction: string)
    requires StateOk(st) && !MoveThrows(st, pid, direction)
    ensures StateOk(MoveState(st, pid, direction))
  {
    if MoveEligible(st, pid, direction) && MoveVerdict(st, pid, direction) == Accept {
      FleetMove(st.submarines, st.ready, Mover(st, pid).value, direction);
    }
  }

  /**
   * The moved submarine stands on water, one cell from where it was, and its captain
   * cannot move again before the post-movement actions.
   */
  lemma {:induction false} MoveLandsOnWater(st: ServerState, pid: PlayerId, direction: string)
    requires MoveEligible(st, pid, direction) && MoveVerdict(st, pid, direction) == Accept
    ensures var r := MoveState(st, pid, direction);
      var i := Mover(st, pid).value;
      var s := r.submarines[i];
      0 <= s.row < |r.board| && 0 <= s.col < |r.board[s.row]| && r.board[s.row][s.col] == W &&
      MapUtils.GetRange(Some(MapUtils.GridPoint(st.submarines[i].row, st.submarines[i].col)),
                        Some(MapUtils.GridPoint(s.row, s.col))) == 1 &&
      Mover(r, pid).None?
  {
    var i := Mover(st, pid).value;
    var r := MoveState(st, pid, direction);
    SameCrewsSameFind(st.submarines, r.submarines, Co, pid);
  }

  /** The first officer's submarine, when the gauge can be charged. */
  function Charger(st: ServerState, pid: PlayerId, gauge: string): (r: Option<nat>)
    ensures r.Some? <==> (FindByRole(st.submarines, Xo, pid).Some? &&
      CanCharge(st.submarines[FindByRole(st.submarines, Xo, pid).value], gauge))
    ensures r.Some? ==> r == FindByRole(st.submarines, Xo, pid) && CanCharge(st.submarines[r.value], gauge)
  {
    match FindByRole(st.submarines, Xo, pid)
    case None => None
    case Some(i) => if CanCharge(st.submarines[i], gauge) then Some(i) else None
  }

  /**
   * After a move the first officer raises one gauge by 1, below its limit, once per move.
   * The version is bumped in every case.
   */
  function ChargeState(st: ServerState, pid: PlayerId, gauge: string): (r: ServerState)
    ensures r.version == st.version + 1
    ensures Charger(st, pid, gauge).Some? ==>
      var i := Charger(st, pid, gauge).value;
      r.submarines == st.submarines[i := AfterCharge(st.submarines[i], gauge)]
    ensures Charger(st, pid, gauge).None? ==> r.submarines == st.submarines
    ensures r.(submarines := st.submarines, version := st.version) == st
  {
    match Charger(st, pid, gauge)
    case None => st.(version := st.version + 1)
    case Some(i) =>
      st.(submarines := st.submarines[i := AfterCharge(st.submarines[i], gauge)], version := st.version + 1)
  }

  /** Charging keeps the invariant. */
  lemma {:induction false} ChargeKeepsStateOk(st: ServerState, pid: PlayerId, gauge: string)
    requires StateOk(st)
    ensures StateOk(ChargeState(st, pid, gauge))
  {
    var c := Charger(st, pid, gauge);
    if c.Some? {
      FleetCharge(st.submarines, st.ready, c.value, gauge);
    }
  }

  /** Once the first officer has charged a gauge, a second charge before the next move is refused. */
  lemma {:induction false} ChargeOncePerTurn(st: ServerState, pid: PlayerId, gauge: string, other: string)
    requires Charger(st, pid, gauge).Some?
    ensures Charger(ChargeState(st, pid, gauge), pid, other).None?
  {
    var i := Charger(st, pid, gauge).value;
    ChargeOncePerMove(st.submarines[i], gauge, other);
    var r := ChargeState(st, pid, gauge);
    SameCrewsSameFind(st.submarines, r.submarines, Xo, pid);
  }

  /** The engineer's submarine, when the slot can be crossed out. */
  function CrossingOff(st: ServerState, pid: PlayerId, direction: string, slotId: string): (r: Option<nat>)
    ensures r.Some? <==> (FindByRole(st.submarines, Eng, pid).Some? &&
      CanCrossOff(st.submarines[FindByRole(st.submarines, Eng, pid).value], direction, slotId))
    ensures r.Some? ==> (r == FindByRole(st.submarines, Eng, pid) &&
      CanCrossOff(st.submarines[r.value], direction, slotId))
  {
    match FindByRole(st.submarines, Eng, pid)
    case None => None
    case Some(i) => if CanCrossOff(st.submarines[i], direction, slotId) then Some(i) else None
  }

  /** A submarine owing its post-movement actions moved in one of its layout's directions. */
  predicate MovedAlongLayout(st: ServerState) {
    forall i :: 0 <= i < |st.submarines| && st.submarines[i].submarineState == DoingPostMovementActions ==>
      st.submarines[i].postMovement.directionMoved in st.submarines[i].engineLayout.directions
  }

  /** The invariant guarantees it. */
  lemma {:induction false} StateOkMovedAlongLayout(st: ServerState)
    requires StateOk(st)
    ensures MovedAlongLayout(st)
    ensures forall j :: 0 <= j < |st.submarines| ==> st.submarines[j].health >= 0
  {
    forall i | 0 <= i < |st.submarines|
      ensures st.submarines[i].submarineState == DoingPostMovementActions ==>
        st.submarines[i].postMovement.directionMoved in st.submarines[i].engineLayout.directions
      ensures st.submarines[i].health >= 0
    {
      assert SubOk(st.submarines[i]);
    }
  }

  /**
   * After a move the engineer crosses out one slot, and damage is applied. A submarine
   * brought to health 0 ends the game: the server returns to the lobby. The version is
   * bumped in every case.
   */
  function CrossOffState(st: ServerState, pid: PlayerId, direction: string, slotId: string): (r: ServerState)
    requires MovedAlongLayout(st)
    ensures r.version == st.version + 1
    ensures CrossingOff(st, pid, direction, slotId).Some? ==>
      var i := CrossingOff(st, pid, direction, slotId).value;
      direction in st.submarines[i].engineLayout.directions &&
      r.submarines == st.submarines[i := AfterCrossOff(st.submarines[i], direction, slotId)] &&
      r.currentState == (if r.submarines[i].health == 0 then Lobby else st.currentState)
    ensures CrossingOff(st, pid, direction, slotId).None? ==>
      r.submarines == st.submarines && r.currentState == st.currentState
    ensures r.(submarines := st.submarines, currentState := st.currentState, version := st.version) == st
  {
    match CrossingOff(st, pid, direction, slotId)
    case None => st.(version := st.version + 1)
    case Some(i) =>
      var t := AfterCrossOff(st.submarines[i], direction, slotId);
      st.(submarines := st.submarines[i := t],
          currentState := if t.health == 0 then Lobby else st.currentState,
          version := st.version + 1)
  }

  /** The cross-off sinks the engineer's submarine. */
  predicate Sinks(st: ServerState, pid: PlayerId, direction: string, slotId: string)
    requires MovedAlongLayout(st)
  {
    var c := CrossingOff(st, pid, direction, slotId);
    c.Some? && CrossOffState(st, pid, direction, slotId).submarines[c.value].health == 0
  }

  /** Crossing off keeps the invariant. */
  lemma {:induction false} CrossOffKeepsStateOk(st: ServerState, pid: PlayerId, direction: string, slotId: string)
    requires StateOk(st) && MovedAlongLayout(st)
    ensures StateOk(CrossOffState(st, pid, direction, slotId))
  {
    var c := CrossingOff(st, pid, direction, slotId);
    if c.Some? {
      FleetCrossOff(st.submarines, st.ready, c.value, direction, slotId);
    }
  }

  /**
   * Health only falls, by at most 2, and only a cross-off that sinks a submarine sends the
   * server back to the lobby. The engineer's submarine loses exactly its `Penalty` (floored
   * at 0), and it sinks exactly when that penalty reaches its remaining health.
   */
  lemma {:induction false} CrossOffDamage(st: ServerState, pid: PlayerId, direction: string, slotId: string)
    requires MovedAlongLayout(st) && forall j :: 0 <= j < |st.submarines| ==> st.submarines[j].health >= 0
    ensures var r := CrossOffState(st, pid, direction, slotId);
      (forall j :: 0 <= j < |r.submarines| ==>
        st.submarines[j].health - 2 <= r.submarines[j].health <= st.submarines[j].health) &&
      (r.currentState != st.currentState ==> Sinks(st, pid, direction, slotId) && r.currentState == Lobby)
    ensures var c := CrossingOff(st, pid, direction, slotId);
      c.Some? ==>
        var s := st.submarines[c.value];
        direction in s.engineLayout.directions &&
        var p := Penalty(s, direction, slotId);
        CrossOffState(st, pid, direction, slotId).submarines[c.value].health ==
          (if s.health <= p then 0 else s.health - p) &&
        (Sinks(st, pid, direction, slotId) <==> s.health <= p)
  {
    var c := CrossingOff(st, pid, direction, slotId);
    if c.Some? {
      HealthBounds(st.submarines, c.value, direction, slotId);
    }
  }

  /** Only submarine i's health changes; it falls by at most 2, and falls at all only under a penalty. */
  lemma {:induction false} HealthBounds(subs: seq<Submarine>, i: nat, direction: string, slotId: string)
    requires i < |subs| && direction in subs[i].engineLayout.directions && subs[i].health >= 0
    ensures var r := subs[i := AfterCrossOff(subs[i], direction, slotId)];
      (forall j :: 0 <= j < |r| ==> subs[j].health - 2 <= r[j].health <= subs[j].health) &&
      (forall j :: 0 <= j < |r| && j != i ==> r[j] == subs[j]) &&
      (r[i].health < subs[i].health <==> subs[i].health > 0 && Penalty(subs[i], direction, slotId) > 0)
  {
  }

  /**
   * The cross-off as the server performs it, with the slots of completed circuits spliced
   * out of the crossed-out list one by one.
   */
  method ApplyCrossOff(st: ServerState, pid: PlayerId, direction: string, slotId: string) returns (r: ServerState)
    requires StateOk(st) && MovedAlongLayout(st)
    ensures r == CrossOffState(st, pid, direction, slotId) && StateOk(r)
  {
    CrossOffKeepsStateOk(st, pid, direction, slotId);
    var c := CrossingOff(st, pid, direction, slotId);
    if c.None? {
      return st.(version := st.version + 1);
    }
    var i := c.value;
    var subs := CrossOffAt(st.submarines, st.ready, i, direction, slotId);
    r := st.(submarines := subs, currentState := if subs[i].health == 0 then Lobby else st.currentState,
             version := st.version + 1);
  }

  /** The game-over callback a cross-off runs: only when it sinks a submarine. */
  function GameOverCallbacks(st: ServerState, pid: PlayerId, direction: string, slotId: string): seq<Callback>
    requires TwoSubmarines(st) && MovedAlongLayout(st)
  {
    match GameOverWinner(st, pid, direction, slotId)
    case Some(w) => [GameOverCallback(w)]
    case None => []
  }

  /** The server state and the callback log after a cross-off. */
  function CrossOffServer(st: ServerState, cbs: seq<Callback>, pid: PlayerId, direction: string, slotId: string): (ServerState, seq<Callback>)
    requires StateOk(st)
  {
    StateOkMovedAlongLayout(st);
    (CrossOffState(st, pid, direction, slotId), cbs + GameOverCallbacks(st, pid, direction, slotId))
  }

  /** The cross-off with the callbacks it runs. */
  method CrossOffStep(st: ServerState, pid: PlayerId, direction: string, slotId: string)
    returns (r: ServerState, called: seq<Callback>)
    requires StateOk(st)
    ensures MovedAlongLayout(st)
    ensures r == CrossOffState(st, pid, direction, slotId) && StateOk(r)
    ensures called == GameOverCallbacks(st, pid, direction, slotId)
  {
    StateOkMovedAlongLayout(st);
    var winner := GameOverWinner(st, pid, direction, slotId);
    r := ApplyCrossOff(st, pid, direction, slotId);
    called := if winner.Some? then [GameOverCallback(winner.value)] else [];
  }

  /**
   * The winner the game-over callback names when the cross-off sinks the engineer's
   * submarine: the first submarine whose id differs, which is the other one of the two.
   */
  function GameOverWinner(st: ServerState, pid: PlayerId, direction: string, slotId: string): (w: Option<string>)
    requires TwoSubmarines(st) && MovedAlongLayout(st)
    ensures w.Some? <==> Sinks(st, pid, direction, slotId)
    ensures w.Some? ==>
      var i := CrossingOff(st, pid, direction, slotId).value;
      i < 2 && w.value == st.submarines[1 - i].id && w.value != st.submarines[i].id
  {
    if !Sinks(st, pid, direction, slotId) then None
    else
      // the search runs after the cross-off, which changes no submarine's id
      var i := CrossingOff(st, pid, direction, slotId).value;
      OtherSubmarine(st.submarines, i);
      Some(st.submarines[FindOther(st.submarines, st.submarines[i].id).value].id)
  }

  // ---------------------------------------------------------------------------
  // The server object

  class LogicalServer {
    const pick: Oracle
    var draws: nat
    var usedPlayerNumbers: map<PlayerId, nat>
    var serverState: ServerState
    var timers: seq<Timer>
    var callbacks: seq<Callback>

    /** The server state keeps its invariant. */
    ghost predicate Valid()
      reads this
    {
      StateOk(serverState)
    }

    constructor(pick: Oracle)
      ensures Valid()
      ensures serverState.version == 0 && serverState.currentState == Lobby
      ensures serverState.players == [] && serverState.adminId == None && serverState.ready == []
      ensures serverState.board == GenerateBoard() && serverState.gameState == ChoosingStartPositions
      ensures serverState.playerIdsReadyToContinue == [] && serverState.submarineIdsWithStartPositionChosen == []
      ensures usedPlayerNumbers == map[] && timers == [] && callbacks == []
      ensures forall i :: 0 <= i < |serverState.submarines| ==>
        serverState.submarines[i].roles == map[] && serverState.submarines[i].health == InitialHealth &&
        serverState.submarines[i].submarineState == WaitingForAction
      ensures |serverState.submarines| == 2 && serverState == InitialState(serverState.submarines)
      ensures FreshSubmarine(serverState.submarines[0], "A") && FreshSubmarine(serverState.submarines[1], "B")
    {
      this.pick := pick;
      var a, k := CreateSubmarine("A", pick, 0);
      var b, k' := CreateSubmarine("B", pick, k);
      draws := k';
      usedPlayerNumbers := map[];
      InitialStateOk(a, b);
      serverState := InitialState([a, b]);
      timers := [];
      callbacks := [];
    }

    /**
     * A new connection gets the smallest number not held by a connected player and the
     * name "Player n".
     */
    method AddPlayer(pid: PlayerId, now: int)
      requires Valid()
      modifies this`usedPlayerNumbers, this`serverState
      ensures Valid()
      ensures pid in usedPlayerNumbers
      ensures var n := usedPlayerNumbers[pid];
        n >= 1 && n !in old(usedPlayerNumbers).Values &&
        (forall m :: 1 <= m < n ==> m in old(usedPlayerNumbers).Values) &&
        usedPlayerNumbers == old(usedPlayerNumbers)[pid := n] &&
        serverState == JoinState(old(serverState), pid, NumberedName(n), now)
    {
      var n := NextPlayerNumber(usedPlayerNumbers.Values);
      usedPlayerNumbers := usedPlayerNumbers[pid := n];
      JoinKeepsStateOk(serverState, pid, NumberedName(n), now);
      serverState := JoinState(serverState, pid, NumberedName(n), now);
    }

    /** The player's number is freed and every trace of them removed from the state. */
    method Disconnect(pid: PlayerId)
      requires Valid()
      modifies this`usedPlayerNumbers, this`serverState
      ensures Valid()
      ensures usedPlayerNumbers == old(usedPlayerNumbers) - {pid}
      ensures serverState == DisconnectState(old(serverState), pid)
    {
      usedPlayerNumbers := usedPlayerNumbers - {pid};
      DisconnectKeepsStateOk(serverState, pid);
      serverState := DisconnectState(serverState, pid);
    }

    method ChangeName(pid: PlayerId, newName: string)
      requires Valid()
      modifies this`serverState
      ensures Valid()
      ensures serverState == ChangeNameState(old(serverState), pid, newName)
    {
      ChangeNameKeepsStateOk(serverState, pid, newName);
      serverState := ChangeNameState(serverState, pid, newName);
    }

    method SelectRole(pid: PlayerId, sub: int, role: Role)
      requires Valid()
      modifies this`serverState
      ensures Valid()
      ensures serverState == SelectRoleState(old(serverState), pid, sub, role)
    {
      SelectRoleKeepsStateOk(serverState, pid, sub, role);
      serverState := SelectRoleState(serverState, pid, sub, role);
    }

    method LeaveRole(pid: PlayerId)
      requires Valid()
      modifies this`serverState
      ensures Valid()
      ensures serverState == LeaveRoleState(old(serverState), pid)
    {
      LeaveRoleKeepsStateOk(serverState, pid);
      serverState := LeaveRoleState(serverState, pid);
    }

    /** When the game begins, the all-ready callback runs and the start-game timer is set. */
    method Ready(pid: PlayerId)
      requires Valid()
      modifies this`serverState, this`timers, this`callbacks
      ensures Valid()
      ensures serverState == ReadyState(old(serverState), pid)
      ensures old(BeginsGame(serverState, pid)) ==>
        timers == old(timers) + [StartGameTimer] && callbacks == old(callbacks) + [AllRolesReadyCallback]
      ensures !old(BeginsGame(serverState, pid)) ==> timers == old(timers) && callbacks == old(callbacks)
    {
      if BeginsGame(serverState, pid) {
        callbacks := callbacks + [AllRolesReadyCallback];
        timers := timers + [StartGameTimer];
      }
      ReadyKeepsStateOk(serverState, pid);
      serverState := ReadyState(serverState, pid);
    }

    method NotReady(pid: PlayerId)
      requires Valid()
      modifies this`serverState
      ensures Valid()
      ensures serverState == NotReadyState(old(serverState), pid)
    {
      NotReadyKeepsStateOk(serverState, pid);
      serverState := NotReadyState(serverState, pid);
    }

    /**
     * When the choice completes the start positions and every crew member is ready to
     * continue, the resume timer is set. A choice that throws changes nothing.
     */
    method ChooseInitialPosition(pid: PlayerId, row: int, col: int) returns (threw: bool)
      requires Valid()
      modifies this`serverState, this`timers
      ensures Valid()
      ensures threw <==> old(ChooseStartThrows(serverState, pid, row, col))
      ensures threw ==> serverState == old(serverState) && timers == old(timers)
      ensures !threw ==> serverState == ChooseStartState(old(serverState), pid, row, col)
      ensures timers == old(timers) +
        (if !threw && old(ChooseStartPlaces(serverState, pid, row, col)) && ResumeDue(serverState)
         then [ResumeRealTimePlayTimer] else [])
    {
      if ChooseStartThrows(serverState, pid, row, col) {
        return true;
      }
      var places := ChooseStartPlaces(serverState, pid, row, col);
      ChooseStartKeepsStateOk(serverState, pid, row, col);
      serverState := ChooseStartState(serverState, pid, row, col);
      if places && ResumeDue(serverState) {
        timers := timers + [ResumeRealTimePlayTimer];
      }
      return false;
    }

    method ReadyToResumeRealTimePlay(pid: PlayerId)
      requires Valid()
      modifies this`serverState, this`timers
      ensures Valid()
      ensures serverState == ReadyToContinueState(old(serverState), pid)
      ensures timers == old(timers) +
        (if old(ContinueSchedulesResume(serverState, pid)) then [ResumeRealTimePlayTimer] else [])
    {
      if ContinueSchedulesResume(serverState, pid) {
        timers := timers + [ResumeRealTimePlayTimer];
      }
      ReadyToContinueKeepsStateOk(serverState, pid);
      serverState := ReadyToContinueState(serverState, pid);
    }

    /**
     * The oldest pending timer fires: the start-game timer regenerates every engine layout
     * and starts the game; the resume timer resumes real-time play.
     */
    method FireNextTimer()
      requires Valid() && timers != []
      modifies this`serverState, this`timers, this`callbacks, this`draws
      ensures Valid()
      ensures timers == old(timers)[1..]
      ensures old(timers)[0] == StartGameTimer ==>
        FreshLayouts(old(serverState).submarines, serverState.submarines) &&
        serverState == StartGameState(old(serverState), serverState.submarines) &&
        callbacks == old(callbacks) + [GameStartedCallback]
      ensures old(timers)[0] == ResumeRealTimePlayTimer ==>
        serverState == ResumeState(old(serverState)) &&
        callbacks == old(callbacks) + [ResumingRealTimePlayCallback] && draws == old(draws)
    {
      var t := timers[0];
      timers := timers[1..];
      match t
      case StartGameTimer =>
        var renewed, k := RegenerateLayouts(serverState.submarines, pick, draws);
        draws := k;
        StartGameKeepsStateOk(serverState, renewed);
        serverState := StartGameState(serverState, renewed);
        callbacks := callbacks + [GameStartedCallback];
      case ResumeRealTimePlayTimer =>
        serverState := ResumeState(serverState);
        callbacks := callbacks + [ResumingRealTimePlayCallback];
    }

    /** A move that throws changes nothing. */
    method Move(pid: PlayerId, direction: string) returns (threw: bool)
      requires Valid()
      modifies this`serverState
      ensures Valid()
      ensures threw <==> old(MoveThrows(serverState, pid, direction))
      ensures threw ==> serverState == old(serverState)
      ensures !threw ==> serverState == MoveState(old(serverState), pid, direction)
    {
      if MoveThrows(serverState, pid, direction) {
        return true;
      }
      MoveKeepsStateOk(serverState, pid, direction);
      serverState := MoveState(serverState, pid, direction);
      return false;
    }

    method ChargeGauge(pid: PlayerId, gauge: string)
      requires Valid()
      modifies this`serverState
      ensures Valid()
      ensures serverState == ChargeState(old(serverState), pid, gauge)
    {
      ChargeKeepsStateOk(serverState, pid, gauge);
      serverState := ChargeState(serverState, pid, gauge);
    }

    /**
     * The engineer's cross-off. When it sinks the submarine, the game-over callback names
     * the other submarine as the winner.
     */
    method CrossOffSystem(pid: PlayerId, direction: string, slotId: string)
      requires Valid()
      modifies this`serverState, this`callbacks
      ensures Valid()
      ensures (serverState, callbacks) == CrossOffServer(old(serverState), old(callbacks), pid, direction, slotId)
    {
      var st := serverState;
      var r, called := CrossOffStep(st, pid, direction, slotId);
      callbacks := callbacks + called;
      serverState := r;
    }
  }
}
