# Sonar game rules and client state machines in Dafny

This project models the rules of the Sonar game. Sonar is a two-submarine strategy game. Each submarine has a crew of four:

- a captain (`co`);
- a first officer (`xo`);
- a sonar operator;
- an engineer (`eng`).

The heart of the model is the logical server, an in-memory rules engine that owns the whole game state (`serverState`):

- **Lobby.** Players connect, get the smallest free player number, pick a role slot and say ready.
- **Start positions.** Once all eight slots are held by ready players, each captain places their submarine on a water cell.
- **Turns.** In real-time play a captain moves one cell. The first officer then charges one action gauge and the engineer crosses out one engine slot, in either order.
- **Engine damage.**
  - A circuit whose every slot is crossed out is cleared.
  - A fully crossed-out direction costs one health point, and so does a full set of crossed-out reactor slots.
  - Health 0 ends the game.

The server depends on the constant 15 x 15 board and on the engine-layout generator. The generator's random choices come from an oracle parameter (`Oracle = nat -> nat`, with a draw counter).

Around the server, the model covers the client-side pieces that carry rules:

- grid arithmetic (range, sectors, A1 labels);
- the submarine surfacing lifecycle, its facade and controller;
- the simulation clock and the game-phase manager;
- the interrupt manager and the interrupt dialog options;
- the pointer state machine of buttons and the press detection built on it;
- the controllers that enable and disable the helm, first-officer and engineer buttons;
- the lobby partition;
- message templates and the detection of messages by diffing two states;
- the map menu and zoom levels;
- the submarine turn animation sequence;
- the teletype row buffer, its scroll behaviour and its message filter;
- the debug director timeline;
- the typewriter cursor;
- damage-change detection;
- the recursive colour cascade.

How the model is written:

- A source file that works by changing state becomes a `class`. Each method's postcondition ties the new state to a pure step function of the old state. The properties are then proved about those functions, as lemmas and as preserved `Valid()` invariants.
- Pure source functions become Dafny functions with lemmas.
- Loops in the source are `while` loops proved against a specification function.
- Timers become explicit "timer fires" methods.
- Callbacks, emitted events and sent messages become append-only logs.
- A JavaScript throw becomes an outcome that leaves the state unchanged.

## Model

| member | source | states |
|---|---|---|
| Server.InitialState | src/logical-server.lib.js:5-22 | a new server is at version 0 in the lobby, with no players, no admin and an empty ready list; its submarines are the two created ones; the board is the constant board and the start-position bookkeeping is empty |
| Server.InitialStateOk | src/logical-server.lib.js:5-22 | two freshly created submarines A and B with empty crews form a state satisfying the server invariant `StateOk` |
| Server.CreatedSubOk | src/logical-server.lib.js:31-54 | a submarine with a well-formed layout, gauges in range, health 4 and waiting for action satisfies the per-submarine invariant |
| Server.PlayerName | src/logical-server.lib.js:27-29 | the name is absent exactly when no player has the id; otherwise it is the name of the first player with that id |
| Server.JoinState | src/logical-server.lib.js:380-389 | the new player is appended, not ready, with the given connection order; the first player to arrive while no admin is set becomes admin; version +1; nothing else changes |
| Server.JoinKeepsStateOk | src/logical-server.lib.js:373-390 | joining keeps the invariant; afterwards an admin is set and the new player is found |
| Server.DisconnectState | src/logical-server.lib.js:56-72 | the player is removed from `players`, from `ready` and from every role slot; `adminId` is cleared only if it was theirs; version +1; nothing else changes |
| Server.DisconnectKeepsStateOk | src/logical-server.lib.js:56-72 | after a disconnection the invariant holds and the player has no record, no slot, no ready entry and is not admin; every other player keeps their record and their seating |
| Server.ChangeNameState | src/logical-server.lib.js:74-81 | outside the lobby or for an unknown player nothing changes, version included; otherwise exactly the first matching player is renamed and version +1 |
| Server.ChangeNameKeepsStateOk | src/logical-server.lib.js:74-81 | renaming keeps the invariant and every player keeps their id |
| Server.SelectRoleState | src/logical-server.lib.js:83-104 | outside the lobby nothing changes; in the lobby version +1; an out-of-range index or a taken slot leaves roles and ready untouched; otherwise the player leaves their old slots, takes the slot and is no longer ready |
| Server.SelectRoleKeepsStateOk | src/logical-server.lib.js:83-104 | selecting keeps the invariant, and a successful selection leaves the player in exactly that one slot while every other player keeps their slots |
| Server.LeaveRoleState | src/logical-server.lib.js:106-118 | outside the lobby nothing changes; in the lobby the player's slots are emptied, they leave `ready`, and version +1 |
| Server.LeaveRoleKeepsStateOk | src/logical-server.lib.js:106-118 | leaving keeps the invariant; in the lobby the player then holds no slot and is not ready, and others keep their seating |
| Server.ReadyList | src/logical-server.lib.js:123-127 | the player is in the new list iff they were ready or hold a role; no other id changes membership; the list only grows, by at most one |
| Server.ReadyState | src/logical-server.lib.js:120-150 | outside the lobby nothing changes; in the lobby the ready list is `ReadyList`; the state becomes game_beginning exactly when every role slot of both submarines is held by a ready player; then version +2, else +1 |
| Server.ReadyKeepsStateOk | src/logical-server.lib.js:120-150 | saying ready keeps the invariant, so `ready` holds no duplicates and only role-holders |
| Server.BeginsGameSeatsEveryone | src/logical-server.lib.js:129-135 | when the game begins, every slot of every submarine is held by a ready player and no player holds two slots |
| Server.NotReadyState | src/logical-server.lib.js:152-158 | outside the lobby nothing changes; in the lobby exactly the player leaves `ready` and version +1 |
| Server.NotReadyKeepsStateOk | src/logical-server.lib.js:152-158 | saying not ready keeps the invariant |
| Server.StartChooser | src/logical-server.lib.js:161-165 | a submarine is found iff the player is a captain, start positions are being chosen and that submarine has not chosen yet; the submarine found is captained by the player |
| Server.ChooseStartState | src/logical-server.lib.js:160-193 | for an input that does not throw, version +1; a valid choice on water places exactly that submarine and records its id once; otherwise submarines and the chosen list are unchanged |
| Server.ChooseStartKeepsStateOk | src/logical-server.lib.js:160-193 | choosing a start position keeps the invariant |
| Server.ChooseStartOnce | src/logical-server.lib.js:164-171 | a placed submarine stands on a water cell of the board and its captain cannot choose again; a refused choice leaves the captain free to choose |
| Server.ReadyToContinueState | src/logical-server.lib.js:195-224 | version +1 in every case; while start positions are being chosen the player is recorded once and no other id changes membership; otherwise the list is unchanged |
| Server.ReadyToContinueKeepsStateOk | src/logical-server.lib.js:195-224 | saying ready to continue keeps the invariant; saying it twice only bumps the version and sets no second timer |
| Server.RegenerateLayouts | src/logical-server.lib.js:138-141 | every submarine gets a new well-formed engine layout and keeps every other field |
| Server.StartGameState | src/logical-server.lib.js:136-146 | the start-game timer puts the server in game with the fresh layouts, a rebuilt square board, start positions to choose and version +1 |
| Server.StartGameKeepsStateOk | src/logical-server.lib.js:136-146 | starting the game with fresh layouts keeps the invariant, crews and ready list included |
| Server.ResumeState | src/logical-server.lib.js:177-186 | the resume timer starts real-time play, empties both start-position lists and bumps the version |
| Server.ResumeClosesChoosing | src/logical-server.lib.js:162-199 | once play has resumed, no captain may choose a start position and readiness to continue is not recorded |
| Server.Mover | src/logical-server.lib.js:233-234 | a submarine is found iff the player captains one and it waits for action |
| Server.MoveVerdict | src/logical-server.lib.js:238-242 | the bounds-and-water verdict is taken on the cell one step from the mover in the given direction |
| Server.MoveState | src/logical-server.lib.js:226-261 | outside in-game real-time play nothing changes, version included; in play version +1; an eligible move onto water replaces only the mover's submarine by `AfterMove`; every other attempt leaves the submarines unchanged |
| Server.MoveKeepsStateOk | src/logical-server.lib.js:226-261 | a move keeps the invariant |
| Server.MoveLandsOnWater | src/logical-server.lib.js:237-255 | the moved submarine stands on water at range exactly 1 from where it was, and its captain cannot move again before the post-movement actions |
| Server.Charger | src/logical-server.lib.js:264-274 | a submarine is found iff the player is first officer of one that may charge this gauge |
| Server.ChargeState | src/logical-server.lib.js:263-292 | version +1 in every case; an allowed charge replaces only that submarine by `AfterCharge`; otherwise the submarines are unchanged |
| Server.ChargeKeepsStateOk | src/logical-server.lib.js:263-292 | charging keeps the invariant, gauges within their caps included |
| Server.ChargeOncePerTurn | src/logical-server.lib.js:267-276 | after a charge, no second charge of any gauge is allowed before the next move |
| Server.CrossingOff | src/logical-server.lib.js:295-300 | a submarine is found iff the player is engineer of one that may cross out this slot: after a move, in the moved direction, not yet crossed |
| Server.StateOkMovedAlongLayout | src/logical-server.lib.js:296-298 | under the invariant, every submarine's moved direction is a direction of its layout and its health is non-negative |
| Server.CrossOffState | src/logical-server.lib.js:294-371 | version +1 in every case; an allowed cross-off replaces that submarine by `AfterCrossOff`, which loses exactly its `Penalty` (one point for a fully crossed direction, one for all reactors crossed) and returns the server to the lobby exactly when its health reaches 0; otherwise nothing else changes |
| Server.CrossOffKeepsStateOk | src/logical-server.lib.js:294-371 | crossing off keeps the invariant |
| Server.CrossOffDamage | src/logical-server.lib.js:350-364 | health only falls, by at most 2 per cross-off; the engineer's submarine loses exactly its `Penalty`, floored at 0, and sinks exactly when that penalty reaches its remaining health; the server leaves its state only to go to the lobby on a sinking cross-off |
| Server.HealthBounds | src/logical-server.lib.js:350-358 | a cross-off changes only the engineer's submarine, lowering its health by at most 2 and never below 0, and lowering it at all exactly when it had health left and the `Penalty` is positive |
| Server.ApplyCrossOff | src/logical-server.lib.js:318-364 | the imperative cross-off, with completed circuits spliced out one by one, yields exactly `CrossOffState` (and so the `Penalty` damage rule of `AfterCrossOff`) and keeps the invariant |
| Server.CrossOffStep | src/logical-server.lib.js:294-371 | the cross-off with its callbacks yields `CrossOffState`, with its `Penalty` damage rule, and keeps the invariant; the game-over callback runs exactly when the cross-off sinks a submarine |
| Server.GameOverWinner | src/logical-server.lib.js:360-364 | a winner is reported iff the cross-off sinks the engineer's submarine, and it is the other submarine's id |
| Server.LogicalServer.constructor | src/logical-server.lib.js:5-25 | a new server is valid and is `InitialState` of two submarines: "A" then "B", each as createSubmarine builds it (`FreshSubmarine`: name "Sub id", empty crew, all gauges 0, at (0, 0), full health, waiting for action, post-movement flags cleared, fresh layout with nothing crossed out); no players, no timers |
| Server.LogicalServer.AddPlayer | src/logical-server.lib.js:373-390 | the player gets the smallest number n >= 1 not held by a connected player and is named "Player n"; the state is `JoinState` |
| Server.LogicalServer.Disconnect | src/logical-server.lib.js:56-72 | the player's number is freed and the state is `DisconnectState` |
| Server.LogicalServer.ChangeName | src/logical-server.lib.js:74-81 | the state is `ChangeNameState` and the invariant is kept |
| Server.LogicalServer.SelectRole | src/logical-server.lib.js:83-104 | the state is `SelectRoleState` and the invariant is kept |
| Server.LogicalServer.LeaveRole | src/logical-server.lib.js:106-118 | the state is `LeaveRoleState` and the invariant is kept |
| Server.LogicalServer.Ready | src/logical-server.lib.js:120-150 | the state is `ReadyState`; exactly when the game begins, the all-ready callback runs and the start-game timer is set |
| Server.LogicalServer.NotReady | src/logical-server.lib.js:152-158 | the state is `NotReadyState` and the invariant is kept |
| Server.LogicalServer.ChooseInitialPosition | src/logical-server.lib.js:160-193 | a row one past the board throws and changes nothing; otherwise the state is `ChooseStartState`; the resume timer is set exactly when this choice completes the start positions and every crew member is ready |
| Server.LogicalServer.ReadyToResumeRealTimePlay | src/logical-server.lib.js:195-224 | the state is `ReadyToContinueState`, and the resume timer is set exactly when this readiness completes the requirements |
| Server.LogicalServer.FireNextTimer | src/logical-server.lib.js:136-218 | the oldest timer fires: the start-game timer installs fresh layouts and gives `StartGameState`; the resume timer gives `ResumeState`; each runs its callback |
| Server.LogicalServer.Move | src/logical-server.lib.js:226-261 | a target row one past the board throws and changes nothing; otherwise the state is `MoveState` |
| Server.LogicalServer.ChargeGauge | src/logical-server.lib.js:263-292 | the state is `ChargeState` and the invariant is kept |
| Server.LogicalServer.CrossOffSystem | src/logical-server.lib.js:294-371 | the state and callback log are those of the cross-off, so the engineer's submarine loses its `Penalty`; on a sinking cross-off the game-over callback names the other submarine |
| ServerRules.FullMeansAtCap | src/logical-server.lib.js:249-253 | with gauges in range, "all gauges full" (the pre-charged flag a move sets) holds iff every gauge is at its own cap (3, silence 5) |
| ServerRules.FindPlayer | src/logical-server.lib.js:77 | nothing is found iff no player has the id; otherwise the index is the first player with that id |
| ServerRules.RemovePlayer | src/logical-server.lib.js:59 | the kept players are exactly those whose id differs, each as often as before and in their original order |
| ServerRules.FindByRole | src/logical-server.lib.js:161 | nothing is found iff no submarine has the player in that role; otherwise the index is the first one that does |
| ServerRules.SameCrewsSameFind | src/logical-server.lib.js:161 | the submarine found for a role depends only on the crews |
| ServerRules.FindOther | src/logical-server.lib.js:361 | nothing is found iff every submarine has the id; otherwise the index is the first submarine with another id |
| ServerRules.Vacate | src/logical-server.lib.js:63-67 | every submarine keeps every field except that the slots holding the player are emptied |
| ServerRules.VacateOutcome | src/logical-server.lib.js:63-67 | afterwards the player holds no role, every other player holds a role exactly as before, and unique seating is kept |
| ServerRules.AssignedSlot | src/logical-server.lib.js:98 | after an assignment a submarine's slots are the new slot plus those it had, and the old ones keep their holders |
| ServerRules.AssignFreshKeepsUnique | src/logical-server.lib.js:92-98 | a player holding no slot who takes an empty slot leaves nobody in two slots |
| ServerRules.AssignFreshOnlySlot | src/logical-server.lib.js:92-98 | after the assignment the player sits in exactly the new slot |
| ServerRules.AssignFreshKeepsOthers | src/logical-server.lib.js:98 | filling an empty slot changes no other player's seating |
| ServerRules.SelectRoleOutcome | src/logical-server.lib.js:91-98 | vacating then taking an empty slot: the player sits in exactly that slot, seating stays unique and every other player keeps their seating |
| ServerRules.UnreadyKeepsReadyOk | src/logical-server.lib.js:101 | removing the player from `ready` keeps the ready list duplicate-free and made of role-holders |
| ServerRules.CheckPosition | src/logical-server.lib.js:166-168 | the `<=` bounds test lets a row equal to the board height through, and that lookup throws; a cell is accepted iff it is in range and water |
| ServerRules.SquareBoardVerdicts | src/logical-server.lib.js:166-168 | on the 15 x 15 board exactly row 15, with a column from 0 to 15, throws; acceptance is exactly "in the board and water" |
| ServerRules.AfterMove | src/logical-server.lib.js:235-255 | the submarine ends at range 1 from where it was, owes the post-movement actions with the engineer flag false and the direction recorded; the first-officer flag is set iff all gauges were full; nothing else changes |
| ServerRules.CompassIsEngineDirection | src/logical-server.lib.js:237 | the four accepted move directions are exactly the engine-layout directions |
| ServerRules.AfterCharge | src/logical-server.lib.js:274-284 | exactly one gauge rises by 1, staying within its cap; if the engineer already acted, the turn ends with both flags reset; otherwise the first-officer flag is set; nothing else changes |
| ServerRules.ChargeOncePerMove | src/logical-server.lib.js:267-276 | after a charge no gauge can be charged again until the next move |
| ServerRules.Completed | src/logical-server.lib.js:318-321 | the selected circuits are exactly those whose every connection is crossed out |
| ServerRules.CompletedKeys | src/logical-server.lib.js:318-325 | every slot of a completed circuit is crossed out and belongs to one of the layout's circuits |
| ServerRules.CompletedKeysNoDup | src/logical-server.lib.js:318-325 | the slots of the completed circuits are pairwise distinct when the layout's circuit slots are |
| ServerRules.Keep | src/logical-server.lib.js:322-325 | the kept crossed-out slots are exactly those whose key is not dropped |
| ServerRules.RemoveUniqueIsKeep | src/logical-server.lib.js:324 | in a duplicate-free list, splicing out the entry at i is the same as dropping that entry's key |
| ServerRules.FindIndex | src/logical-server.lib.js:323 | the result is -1 iff no entry has the key; otherwise it is the first entry with the key |
| ServerRules.ClearStep | src/logical-server.lib.js:322-325 | one round of the clearing loop finds the next key and its splice drops exactly that key |
| ServerRules.ClearCompletedCircuits | src/logical-server.lib.js:318-325 | with distinct crossed-out and circuit slots, the spliced list equals the crossed-out list minus the slots of the completed circuits, and stays duplicate-free |
| ServerRules.AfterCrossOff | src/logical-server.lib.js:301-358 | directions and circuits are unchanged; health falls by exactly the `Penalty`, floored at 0, and falls at all iff health was left and the penalty is positive; a penalty empties the crossed-out list, and without one the list is the recorded slot added with completed circuits cleared (`ClearedAfterCross`); the turn ends iff the first officer had acted; gauges, crew, id and position are unchanged |
| ServerRules.CrossOff | src/logical-server.lib.js:301-358 | the imperative cross-off on one submarine, with the two damage checks as consecutive `if`s, yields exactly `AfterCrossOff` and so its `Penalty` damage rule |
| ServerRules.CrossOffAt | src/logical-server.lib.js:294-358 | the engineer's submarine alone is replaced by `AfterCrossOff`, losing its `Penalty`, and the fleet invariant is kept |
| ServerRules.ClearedAfterCross | src/logical-server.lib.js:301-325 | the list after recording the slot and clearing completed circuits holds only old crossed slots and the new one |
| ServerRules.Penalty | src/logical-server.lib.js:327-353 | the cost is at most 2; it is 0 iff neither the moved direction nor the full set of reactors is crossed out on the cleared list, and 2 iff both are |
| ServerRules.CrossOffKeepsNoDup | src/logical-server.lib.js:299-301 | the crossed-out list stays duplicate-free, because only a not-yet-crossed slot is pushed |
| ServerRules.CrossOffClearsCompletedCircuit | src/logical-server.lib.js:318-325 | when the cross-off completes a circuit, none of that circuit's slots stays crossed out |
| ServerRules.CrossOffKeepsOtherSlots | src/logical-server.lib.js:318-353 | a crossed slot outside every completed circuit survives a cross-off that costs no health |
| ServerRules.BothActionsEndTurn | src/logical-server.lib.js:278-310 | charging then crossing off, or crossing off then charging, ends the turn: the submarine waits for action with both flags reset |
| ServerRules.MoveKeepsSubOk | src/logical-server.lib.js:243-255 | a move keeps the per-submarine invariant |
| ServerRules.ChargeKeepsSubOk | src/logical-server.lib.js:274-284 | a charge keeps the per-submarine invariant, gauges within caps included |
| ServerRules.CrossOffKeepsSubOk | src/logical-server.lib.js:301-358 | a cross-off keeps the per-submarine invariant, health between 0 and 4 included |
| ServerRules.FleetUpdate | src/logical-server.lib.js:294-358 | replacing one submarine by a well-formed one with the same id and crew keeps the fleet invariant |
| ServerRules.FleetPlace | src/logical-server.lib.js:169-170 | placing a submarine keeps the fleet invariant |
| ServerRules.FleetMove | src/logical-server.lib.js:243-255 | a move keeps the fleet invariant |
| ServerRules.FleetCharge | src/logical-server.lib.js:274-284 | a charge keeps the fleet invariant |
| ServerRules.FleetCrossOff | src/logical-server.lib.js:301-358 | a cross-off keeps the fleet invariant |
| ServerRules.FleetFreshLayout | src/logical-server.lib.js:139-141 | installing a well-formed layout keeps the fleet invariant |
| ServerRules.OtherSubmarine | src/logical-server.lib.js:361 | of submarines A and B, the first one whose id differs from submarine i's is the other one |
| ServerRules.FreshLayoutKeepsSubOk | src/logical-server.lib.js:139-141 | a fresh layout keeps a submarine well-formed |
| ServerRules.FleetVacate | src/logical-server.lib.js:61-67 | leaving every slot and the ready list keeps the fleet invariant |
| ServerRules.FleetSelect | src/logical-server.lib.js:91-101 | taking an empty slot after leaving the old ones and the ready list keeps the fleet invariant |
| ServerRules.FleetReady | src/logical-server.lib.js:123-127 | a role-holder not yet ready joins the ready list once and the invariant is kept |
| ServerRules.FleetUnready | src/logical-server.lib.js:156 | leaving the ready list keeps the invariant |
| ServerRules.NextPlayerNumber | src/logical-server.lib.js:374-376 | the loop returns a number n >= 1 that is not used, while every number from 1 to n - 1 is |
| ServerRules.SmallestFreeUnique | src/logical-server.lib.js:374-376 | the smallest free number is unique |
| ServerRules.CreateSubmarine | src/logical-server.lib.js:31-54 | a new submarine has the id, the name "Sub id", empty slots, a well-formed fresh layout, all gauges 0, position (0, 0), health 4, waits for action, and has cleared post-movement flags |
| BoardLayout.GenerateBoard | src/board-layout.lib.js:4-22 | the board has 15 rows of 15 cells, and rows 0 and 5 are all water; as a function of no arguments it is the same value on every call |
| BoardLayout.BoardCellsAreWaterOrLand | src/board-layout.lib.js:1-22 | every cell is W (0) or L (1) |
| BoardLayout.KnownCells | src/board-layout.lib.js:7-12 | cells (1,2) and (2,2) are land and (5,5) is water |
| Wrappers.Without | src/logical-server.lib.js:61 | `filter(id => id !== x)`: every entry other than x is kept as often as it occurs and in its order, x is dropped, and an absent x leaves the list as it is |
| Wrappers.WithoutKeepsNoDup | src/logical-server.lib.js:61 | filtering a duplicate-free list keeps it duplicate-free |
| Wrappers.NatToString | src/logical-server.lib.js:379 | a number's decimal rendering is a non-empty string of digits, without a leading zero, whose value is the number |
| EngineLayout.Choose | src/engineLayout.lib.js:77 | `Math.floor(Math.random() * n)` is replaced by a draw from the oracle that is always an index below n |
| EngineLayout.CountSystemsInDirection | src/engineLayout.lib.js:90-99 | every one of the four systems is counted, starting at 0, and its count is the number of frame slots holding it |
| EngineLayout.CountIgnoresReactorSlots | src/engineLayout.lib.js:90-99 | the counts do not depend on the reactor slots |
| EngineLayout.CountInInsert | src/engineLayout.lib.js:94-96 | counting a new slot adds one to the count of its system only |
| EngineLayout.CountInDistinct | src/engineLayout.lib.js:90-99 | slots holding pairwise-distinct systems count each system at most once |
| EngineLayout.ShuffleArray | src/engineLayout.lib.js:172-177 | the array after the shuffle is a permutation of the array before it, and one draw is used per swap |
| EngineLayout.FrameInjective | src/engineLayout.lib.js:36-44 | in a well-formed direction no two frame slots hold the same system |
| EngineLayout.PermutationPrefixDistinct | src/engineLayout.lib.js:37-42 | a permutation of the four systems has four entries and its first three are pairwise distinct |
| EngineLayout.DistributeFrame | src/engineLayout.lib.js:36-44 | a direction's frame gets slot01 to slot03 holding three pairwise-distinct systems, using three draws |
| EngineLayout.FrameOf | src/engineLayout.lib.js:41-43 | three distinct systems make a well-formed frame |
| EngineLayout.ReactorChoices | src/engineLayout.lib.js:62-74 | the choices start with 'reactor', and a non-reactor system is offered iff it is not yet used in a reactor slot and its count is below 2 |
| EngineLayout.FillReactorSlot | src/engineLayout.lib.js:61-85 | one reactor slot is filled from the offered choices and the bookkeeping of used systems and counts stays exact |
| EngineLayout.ProgressAfterChoice | src/engineLayout.lib.js:76-84 | recording an allowed choice for a fresh slot keeps the bookkeeping exact for all systems |
| EngineLayout.SystemAfterChoice | src/engineLayout.lib.js:76-84 | recording an allowed choice keeps the bookkeeping exact for one system |
| EngineLayout.AssignReactorSlots | src/engineLayout.lib.js:53-88 | the three reactor slots are filled so that each non-reactor system sits in at most one reactor slot, and in at most two slots of the direction when it does |
| EngineLayout.ProgressDone | src/engineLayout.lib.js:61-87 | with all three reactor slots filled, the bookkeeping gives the reactor rule |
| EngineLayout.DistributeSystems | src/engineLayout.lib.js:32-51 | the directions are exactly N, E, W, S, and each has a well-formed frame and well-formed reactor slots |
| EngineLayout.KeysOf | src/engineLayout.lib.js:134 | the slot keys of the connections, one per connection, in order |
| EngineLayout.Available | src/engineLayout.lib.js:133-153 | every offered slot is a collected frame slot that is not used yet and holds the wanted system, or any non-reactor system when none is wanted |
| EngineLayout.CollectFrameSlots | src/engineLayout.lib.js:103-114 | all 12 frame slots are collected, each with the system its direction holds there |
| EngineLayout.NoReactorInPermutation | src/engineLayout.lib.js:128-129 | a shuffled copy of the non-reactor systems holds no 'reactor' |
| EngineLayout.AppendFreshSlot | src/engineLayout.lib.js:140-146 | connecting an unused slot keeps the slot keys distinct and the used set exact |
| EngineLayout.PickedSlotOk | src/engineLayout.lib.js:139-146 | a slot picked from the offered ones is an unused frame slot of a non-reactor system |
| EngineLayout.ShuffledRequired | src/engineLayout.lib.js:128-129 | the required systems are a permutation of the three non-reactor systems |
| EngineLayout.AddSlot | src/engineLayout.lib.js:138-147 | exactly one connection is appended, on an unused frame slot of a non-reactor system, and the used set grows by its key |
| EngineLayout.BuildCircuit | src/engineLayout.lib.js:120-166 | circuit i has id `circuit_{i+1}` and its colour, at most 4 connections, all on non-reactor frame slots, none used by an earlier circuit |
| EngineLayout.AppendCircuit | src/engineLayout.lib.js:166 | appending the next circuit keeps every earlier circuit's shape and extends the flattened connection list |
| EngineLayout.GenerateCircuits | src/engineLayout.lib.js:101-170 | exactly 3 circuits; each has at most 4 connections, all on frame slots whose system is not 'reactor'; no slot belongs to two circuits |
| EngineLayout.GenerateLayout | src/engineLayout.lib.js:10-30 | the layout has directions N, E, W, S with well-formed frames and reactor slots, 3 well-formed circuits and no crossed-out slots |
| EngineLayout.GeneratedDirectionCounts | src/engineLayout.lib.js:53-87 | in a generated direction each non-reactor system sits in at most one frame slot, at most one reactor slot and at most two slots overall |
| MapUtils.Abs | public/js/utils/mapUtils.js:16 | `Math.abs`: the result is x or -x and never negative |
| MapUtils.GetRange | public/js/utils/mapUtils.js:14-17 | 0 when either point is missing, otherwise \|drow\| + \|dcol\| |
| MapUtils.RangeSymmetric | public/js/utils/mapUtils.js:14-17 | the range is symmetric |
| MapUtils.RangeZeroIffSame | public/js/utils/mapUtils.js:14-17 | the range of two points is 0 exactly when they are the same point |
| MapUtils.RangeTriangle | public/js/utils/mapUtils.js:14-17 | the range obeys the triangle inequality |
| MapUtils.RangeOneIsOrthogonalStep | public/js/utils/mapUtils.js:14-17 | range 1 means exactly one orthogonal step: same row and neighbouring column, or the reverse |
| MapUtils.GetSector | public/js/utils/mapUtils.js:26-39 | 0 when row or column is negative; a sector from 1 to 9 on the 15 x 15 grid |
| MapUtils.SectorIsBlockRowMajor | public/js/utils/mapUtils.js:30-38 | on the grid, the sector numbers the 5 x 5 blocks row-major from 1, and the block row and column can be read back from it |
| MapUtils.SameSectorIffSameBlock | public/js/utils/mapUtils.js:26-39 | two cells share a sector exactly when they lie in the same 5 x 5 block |
| MapUtils.ToAlphaNumeric | public/js/utils/mapUtils.js:44-48 | the label is the letter with code 65 + col followed by the decimal rendering of row + 1 |
| MapUtils.OriginIsA1 | public/js/utils/mapUtils.js:41-48 | cell (0, 0) is labelled "A1" |
| MapUtils.ToAlphaNumericInjective | public/js/utils/mapUtils.js:44-48 | for columns 0 to 25 and non-negative rows, different cells get different labels |
| MapUtils.NatToStringInjective | public/js/utils/mapUtils.js:46-47 | different numbers render differently |
| SurfacingRules.ResetTrack | public/js/features/submarine/surfacingRules.js:10-12 | the reset track is always empty |
| SurfacingRules.GetIceDamage | public/js/features/submarine/surfacingRules.js:19-22 | the damage is 1 when the cell is ice and 0 otherwise |
| SurfacingRules.GetSector | public/js/features/submarine/surfacingRules.js:30-34 | a sector from 1 to 9 on the 15 x 15 grid |
| SurfacingRules.AgreesWithMapUtils | public/js/features/submarine/surfacingRules.js:30-34 | on non-negative coordinates it equals the map utility's sector |
| SurfacingRules.KnownSectors | public/js/features/submarine/surfacingRules.js:30-34 | (0,0) and (4,4) are sector 1, (0,5) is 2, (5,0) is 4 and (14,14) is 9 |
| SurfacingRules.NegativeCoordinatesNotGuarded | public/js/features/submarine/surfacingRules.js:30-34 | unlike the map utility, this copy has no negative guard: (-1,-1) gives -3 here and 0 there |
| SubmarineTransitions.DestroyedFromAnywhere | public/js/features/submarine/submarineTransitions.js:6-11 | DESTROYED is a legal successor of exactly the other states, and has no successors itself |
| SubmarineTransitions.IsValidTransition | public/js/features/submarine/submarineStateMachine.js:83-85 | an edge of the transition table: never a self-loop, and nothing leaves DESTROYED |
| SubmarineTransitions.NoSelfLoops | public/js/features/submarine/submarineTransitions.js:6-11 | no state lists itself as a successor |
| SubmarineTransitions.OnlyCycleBesidesDestruction | public/js/features/submarine/submarineTransitions.js:7-9 | apart from destruction, the only legal step from a state is to the next state of the cycle SUBMERGED, SURFACING, SURFACED |
| SubmarineTransitions.PathFollowsCycle | public/js/features/submarine/submarineTransitions.js:7-9 | any legal path from SUBMERGED that avoids DESTROYED goes around that cycle, step k being state k mod 3 |
| SubmarineTransitions.NoDirectSurface | public/js/features/submarine/submarineTransitions.js:7 | SUBMERGED cannot go straight to SURFACED |
| SubmarineStateMachine.GatesOpenWhereSurfacingStarts | public/js/features/submarine/submarineStateMachine.js:43-65 | moving and firing are allowed in the same states, exactly in the state from which surfacing may start, and the destroyed state is the one without successors |
| SubmarineStateMachine.SubmarineMachine.constructor | public/js/features/submarine/submarineStateMachine.js:9-13 | a new machine is SUBMERGED with no listeners and nothing emitted |
| SubmarineStateMachine.SubmarineMachine.TransitionTo | public/js/features/submarine/submarineStateMachine.js:19-29 | a legal change of state updates the state and notifies the listeners once with new and old state; the same state or an illegal one changes nothing and notifies no one; DESTROYED is never left |
| SubmarineStateMachine.SubmarineMachine.Subscribe | public/js/features/submarine/submarineStateMachine.js:71-73 | the listener joins the set; state and emissions are unchanged |
| SubmarineStateMachine.SubmarineMachine.Unsubscribe | public/js/features/submarine/submarineStateMachine.js:79-81 | the listener leaves the set; state and emissions are unchanged |
| SubmarineStateMachine.SubmarineMachine.CanMove | public/js/features/submarine/submarineStateMachine.js:43-45 | moving is allowed exactly in SUBMERGED, the one state from which surfacing may begin |
| SubmarineStateMachine.SubmarineMachine.CanFire | public/js/features/submarine/submarineStateMachine.js:51-57 | firing is allowed exactly in SUBMERGED, the one state from which surfacing may begin |
| SubmarineStateMachine.SubmarineMachine.IsDestroyed | public/js/features/submarine/submarineStateMachine.js:63-65 | destroyed exactly in DESTROYED, the one state with no successor |
| SubmarineFacade.Facade.constructor | public/js/features/submarine/SubmarineFacade.js:9-11 | the facade starts with no machines |
| SubmarineFacade.Facade.Init | public/js/features/submarine/SubmarineFacade.js:17-23 | the known ids grow by the given ids; existing machines are kept as they are; each new id gets a fresh SUBMERGED machine |
| SubmarineFacade.Facade.GetSub | public/js/features/submarine/SubmarineFacade.js:30-32 | a machine is returned exactly for a known id, and it is that id's machine |
| SubmarineFacade.Facade.GetState | public/js/features/submarine/SubmarineFacade.js:59-62 | a state is returned exactly for a known id, and it is that machine's state |
| SubmarineFacade.Facade.CanMove | public/js/features/submarine/SubmarineFacade.js:39-42 | true exactly for a known id whose machine is SUBMERGED; false for an unknown id |
| SubmarineFacade.Facade.CanFire | public/js/features/submarine/SubmarineFacade.js:49-52 | true exactly for a known id whose machine is SUBMERGED; false for an unknown id |
| SubmarineFacade.Facade.Subscribe | public/js/features/submarine/SubmarineFacade.js:69-72 | for a known id the listener joins that machine's set and its state and emissions stay; an unknown id and every other machine are untouched |
| SubmarineFacade.Facade.Unsubscribe | public/js/features/submarine/SubmarineFacade.js:79-82 | for a known id the listener leaves that machine's set and its state and emissions stay; an unknown id and every other machine are untouched |
| SurfacingController.Controller.constructor | public/js/features/submarine/surfacingController.js:10-12 | no surfacing completion is pending |
| SurfacingController.Controller.RequestSurface | public/js/features/submarine/surfacingController.js:19-36 | only a known SUBMERGED submarine acts: it becomes SURFACING, its sector is computed and its completion is scheduled; otherwise nothing changes; no other submarine changes |
| SurfacingController.Controller.OnSurfacingComplete | public/js/features/submarine/surfacingController.js:38-45 | the submarine becomes SURFACED only if it is still SURFACING; no other submarine changes |
| SurfacingController.Controller.FireNextTimer | public/js/features/submarine/surfacingController.js:33-35 | the oldest pending completion runs the completion step for its submarine |
| SurfacingController.Controller.RequestSubmerge | public/js/features/submarine/surfacingController.js:51-58 | only a SURFACED submarine returns to SUBMERGED; no other submarine changes |
| SurfacingController.Controller.HandleDestruction | public/js/features/submarine/surfacingController.js:64-69 | a known submarine becomes DESTROYED; unknown ids are ignored; no other submarine changes |
| Clock.SimulationClock.constructor | src/core/clock/simulationClock.js:8-11 | the clock starts stopped with no listeners |
| Clock.SimulationClock.Start | src/core/clock/simulationClock.js:16-21 | the clock runs afterwards, and CLOCK_START is emitted only when it was stopped |
| Clock.SimulationClock.Stop | src/core/clock/simulationClock.js:26-31 | the clock is stopped afterwards, and CLOCK_STOP is emitted only when it was running |
| Clock.SimulationClock.IsRunning | src/core/clock/simulationClock.js:37-39 | reports the running flag that Start sets and Stop clears |
| Clock.SimulationClock.Subscribe | src/core/clock/simulationClock.js:45-47 | the listener joins the set; nothing else changes |
| Clock.SimulationClock.Unsubscribe | src/core/clock/simulationClock.js:53-55 | the listener leaves the set; nothing else changes |
| Clock.StartTwice | src/core/clock/simulationClock.js:16-21 | starting twice runs the clock and emits at most once, only on the actual change |
| Clock.StopTwice | src/core/clock/simulationClock.js:26-31 | stopping twice stops the clock and emits at most once, only on the actual change |
| Clock.PhaseTableShape | src/core/clock/gamePhaseManager.js:23-29 | GAME_OVER only goes to LOBBY; LOBBY cannot go to GAME_OVER; no phase goes to itself; GAME_OVER is reached only from LIVE or INTERRUPT |
| Clock.IsValidPhaseTransition | src/core/clock/gamePhaseManager.js:72-74 | an edge of the phase table: never from a phase to itself, and from GAME_OVER only to LOBBY |
| Clock.GamePhaseManager.constructor | src/core/clock/gamePhaseManager.js:18-30 | the initial phase is LOBBY, with no listeners |
| Clock.GamePhaseManager.SetPhase | src/core/clock/gamePhaseManager.js:36-46 | a change along a table edge sets the phase and emits one PHASE_CHANGE with new and old phase; the same phase or an illegal one changes nothing and emits nothing; the log grows by exactly `PhaseChangeLog` |
| Clock.GamePhaseManager.GetPhase | src/core/clock/gamePhaseManager.js:52-54 | returns the current phase |
| Clock.GamePhaseManager.Subscribe | src/core/clock/gamePhaseManager.js:60-62 | the listener joins the set; nothing else changes |
| Clock.GamePhaseManager.Unsubscribe | src/core/clock/gamePhaseManager.js:68-70 | the listener leaves the set; nothing else changes |
| Clock.SetPhaseKeepsLogLegal | src/core/clock/gamePhaseManager.js:36-46 | if every emitted change so far went along a table edge, that still holds after any `setPhase` |
| InterruptManager.Manager.constructor | public/js/features/interrupts/InterruptManager.js:9-12 | no interrupt is active and nothing is emitted |
| InterruptManager.Manager.RequestInterrupt | public/js/features/interrupts/InterruptManager.js:19-36 | while one is active a request changes nothing, in the clock and phase manager included; otherwise the interrupt becomes active, the clock stops and emits CLOCK_STOP iff it was running, the phase becomes INTERRUPT where the table allows it with its PHASE_CHANGE, and interruptStarted is emitted; no listener set changes |
| InterruptManager.Manager.UpdateInterrupt | public/js/features/interrupts/InterruptManager.js:43-48 | only for the active type is the payload merged (new keys win) and interruptUpdated emitted; otherwise nothing changes |
| InterruptManager.Manager.ResolveInterrupt | public/js/features/interrupts/InterruptManager.js:54-66 | a non-matching type changes nothing, in the clock and phase manager included; the matching type emits interruptResolved, clears the interrupt, restarts the clock with CLOCK_START iff it was stopped, returns the phase to LIVE unless it is GAME_OVER with its PHASE_CHANGE, and emits interruptEnded; no listener set changes |
| InterruptManager.Manager.EndInterrupt | public/js/features/interrupts/InterruptManager.js:68-86 | with nothing active nothing changes, in the clock and phase manager included; otherwise the interrupt is cleared, the clock restarts with CLOCK_START iff it was stopped, the phase is set back to LIVE unless it is GAME_OVER with its PHASE_CHANGE, and interruptEnded is emitted; no listener set changes |
| InterruptManager.Manager.GetActiveInterrupt | public/js/features/interrupts/InterruptManager.js:92-94 | returns the active interrupt, if any |
| InterruptManager.Manager.Subscribe | public/js/features/interrupts/InterruptManager.js:100-102 | the listener joins the set; nothing else changes |
| InterruptManager.Manager.Unsubscribe | public/js/features/interrupts/InterruptManager.js:108-110 | the listener leaves the set; nothing else changes |
| InterruptManager.EndPhase | public/js/features/interrupts/InterruptManager.js:79-82 | GAME_OVER stays GAME_OVER, INTERRUPT goes to LIVE, and the phase only changes along a table edge |
| InterruptManager.InterruptRoundTrip | public/js/features/interrupts/InterruptManager.js:19-86 | from LIVE with nothing active, requesting and then resolving an interrupt returns to LIVE with the clock running and nothing active |
| InterruptUI.ReplaceUnderscores | public/js/renderers/interrupts/interruptUIConfigs.js:14 | the title has the type's length, with every '_' replaced by a space and every other character kept |
| InterruptUI.NoUnderscoreLeft | public/js/renderers/interrupts/interruptUIConfigs.js:14 | the title contains no '_' |
| InterruptUI.ToUpper | public/js/renderers/interrupts/interruptUIConfigs.js:22 | upper-casing keeps the length and maps exactly the ASCII lower-case letters |
| InterruptUI.IsPauseLike | public/js/renderers/interrupts/interruptUIConfigs.js:22 | the PAUSE type is pause-like, and a pause-like type has at least five characters |
| InterruptUI.GetInterruptUIOptions | public/js/renderers/interrupts/interruptUIConfigs.js:7-39 | type and isReady are passed through; a pause-like type gets "GAME PAUSED", its message, the pause/abort/surrender buttons and their overrides; PLAYER_DISCONNECT gets its own title and message and no buttons; any other type gets the de-underscored title, the payload message or "Please wait..." |
| InterruptUI.NoUNoPause | public/js/renderers/interrupts/interruptUIConfigs.js:22 | a type with no 'U' or 'u' is not pause-like |
| InterruptUI.DisconnectIsNotPause | public/js/renderers/interrupts/interruptUIConfigs.js:22-36 | PLAYER_DISCONNECT is not pause-like, so its own branch applies |
| InterruptUI.PauseWrittenAt | public/js/renderers/interrupts/interruptUIConfigs.js:22 | any type containing "PAUSE" is pause-like |
| InterruptUI.GamePauseIsPause | public/js/renderers/interrupts/interruptUIConfigs.js:22 | GAME_PAUSE is pause-like |
| Interactable.SetState | src/behavior/interactable.js:15-20 | the callback fires exactly when the state really changes and either the interactable is enabled or the new state is DISABLED; it reports the new state; otherwise nothing changes |
| Interactable.ConsistentPreserved | src/behavior/interactable.js:12-82 | starting enabled in IDLE, every pointer handler, `setEnabled` and `setInteractive` keep the state DISABLED exactly when disabled, and never ACTIVE |
| Interactable.DisabledIgnoresPointer | src/behavior/interactable.js:23-53 | while disabled every pointer handler changes nothing and notifies no one |
| Interactable.PointerUpOnlyFromPressed | src/behavior/interactable.js:39-53 | pointerup acts only from PRESSED and goes to HOVER; pointerupoutside acts only from PRESSED and goes to IDLE |
| Interactable.EnableStepOutcome | src/behavior/interactable.js:74-82 | `setEnabled(false)` yields DISABLED and `setEnabled(true)` yields IDLE, with the flag set accordingly |
| Interactable.InteractableObject.constructor | src/behavior/interactable.js:11-13 | a new interactable is enabled, in IDLE, and listening |
| Interactable.InteractableObject.HandlePointer | src/behavior/interactable.js:23-53 | the new state and the notification are those of the pointer step; target flags are unchanged |
| Interactable.InteractableObject.SetEnabled | src/behavior/interactable.js:74-82 | the new state and notification are those of the enable step, and the cursor shows a pointer iff enabled |
| Interactable.InteractableObject.SetInteractive | src/behavior/interactable.js:67-72 | the target's interactive flag and cursor follow the argument, and turning it off requests IDLE |
| Interactable.InteractableObject.Destroy | src/behavior/interactable.js:84-90 | the handlers are detached and the state is unchanged |
| ButtonBehavior.OnStateChange | src/behavior/buttonBehavior.js:25-42 | a press is reported iff the new state is HOVER, the shown state was PRESSED, a press handler exists and the button is enabled; a disabled button shows DISABLED, an active one reporting IDLE shows ACTIVE, otherwise the reported state is shown |
| ButtonBehavior.DisabledNeverPresses | src/behavior/buttonBehavior.js:29-36 | a disabled button never reports a press and always shows DISABLED |
| ButtonBehavior.WiredButton.constructor | src/behavior/buttonBehavior.js:16-42 | a new button is enabled, inactive, shows IDLE, has pressed nothing, and owns a fresh interactable in its initial state |
| ButtonBehavior.WiredButton.React | src/behavior/buttonBehavior.js:25-42 | on a notification the shown state and the press log follow `OnStateChange`; without one nothing changes |
| ButtonBehavior.WiredButton.HandlePointer | src/behavior/buttonBehavior.js:25-42 | a pointer event steps the interactable and the button reacts to the notification it produces |
| ButtonBehavior.WiredButton.SetEnabled | src/behavior/buttonBehavior.js:49-52 | the local flag and the interactable's flag both become the argument; the interactable goes to IDLE or DISABLED; a newly disabled button shows DISABLED, and a newly enabled one shows ACTIVE when active and IDLE otherwise |
| ButtonBehavior.WiredButton.SetActive | src/behavior/buttonBehavior.js:54-61 | the active flag is set and the effects show ACTIVE or IDLE accordingly |
| ButtonBehavior.WiredButton.SetInteractive | src/behavior/buttonBehavior.js:63-65 | the interactable takes the interactive step; the flags and presses are unchanged, and the shown state is the callback's for a reported change and unchanged otherwise |
| ButtonBehavior.WiredButton.Destroy | src/behavior/buttonBehavior.js:67-70 | the interactable stops listening |
| ButtonBehavior.ClickPressesOnce | src/behavior/buttonBehavior.js:25-31 | an enabled idle button that gets pointerover, pointerdown and pointerup reports exactly one press (if it has a handler) and ends in HOVER |
| BaseControl.Isolated | src/control/baseController.js:136-141 | the set of registered buttons is unchanged; every button except the isolated one becomes enabled iff isolation is off; the isolated one and every active flag stay as they were |
| BaseControl.IsolationIdempotent | src/control/baseController.js:136-141 | isolating twice with the same arguments gives the same registry as isolating once |
| BaseControl.Disconnected | src/control/baseController.js:143-146 | a disconnect disables every registered button and keeps their active flags |
| BaseControl.BaseEvent | src/control/baseController.js:83-96 | an event without a handler only logs a warning; ISOLATE_SYSTEM and DEACTIVATE_ALL with a payload isolate the buttons, and without one throw (`BaseThrows`) and change nothing; SWAP_BACK asks the scene callback, if set, for "primary"; no event touches visuals, features, socket, cached state or sent calls |
| BaseControl.RouteDirectorCmd | src/control/baseController.js:159-167 | a `stateUpdate` command goes to the state hook with its payload, and any other typed command goes to the event router iff a handler exists for its type |
| BaseControl.BaseController.constructor | src/control/baseController.js:8-41 | a new controller has empty registries, no socket, no cached state, no scene callback and empty logs |
| BaseControl.BaseController.RegisterButton | src/control/baseController.js:61-63 | the button registry maps the id to the new flags and nothing else changes |
| BaseControl.BaseController.RegisterVisual | src/control/baseController.js:71-73 | the visual registry maps the id to the new visual and nothing else changes |
| BaseControl.BaseController.SetEnabled | src/control/baseController.js:139 | only the named button's enabled flag changes |
| BaseControl.BaseController.SetActive | src/behavior/buttonBehavior.js:54-61 | only the named button's active flag changes |
| BaseControl.BaseController.Send | src/control/connController.js:101-103 | the call is appended to the socket log and nothing else changes |
| BaseControl.BaseController.Warn | src/control/baseController.js:94 | the event type is appended to the warning log and nothing else changes |
| BaseControl.BaseController.SetVisual | src/control/xoController.js:72-73 | only the named visual is replaced |
| BaseControl.BaseController.SetSceneChangeCallback | src/control/baseController.js:17 | only the presence of the scene callback changes |
| BaseControl.BaseController.BindSocket | src/control/baseController.js:103-116 | the socket is bound and the cached state becomes the socket's cached state when it has one |
| BaseControl.BaseController.BindFeatures | src/control/baseController.js:118-124 | the feature registry becomes a copy of the given one |
| BaseControl.BaseController.HandleSystemIsolation | src/control/baseController.js:136-141 | the button registry becomes `Isolated` of the old one and nothing else changes |
| BaseControl.BaseController.HandleDisconnect | src/control/baseController.js:143-146 | the button registry becomes `Disconnected` of the old one |
| BaseControl.BaseController.HandleGameState | src/control/baseController.js:148-153 | without a socket nothing changes; with one the state is cached |
| BaseControl.BaseController.HandleEvent | src/control/baseController.js:83-96 | the new state is `BaseEvent` of the old one, and it reports a throw exactly when an isolation event comes without a payload |
| BaseControl.BaseController.HandleDirectorCmd | src/control/baseController.js:159-167 | a command routed to an event acts as that event and throws when that event does; any other changes nothing in the base state |
| BaseControl.BaseController.Destroy | src/control/baseController.js:171-182 | the socket is dropped and the button, visual and feature registries are emptied |
| ClientView.FindPlayerSub | src/control/engineerController.js:38-41 | the index of the first submarine in which the player holds a role, or none iff there is none |
| ClientView.PlayerSub | src/control/connController.js:33-36 | the submarine found holds the player in one of its four roles, and none is found only when no submarine does |
| ConnControl.HeadingIndex | src/control/connController.js:51 | each heading has its place in the helm order |
| ConnControl.Opposite | src/control/connController.js:52 | the opposite of a heading is a different heading on the same axis |
| ConnControl.KeyHeading | src/control/connController.js:56 | a button key names a heading iff it is that heading's `helm_` key |
| ConnControl.Target | src/control/connController.js:78-82 | the target cell is one step from the submarine |
| ConnControl.ValidateMove | src/control/connController.js:77-97 | a move is valid iff the target lies within the board's rows and first row's width, is water, and is not on the past track |
| ConnControl.HelmEnabled | src/control/connController.js:47-75 | a helm button is disabled outside LIVE or when not SUBMERGED, disabled when it reverses the last move, and otherwise enabled iff the move is valid |
| ConnControl.EnabledHelmIsLegalStep | src/control/connController.js:47-97 | an enabled helm button never reverses the last move and leads to an in-bounds water cell off the past track |
| ConnControl.HelmButtons | src/control/connController.js:55-74 | each registered helm button's enabled flag becomes `HelmEnabled` for its heading; other buttons and every active flag are unchanged |
| ConnControl.HelmStep | src/control/connController.js:55-74 | updating the buttons one heading at a time in helm order changes at most that heading's button |
| ConnControl.ConnEvent | src/control/connController.js:14-17 | MOVE_HELM emits `move` with the payload's direction when a socket is bound and a payload is present; without a payload it throws (`ConnThrows`) and changes nothing; every other event is handled as by the base controller |
| ConnControl.ConnController.constructor | src/control/connController.js:10-18 | a new Conn controller has a fresh, empty base controller |
| ConnControl.ConnController.UpdateHelmUI | src/control/connController.js:47-75 | the button registry becomes `HelmButtons` of the old one and nothing else changes |
| ConnControl.ConnController.OnGameStateUpdate | src/control/connController.js:30-42 | without a state, a socket, or a submarine holding the player nothing changes; otherwise the helm buttons are updated for that submarine |
| ConnControl.ConnController.HandleGameState | src/control/baseController.js:148-153 | without a socket nothing changes; with one the state is cached, and the helm buttons become `HelmButtons` for the player's submarine when the state names one |
| ConnControl.ConnController.HandleMove | src/control/connController.js:99-104 | with a socket `move` is emitted with the direction, without one nothing changes |
| ConnControl.ConnController.HandleEvent | src/control/connController.js:14-17 | the new state is `ConnEvent` of the old one, and it reports a throw exactly when `ConnThrows` holds |
| XoControl.CapsTable | src/control/xoController.js:15-31 | the levels and caps cover the same six subsystems; the four actions cap at 3, silence and scenario at 5 |
| XoControl.Locked | src/control/xoController.js:78-84 | interaction is unlocked iff the phase is LIVE, the clock runs, the submarine is MOVED and has not charged a gauge since |
| XoControl.RowInteractive | src/control/xoController.js:91-96 | a row below its cap is interactive iff unlocked; a full row is interactive iff the phase is LIVE |
| XoControl.RowKey | src/control/xoController.js:89 | a row id is `row_` followed by its key |
| XoControl.XoSubUpdate | src/control/xoController.js:68-98 | each level and its gauge row's displayed level take the reported gauge value when there is one; the lock follows `Locked`; each row's interactive flag follows `RowInteractive`; other visuals and the rest of the base are unchanged |
| XoControl.XoStateUpdate | src/control/xoController.js:57-99 | without a socket, a player id or a state nothing changes, nor for a player with no submarine; otherwise `XoSubUpdate` for the player's submarine; a state update never sends, warns or touches the buttons |
| XoControl.XoCharge | src/control/xoController.js:103-116 | a charge request is sent iff unlocked, below the cap and a socket is bound; otherwise nothing changes |
| XoControl.XoDischarge | src/control/xoController.js:118-124 | `discharge_gauge` is emitted iff a socket is bound and the level is not below its cap, which holds for a full gauge and also for a key naming no subsystem |
| XoControl.XoEvent | src/control/xoController.js:36-40 | events outside the XO's own three handlers only log a warning; a handled event without a payload, or a director command routed to one, throws (`XoThrows`) and changes nothing |
| XoControl.XoDirector | src/control/xoController.js:36-40 | a director command never adds a warning, and one routed to an event that throws changes nothing |
| XoControl.XoIgnoresIsolation | src/control/xoController.js:36-40 | the XO's handler map replaces the base one, so ISOLATE_SYSTEM leaves its buttons alone |
| XoControl.ChargeSentOnlyWhenUnlocked | src/control/xoController.js:78-116 | after a state update a charge reaches the server only in LIVE, with the clock running, in MOVED and before charging |
| XoControl.SyncedAgree | src/control/xoController.js:69-75 | syncing gauges keeps the set of levels and rows and the kind of each row |
| XoControl.SyncStep | src/control/xoController.js:69-75 | syncing one more subsystem updates only that level and, when it is a gauge row, that row |
| XoControl.XoController.constructor | src/control/xoController.js:12-41 | a new XO controller has empty base state, all six levels at 0 and is unlocked |
| XoControl.XoController.SyncLevels | src/control/xoController.js:69-75 | levels and rows become their synced values; the lock is unchanged |
| XoControl.XoController.UpdateRows | src/control/xoController.js:87-98 | every row's interactive flag is recomputed from levels and lock |
| XoControl.XoController.OnGameStateUpdate | src/control/xoController.js:57-99 | the new state is `XoStateUpdate` of the old one, which is `XoSubUpdate` for the player's submarine |
| XoControl.XoController.HandleCharge | src/control/xoController.js:103-116 | the new state is `XoCharge` of the old one |
| XoControl.XoController.HandleDischarge | src/control/xoController.js:118-124 | the new state is `XoDischarge` of the old one |
| XoControl.XoController.HandleEvent | src/control/xoController.js:36-40 | the new state is `XoEvent` of the old one, and it reports a throw exactly when `XoThrows` holds |
| XoControl.XoController.HandleDirectorCmd | src/control/baseController.js:159-167 | the new state is `XoDirector` of the old one, and it reports a throw exactly when the routed event throws |
| EngineerControl.DirectionVisits | src/control/engineerController.js:68-113 | a direction contributes one visit per frame slot and per reactor slot |
| EngineerControl.IdVisits | src/control/engineerController.js:70-71 | the visits of a direction's slot ids are, in order, that direction paired with each id |
| EngineerControl.SlotFlags | src/control/engineerController.js:80-89 | a crossed slot is disabled and inactive; an open slot is enabled and active iff the submarine can interact |
| EngineerControl.VisitSlots | src/control/engineerController.js:68-113 | visiting slots never adds or removes a button |
| EngineerControl.UnvisitedUntouched | src/control/engineerController.js:72-73 | a button whose key no visit names keeps its flags |
| EngineerControl.VisitedSlotFlags | src/control/engineerController.js:71-89 | a button named by exactly one visit ends with `SlotFlags` of whether that slot is crossed out |
| EngineerControl.VisitOne | src/control/engineerController.js:69-113 | visiting one more slot applies that slot's update to the previous result |
| EngineerControl.VisitAppend | src/control/engineerController.js:69-113 | visiting two runs of slots is visiting the first and then the second |
| EngineerControl.VisitsSnoc | src/control/engineerController.js:69-113 | the visits of one more direction are its frame slots followed by its reactor slots |
| EngineerControl.VisitDirection | src/control/engineerController.js:69-113 | processing one more direction is its frame loop followed by its reactor loop |
| EngineerControl.EngineerView | src/control/engineerController.js:61-114 | without an engine layout nothing changes; otherwise the lock is set iff the submarine is not MOVED, and every slot button is visited |
| EngineerControl.EngineerStateUpdate | src/control/engineerController.js:32-52 | a state update never sends anything or changes the socket |
| EngineerControl.EngineerCrossOff | src/control/engineerController.js:118-126 | a cross-off is sent iff unlocked and a socket is bound; otherwise nothing changes |
| EngineerControl.EngineerEvent | src/control/engineerController.js:18-22 | events outside the Engineer's own three handlers only log a warning, and TOGGLE_REACTOR changes nothing; a handled event without a payload, or a director command routed to one, throws (`EngineerThrows`) and changes nothing |
| EngineerControl.EngineerDirector | src/control/baseController.js:159-167 | a stateUpdate command runs the state hook with the command's state; a command naming no engineer handler, TOGGLE_REACTOR, and one routed to an event that throws, change nothing |
| EngineerControl.CrossOffOnlyAfterMove | src/control/engineerController.js:61-126 | after the view has been updated, a cross-off reaches the server only when the submarine is MOVED |
| EngineerControl.EngineerController.constructor | src/control/engineerController.js:10-23 | a new Engineer controller has an empty base, no engine layout, and is locked |
| EngineerControl.EngineerController.VisitIds | src/control/engineerController.js:70-90 | the loop over one direction's slot ids leaves the buttons as `VisitSlots` over those ids and changes nothing else |
| EngineerControl.EngineerController.UpdateEngineView | src/control/engineerController.js:61-114 | the new state is `EngineerView` of the old one |
| EngineerControl.EngineerController.OnGameStateUpdate | src/control/engineerController.js:32-52 | the new state is `EngineerStateUpdate` of the old one |
| EngineerControl.EngineerController.HandleCrossOff | src/control/engineerController.js:118-126 | the new state is `EngineerCrossOff` of the old one |
| EngineerControl.EngineerController.HandleEvent | src/control/engineerController.js:18-22 | the new state is `EngineerEvent` of the old one, and it reports a throw exactly when `EngineerThrows` holds |
| EngineerControl.EngineerController.HandleDirectorCmd | src/control/baseController.js:159-167 | the new state is `EngineerDirector` of the old one, and it reports a throw exactly when the routed event throws |
| XoPanel.ChargedStep | public/js/controllers/xoController.js:197-204 | the after-charge sync over one more row sets that row to ready-to-discharge if full, otherwise disabled |
| XoPanel.MovedStep | public/js/controllers/xoController.js:226-233 | the after-move sync over one more row sets that row to disabled if full, otherwise active |
| XoPanel.PanelClick | public/js/controllers/xoController.js:174-220 | levels stay within their caps; without the clock nothing changes; a full row is discharged to 0 and disabled; a row that is neither full nor active is ignored; otherwise the level rises by one and every row becomes ready-to-discharge if full, else disabled |
| XoPanel.PanelMove | public/js/controllers/xoController.js:222-234 | levels are unchanged; without the clock nothing changes; otherwise every row becomes disabled if full, else active |
| XoPanel.OneChargePerMove | public/js/controllers/xoController.js:193-204 | after one charge, a second click on any row can only discharge it or leave it as it was: one charge per move |
| XoPanel.MoveReopensRows | public/js/controllers/xoController.js:222-234 | after a move any row below its cap can be charged by one |
| XoPanel.XoPanelController.constructor | public/js/controllers/xoController.js:14-34 | a new panel has all levels at 0, the caps of 4, 3, 3, 3, 6 and 4, and no row modes yet |
| XoPanel.XoPanelController.Init | public/js/controllers/xoController.js:36-56 | every row starts disabled and the levels are unchanged |
| XoPanel.XoPanelController.HandleSubsystemClick | public/js/controllers/xoController.js:174-208 | the new levels and modes are `PanelClick` of the old ones, and the panel stays valid |
| XoPanel.XoPanelController.Discharge | public/js/controllers/xoController.js:210-220 | the row's level becomes 0 and the row is disabled; all other rows are unchanged |
| XoPanel.XoPanelController.HandleMove | public/js/controllers/xoController.js:222-234 | the new levels and modes are `PanelMove` of the old ones |
| LobbyControl.Lower | public/js/controllers/lobbyController.js:163 | lower-casing keeps the length and maps exactly the ASCII capitals to their small letters |
| LobbyControl.DisplayToInternal | public/js/controllers/lobbyController.js:156-164 | the four display names map to co, xo, sonar and eng; any other name maps to its lower-case form |
| LobbyControl.DisplayRoundTrip | public/js/controllers/lobbyController.js:53-58 | translating an internal role key to its display name and back gives the key again |
| LobbyControl.FindPlayer | public/js/controllers/lobbyController.js:47 | the player found is in the list with that id, and none is found iff no player has it |
| LobbyControl.SlotFor | public/js/controllers/lobbyController.js:74-88 | an empty role slot is vacated; a filled one whose player is listed is seated with that player, the display role and the player's readiness; a filled one whose player is not listed is left untouched |
| LobbyControl.AssignedMeansSeated | public/js/controllers/lobbyController.js:60-89 | an id counts as assigned iff it is non-empty, belongs to a listed player, and fills some role of a rendered submarine panel |
| LobbyControl.SeatedWitness | public/js/controllers/lobbyController.js:74-88 | every id seated in a panel fills one of its first roles and belongs to a listed player |
| LobbyControl.SeatedComplete | public/js/controllers/lobbyController.js:78-84 | every filled role whose player is listed puts that id among the seated ones |
| LobbyControl.InsertByOrder | public/js/controllers/lobbyController.js:94 | inserting a player adds exactly that player to the multiset |
| LobbyControl.InsertKeepsSorted | public/js/controllers/lobbyController.js:94 | inserting into a list sorted by connection order keeps it sorted |
| LobbyControl.SortByOrder | public/js/controllers/lobbyController.js:94 | the result is a permutation of the input, sorted by connection order with a missing order counted as 0 |
| LobbyControl.SortKeepsMembers | public/js/controllers/lobbyController.js:94 | sorting neither adds nor drops a player |
| LobbyControl.Unassigned | public/js/controllers/lobbyController.js:92-93 | the kept players are exactly the listed players whose id is not assigned |
| LobbyControl.ListedPlayers | public/js/controllers/lobbyController.js:96 | each listed player is marked ready iff their id is on the ready list |
| LobbyControl.UnassignedList | public/js/controllers/lobbyController.js:92-100 | the unassigned panel shows exactly the unassigned players, each with its readiness, in connection order |
| LobbyControl.Render | public/js/controllers/lobbyController.js:39-103 | two panels, each drawn iff its view and submarine exist, with one slot per role as `SlotFor` gives; the name label is set iff the view exists and this client is listed, to that player's name; the unassigned panel is filled iff it exists |
| LobbyControl.RoleRequest | public/js/controllers/lobbyController.js:107-124 | with a cached state, a request is refused exactly when `sub[role]` is truthy on the chosen submarine, a held seat or any other truthy field (`FieldTruthy`); every other request sends `selectRole` with the translated role |
| LobbyControl.SkipLeading | public/js/controllers/lobbyController.js:132-134 | the index of the first non-space at or after the start |
| LobbyControl.SkipTrailing | public/js/controllers/lobbyController.js:132-134 | the end of the range once the trailing spaces are dropped |
| LobbyControl.Trim | public/js/controllers/lobbyController.js:132-134 | the trimmed name is empty iff the name is all spaces; otherwise it is a slice of the name that neither starts nor ends with a space, with only spaces cut on either side |
| LobbyControl.NameRequest | public/js/controllers/lobbyController.js:131-135 | no request for a missing or all-space name; otherwise `changeName` with the non-empty trimmed name |
| LobbyControl.ToggleRequest | public/js/controllers/lobbyController.js:142-152 | no request without a cached state; otherwise `notReady` iff this client is on the ready list, else `ready` |
| LobbyControl.ToggleAlternates | public/js/controllers/lobbyController.js:142-152 | once a ready request has been accepted, the next toggle asks for not-ready |
| LobbyControl.LobbyController.constructor | public/js/controllers/lobbyController.js:9-16 | a new lobby controller has no cached state and has sent nothing |
| LobbyControl.LobbyController.UpdatePanel | public/js/controllers/lobbyController.js:63-89 | the loop over the four roles yields each role's `SlotFor` view and the set of seated ids |
| LobbyControl.LobbyController.Update | public/js/controllers/lobbyController.js:39-103 | an empty update changes nothing; otherwise the state is cached and the screen is `Render` of it; no request is sent |
| LobbyControl.LobbyController.RequestRoleSelection | public/js/controllers/lobbyController.js:107-124 | the request log grows by `RoleRequest`'s call, if any, so a role name naming any truthy field of the submarine is refused |
| LobbyControl.LobbyController.RequestVacate | public/js/controllers/lobbyController.js:126-129 | `leaveRole` is appended to the request log |
| LobbyControl.LobbyController.RequestNameChange | public/js/controllers/lobbyController.js:131-135 | the request log grows by `NameRequest`'s call, if any |
| LobbyControl.LobbyController.RequestToggleReady | public/js/controllers/lobbyController.js:142-152 | the request log grows by `ToggleRequest`'s call, if any |
| MessageBuilder.Placeholder | public/js/utils/messageBuilder.js:38 | a placeholder is its key wrapped in one opening and one closing brace |
| MessageBuilder.Split | public/js/utils/messageBuilder.js:40 | the pieces between the pattern's occurrences give the text back when joined with the pattern, and none contains the pattern |
| MessageBuilder.JoinHead | public/js/utils/messageBuilder.js:40 | prefixing a character to the first piece prefixes it to the join |
| MessageBuilder.JoinPrefix | public/js/utils/messageBuilder.js:40 | the first piece is a prefix of the join |
| MessageBuilder.HeadPieceFree | public/js/utils/messageBuilder.js:40 | when the text does not start with the pattern, its first character joined to the next piece still holds no occurrence |
| MessageBuilder.ReplaceIsJoin | public/js/utils/messageBuilder.js:40 | a global replace puts the replacement at every occurrence and nowhere else: it is the pieces joined with the replacement |
| MessageBuilder.ReplaceWithItself | public/js/utils/messageBuilder.js:40 | replacing a pattern by itself gives the text back |
| MessageBuilder.ReplaceAll | public/js/utils/messageBuilder.js:39-41 | replacing a pattern the text does not contain changes nothing |
| MessageBuilder.ContainsAt | public/js/utils/messageBuilder.js:39 | a contained pattern occurs at some position |
| MessageBuilder.ContainsAfter | public/js/utils/messageBuilder.js:39 | a pattern contained in a text is contained in any text ending with it |
| MessageBuilder.ReplaceSkipsPrefix | public/js/utils/messageBuilder.js:40 | a prefix without an opening brace is left alone by a placeholder replace |
| MessageBuilder.PlaceholdersApart | public/js/utils/messageBuilder.js:38 | two placeholders of brace-free keys cannot overlap a text's start unless they are the same |
| MessageBuilder.OccursShift | public/js/utils/messageBuilder.js:39 | an occurrence at or after a cut remains in the rest of the text |
| MessageBuilder.ReplaceAtOther | public/js/utils/messageBuilder.js:40 | a leading placeholder of another key passes through a replace untouched |
| MessageBuilder.ReplaceKeepsOther | public/js/utils/messageBuilder.js:37-42 | replacing one key's placeholder keeps a different key's placeholder in the text |
| MessageBuilder.OccursContains | public/js/utils/messageBuilder.js:39 | an occurrence at a position means the text contains the pattern |
| MessageBuilder.ApplyEntryIsReplace | public/js/utils/messageBuilder.js:37-42 | with the placeholder matched literally, the `includes` test only saves work: each data entry is a plain global replace |
| MessageBuilder.UnmatchedPlaceholderStays | public/js/utils/messageBuilder.js:44-48 | a placeholder whose key is not in the data survives the loop, which is what the unfilled-placeholder warning reports |
| MessageBuilder.ApplyAll | public/js/utils/messageBuilder.js:37-42 | data whose placeholders the template does not contain leaves the text as the template |
| MessageBuilder.Built | public/js/utils/messageBuilder.js:19-56 | there is no message iff the type has no template; otherwise it carries the type, the template's priority and the given time |
| MessageBuilder.BuildMessage | public/js/utils/messageBuilder.js:19-56 | the loop over the data entries yields `Built`, whose text is every entry's placeholder replaced in order |
| MessageBuilder.PassesFilters | public/js/utils/messageBuilder.js:66-86 | a message passes iff it has no filters, or each non-empty submarine and role list includes the player's submarine and role |
| MessageBuilder.VocabularyVisibleToAll | public/js/utils/messageBuilder.js:66-86 | every template of the vocabulary passes the filter for every player |
| MessageVocabulary.Lookup | public/js/features/messages/messageVocabulary.js:89-91 | a found template is the entry of that type, and none is found iff no entry has the type |
| MessageVocabulary.GetMessageTemplate | public/js/features/messages/messageVocabulary.js:89-91 | a template exists iff the type is one of the message types, and it is that type's entry |
| MessageVocabulary.GetMessageTypes | public/js/features/messages/messageVocabulary.js:97-98 | the types listed are the vocabulary's keys in order |
| MessageVocabulary.VocabularyMatchesTypes | public/js/features/messages/messageVocabulary.js:19-82 | there are eight distinct types, the vocabulary's keys are exactly them in order, and each has a template |
| MessagesControl.MovementDirectionRule | public/js/features/messages/MessagesController.js:225-234 | a move whose horizontal change is larger in size is east or west by its sign; any other is south when the vertical change is positive, else north |
| MessagesControl.MovementDirection | public/js/features/messages/MessagesController.js:225-234 | the direction is one of east, west, south and north |
| MessagesControl.StepDirections | public/js/features/messages/MessagesController.js:225-234 | a one-cell step in x names east or west, and in y south or north |
| MessagesControl.MovedIndices | public/js/features/messages/MessagesController.js:119-135 | every index reported lies below the bound and in both submarine lists |
| MessagesControl.MovedIndicesExact | public/js/features/messages/MessagesController.js:119-135 | the reported indices are exactly those present in both lists whose position changed, in increasing order |
| MessagesControl.MovedIndicesMembers | public/js/features/messages/MessagesController.js:119-135 | an index is reported iff it is present in both lists and its position changed |
| MessagesControl.MovedIndicesIncrease | public/js/features/messages/MessagesController.js:119 | the reported indices increase |
| MessagesControl.DamagedIndices | public/js/features/messages/MessagesController.js:153-174 | every index reported lies below the bound and in both submarine lists |
| MessagesControl.DamagedIndicesExact | public/js/features/messages/MessagesController.js:153-174 | the reported indices are exactly those present in both lists whose health fell, in increasing order |
| MessagesControl.DamagedIndicesMembers | public/js/features/messages/MessagesController.js:153-174 | an index is reported iff it is present in both lists and its health (missing counted as 0) fell |
| MessagesControl.DamagedIndicesIncrease | public/js/features/messages/MessagesController.js:153 | the reported indices increase |
| MessagesControl.MovementEventsPerMovedIndex | public/js/features/messages/MessagesController.js:112-138 | there is one movement event per moved submarine, in index order, each naming it and its direction |
| MessagesControl.MovementEvents | public/js/features/messages/MessagesController.js:112-138 | only movement events, at most one per submarine present in both states |
| MessagesControl.MovedStep | public/js/features/messages/MessagesController.js:126-134 | a moved submarine at the loop's next index adds exactly its event at the end |
| MessagesControl.DamageEventsPerDamagedIndex | public/js/features/messages/MessagesController.js:147-177 | there is one damage event per damaged submarine, in index order, each with a positive damage equal to the health lost |
| MessagesControl.DamageEvents | public/js/features/messages/MessagesController.js:147-177 | only damage events, at most one per submarine present in both states |
| MessagesControl.AllEvents | public/js/features/messages/MessagesController.js:73-92 | at most two events per submarine plus one phase event, each a movement, damage or game event |
| MessagesControl.GameEventsOf | public/js/features/messages/MessagesController.js:202-216 | a phase change gives exactly one game event naming the new phase; no change gives none |
| MessagesControl.NoChangeNoEvents | public/js/features/messages/MessagesController.js:73-103 | comparing a state with itself detects no event |
| MessagesControl.SameSubsNoEvents | public/js/features/messages/MessagesController.js:112-177 | unchanged submarines give no movement and no damage events |
| MessagesControl.DetectedEventsHaveTemplates | public/js/features/messages/MessagesController.js:73-103 | every detected event's type has a vocabulary template, so none is dropped when built |
| MessagesControl.PresentSnoc | public/js/features/messages/MessagesController.js:57-59 | a built message is shown after the earlier ones, a null one is skipped |
| MessagesControl.PresentAll | public/js/features/messages/MessagesController.js:57-59 | when every message was built, each is shown, in order |
| MessagesControl.BuiltEach | public/js/features/messages/MessagesController.js:54-55 | one build result per event |
| MessagesControl.MessagesForSnoc | public/js/features/messages/MessagesController.js:54-60 | one more event adds its built message, if any, at the end |
| MessagesControl.MessagesPerEvent | public/js/features/messages/MessagesController.js:54-60 | when every event type has a template, exactly one message is shown per event, in order, each as `Built` gives it |
| MessagesControl.MessagesController.constructor | public/js/features/messages/MessagesController.js:1-29 | a new controller keeps the player's submarine and role, has no previous state, and has shown nothing |
| MessagesControl.MessagesController.DetectMovementEvents | public/js/features/messages/MessagesController.js:112-138 | the loop yields `MovementEvents` over all new submarines |
| MessagesControl.MessagesController.DetectDamageEvents | public/js/features/messages/MessagesController.js:147-177 | the loop yields `DamageEvents` over all new submarines |
| MessagesControl.MessagesController.DetectEvents | public/js/features/messages/MessagesController.js:73-103 | movement, damage, system and game events, in that order |
| MessagesControl.MessagesController.HandleStateUpdate | public/js/features/messages/MessagesController.js:40-64 | the first update is only stored; each later one shows the messages built for the detected events and then becomes the previous state |
| MapMenu.FilterOptions | public/js/features/map/mapMenuConfig.js:81-83 | the kept options are, in their original order, exactly those without a condition or whose condition holds |
| MapMenu.GetMenuConfig | public/js/features/map/mapMenuConfig.js:76-88 | "intent" selects the intent menu and anything else the context menu; the type and title are kept and the options are filtered in order |
| MapMenu.IntentMenuOffersOne | public/js/features/map/mapMenuConfig.js:13-37 | the intent menu offers exactly one option: cancel on the current waypoint, set anywhere else |
| MapMenu.ContextMenuKeepsAll | public/js/features/map/mapMenuConfig.js:43-66 | the context menu's options have no condition, so it is returned whole |
| MapControl.ReduceClosest | public/js/features/map/MapController.js:62-66 | the reduction returns its seed or a later level, no farther from the scale than the seed or any later level |
| MapControl.FindClosestLevel | public/js/features/map/MapController.js:62-66 | the result is one of the levels and no level is closer to the scale |
| MapControl.IndexOf | public/js/features/map/MapController.js:53 | the index of the first occurrence of the level |
| MapControl.ReduceStrict | public/js/features/map/MapController.js:64 | the reduction replaces its seed only by a strictly closer level |
| MapControl.ReduceKeepsEarliest | public/js/features/map/MapController.js:63-65 | on a tie the earlier level wins: any level before the result is strictly farther |
| MapControl.EarlierFarther | public/js/features/map/MapController.js:63-65 | a first level strictly farther than the result keeps every earlier level strictly farther |
| MapControl.ClosestIsEarliest | public/js/features/map/MapController.js:62-66 | every level before the closest one is strictly farther from the scale |
| MapControl.ClosestOfALevel | public/js/features/map/MapController.js:62-66 | the closest level to a zoom level is that level |
| MapControl.StepIndex | public/js/features/map/MapController.js:54-56 | the clamped next index lies within the levels |
| MapControl.StepTarget | public/js/features/map/MapController.js:51-60 | a zoom is requested iff the clamped index differs from the current one, and then to the level at that index |
| MapControl.UnitStep | public/js/features/map/MapController.js:51-60 | zooming in or out by one moves to the neighbouring level when there is one and requests nothing at either end |
| MapControl.ZoomLevelsFor | public/js/features/map/MapController.js:33-38 | three levels: the default scale, the floor of the mean of the default and the minimum, and the largest scale whose grid fits the width left after the label gutter |
| MapControl.ResizedLevelsDescend | public/js/features/map/MapController.js:33-38 | when the minimum scale does not exceed the default, the levels descend |
| MapControl.MapController.constructor | public/js/features/map/MapController.js:11-28 | a new map controller centres on (7, 7) with levels 90, 60 and 30, renders the map, clamps the position and has requested no zoom |
| MapControl.MapController.StepZoom | public/js/features/map/MapController.js:51-60 | a zoom request to `StepTarget` is logged when there is one; nothing else changes |
| MapControl.MapController.Resize | public/js/features/map/MapController.js:30-45 | the viewport is set, the levels become `ZoomLevelsFor` the width, a scale below the new minimum is raised to it and redrawn, and the position is clamped |
| SubAnimation.DirIndex | public/js/scenes/subAnimation.js:56-58 | `indexOf` on the eight-point ring: -1 iff the name is not on it, otherwise the position holding it |
| SubAnimation.RingAt | public/js/scenes/subAnimation.js:68 | every ring position reached by stepping is one of the eight |
| SubAnimation.RingStep | public/js/scenes/subAnimation.js:68 | one loop step moves from the k-th to the (k+1)-th position along the turn |
| SubAnimation.RingHits | public/js/scenes/subAnimation.js:60-69 | a turn takes at most four steps and reaches the target exactly when the step count equals its length, never earlier |
| SubAnimation.RingNames | public/js/scenes/subAnimation.js:56 | each ring position's name maps back to that position |
| SubAnimation.StepIsAdjacent | public/js/scenes/subAnimation.js:68 | one ring step moves to a neighbouring heading in the turn's direction |
| SubAnimation.TurnFrames | public/js/scenes/subAnimation.js:54-72 | the frames of a turn are the ring positions walked from the start, one more than the number of steps |
| SubAnimation.TurnFramesEnds | public/js/scenes/subAnimation.js:54-72 | the frames start at the current heading, end at the new one, hold one frame iff the two are equal, and never more than five |
| SubAnimation.TurnFrameStep | public/js/scenes/subAnimation.js:66-69 | consecutive frames are neighbouring headings one step apart in the turn's direction |
| SubAnimation.TurnFramesSteps | public/js/scenes/subAnimation.js:60-69 | the turn runs clockwise when the target is one to four steps clockwise, else counter-clockwise, always between neighbouring headings |
| SubAnimation.GetFrameSequence | public/js/scenes/subAnimation.js:54-72 | for two headings on the ring the frames are `TurnFrames` of their positions |
| SubAnimation.Walked | public/js/scenes/subAnimation.js:66-69 | the loop has pushed one frame per step taken |
| SubAnimation.WalkedFrames | public/js/scenes/subAnimation.js:66-69 | the k-th pushed frame is the heading k steps along the turn |
| SubAnimation.WalkedIsTurn | public/js/scenes/subAnimation.js:66-70 | the frames pushed by the loop followed by the target form the whole turn |
| SubAnimation.WalkRing | public/js/scenes/subAnimation.js:60-72 | the while loop yields `TurnFrames` of the two positions |
| SubAnimation.UnknownTargetNeverReached | public/js/scenes/subAnimation.js:58-69 | for a target name not on the ring the loop's exit test never holds, for any number of steps |
| SubAnimation.KnownTargetReached | public/js/scenes/subAnimation.js:60-69 | for a target on the ring the loop exits after exactly the remaining steps |
| SubAnimation.SubmarineAnimation.constructor | public/js/scenes/subAnimation.js:10-53 | a new animation faces N, is neither turning nor moving, and shows the N frame |
| SubAnimation.SubmarineAnimation.StartTurn | public/js/scenes/subAnimation.js:75-106 | busy, a rejected direction or a name off the ring is ignored; the current heading starts a move; any other heading starts a turn showing `TurnFrames` towards it |
| SubAnimation.SubmarineAnimation.TurnComplete | public/js/scenes/subAnimation.js:98-105 | the turn's end adopts the pending heading, clears the turning flag and starts the move |
| SubAnimation.SubmarineAnimation.MoveComplete | public/js/scenes/subAnimation.js:128-132 | the move's end clears the moving flag and keeps the heading |
| Terminal.OrDefault | src/feature/teletype/terminalBox.js:29-32 | an option is used when present and not zero; otherwise its fallback |
| Terminal.Newest | src/feature/teletype/terminalBox.js:71-79 | the last `cap` lines, or all of them when there are fewer |
| Terminal.NewestAppend | src/feature/teletype/terminalBox.js:64-79 | evicting after each append keeps the same lines as keeping the newest of the whole history |
| Terminal.Texts | src/feature/teletype/terminalBox.js:57-64 | the texts of the rows, in order |
| Terminal.Reindexed | src/feature/teletype/terminalBox.js:77 | every row keeps its content and is placed at its index times the row height |
| Terminal.AfterAppendShape | src/feature/teletype/terminalBox.js:54-85 | after an append the rows stay within capacity and evenly spaced, their texts are the newest lines, and the last row is the new line with its style |
| Terminal.AfterAppendKeepsRows | src/feature/teletype/terminalBox.js:71-78 | eviction drops at most the oldest row, and every row kept keeps its text and style; only its position changes |
| Terminal.TerminalBox.constructor | src/feature/teletype/terminalBox.js:26-47 | width, height, typing delay and maximum rows default to 400, 150, 30 and 10; there are no rows and the wrapper sits at the live position |
| Terminal.TerminalBox.AppendLine | src/feature/teletype/terminalBox.js:54-85 | a missing line changes nothing; otherwise the rows become `AfterAppend` of the old rows and the new row (earlier rows keep text and style, by AfterAppendKeepsRows), the texts become the newest lines up to capacity, the wrapper rests at the live position with the new row's bottom at the padding line, and the returned row is the new row in its final slot |
| TeletypeScroll.ClampY | src/feature/teletype/teletypeBehaviors.js:39-50 | the clamped position is never below the live position, never above the padding when the live position is not, and leaves a position already in range alone |
| TeletypeScroll.ClampIdempotent | src/feature/teletype/teletypeBehaviors.js:39-50 | clamping twice is clamping once |
| TeletypeScroll.ScrollableHasRange | src/feature/teletype/teletypeBehaviors.js:29-50 | when the rows are taller than the terminal the live position lies above the padding, so the scroll range is not empty and its top is reachable |
| TeletypeScroll.ScrollBehavior.constructor | src/feature/teletype/teletypeBehaviors.js:15-24 | a new scroll behaviour is attached to its terminal, not dragging, not scrolled, with no snap pending |
| TeletypeScroll.ScrollBehavior.OnPointerDown | src/feature/teletype/teletypeBehaviors.js:77-84 | on content too short to scroll nothing changes; otherwise a drag starts at the pointer and the wrapper's position, and the snap timer is cleared |
| TeletypeScroll.ScrollBehavior.OnPointerMove | src/feature/teletype/teletypeBehaviors.js:86-92 | outside a drag nothing changes; during one the wrapper follows the pointer, clamped, and the view counts as scrolled iff it is not at the live position |
| TeletypeScroll.ScrollBehavior.OnPointerUp | src/feature/teletype/teletypeBehaviors.js:94-102 | outside a drag nothing changes; otherwise the drag ends and a snap back is scheduled when the view is scrolled |
| TeletypeScroll.ScrollBehavior.SnapToLive | src/feature/teletype/teletypeBehaviors.js:68-73 | the wrapper returns to the live position, the view is no longer scrolled, and no snap is pending |
| TeletypeScroll.ScrollBehavior.SnapTimerFires | src/feature/teletype/teletypeBehaviors.js:53-58 | a pending snap-back timer, on firing, snaps the view to the live position |
| TeletypeControl.RoleKeyOf | src/feature/teletype/teletypeController.js:43 | a role key is found iff the player holds a role on the submarine, and it is "co" iff the player is its captain |
| TeletypeControl.FilterNeedsKnownPlayer | src/feature/teletype/teletypeController.js:31-50 | a message is only ever filtered when the client knows its player, the player is on a submarine, and the message is addressed by role or vessel |
| TeletypeControl.OwnAddressPasses | src/feature/teletype/teletypeController.js:31-50 | a message addressed to the player's own vessel and role, or not addressed, is never filtered |
| TeletypeControl.StyleAsWritten | src/feature/teletype/teletypeController.js:26-60 | the overrides of the code as written never carry the role or vessel keys |
| TeletypeControl.WarningFillUndefined | src/feature/teletype/teletypeController.js:58-59 | as written, a warning message with the default colour gets an undefined fill, because the colour palette has no warning entry |
| TeletypeControl.StyleFor | src/feature/teletype/teletypeController.js:26-60 | the overrides drop role and vessel, always have a fill, keep every other option, keep a fill that is set and not the text colour, and otherwise use the caution colour for a message tagged `[Warning]` and the text colour for the rest |
| TeletypeControl.TeletypeController.constructor | src/feature/teletype/teletypeController.js:11-18 | a new teletype controller has an empty base and the given terminal |
| TeletypeControl.TeletypeController.PushMessage | src/feature/teletype/teletypeController.js:25-67 | a filtered message is dropped and the terminal's rows and offset are unchanged; any other is appended with `StyleFor` when a terminal is registered, the rows becoming `AfterAppend` with it and the wrapper at the live position; without a terminal, rows and offset are unchanged |
| DirectorMode.Cancel | src/debug/Director.js:71-74 | clearing a timer removes exactly the timer with that id |
| DirectorMode.Director.constructor | src/debug/Director.js:9-19 | a new director has no scenarios, no current scenario, an empty timeline at index 0, is not paused, and has no timer, no last event, no last state and no emissions |
| DirectorMode.Director.RegisterScenarios | src/debug/Director.js:25-27 | the registry is merged over the known scenarios, later keys winning; every other field is unchanged |
| DirectorMode.Director.LoadScenario | src/debug/Director.js:33-55 | an unknown key changes nothing; otherwise the scenario becomes current, its timeline (or an empty one) is loaded at index 0 unpaused, and its initial state, if any, is stored and emitted as `state` |
| DirectorMode.Director.EmitEvent | src/debug/Director.js:158-168 | the event is emitted and recorded as the last event; a `state` or `GAME_STATE` event also becomes the last state; the whole new state is `EmittedBy` of the old |
| DirectorMode.Director.Step | src/debug/Director.js:89-94 | at the end of the timeline nothing at all changes; otherwise the index advances and the next event is emitted at once (`EmittedBy`), with every other field, scenarios and timers included, unchanged |
| DirectorMode.Director.ExecuteNext | src/debug/Director.js:146-156 | paused or at the end nothing changes; otherwise the next event is scheduled on a new timer that becomes the current one and the index advances; the whole new state is `Scheduled` of the old |
| DirectorMode.Director.Play | src/debug/Director.js:60-64 | an empty timeline changes nothing; otherwise the whole new state is `Scheduled` of the old one unpaused, which at the end of the timeline only unpauses |
| DirectorMode.Director.TimerFires | src/debug/Director.js:152-155 | a firing timer is removed, emits its event (caching a state event as the last state) and schedules the following one unless paused or at the end: the whole new state is `Scheduled(EmittedBy(...))` |
| DirectorMode.Director.Pause | src/debug/Director.js:69-75 | the director is paused and the current timer, if any, is cancelled; the index is not moved back, and every other field is unchanged |
| DirectorMode.Director.Resume | src/debug/Director.js:80-85 | when not paused nothing changes; otherwise the whole new state is `Scheduled` of the old one unpaused |
| DirectorMode.Director.Reset | src/debug/Director.js:98-108 | the index returns to 0 unpaused, the current timer is cancelled, and the scenario's initial state, if any, is emitted as `state`; scenarios, last state and last event are unchanged |
| DirectorMode.Director.InjectEvent | src/debug/Director.js:115-121 | the event is emitted; a `state` or `GAME_STATE` event also becomes the last state; every other field, timers and the last emitted event included, is unchanged |
| Typewriter.Started | public/js/core/typewriter.js:23-27 | starting sets the playing flag without moving the cursor or the shown text; starting while playing changes nothing |
| Typewriter.Paused | public/js/core/typewriter.js:29-34 | pausing while not playing changes nothing; otherwise the pause timer is set and the teletype sound stops |
| Typewriter.Tick | public/js/core/typewriter.js:36-69 | the cursor stays within the text and advances by at most one character; finished or stopped typing changes nothing; a pause counts down and ends when its timer runs out; below the speed only the timer grows; at the speed the timer resets and either the next character is shown (pausing on a line break) or typing is done |
| Typewriter.Cleared | public/js/core/typewriter.js:71-79 | clearing returns to the initial typing state, keeps the timer, and stops the sound |
| Typewriter.Ticks | public/js/core/typewriter.js:36-69 | any number of frames keeps the cursor within the text |
| Typewriter.TypingCompletes | public/js/core/typewriter.js:36-69 | a text without line breaks, fed frames at least as long as the speed, is fully shown and done after one frame per remaining character plus one |
| Typewriter.TypewriterText.constructor | public/js/core/typewriter.js:4-21 | a new typewriter holds the text, speed and line-break pause default to 40 and 1000, and the state is the initial one |
| Typewriter.TypewriterText.Start | public/js/core/typewriter.js:23-27 | the new state is `Started` of the old one |
| Typewriter.TypewriterText.Pause | public/js/core/typewriter.js:29-34 | the new state is `Paused` of the old one |
| Typewriter.TypewriterText.Update | public/js/core/typewriter.js:36-69 | the new state is `Tick` of the old one |
| Typewriter.TypewriterText.Clear | public/js/core/typewriter.js:71-79 | the new state is `Cleared` of the old one |
| DamageControl.React | public/js/features/damage/DamageController.js:25-55 | with no submarine holding the player nothing is remembered anew; otherwise the submarine's health is remembered, and the reaction is initialisation the first time, then damage on a drop, repair on a rise and steady when equal |
| DamageControl.RepeatedStateIsSteady | public/js/features/damage/DamageController.js:37-54 | the same state handled twice gives no feedback the second time |
| DamageControl.FeedbackOnlyOnDrop | public/js/features/damage/DamageController.js:45-49 | damage feedback happens iff a health was remembered, the player has a submarine, and its health is lower |
| DamageControl.EffectsOf | public/js/features/damage/DamageController.js:57-74 | damage feedback updates the renderer and announces that the damage animation is running; no other reaction announces it |
| DamageControl.DamageController.constructor | public/js/features/damage/DamageController.js:9-23 | a new controller remembers no health, has no effects and no pending release timer |
| DamageControl.DamageController.HandleStateUpdate | public/js/features/damage/DamageController.js:25-55 | a missing state or submarine list throws and changes nothing; otherwise the remembered health and the effects follow `React`, and damage schedules one release timer |
| DamageControl.DamageController.TriggerDamageFeedback | public/js/features/damage/DamageController.js:57-74 | the screen tint, shake, renderer update and animation start are recorded and one release timer is scheduled |
| DamageControl.DamageController.ReleaseTimerFires | public/js/features/damage/DamageController.js:71-73 | a pending release announces that the damage animation has stopped |
| ColorOps.SetColor | src/render/util/colorOps.js:19-39 | a target with `setTint` only gets that call; otherwise its own tint and its background's tint are set where present; nothing else of the target changes |
| ColorOps.SetColorOn | src/render/util/colorOps.js:20 | a missing target is ignored |
| ColorOps.Visit | src/render/util/colorOps.js:55-75 | a child is coloured iff it matches; its children are left alone unless the cascade is recursive and it has some; its shape is kept |
| ColorOps.VisitAll | src/render/util/colorOps.js:55-76 | every remaining child is visited, in order |
| ColorOps.CascadeColor | src/render/util/colorOps.js:52-77 | the container itself is untouched, a container without children changes nothing, and each child is replaced by its visit |
| ColorOps.ShallowCascadeKeepsGrandchildren | src/render/util/colorOps.js:73-75 | a non-recursive cascade leaves every grandchild alone |
| ColorOps.VisitColoursSubtree | src/render/util/colorOps.js:59-75 | with no matcher a recursive visit colours the child and all its descendants |
| ColorOps.CascadeAllColoursEverything | src/render/util/colorOps.js:52-77 | with no matcher a recursive cascade colours every descendant of the container |

## Left out

- Network plumbing: the Socket.IO and WebSocket relays, socket wiring and the server's broadcast of each new state are not modelled. The extra `version` increments that src/server.lib.js adds around the logical server are relay code and are left out as well.
- Timers: the 3000 ms server transitions, the surfacing delay, the director's `setTimeout`, the scroll snap-back delay and the damage release timer are explicit "timer fires" methods. How long they wait is not modelled.
- Randomness: `Math.random` is an oracle parameter.
- Clock time: `Date.now` (a player's `connectionOrder`, a message timestamp) is a parameter.
- EngineLayout.GenerateLayout: the layout's `sessionId` (time plus random text) is not part of the modelled layout, because nothing reads it.
- Server.SelectRoleState: the role is one of the four seats. The relay passes any client string, and the source only tests `!sub[role]`. So `'row'` or `'col'` at 0 passes that test, clears the player's other seats and writes the player id into the position field. An unknown name adds a new field to the submarine. Neither is modelled, because the submarine is a record of typed fields. Server.LogicalServer.SelectRole has the same restriction.
- Server.LogicalServer.SelectRole: it takes a seat of the four roles only, as Server.SelectRoleState does.
- Server.LogicalServer.ChooseInitialPosition: the bounds check lets row 15 through, and the board lookup then throws. This is modelled as an outcome that leaves the state and the version unchanged. Server.LogicalServer.Move handles the same out-of-range row the same way.
- Server roles: the source clears every submarine field equal to the leaving player's id. The model keeps the four roles in a role-keyed map, so a player id equal to a submarine's id or name is not modelled.
- Rendering: PixiJS objects, scenes, renderers, glow, shake and tint effects, audio and the DOM are not modelled. Button and row visuals are their flags or modes; renderer and effect calls are entries of a call log.
- Animation: easing, tweens, tickers and trigonometric motion are not modelled. This covers `moveForward` of the submarine animation, `centerOnPosition` and the `setZoom` animation of the map, `tweenTo` of the terminal and the row typing animation. A tween's end value is applied at once.
- Absent constants: the map constants, the clock and phase singletons of the public client, the interrupt types and the interactive profiles are parameters. The renderer's `currentScale` is an integer.
- SubAnimation.SubmarineAnimation.StartTurn: the answer of `isValidDirection` is the parameter `accepted`. The member implements the corrected behaviour of the first Findings row: it ignores a heading off the eight-point ring, which the source as written would pass on to an endless `getFrameSequence` loop.
- SubAnimation.GetFrameSequence: requires both headings on the ring. Every caller in the model guarantees this, because StartTurn ignores names off the ring (see Findings).
- Terminal.TerminalBox.AppendLine: the `MessageRow` object is a value holding its text, style and position. The `await` points are not modelled, so two appends cannot interleave.
- Teardown: `destroy` of the scroll behaviour, the director, the typewriter and the lobby controller only detaches listeners or stops sound, and is not modelled.
- TeletypeControl.TeletypeController.PushMessage: a null text is not modelled; the text is always a string. The `PUSH_TEST_MESSAGE` socket wiring is not modelled either. The member implements the corrected behaviour of the second Findings row: a warning line gets the palette's caution colour, where the source as written gets an undefined fill.
- TeletypeControl.RoleKeyOf: it looks through the role fields in the order co, xo, sonar, eng, not through all of the submarine's keys in insertion order. A player id equal to another field's value is not modelled.
- DamageControl.DamageController.HandleStateUpdate: it throws on a null state, or on a state without submarines, at the log line before its own null check. This is modelled as an outcome that changes nothing.
- ColorOps: display objects are values, so updating an object in place and two parents sharing a child are not modelled. `setTint` is recorded as a call log.
- ColorOps: per the source's comment, a string matcher matches a child's name or label. The code compares only the label, and the model follows the code.
- ColorOps.CascadeColor: a null root container is not a value of the model, so its early return is not modelled.
- XoControl.XoCharge: with no socket bound the source throws. The model sends nothing and changes nothing. XoControl.XoDischarge and EngineerControl.EngineerCrossOff do the same.
- XoControl.XoDirector: its contract states only that no warning is added. What a director command does is the state hook or the event that RouteDirectorCmd selects.
- XoControl.XoEvent: its contract covers unhandled events and the throw of a handled event without a payload. The three handled events are XoCharge, XoDischarge and XoDirector, each with its own contract.
- EngineerControl.EngineerStateUpdate: its contract states only that nothing is sent and the socket is kept. The button update it performs is EngineerView, and CrossOffOnlyAfterMove states its effect.
- EngineerControl.EngineerController.OnGameStateUpdate: the one-off `view.populate` call is rendering and is not modelled.
- DirectorMode.Director: pausing cancels the timer of an event the timeline index has already passed, so resuming skips that event. This is modelled as written.
- Stale tests: several test files use an API the logical server no longer has. Properties come from the code, not from those assertions.
- Client naming: the server states `waitingForAction`/`doingPostMovementActions` and the client states `SUBMERGED`/`MOVED` are each modelled with their own literals. So are the two different XO gauge-cap tables.
- InterruptUI.ToUpper: upper-cases the ASCII letters only. JavaScript's `toUpperCase` follows Unicode case mapping, which maps letters such as 'ſ' to 'S' and can change the length ('ß' becomes "SS"). Titles outside ASCII are not modelled faithfully.
- InterruptUI.IsPauseLike: it upper-cases with ToUpper, so a non-ASCII title that JavaScript reads as containing PAUSE, such as "PAUſE", is not pause-like in the model.
- InterruptUI.GetInterruptUIOptions: its pause test is IsPauseLike, with the same ASCII-only case folding.
- LobbyControl.Lower: lower-cases the ASCII capitals only. JavaScript's `toLowerCase` follows Unicode case mapping, which can change the length ("İ" becomes two code units).
- LobbyControl.DisplayToInternal: its fallback for names other than the four display names is Lower, with the same ASCII-only case folding.
- MessageBuilder.BuildMessage: the source turns each placeholder `{key}` into `new RegExp(placeholder, 'g')` and passes `String(value)` as a replacement pattern. The model matches the placeholder literally and inserts the value as it is. Keys with a regular-expression meaning are therefore not modelled: in `{1}` the braces are a quantifier, and `a.b` also matches `{axb}`. The replacement patterns `$&`, `$$`, `` $` `` and `$'` in a value, which JavaScript expands, are not modelled either.
- MessageBuilder.Built: its text uses the same literal replacement as BuildMessage, with the same gap.
- MessageBuilder.ApplyEntryIsReplace: it holds for the literal replacement of the model. In the source, for a key with regular-expression metacharacters, the literal `includes` guard and the regular-expression replace can disagree.
- MessageBuilder.ReplaceAll: a literal global replace stands in for the regular-expression replace of the source.
- DirectorMode.Director.LoadScenario: the model's `Data` is text standing for an object payload. The source tests `if (scenario.initialState)`, which treats an empty string as absent; the model treats any present `Data`, the empty text included, as present. DirectorMode.Director.Reset has the same gap, since it tests `currentScenario?.initialState`.
- Typewriter.Tick: the cursor advances one character of the model's string per tick. The source indexes and measures `fullText` in UTF-16 code units, so a character outside the Basic Multilingual Plane takes two ticks there.
- MessageBuilder.ValueString: a data value is a string or an integer. `String(value)` of null, undefined, a boolean or a fraction ("null", "true", "1.5") cannot be represented.
- MessageVocabulary.GetMessageTemplate: an unknown type gives no template. In the source, `MESSAGE_VOCABULARY[type]` also finds inherited `Object.prototype` members such as "constructor" or "toString".

## Findings

| source | as written | input that shows it | evidently intended | confidence | as-written member | corrected member |
|---|---|---|---|---|---|---|
| public/js/scenes/subAnimation.js:54-72 | `indexOf` gives -1 for a target heading not on the eight-point ring. The `while (currentIndex !== toIndex)` loop then only visits indices 0 to 7 and never exits. | `getFrameSequence('N', 'X')`, reachable through `startTurn('X')` when the direction check accepts it | a heading off the ring is refused before the loop, and every turn to a ring heading ends after at most four steps | not executed | SubAnimation.UnknownTargetNeverReached | SubAnimation.KnownTargetReached |
| src/feature/teletype/teletypeController.js:57-59 | a `[Warning]` message with the default text colour gets the fill `Colors.warning`. The palette in src/core/uiStyle.js has no `warning` entry, so the fill is undefined. | `pushMessage('[Warning] hull', {})` | the palette's caution colour | not executed | TeletypeControl.WarningFillUndefined | TeletypeControl.StyleFor |
