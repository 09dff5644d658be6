# Battleship game engine, modelled in Dafny

This project models the two places where the battleship system has rules.

- **The server's game engine** (`server/index.js`). It keeps an in-memory table `games` from room id to room record. The record is created lazily by `createGame`. Four socket.io handlers update it:
  - `joinGame`: players (at most 2) and observers (at most 10); the second player opens the placing phase;
  - `placeShips`: the submitted fleet is stored verbatim; combat starts once two sockets have placed, and a coin flip picks who moves first;
  - `fire`: repeated shots are refused; a shot is a hit or a miss; sinking and winning are detected; the turn passes or stays;
  - `disconnect`: every room forgets the socket.
- **The client's fleet builder** (`client/src/ShipPlacement.js`). The five classic ships are placed in order. Each is a straight run from a clicked anchor. A run is refused if it crosses the right or bottom edge, or if it lands on a ship already placed.

Files:

- `wrappers.dfy`: `Option`, which stands for JavaScript's `null`/`undefined`.
- `fleet.dfy`: `Cell` and `Ship`, shared by both sides.
- `engine.dfy` (module `Engine`):
  - the room record `Game`;
  - one pure function per handler on a single room (`JoinGame`, `PlaceShips`, `Fire`, `Leave`), plus the room-table forms (`JoinRoom`, `PlaceShipsInRoom`, `FireInRoom`, `Disconnect`);
  - the room invariant `WellFormed`;
  - the lemmas.
- `server.dfy` (module `Server`): class `GameServer`.
  - Its field `games: map<RoomId, Game>` is updated in place by one method per handler.
  - Each method returns early on the handler's guards and then updates the record field by field.
  - `OnFire` resolves the shot with the `ResolveShot` loop, which breaks at the first ship hit.
  - `OnDisconnect` loops over every room.
  - Each method is proved equal to the matching `Engine` function and keeps every room `WellFormed`.
- `placement.dfy` (module `Placement`):
  - `ClassicShips` and the run geometry;
  - the loop methods `BuildRun` and `HasOverlap`;
  - class `ShipPlacement`, with fields `ships`, `currentShipIdx`, `orientation` and `tempPositions`. Its invariant says the ships placed so far are the first classic classes, in order. Each is straight and inside the board's upper bounds, and no two share a cell.

The random first-mover choice (`Math.floor(Math.random() * 2)`) is a nondeterministic choice `draw :| draw < 2` in `OnPlaceShips`. Its postcondition therefore allows either outcome.

## Model

| member | source | states |
|---|---|---|
| `Engine.CreateGame` | server/index.js:14-26 | A new room has no players, observers, boards, moves or placements; it is in `waiting` with no turn and no winner; its board size is the argument, 10 when absent; the room is well formed |
| `Engine.RequestedSize` | server/index.js:43 | `boardSize \|\| 10`: an absent or zero request gives 10, any other request is kept; never 0 |
| `Engine.FleetSunk` | server/index.js:29-33 | The `every` over ships holds exactly when each ship has every position among the hits |
| `Engine.AllShipsSunk` | server/index.js:29-33 | True exactly when every position of every ship on the board is among its hits |
| `Engine.Opponent` | server/index.js:36-38 | `find` returns nothing exactly when every player is the caller; otherwise it returns a different id, the first one in `players` |
| `Engine.FirstShipWith` | server/index.js:105-106 | Nothing exactly when no ship covers the cell; otherwise the index of the first ship covering it |
| `Engine.ResolveShot` | server/index.js:103-118 | The ship loop with `break` computes the same board, hit flag and sunk flag as the shot rule `Shoot` |
| `Engine.ShootRecordsOneCell` | server/index.js:101-118 | A shot at a fresh cell appends it to exactly one of hits or misses, a hit iff some ship covers it; ships are unchanged, sunk implies hit, and hits and misses stay repeat-free and disjoint |
| `Engine.JoinKeepsExistingRoom` | server/index.js:42-44 | A join creates only its own room, only when absent, with the requested size; an existing room keeps its board size and the requested size makes no difference; other rooms are untouched |
| `Engine.JoinAsPlayer` | server/index.js:45-59 | Players never exceed 2; below 2 the socket is appended with an empty board and told `joined`, and the join that makes 2 sets `placing` and clears placements; at 2 the room is unchanged and the caller told `full` |
| `Engine.JoinAsObserver` | server/index.js:60-67 | Observers never exceed 10; below 10 only the observer list grows, by the socket, and it is told `joined`; at 10 the room is unchanged and the caller told `full` |
| `Engine.JoinPreservesWellFormed` | server/index.js:41-70 | Every join (player, observer or unknown role) keeps the room invariant |
| `Engine.JoinCanReopenPlacing` | server/index.js:52-53 | The phase is not monotone: some finished, well-formed room goes back to `placing` on a player join |
| `Engine.JoinAcceptsRepeatedPlayer` | server/index.js:46-48 | A socket already in the room can join again as a player and is listed twice |
| `Engine.TwoPlacementsMeanTwoPlayers` | server/index.js:80-84 | When the placement set has two members, the room has two distinct players and both placed, so `players[idx]` is defined |
| `Engine.PlaceShipsRule` | server/index.js:75-88 | No-op unless the caller is a player and the phase is `placing`; otherwise the caller's ships are replaced (shots kept), the caller is marked, and on the second placement the room is `in-progress` with `players[draw]` to move; other fields unchanged |
| `Engine.PlaceShipsPreservesWellFormed` | server/index.js:73-90 | `placeShips` keeps the room invariant |
| `Engine.RepeatedPlayerNeverStarts` | server/index.js:75-84 | A room whose two player slots hold the same socket never leaves `placing` |
| `Engine.FireRejected` | server/index.js:94-101 | Out of phase, out of turn, no opponent board, or a cell already fired at: the room is unchanged |
| `Engine.FireRecordsOneShot` | server/index.js:103-119 | An accepted shot records its cell on the opponent's board, as a hit iff an opponent ship covers it; exactly one move `{by, x, y, result}` is appended; no other board and no membership changes |
| `Engine.FireTurnAndWin` | server/index.js:120-129 | If the opponent's fleet is all hit, the room is `finished`, the shooter wins and the turn is left as it was; otherwise the turn passes on a miss or a sinking hit and stays on any other hit |
| `Engine.LastPositionWins` | server/index.js:121-123 | A shot that completes the hits on the opponent's fleet finishes the game with the shooter as winner |
| `Engine.FirePreservesWellFormed` | server/index.js:93-131 | `fire` keeps the room invariant, in particular hits and misses stay repeat-free and disjoint |
| `Engine.Without` | server/index.js:136-137 | The filter keeps exactly the other ids and is no longer than its input; with the id absent the list is unchanged |
| `Engine.WithoutCounts` | server/index.js:136-137 | The filter drops every copy of the id and keeps every other id exactly as often as it was listed |
| `Engine.DisconnectRule` | server/index.js:133-143 | Every room is kept and no longer lists the socket as player, observer, board owner or placer; other ids keep their roles and boards, and the player and observer lists keep every other id with its multiplicity, so a freed slot can be taken again; phase, turn, moves, winner and board size are unchanged |
| `Engine.LeavePreservesWellFormed` | server/index.js:133-143 | Removing a socket from a room keeps the room invariant |
| `Engine.LeaveCanStrandTurn` | server/index.js:133-143 | A player who leaves on their own turn stays the turn holder of a room they are no longer in |
| `Server.GameServer.constructor` | server/index.js:12 | The room table starts empty |
| `Server.GameServer.OnJoinGame` | server/index.js:41-70 | The new table and reply are those of `JoinRoom`; every room stays well formed |
| `Server.GameServer.OnPlaceShips` | server/index.js:73-90 | The new table is `PlaceShipsInRoom` with first mover `players[0]` or `players[1]`; every room stays well formed |
| `Server.GameServer.OnFire` | server/index.js:93-131 | The new table is `FireInRoom`; every room stays well formed |
| `Server.GameServer.OnDisconnect` | server/index.js:133-143 | The loop over all rooms yields `Disconnect`: every room has had the socket removed; every room stays well formed |
| `Placement.Toggled` | client/src/ShipPlacement.js:73-75 | The toggle always yields the other orientation |
| `Placement.RunShape` | client/src/ShipPlacement.js:30-36 | A run has exactly `size` cells, `(x+i, y)` horizontally and `(x, y+i)` vertically, starts at the anchor, is straight and repeats no cell |
| `Placement.PlaceableExtends` | client/src/ShipPlacement.js:37-45 | Appending an accepted run as the next class keeps the placed fleet well formed: in class order, straight, in bounds, pairwise disjoint |
| `Placement.BuildRun` | client/src/ShipPlacement.js:30-36 | The building loop succeeds exactly when no run cell reaches `boardSize` in x or y, and then yields the run |
| `Placement.HasOverlap` | client/src/ShipPlacement.js:37-42 | The nested loops report an overlap exactly when some placed ship has a position in the run |
| `Placement.ShipPlacement.constructor` | client/src/ShipPlacement.js:12-15 | No ships, class index 0, horizontal, no preview; the invariant holds |
| `Placement.ShipPlacement.PlaceShip` | client/src/ShipPlacement.js:27-46 | When a class is left and its run fits and is free, the ship `{name, positions}` is appended, the index advances by one and the preview is cleared; otherwise nothing changes, also once all 5 are placed; `ships.length == currentShipIdx <= 5` and the fleet invariant are kept |
| `Placement.ShipPlacement.PreviewShip` | client/src/ShipPlacement.js:48-65 | The preview is exactly the run `placeShip` would add at the same anchor, and empty whenever `placeShip` would refuse |
| `Placement.ShipPlacement.ClearPreview` | client/src/ShipPlacement.js:67 | The preview is emptied |
| `Placement.ShipPlacement.ToggleOrientation` | client/src/ShipPlacement.js:73-75 | The orientation becomes the other one |
| `Placement.ShipPlacement.HandleSubmit` | client/src/ShipPlacement.js:77-81 | The fleet is handed over exactly when 5 ships are placed, and it is then a complete, well-formed fleet |

## Behaviour of the code worth knowing

The model follows the code.

- Board size: any requested size is stored; the code does not restrict it to 8, 10 or 15.
- Phase monotonicity: the phase can go back. A player join that brings the room to two players sets `placing`, whatever the phase was (`JoinCanReopenPlacing`).
- Turn at finish: `turn` is not cleared when a game finishes (`FireTurnAndWin`).
- Turn holder: `turn` may name a socket that has left the room (`LeaveCanStrandTurn`).
- Repeated player: nothing stops one socket from taking both player slots (`JoinAcceptsRepeatedPlayer`). Such a room never starts (`RepeatedPlayerNeverStarts`).
- Fleet validation: the server stores any submitted fleet. Only the client builder validates placement.
- Sunk check: "sunk" is decided by the first ship covering the cell. An empty submitted fleet makes the first shot, even a miss, a win.

## Left out

- socket.io and Express plumbing (`io.on`, `socket.join`, `emit` and broadcasts, the HTTP route, `listen`) and `console.log`. They send messages and do not change the room records. The private `joined`/`full` reply of a join is returned as `JoinReply`.
- `Math.random()`: modelled only as the choice of index 0 or 1.
- JavaScript value coercions:
  - a `boardSize` of `NaN`, `""` or `false` (also replaced by 10) is not modelled, because requests are `Option<int>`;
  - `x`, `y` and socket ids are integers and strings, not arbitrary JSON;
  - room ids are ordinary map keys. In the server, a `gameId` that names a member inherited from `Object.prototype` (`"constructor"`, `"__proto__"`, `"toString"`) makes `!games[gameId]` false at server/index.js:43, so no room is created, and the join throws at :46 or :61 and a placement at :75. The model creates a fresh room for every absent id;
  - `ships` payloads are `seq<Ship>`. A payload that is not an array of `{name, positions}` is stored as it is at server/index.js:77, and the next shot at that board throws at :105 or in `allShipsSunk` at :30. The model cannot express such a payload;
  - when `getOpponent` finds nobody, the server looks up `boards[undefined]` (the key `"undefined"`). The model treats it as no board.
- `Engine.PlaceShips`: requires the room invariant. Without it, the server's `game.boards[socket.id].ships = ...` would throw for a player without a board. The invariant rules that case out.
- `Placement.ShipPlacement.PlaceShip`: the builder checks only the right and bottom edges (`px >= boardSize`, `py >= boardSize`). Negative coordinates are not refused, and the model does not add that check. The grid passes only coordinates from 0 to `boardSize - 1`.
- React's asynchronous state updates are modelled as immediate field assignments. The JSX, the grid drawing and the mouse-event wiring of the builder are not modelled.
- `client/src/App.js`, `client/src/Board.js` and `client/src/setupProxy.js` are not part of this model. They hold UI state, rendering and the development proxy, and no game rules.
- Concurrency: handlers run one at a time, as on Node's single event loop.
