/**
 * The server's game rules, one room at a time.
 *
 * A room is the record that `createGame` stores in the server's `games`
 * table. Each socket.io handler of the server (join, place ships, fire,
 * disconnect) is given here as a function from the room before the event to
 * the room after it; the handler methods of `Server.GameServer` perform the
 * same updates in place and are proved to agree with these functions. The
 * lemmas state what the handlers promise: the capacity bounds, the phase
 * changes, the fire bookkeeping, the turn rule and the win rule.
 */
module Engine {

  import opened Wrappers
  import opened Fleet

  /** A socket.io connection id; opaque. */
  type SocketId = string
  /** A room key (`gameId`), chosen by the clients. */
  type RoomId = string

  const MaxPlayers := 2
  const MaxObservers := 10
  const DefaultBoardSize := 10

  /** The `state` field: 'waiting', 'placing', 'in-progress', 'finished'. */
  datatype Phase = Waiting | Placing | InProgress | Finished

  /** The `role` of a join request; any string other than 'player' and 'observer' is `OtherRole`. */
  datatype Role = PlayerRole | ObserverRole | OtherRole

  /** What the joining socket is told privately: `joined`, `full`, or nothing. */
  datatype JoinReply = Joined(role: Role) | Full(reason: string) | NoReply

  datatype ShotResult = Hit | Miss

  /** An entry `{by, x, y, result}` of the move log (`by` is a keyword in Dafny). */
  datatype Move = Move(firedBy: SocketId, x: int, y: int, result: ShotResult)

  /** One player's board: the ships it submitted and the opponent's shots on it. */
  datatype Board = Board(ships: seq<Ship>, hits: seq<Cell>, misses: seq<Cell>)

  /** One room. `shipsPlaced` is the key set of the server's `{ socketId: true }` object. */
  datatype Game = Game(
    players: seq<SocketId>,
    observers: seq<SocketId>,
    state: Phase,
    boards: map<SocketId, Board>,
    moves: seq<Move>,
    shipsPlaced: set<SocketId>,
    turn: Option<SocketId>,
    winner: Option<SocketId>,
    boardSize: int)

  /** What one shot does to the board it lands on. */
  datatype Shot = Shot(board: Board, hit: bool, sunk: bool)

  /** The ids occurring in a list of sockets. */
  function Members(s: seq<SocketId>): set<SocketId>
  {
    set p | p in s
  }

  function EmptyBoard(): Board
  {
    Board([], [], [])
  }

  // ---------------------------------------------------------------------------
  // The room invariant
  // ---------------------------------------------------------------------------

  /** The opponent's shots on a board: hits and misses repeat no cell and share none. */
  predicate ShotsSound(b: Board)
  {
    NoRepeats(b.hits) && NoRepeats(b.misses) && Disjoint(b.hits, b.misses)
  }

  /**
   * What every room satisfies between events: the capacity bounds, one board
   * per player and none for anybody else, placements only by players, sound
   * shot records, and a turn holder once combat has begun.
   */
  ghost predicate WellFormed(g: Game)
  {
    && |g.players| <= MaxPlayers
    && |g.observers| <= MaxObservers
    && g.boards.Keys == Members(g.players)
    && g.shipsPlaced <= Members(g.players)
    && (forall p :: p in g.boards ==> ShotsSound(g.boards[p]))
    && (g.state == InProgress || g.state == Finished ==> g.turn.Some?)
    && (g.state == Finished ==> g.winner.Some?)
  }

  // ---------------------------------------------------------------------------
  // createGame and the board size of a join request
  // ---------------------------------------------------------------------------

  /** `createGame(gameId, boardSize = 10)`: a room with nobody in it. */
  function CreateGame(boardSize: Option<int>): (g: Game)
    ensures WellFormed(g)
    ensures g.players == [] && g.observers == [] && g.boards == map[]
    ensures g.moves == [] && g.shipsPlaced == {}
    ensures g.state == Waiting && g.turn == None && g.winner == None
    ensures g.boardSize == if boardSize.Some? then boardSize.value else DefaultBoardSize
  {
    Game([], [], Waiting, map[], [], {}, None, None,
         match boardSize case Some(n) => n case None => DefaultBoardSize)
  }

  /** `boardSize || 10`: an absent or zero request means the default size. */
  function RequestedSize(requested: Option<int>): (n: int)
    ensures n != 0
    ensures requested.Some? && requested.value != 0 ==> n == requested.value
    ensures requested.None? || requested.value == 0 ==> n == DefaultBoardSize
  {
    if requested.Some? && requested.value != 0 then requested.value else DefaultBoardSize
  }

  // ---------------------------------------------------------------------------
  // allShipsSunk and getOpponent
  // ---------------------------------------------------------------------------

  /** Every position of `ship` has been hit. */
  predicate ShipSunk(ship: Ship, hits: seq<Cell>)
  {
    forall p :: p in ship.positions ==> p in hits
  }

  /** `ships.every(ship => ...)`, one ship at a time. */
  function FleetSunk(ships: seq<Ship>, hits: seq<Cell>): (r: bool)
    ensures r <==> forall i :: 0 <= i < |ships| ==> ShipSunk(ships[i], hits)
  {
    if ships == [] then true
    else ShipSunk(ships[0], hits) && FleetSunk(ships[1..], hits)
  }

  /** `allShipsSunk(board)`: every position of every ship is among the hits. */
  function AllShipsSunk(b: Board): (r: bool)
    ensures r <==> forall i, p :: 0 <= i < |b.ships| && p in b.ships[i].positions ==> p in b.hits
  {
    FleetSunk(b.ships, b.hits)
  }

  /** Every player before index `i` is `id` itself. */
  predicate FirstOther(players: seq<SocketId>, id: SocketId, i: int)
  {
    forall j :: 0 <= j < i && j < |players| ==> players[j] == id
  }

  /** `getOpponent(game, id)`: the first player whose id differs from `id`. */
  function Opponent(players: seq<SocketId>, id: SocketId): (r: Option<SocketId>)
    ensures r.None? <==> forall i :: 0 <= i < |players| ==> players[i] == id
    ensures r.Some? ==> r.value != id
    ensures r.Some? ==> exists i :: 0 <= i < |players| && players[i] == r.value && FirstOther(players, id, i)
  {
    if players == [] then None
    else if players[0] != id then Some(players[0])
    else
      var r := Opponent(players[1..], id);
      if r.Some? then
        ghost var i :| 0 <= i < |players[1..]| && players[1..][i] == r.value && FirstOther(players[1..], id, i);
        assert players[i + 1] == r.value && FirstOther(players, id, i + 1);
        r
      else
        r
  }

  // ---------------------------------------------------------------------------
  // The shot itself: the `for (const ship of opponentBoard.ships)` scan
  // ---------------------------------------------------------------------------

  /** The index of the first ship that has `c` among its positions. */
  function FirstShipWith(ships: seq<Ship>, c: Cell): (r: Option<nat>)
    ensures r.None? <==> forall j :: 0 <= j < |ships| ==> c !in ships[j].positions
    ensures r.Some? ==> r.value < |ships| && c in ships[r.value].positions
                          && forall j :: 0 <= j < r.value ==> c !in ships[j].positions
  {
    if ships == [] then None
    else if c in ships[0].positions then Some(0)
    else
      match FirstShipWith(ships[1..], c)
      case None => None
      case Some(i) => Some(i + 1)
  }

  /**
   * A shot at `c`: recorded as a hit when some ship covers `c`, and then the
   * first such ship decides whether the shot sank a ship; a miss otherwise.
   */
  function Shoot(b: Board, c: Cell): Shot
  {
    match FirstShipWith(b.ships, c)
    case None => Shot(b.(misses := b.misses + [c]), false, false)
    case Some(i) =>
      var hits := b.hits + [c];
      Shot(b.(hits := hits), true, ShipSunk(b.ships[i], hits))
  }

  /** The shot loop of the `fire` handler, with its `break` at the first ship hit. */
  method ResolveShot(board: Board, c: Cell) returns (shot: Shot)
    ensures shot == Shoot(board, c)
  {
    var hits, misses := board.hits, board.misses;
    var hit, sunk := false, false;
    var i := 0;
    while i < |board.ships|
      invariant 0 <= i <= |board.ships|
      invariant forall j :: 0 <= j < i ==> c !in board.ships[j].positions
      invariant !hit && !sunk && hits == board.hits
    {
      var ship := board.ships[i];
      if c in ship.positions {
        hits := hits + [c];
        hit := true;
        if ShipSunk(ship, hits) {
          sunk := true;
        }
        break;
      }
      i := i + 1;
    }
    if !hit {
      misses := misses + [c];
    }
    shot := Shot(Board(board.ships, hits, misses), hit, sunk);
    if hit {
      var first := FirstShipWith(board.ships, c);
      assert first.Some? && first.value == i;
    }
  }

  /** A shot at a cell not yet fired at records exactly that cell, once, and keeps the board sound. */
  lemma ShootRecordsOneCell(b: Board, c: Cell)
    requires ShotsSound(b) && c !in b.hits + b.misses
    ensures var s := Shoot(b, c);
      && s.board.ships == b.ships
      && (s.hit <==> exists i :: 0 <= i < |b.ships| && c in b.ships[i].positions)
      && (s.hit ==> s.board.hits == b.hits + [c] && s.board.misses == b.misses)
      && (!s.hit ==> s.board.misses == b.misses + [c] && s.board.hits == b.hits)
      && (s.sunk ==> s.hit)
      && ShotsSound(s.board)
  {
    var s := Shoot(b, c);
    if s.hit {
      NoRepeatsAppend(b.hits, c);
    } else {
      NoRepeatsAppend(b.misses, c);
    }
  }

  // ---------------------------------------------------------------------------
  // joinGame
  // ---------------------------------------------------------------------------

  /** The `joinGame` handler on an existing room. */
  function JoinGame(g: Game, id: SocketId, role: Role): (Game, JoinReply)
  {
    match role
    case PlayerRole =>
      if |g.players| < MaxPlayers then
        var g1 := g.(players := g.players + [id], boards := g.boards[id := EmptyBoard()]);
        if |g1.players| == MaxPlayers then (g1.(state := Placing, shipsPlaced := {}), Joined(PlayerRole))
        else (g1, Joined(PlayerRole))
      else (g, Full("Players full"))
    case ObserverRole =>
      if |g.observers| < MaxObservers then (g.(observers := g.observers + [id]), Joined(ObserverRole))
      else (g, Full("Observers full"))
    case OtherRole => (g, NoReply)
  }

  /** The `joinGame` handler on the room table: the room is created first when absent. */
  function JoinRoom(games: map<RoomId, Game>, room: RoomId, id: SocketId, role: Role,
                    requested: Option<int>): (map<RoomId, Game>, JoinReply)
  {
    var g := if room in games then games[room] else CreateGame(Some(RequestedSize(requested)));
    var (g', reply) := JoinGame(g, id, role);
    (games[room := g'], reply)
  }

  /**
   * A join creates its room only when the room is absent; an existing room
   * keeps its board size, and the requested size makes no difference to it.
   */
  lemma JoinKeepsExistingRoom(games: map<RoomId, Game>, room: RoomId, id: SocketId, role: Role,
                              requested: Option<int>, other: Option<int>)
    ensures JoinRoom(games, room, id, role, requested).0.Keys == games.Keys + {room}
    ensures forall r :: r in games && r != room ==> JoinRoom(games, room, id, role, requested).0[r] == games[r]
    ensures room in games ==>
      && JoinRoom(games, room, id, role, requested) == JoinRoom(games, room, id, role, other)
      && JoinRoom(games, room, id, role, requested).0[room].boardSize == games[room].boardSize
    ensures room !in games ==> JoinRoom(games, room, id, role, requested).0[room].boardSize == RequestedSize(requested)
  {
  }

  /**
   * A player join: below two players the socket is appended with an empty
   * board, and the second player opens the placing phase with no placements;
   * at two players the room is unchanged and the caller is told `full`.
   */
  lemma JoinAsPlayer(g: Game, id: SocketId)
    requires WellFormed(g)
    ensures var (g', reply) := JoinGame(g, id, PlayerRole);
      && |g'.players| <= MaxPlayers
      && (|g.players| < MaxPlayers ==>
            && reply == Joined(PlayerRole)
            && g'.players == g.players + [id]
            && g'.boards == g.boards[id := EmptyBoard()]
            && g'.observers == g.observers && g'.moves == g.moves
            && g'.turn == g.turn && g'.winner == g.winner && g'.boardSize == g.boardSize
            && (|g'.players| == MaxPlayers ==> g'.state == Placing && g'.shipsPlaced == {})
            && (|g'.players| < MaxPlayers ==> g'.state == g.state && g'.shipsPlaced == g.shipsPlaced))
      && (|g.players| >= MaxPlayers ==> g' == g && reply.Full?)
  {
  }

  /** An observer join: below ten observers the socket is appended; at ten nothing changes. */
  lemma JoinAsObserver(g: Game, id: SocketId)
    requires WellFormed(g)
    ensures var (g', reply) := JoinGame(g, id, ObserverRole);
      && |g'.observers| <= MaxObservers
      && (|g.observers| < MaxObservers ==>
            g' == g.(observers := g.observers + [id]) && reply == Joined(ObserverRole))
      && (|g.observers| >= MaxObservers ==> g' == g && reply.Full?)
  {
  }

  /** Every kind of join keeps the room invariant. */
  lemma JoinPreservesWellFormed(g: Game, id: SocketId, role: Role)
    requires WellFormed(g)
    ensures WellFormed(JoinGame(g, id, role).0)
  {
    if role == PlayerRole && |g.players| < MaxPlayers {
      var g' := JoinGame(g, id, role).0;
      assert Members(g.players + [id]) == Members(g.players) + {id};
      assert ShotsSound(EmptyBoard());
      forall p | p in g'.boards
        ensures ShotsSound(g'.boards[p])
      {
        if p != id {
          assert g'.boards[p] == g.boards[p];
        }
      }
    }
  }

  /**
   * The phase is not monotone: a finished room that lost a player goes back
   * to placing when a new player joins.
   */
  lemma JoinCanReopenPlacing()
    ensures exists g: Game, id: SocketId ::
      WellFormed(g) && g.state == Finished && JoinGame(g, id, PlayerRole).0.state == Placing
  {
    var g := Game(["a"], [], Finished, map["a" := EmptyBoard()], [], {}, Some("b"), Some("a"), 10);
    assert Members(g.players) == {"a"};
    assert ShotsSound(EmptyBoard());
    assert WellFormed(g);
    assert JoinGame(g, "c", PlayerRole).0.state == Placing;
  }

  /** A socket may join twice as a player: nothing checks for a repeated id. */
  lemma JoinAcceptsRepeatedPlayer(g: Game, id: SocketId)
    requires WellFormed(g) && g.players == [id]
    ensures JoinGame(g, id, PlayerRole).0.players == [id, id]
    ensures JoinGame(g, id, PlayerRole).1 == Joined(PlayerRole)
  {
  }

  // ---------------------------------------------------------------------------
  // placeShips
  // ---------------------------------------------------------------------------

  /** A set inside another is no larger, and as large only when the two are equal. */
  lemma {:induction false} SubsetSize<T>(a: set<T>, b: set<T>)
    requires a <= b
    ensures |a| <= |b|
    ensures |a| == |b| ==> a == b
  {
    if b != {} {
      var x :| x in b;
      SubsetSize(a - {x}, b - {x});
      if x in a {
        assert a == (a - {x}) + {x};
      } else {
        assert a - {x} == a;
      }
      assert b == (b - {x}) + {x};
    }
  }

  /** A list of sockets names at most as many sockets as it has entries. */
  lemma {:induction false} MembersSize(s: seq<SocketId>)
    ensures |Members(s)| <= |s|
  {
    if s != [] {
      MembersSize(s[1..]);
      assert Members(s) == Members(s[1..]) + {s[0]};
    }
  }

  /**
   * A room whose placement set has two members has two distinct players,
   * and both of them have placed.
   */
  lemma TwoPlacementsMeanTwoPlayers(players: seq<SocketId>, placed: set<SocketId>)
    requires |players| <= MaxPlayers && placed <= Members(players) && |placed| == 2
    ensures |players| == 2 && players[0] != players[1]
    ensures placed == Members(players)
  {
    SubsetSize(placed, Members(players));
    MembersSize(players);
    assert Members(players) == {players[0], players[1]};
  }

  /**
   * The `placeShips` handler on an existing room. `draw` is the outcome of
   * the coin flip `Math.floor(Math.random() * 2)`; an index past the end of
   * `players` leaves no turn, as `players[idx]` would be `undefined`.
   */
  function PlaceShips(g: Game, id: SocketId, ships: seq<Ship>, draw: nat): Game
    requires WellFormed(g)
  {
    if id !in g.players || g.state != Placing then g
    else
      var placed := g.shipsPlaced + {id};
      var g1 := g.(boards := g.boards[id := g.boards[id].(ships := ships)], shipsPlaced := placed);
      if |placed| == 2 then
        g1.(state := InProgress, turn := if draw < |g.players| then Some(g.players[draw]) else None)
      else g1
  }

  /** The `placeShips` handler on the room table: a missing room is left alone. */
  function PlaceShipsInRoom(games: map<RoomId, Game>, room: RoomId, id: SocketId,
                            ships: seq<Ship>, draw: nat): map<RoomId, Game>
    requires room in games ==> WellFormed(games[room])
  {
    if room in games then games[room := PlaceShips(games[room], id, ships, draw)] else games
  }

  /**
   * `placeShips` does nothing unless the caller is a player of a room in the
   * placing phase; then it stores the fleet verbatim, marks the caller, and
   * on the second placement starts combat with the drawn player to move.
   */
  lemma PlaceShipsRule(g: Game, id: SocketId, ships: seq<Ship>, draw: nat)
    requires WellFormed(g) && draw < 2
    ensures var g' := PlaceShips(g, id, ships, draw);
      && (id !in g.players || g.state != Placing ==> g' == g)
      && (id in g.players && g.state == Placing ==>
            && g'.boards == g.boards[id := Board(ships, g.boards[id].hits, g.boards[id].misses)]
            && g'.shipsPlaced == g.shipsPlaced + {id}
            && g'.players == g.players && g'.observers == g.observers && g'.moves == g.moves
            && g'.winner == g.winner && g'.boardSize == g.boardSize
            && (|g'.shipsPlaced| == 2 ==>
                  g'.state == InProgress && |g.players| == 2 && g'.turn == Some(g.players[draw]))
            && (|g'.shipsPlaced| != 2 ==> g'.state == Placing && g'.turn == g.turn))
  {
    if id in g.players && g.state == Placing && |g.shipsPlaced + {id}| == 2 {
      TwoPlacementsMeanTwoPlayers(g.players, g.shipsPlaced + {id});
    }
  }

  /** `placeShips` keeps the room invariant. */
  lemma PlaceShipsPreservesWellFormed(g: Game, id: SocketId, ships: seq<Ship>, draw: nat)
    requires WellFormed(g) && draw < 2
    ensures WellFormed(PlaceShips(g, id, ships, draw))
  {
    PlaceShipsRule(g, id, ships, draw);
    var g' := PlaceShips(g, id, ships, draw);
    if id in g.players && g.state == Placing {
      forall p | p in g'.boards
        ensures ShotsSound(g'.boards[p])
      {
        if p != id {
          assert g'.boards[p] == g.boards[p];
        }
      }
    }
  }

  /** A room whose two player slots hold the same socket never leaves the placing phase. */
  lemma RepeatedPlayerNeverStarts(g: Game, id: SocketId, ships: seq<Ship>, draw: nat)
    requires WellFormed(g) && |g.players| == 2 && g.players[0] == g.players[1]
    requires g.state == Placing
    ensures PlaceShips(g, id, ships, draw).state == Placing
  {
    if id in g.players && |g.shipsPlaced + {id}| == 2 {
      TwoPlacementsMeanTwoPlayers(g.players, g.shipsPlaced + {id});
    }
  }

  // ---------------------------------------------------------------------------
  // fire
  // ---------------------------------------------------------------------------

  /** The guards of the `fire` handler (after the room lookup) all pass. */
  predicate FireAccepted(g: Game, id: SocketId, c: Cell)
  {
    && g.state == InProgress
    && g.turn == Some(id)
    && Opponent(g.players, id).Some?
    && Opponent(g.players, id).value in g.boards
    && c !in g.boards[Opponent(g.players, id).value].hits + g.boards[Opponent(g.players, id).value].misses
  }

  /** The `fire` handler on an existing room. */
  function Fire(g: Game, id: SocketId, x: int, y: int): Game
  {
    var c := Cell(x, y);
    if !FireAccepted(g, id, c) then g
    else
      var opponent := Opponent(g.players, id).value;
      var shot := Shoot(g.boards[opponent], c);
      var g1 := g.(boards := g.boards[opponent := shot.board],
                   moves := g.moves + [Move(id, x, y, if shot.hit then Hit else Miss)]);
      if AllShipsSunk(shot.board) then g1.(state := Finished, winner := Some(id))
      else if !shot.hit || shot.sunk then g1.(turn := Some(opponent))
      else g1
  }

  /** The `fire` handler on the room table: a missing room is left alone. */
  function FireInRoom(games: map<RoomId, Game>, room: RoomId, id: SocketId, x: int, y: int): map<RoomId, Game>
  {
    if room in games then games[room := Fire(games[room], id, x, y)] else games
  }

  /**
   * A shot out of phase, out of turn, with no opponent board, or at a cell
   * already fired at, changes nothing at all.
   */
  lemma FireRejected(g: Game, id: SocketId, x: int, y: int)
    requires !FireAccepted(g, id, Cell(x, y))
    ensures Fire(g, id, x, y) == g
  {
  }

  /**
   * An accepted shot records its cell once on the opponent's board (as a hit
   * exactly when some opponent ship covers it), appends one move, and changes
   * nothing else on either board.
   */
  lemma FireRecordsOneShot(g: Game, id: SocketId, x: int, y: int)
    requires WellFormed(g) && FireAccepted(g, id, Cell(x, y))
    ensures
      var c := Cell(x, y);
      var opponent := Opponent(g.players, id).value;
      var b := g.boards[opponent];
      var g' := Fire(g, id, x, y);
      var hit := exists i :: 0 <= i < |b.ships| && c in b.ships[i].positions;
      && opponent in g'.boards
      && g'.boards == g.boards[opponent := g'.boards[opponent]]
      && g'.boards[opponent].ships == b.ships
      && (hit ==> g'.boards[opponent].hits == b.hits + [c] && g'.boards[opponent].misses == b.misses)
      && (!hit ==> g'.boards[opponent].misses == b.misses + [c] && g'.boards[opponent].hits == b.hits)
      && g'.moves == g.moves + [Move(id, x, y, if hit then Hit else Miss)]
      && g'.players == g.players && g'.observers == g.observers
      && g'.shipsPlaced == g.shipsPlaced && g'.boardSize == g.boardSize
  {
    var opponent := Opponent(g.players, id).value;
    ShootRecordsOneCell(g.boards[opponent], Cell(x, y));
  }

  /**
   * After an accepted shot: when the opponent's whole fleet is hit the room
   * is finished and the shooter wins (the turn is left as it was);
   * otherwise the turn passes to the opponent on a miss or on a hit that
   * sinks the ship it struck, and stays with the shooter on any other hit.
   */
  lemma FireTurnAndWin(g: Game, id: SocketId, x: int, y: int)
    requires WellFormed(g) && FireAccepted(g, id, Cell(x, y))
    ensures
      var c := Cell(x, y);
      var opponent := Opponent(g.players, id).value;
      var b := g.boards[opponent];
      var g' := Fire(g, id, x, y);
      var b' := g'.boards[opponent];
      var first := FirstShipWith(b.ships, c);
      var sank := first.Some? && ShipSunk(b.ships[first.value], b'.hits);
      && opponent != id
      && (AllShipsSunk(b') ==> g'.state == Finished && g'.winner == Some(id) && g'.turn == g.turn)
      && (!AllShipsSunk(b') ==>
            && g'.state == InProgress && g'.winner == g.winner
            && (first.None? || sank ==> g'.turn == Some(opponent))
            && (first.Some? && !sank ==> g'.turn == Some(id)))
  {
  }

  /** An accepted shot that completes the hits on the opponent's fleet wins the game. */
  lemma LastPositionWins(g: Game, id: SocketId, x: int, y: int)
    requires WellFormed(g) && FireAccepted(g, id, Cell(x, y))
    requires FleetSunk(g.boards[Opponent(g.players, id).value].ships,
                       g.boards[Opponent(g.players, id).value].hits + [Cell(x, y)])
    ensures Fire(g, id, x, y).state == Finished && Fire(g, id, x, y).winner == Some(id)
  {
    var b := g.boards[Opponent(g.players, id).value];
    var c := Cell(x, y);
    var s := Shoot(b, c);
    if FirstShipWith(b.ships, c).None? {
      forall i | 0 <= i < |b.ships|
        ensures ShipSunk(b.ships[i], b.hits)
      {
        assert ShipSunk(b.ships[i], b.hits + [c]);
        forall p | p in b.ships[i].positions
          ensures p in b.hits
        {
          assert p in b.hits + [c] && p != c;
        }
      }
    }
  }

  /** `fire` keeps the room invariant. */
  lemma FirePreservesWellFormed(g: Game, id: SocketId, x: int, y: int)
    requires WellFormed(g)
    ensures WellFormed(Fire(g, id, x, y))
  {
    if FireAccepted(g, id, Cell(x, y)) {
      var opponent := Opponent(g.players, id).value;
      var g' := Fire(g, id, x, y);
      ShootRecordsOneCell(g.boards[opponent], Cell(x, y));
      forall p | p in g'.boards
        ensures ShotsSound(g'.boards[p])
      {
        if p != opponent {
          assert g'.boards[p] == g.boards[p];
        }
      }
    }
  }

  // ---------------------------------------------------------------------------
  // disconnect
  // ---------------------------------------------------------------------------

  /** `ids.filter(p => p !== id)`. */
  function Without(ids: seq<SocketId>, id: SocketId): (r: seq<SocketId>)
    ensures |r| <= |ids|
    ensures forall p :: p in r <==> p in ids && p != id
    ensures id !in ids ==> r == ids
  {
    if ids == [] then []
    else if ids[0] == id then Without(ids[1..], id)
    else [ids[0]] + Without(ids[1..], id)
  }

  /** The filter drops every copy of `id` and keeps every other id as often as it was listed. */
  lemma {:induction false} WithoutCounts(ids: seq<SocketId>, id: SocketId)
    ensures multiset(Without(ids, id)) == multiset(ids)[id := 0]
  {
    if ids != [] {
      WithoutCounts(ids[1..], id);
      assert ids == [ids[0]] + ids[1..];
    }
  }

  /** What `disconnect` does to one room. */
  function Leave(g: Game, id: SocketId): Game
  {
    g.(players := Without(g.players, id),
       observers := Without(g.observers, id),
       boards := g.boards - {id},
       shipsPlaced := g.shipsPlaced - {id})
  }

  /** The `disconnect` handler: every room forgets the socket. */
  function Disconnect(games: map<RoomId, Game>, id: SocketId): map<RoomId, Game>
  {
    map r | r in games :: Leave(games[r], id)
  }

  /**
   * After a disconnect no room mentions the socket as a player, observer,
   * board owner or placer; every other id keeps its roles (each listing, with its multiplicity), and the phase,
   * turn, moves, winner and board size of every room are untouched.
   */
  lemma DisconnectRule(games: map<RoomId, Game>, id: SocketId)
    ensures Disconnect(games, id).Keys == games.Keys
    ensures forall r :: r in games ==>
      var g, g' := games[r], Disconnect(games, id)[r];
      && id !in g'.players && id !in g'.observers && id !in g'.boards && id !in g'.shipsPlaced
      && (forall p :: p != id ==> (p in g'.players <==> p in g.players))
      && (forall p :: p != id ==> (p in g'.observers <==> p in g.observers))
      && multiset(g'.players) == multiset(g.players)[id := 0]
      && multiset(g'.observers) == multiset(g.observers)[id := 0]
      && (forall p :: p != id && p in g.boards ==> p in g'.boards && g'.boards[p] == g.boards[p])
      && (forall p :: p != id ==> (p in g'.shipsPlaced <==> p in g.shipsPlaced))
      && g'.state == g.state && g'.turn == g.turn && g'.moves == g.moves
      && g'.winner == g.winner && g'.boardSize == g.boardSize
  {
    forall r | r in games
      ensures multiset(Disconnect(games, id)[r].players) == multiset(games[r].players)[id := 0]
      ensures multiset(Disconnect(games, id)[r].observers) == multiset(games[r].observers)[id := 0]
    {
      WithoutCounts(games[r].players, id);
      WithoutCounts(games[r].observers, id);
    }
  }

  /** Leaving keeps the room invariant. */
  lemma LeavePreservesWellFormed(g: Game, id: SocketId)
    requires WellFormed(g)
    ensures WellFormed(Leave(g, id))
  {
    assert Members(Without(g.players, id)) == Members(g.players) - {id};
  }

  /**
   * The turn is not tied to the current players: a player who disconnects
   * while it is their move stays the turn holder of a room they are no longer in.
   */
  lemma LeaveCanStrandTurn()
    ensures exists g: Game, id: SocketId ::
      WellFormed(g) && g.turn == Some(id) && id !in Leave(g, id).players && Leave(g, id).turn == Some(id)
  {
    var g := Game(["a", "b"], [], InProgress, map["a" := EmptyBoard(), "b" := EmptyBoard()],
                  [], {"a", "b"}, Some("b"), None, 10);
    assert Members(g.players) == {"a", "b"};
    assert ShotsSound(EmptyBoard());
    assert WellFormed(g);
    assert Leave(g, "b").turn == Some("b");
  }

}
