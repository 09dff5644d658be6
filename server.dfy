/**
 * The server's in-memory room table and its four socket.io handlers.
 *
 * Each handler looks its room up, returns early when a guard fails, and
 * otherwise updates the room record field by field, as `server/index.js` does. Its
 * postcondition ties the new table to the per-room rules of `Engine`, and
 * every handler keeps each room well formed.
 */
module Server {

  import opened Wrappers
  import opened Fleet
  import opened Engine

  class GameServer {

    /** The `games` object: room id to room record. */
    var games: map<RoomId, Game>

    ghost predicate Valid()
      reads this
    {
      forall r :: r in games ==> WellFormed(games[r])
    }

    constructor ()
      ensures Valid() && games == map[]
    {
      games := map[];
    }

    /** `socket.on('joinGame', ...)` from socket `id`. */
    method OnJoinGame(id: SocketId, room: RoomId, role: Role, boardSize: Option<int>) returns (reply: JoinReply)
      requires Valid()
      modifies this
      ensures Valid()
      ensures (games, reply) == JoinRoom(old(games), room, id, role, boardSize)
    {
      if room !in games {
        games := games[room := CreateGame(Some(RequestedSize(boardSize)))];
      }
      var g := games[room];
      ghost var before := g;
      assert before == if room in old(games) then old(games)[room] else CreateGame(Some(RequestedSize(boardSize)));
      if role == PlayerRole {
        if |g.players| < MaxPlayers {
          g := g.(players := g.players + [id]);
          g := g.(boards := g.boards[id := EmptyBoard()]);
          reply := Joined(PlayerRole);
          if |g.players| == MaxPlayers {
            g := g.(state := Placing);
            g := g.(shipsPlaced := {});
          }
        } else {
          reply := Full("Players full");
        }
      } else if role == ObserverRole {
        if |g.observers| < MaxObservers {
          g := g.(observers := g.observers + [id]);
          reply := Joined(ObserverRole);
        } else {
          reply := Full("Observers full");
        }
      } else {
        reply := NoReply;
      }
      assert (g, reply) == JoinGame(before, id, role);
      games := games[room := g];
      assert games == old(games)[room := g];
      JoinPreservesWellFormed(before, id, role);
    }

    /**
     * `socket.on('placeShips', ...)` from socket `id`. The first mover is
     * drawn nondeterministically from the two player slots.
     */
    method OnPlaceShips(id: SocketId, room: RoomId, ships: seq<Ship>)
      requires Valid()
      modifies this
      ensures Valid()
      ensures games == PlaceShipsInRoom(old(games), room, id, ships, 0)
           || games == PlaceShipsInRoom(old(games), room, id, ships, 1)
    {
      if room !in games {
        return;
      }
      var g := games[room];
      if id !in g.players || g.state != Placing {
        return;
      }
      ghost var before := g;
      g := g.(boards := g.boards[id := g.boards[id].(ships := ships)]);
      g := g.(shipsPlaced := g.shipsPlaced + {id});
      var draw: nat :| draw < 2;
      if |g.shipsPlaced| == 2 {
        TwoPlacementsMeanTwoPlayers(g.players, g.shipsPlaced);
        g := g.(state := InProgress);
        g := g.(turn := Some(g.players[draw]));
      }
      games := games[room := g];
      PlaceShipsPreservesWellFormed(before, id, ships, draw);
      assert games == PlaceShipsInRoom(old(games), room, id, ships, draw);
    }

    /** `socket.on('fire', ...)` from socket `id` at cell `(x, y)`. */
    method OnFire(id: SocketId, room: RoomId, x: int, y: int)
      requires Valid()
      modifies this
      ensures Valid()
      ensures games == FireInRoom(old(games), room, id, x, y)
    {
      if room !in games {
        return;
      }
      var g := games[room];
      if g.state != InProgress {
        return;
      }
      if g.turn != Some(id) {
        return;
      }
      var opponent := Opponent(g.players, id);
      if opponent.None? || opponent.value !in g.boards {
        return;
      }
      var board := g.boards[opponent.value];
      if Cell(x, y) in board.hits + board.misses {
        return;
      }
      ghost var before := g;
      var shot := ResolveShot(board, Cell(x, y));
      g := g.(boards := g.boards[opponent.value := shot.board]);
      g := g.(moves := g.moves + [Move(id, x, y, if shot.hit then Hit else Miss)]);
      if AllShipsSunk(shot.board) {
        g := g.(state := Finished);
        g := g.(winner := Some(id));
      } else if !shot.hit || shot.sunk {
        g := g.(turn := opponent);
      }
      games := games[room := g];
      FirePreservesWellFormed(before, id, x, y);
    }

    /** `socket.on('disconnect', ...)` of socket `id`: every room forgets it. */
    method OnDisconnect(id: SocketId)
      requires Valid()
      modifies this
      ensures Valid()
      ensures games == Disconnect(old(games), id)
    {
      var pending := games.Keys;
      while pending != {}
        invariant pending <= games.Keys && games.Keys == old(games).Keys
        invariant forall r :: r in pending ==> games[r] == old(games)[r]
        invariant forall r :: r in games && r !in pending ==> games[r] == Leave(old(games)[r], id)
        invariant Valid()
        decreases pending
      {
        var room :| room in pending;
        var g := games[room];
        ghost var before := g;
        g := g.(players := Without(g.players, id));
        g := g.(observers := Without(g.observers, id));
        g := g.(boards := g.boards - {id});
        g := g.(shipsPlaced := g.shipsPlaced - {id});
        assert g == Leave(before, id) && WellFormed(g) by {
          LeavePreservesWellFormed(before, id);
        }
        games := games[room := g];
        pending := pending - {room};
      }
    }
  }

}
