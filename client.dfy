/** The game client of `App`: its state fields, the click/reset/join/mode
    handlers, the four events the relay delivers, and the two effects
    (the room subscription and the local win/score re-derivation).
    The socket is an outbox of messages; inbound events are methods. */
module Client {
  import opened Board
  import opened Relay
  import opened Text

  datatype Mode = Local | Online

  /** The score object `{ X, O }`. */
  datatype Scores = Scores(x: nat, o: nat) {
    function Get(p: Player): nat {
      if p == X then x else o
    }

    /** `prev => ({ ...prev, [w]: prev[w] + 1 })`. */
    function Bump(w: Player): (r: Scores)
      ensures r.Get(w) == Get(w) + 1
      ensures r.Get(w.Other()) == Get(w.Other())
    {
      if w == X then this.(x := x + 1) else this.(o := o + 1)
    }
  }

  const NoScores: Scores := Scores(0, 0)

  /** `if (w) setScores(...)`: a found winner gains exactly one point. */
  function Tally(s: Scores, w: Option<Player>): (r: Scores)
    ensures forall p: Player :: r.Get(p) == s.Get(p) + (if w == Some(p) then 1 else 0)
  {
    if w.Some? then s.Bump(w.value) else s
  }

  /** The online turn guard: play is refused when
      `(xIsNext && playerSymbol !== "X") || (!xIsNext && playerSymbol !== "O")`. */
  function MayMove(xIsNext: bool, playerSymbol: Option<Player>): (ok: bool)
    ensures ok <==> playerSymbol == Some(Turn(xIsNext))
  {
    !((xIsNext && playerSymbol != Some(X)) || (!xIsNext && playerSymbol != Some(O)))
  }

  /** The subscription effect runs again when mode, joined or roomId has
      changed; when it then finds the client online and joined it emits
      `join-room` with the room id. So a join is sent exactly when the
      client starts listening, or changes its room id while listening. */
  function JoinEffect(mode0: Mode, joined0: bool, room0: string, mode: Mode, joined: bool, room: string): (out: seq<Message>)
    ensures out != [] <==> (mode == Online && joined) && (!(mode0 == Online && joined0) || room0 != room)
    ensures out != [] ==> out == [JoinRoom(room)]
  {
    if (mode0, joined0, room0) != (mode, joined, room) && mode == Online && joined then [JoinRoom(room)] else []
  }

  /** A snapshot of all the component's state, with what it has sent. */
  datatype State = State(
    mode: Mode,
    board: seq<Cell>,
    xIsNext: bool,
    winner: Option<Player>,
    isDraw: bool,
    roomId: string,
    joined: bool,
    isConnected: bool,
    playerSymbol: Option<Player>,
    scores: Scores,
    outbox: seq<Message>)

  /** Winner and draw are always those of the board; in local mode the
      board satisfies the alternation invariant `LocalPosition`. */
  ghost predicate Coherent(mode: Mode, board: seq<Cell>, xIsNext: bool, winner: Option<Player>, isDraw: bool) {
    && winner == CalculateWinner(board)
    && isDraw == IsDraw(board)
    && (mode == Local ==> LocalPosition(board, xIsNext))
  }

  ghost predicate Consistent(s: State) {
    Coherent(s.mode, s.board, s.xIsNext, s.winner, s.isDraw)
  }

  /** What every consistent state promises about its outcome and, in local
      mode, about the turn. */
  lemma ConsistentOutcome(s: State)
    requires Consistent(s)
    ensures !(s.winner.Some? && s.isDraw)
    ensures s.isDraw <==> s.winner.None? && Full(s.board)
    ensures s.winner.Some? ==> HasLine(s.board, s.winner.value)
    ensures s.mode == Local ==> (s.xIsNext <==> Occupied(s.board) % 2 == 0)
    ensures s.mode == Local ==> !(HasLine(s.board, X) && HasLine(s.board, O))
    ensures s.mode == Local && s.winner.Some? ==> s.winner == Some(Turn(!s.xIsNext))
  {
    WinnerSpec(s.board);
    DrawSpec(s.board);
    if s.mode == Local {
      LocalTurnParity(s.board, s.xIsNext);
      if s.winner.Some? {
        assert s.winner.value == X || s.winner.value == O;
      }
    }
  }

  class App {
    /** `socket.id`, fixed for the client's lifetime. */
    const socketId: string

    var mode: Mode
    var board: seq<Cell>
    var xIsNext: bool
    var winner: Option<Player>
    var isDraw: bool
    var roomId: string
    var joined: bool
    var isConnected: bool
    var playerSymbol: Option<Player>
    var scores: Scores
    /** Messages emitted on the socket, oldest first. */
    var outbox: seq<Message>

    function View(): State
      reads this
    {
      State(mode, board, xIsNext, winner, isDraw, roomId, joined, isConnected, playerSymbol, scores, outbox)
    }

    ghost predicate Valid()
      reads this`mode, this`board, this`xIsNext, this`winner, this`isDraw
    {
      Coherent(mode, board, xIsNext, winner, isDraw)
    }

    /** The relay's listeners are registered: online and joined. */
    predicate Listening()
      reads this
    {
      mode == Online && joined
    }

    /** Cell `index` is free and the game is not over: the guard of a click. */
    predicate Open(index: nat)
      reads this
    {
      At(board, index) == Empty && winner.None? && !isDraw
    }

    /** The initial state (`useState` defaults); neither effect changes it on mount. */
    constructor (socketId: string)
      ensures Valid() && this.socketId == socketId
      ensures View() == State(Local, EmptyBoard, true, None, false, "", false, false, None, NoScores, [])
    {
      this.socketId := socketId;
      mode := Local;
      board := EmptyBoard;
      xIsNext := true;
      winner := None;
      isDraw := false;
      roomId := "";
      joined := false;
      isConnected := false;
      playerSymbol := None;
      scores := NoScores;
      outbox := [];
      new;
      EmptyBoardIsLocalPosition();
    }

    /** The local-mode effect, run after the board or the mode changed:
        re-derive winner and draw from the board and score a found winner. */
    method LocalEffect()
      modifies this`winner, this`isDraw, this`scores
      ensures mode == Local ==>
        View() == old(View()).(winner := CalculateWinner(board), isDraw := IsDraw(board),
                               scores := Tally(old(scores), CalculateWinner(board)))
      ensures mode == Online ==> View() == old(View())
    {
      if mode == Local {
        var w := CalculateWinner(board);
        winner := w;
        isDraw := IsDraw(board);
        if w.Some? {
          scores := scores.Bump(w.value);
        }
      }
    }

    /** `handleClick(index)`: ignored on an occupied cell or a finished game;
        in local mode it places the mark of the side to move at `index` and
        passes the turn; online it only sends `make-move`, and only when
        connected and on this client's turn. */
    method HandleClick(index: nat)
      requires Valid() && index < Size
      modifies this
      ensures Valid()
      ensures !old(Open(index)) ==> View() == old(View())
      ensures old(Open(index)) && old(mode) == Local ==>
        && board == old(board)[index := Mark(Turn(old(xIsNext)))]
        && View() == old(View()).(board := board, xIsNext := !old(xIsNext),
                                  winner := CalculateWinner(board), isDraw := IsDraw(board),
                                  scores := Tally(old(scores), CalculateWinner(board)))
        && Occupied(board) == old(Occupied(board)) + 1
      ensures old(mode) == Online ==>
        View() == old(View()).(outbox := old(outbox) +
          if old(Open(index)) && old(isConnected) && MayMove(old(xIsNext), old(playerSymbol))
          then [MakeMove(old(roomId), index)] else [])
    {
      if At(board, index) != Empty || winner.Some? || isDraw {
        return;
      }
      if mode == Local {
        MoveKeepsLocalPosition(board, xIsNext, index);
        board := board[index := Mark(Turn(xIsNext))];
        xIsNext := !xIsNext;
        LocalEffect();
      } else {
        if !isConnected {
          return;
        }
        if !MayMove(xIsNext, playerSymbol) {
          return;
        }
        outbox := outbox + [MakeMove(roomId, index)];
      }
    }

    /** The four setters that `resetGame`, `reset-board` and `switchToLocal`
        share: an empty board, X to move, no winner, no draw. */
    method ClearBoard()
      modifies this`board, this`xIsNext, this`winner, this`isDraw
      ensures Valid()
      ensures View() == old(View()).(board := EmptyBoard, xIsNext := true, winner := None, isDraw := false)
    {
      board := EmptyBoard;
      xIsNext := true;
      winner := None;
      isDraw := false;
      EmptyBoardIsLocalPosition();
    }

    /** The four setters that `room-data` and `move-made` share: the relay's
        board and turn, with winner and draw re-derived from that board. */
    method AdoptBoard(newBoard: seq<Cell>, newXIsNext: bool)
      requires mode == Online
      modifies this`board, this`xIsNext, this`winner, this`isDraw
      ensures Valid()
      ensures View() == old(View()).(board := newBoard, xIsNext := newXIsNext,
                                     winner := CalculateWinner(newBoard), isDraw := IsDraw(newBoard))
    {
      board := newBoard;
      xIsNext := newXIsNext;
      winner := CalculateWinner(newBoard);
      isDraw := IsDraw(newBoard);
    }

    /** The four setters that `room-full` and `switchToLocal` share:
        not joined, not connected, no seat, no room id. */
    method LeaveRoom()
      modifies this`joined, this`isConnected, this`playerSymbol, this`roomId
      ensures View() == old(View()).(joined := false, isConnected := false, playerSymbol := None, roomId := "")
    {
      joined := false;
      isConnected := false;
      playerSymbol := None;
      roomId := "";
    }

    /** `resetGame`: local mode clears the board at once (scores kept);
        online it only asks the relay with `reset-game`, and only once joined. */
    method ResetGame()
      requires Valid()
      modifies this
      ensures Valid()
      ensures old(mode) == Local ==>
        View() == old(View()).(board := EmptyBoard, xIsNext := true, winner := None, isDraw := false)
      ensures old(mode) == Online ==>
        View() == old(View()).(outbox := old(outbox) + if old(joined) then [Message.ResetGame(old(roomId))] else [])
    {
      if mode == Local {
        ClearBoard();
        LocalEffect();
      } else if joined {
        outbox := outbox + [Message.ResetGame(roomId)];
      }
    }

    /** The room-id input's change handler. */
    method EditRoomId(text: string)
      requires Valid()
      modifies this
      ensures Valid()
      ensures View() == old(View()).(roomId := text, outbox := old(outbox) +
        if Listening() && text != old(roomId) then [JoinRoom(text)] else [])
    {
      var room0 := roomId;
      roomId := text;
      outbox := outbox + JoinEffect(mode, joined, room0, mode, joined, roomId);
    }

    /** `handleJoinRoom`: ignored while the room id is blank; otherwise marks
        the client joined, and the subscription effect then sends `join-room`. */
    method HandleJoinRoom()
      requires Valid()
      modifies this
      ensures Valid()
      ensures Blank(old(roomId)) ==> View() == old(View())
      ensures !Blank(old(roomId)) ==>
        View() == old(View()).(joined := true, outbox := old(outbox) +
          if old(mode) == Online && !old(joined) then [JoinRoom(old(roomId))] else [])
    {
      TrimEmptyIffBlank(roomId);
      if Trim(roomId) == "" {
        return;
      }
      var joined0 := joined;
      joined := true;
      outbox := outbox + JoinEffect(mode, joined0, roomId, mode, joined, roomId);
    }

    /** `switchToLocal`: leaves any room and starts a fresh local game with zeroed scores. */
    method SwitchToLocal()
      requires Valid()
      modifies this
      ensures Valid()
      ensures View() == State(Local, EmptyBoard, true, None, false, "", false, false, None, NoScores, old(outbox))
    {
      // React applies the batched setters together, so their order is free.
      mode := Local;
      scores := NoScores;
      LeaveRoom();
      ClearBoard();
      LocalEffect();
    }

    /** `switchToOnline`: sets the mode and zeroes the scores, nothing else;
        the subscription effect sends `join-room` only if the client had
        already been marked joined while local. */
    method SwitchToOnline()
      requires Valid()
      modifies this
      ensures Valid()
      ensures View() == old(View()).(mode := Online, scores := NoScores, outbox := old(outbox) +
        if old(mode) == Local && joined then [JoinRoom(roomId)] else [])
    {
      var mode0 := mode;
      mode := Online;
      scores := NoScores;
      outbox := outbox + JoinEffect(mode0, joined, roomId, mode, joined, roomId);
    }

    /** `room-data`: take the seat from this client's position in the player
        list, mark the room connected, adopt board and turn verbatim and
        re-derive winner and draw (scores untouched). */
    method RoomData(players: seq<string>, newBoard: seq<Cell>, newXIsNext: bool)
      requires Valid()
      modifies this
      ensures Valid()
      ensures !old(Listening()) ==> View() == old(View())
      ensures old(Listening()) ==>
        View() == old(View()).(playerSymbol := Some(SymbolFor(players, socketId)), isConnected := true,
                               board := newBoard, xIsNext := newXIsNext,
                               winner := CalculateWinner(newBoard), isDraw := IsDraw(newBoard))
      ensures old(Listening()) ==> (playerSymbol == Some(X) <==> |players| > 0 && players[0] == socketId)
    {
      if !Listening() {
        return;
      }
      playerSymbol := Some(SymbolFor(players, socketId));
      isConnected := true;
      AdoptBoard(newBoard, newXIsNext);
    }

    /** `move-made`: adopt board and turn verbatim, re-derive winner and
        draw, and give a found winner one point. */
    method MoveMade(newBoard: seq<Cell>, newXIsNext: bool)
      requires Valid()
      modifies this
      ensures Valid()
      ensures !old(Listening()) ==> View() == old(View())
      ensures old(Listening()) ==>
        View() == old(View()).(board := newBoard, xIsNext := newXIsNext,
                               winner := CalculateWinner(newBoard), isDraw := IsDraw(newBoard),
                               scores := Tally(old(scores), CalculateWinner(newBoard)))
    {
      if !Listening() {
        return;
      }
      AdoptBoard(newBoard, newXIsNext);
      if winner.Some? {
        scores := scores.Bump(winner.value);
      }
    }

    /** `reset-board`: an empty board with X to move; scores untouched. */
    method ResetBoard()
      requires Valid()
      modifies this
      ensures Valid()
      ensures !old(Listening()) ==> View() == old(View())
      ensures old(Listening()) ==>
        View() == old(View()).(board := EmptyBoard, xIsNext := true, winner := None, isDraw := false)
    {
      if Listening() {
        ClearBoard();
      }
    }

    /** `room-full`: leave the room (not joined, not connected, no seat, no
        room id); the board is kept. */
    method RoomFull()
      requires Valid()
      modifies this
      ensures Valid()
      ensures !old(Listening()) ==> View() == old(View())
      ensures old(Listening()) ==>
        View() == old(View()).(joined := false, isConnected := false, playerSymbol := None, roomId := "")
    {
      if !Listening() {
        return;
      }
      var room0 := roomId;
      LeaveRoom();
      outbox := outbox + JoinEffect(Online, true, room0, mode, joined, roomId);
    }
  }

  /** Two clients in a room that receive the same `move-made` end with the
      same board, turn, winner and draw, whatever each held before. */
  method PeersAgreeAfterMove(a: App, b: App, newBoard: seq<Cell>, newXIsNext: bool)
    requires a != b && a.Valid() && b.Valid() && a.Listening() && b.Listening()
    modifies a, b
    ensures a.Valid() && b.Valid()
    ensures a.board == b.board == newBoard && a.xIsNext == b.xIsNext == newXIsNext
    ensures a.winner == b.winner && a.isDraw == b.isDraw
  {
    a.MoveMade(newBoard, newXIsNext);
    b.MoveMade(newBoard, newXIsNext);
  }
}
