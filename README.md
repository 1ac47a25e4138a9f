# Tic-tac-toe client engine

A Dafny model of `src/App.js`: the 3×3 tic-tac-toe game of the `App`
component, played either on one device ("local" mode) or through a relay
server ("online" mode).

- `board.dfy` (module `Board`) holds the board and the winner scan.
  - The board is a sequence of cells, each empty or holding an X or an O mark.
  - `CalculateWinner` walks the fixed table `WINNING_COMBINATIONS` of eight index triples. It returns the mark of the first triple whose three cells hold one mark, or nothing.
  - The draw rule is "no winner and every cell occupied".
  - It also proves the counting facts that local play keeps: X and O alternate, and only the mover can complete a line.
- `line_scan.dfy` (module `LineScan`) is an independent definition of a win. From a start cell, it steps twice along one of four directions, checking the board bounds at every step. The module proves that the table finds a winner exactly when this scan finds a run.
- `text.dfy` (module `Text`) models `String.prototype.trim`, which decides whether a room id is blank.
- `relay.dfy` (module `Relay`) holds three things:
  - the messages the client sends to the relay (`join-room`, `make-move` and `reset-game`);
  - `Array.prototype.indexOf`;
  - the rule by which `room-data` seats a client as X or O.
- `client.dfy` (module `Client`) is the component proper.
  - The class `App` has one field per `useState` variable, plus an outbox of the messages sent on the socket.
  - There is one method per handler (`handleClick`, `resetGame`, `handleJoinRoom`, `switchToLocal`, `switchToOnline`, the room-id input), one per relay event (`room-data`, `move-made`, `reset-board`, `room-full`), and one for the local win/score effect.
  - Each method states its whole new state against the old one, through the snapshot `View()`.
  - Each handler and relay-event method keeps `Valid()`: winner and draw are always those of the board, and in local mode the board satisfies the alternation invariant `LocalPosition`.
    - X's count equals O's when X is to move, and is one more otherwise.
    - A line is filled only by the player who moved last.
    - This invariant is necessary for reachability by alternating play, but not sufficient.

How the model treats React and the socket:

- React applies a handler's setters as one batch. The methods therefore assign the fields in whatever order is convenient, and then run the effects whose dependencies changed.
  - The subscription effect has dependencies `[mode, joined, roomId]`. It is `JoinEffect`: when one of them changed and the client is online and joined, it sends `join-room` with the room id.
  - The local effect has dependencies `[board, mode]`. It is `LocalEffect`, called after every local change of the board or mode.
- An inbound relay event only has an effect while the listeners are registered, which is while the client is online and joined (`Listening()`). Otherwise the event changes nothing.

Notes on the code:

- The board is a fixed 3×3 grid with run length 3. There is no board size, no configurable run length and no board-size change. `join-room` carries only the room id.
- `calculateWinner` scans a fixed table of lines. `LineScan` defines a per-cell, per-direction scan and proves the two agree on the 3×3 board.
- A room id that is empty after `trim()` is refused, so a room id of only white space is refused too.
- A client missing from the `room-data` player list is seated as O, because `indexOf` gives -1 and -1 is not 0.

## Model

| member | source | states |
|---|---|---|
| Board.EmptyBoard | src/App.js:31 | `Array(9).fill(null)`, the board of the initial state and of every reset (also at lines 77, 137 and 154). `Board.EmptyBoardHasNoWinner` proves it has nine cells, no winner and is no draw. |
| Board.At | src/App.js:22 | `squares[i]`, also used by the click guard at line 114. An index past the end reads as empty, as `undefined` is falsy; see the "## Left out" line on relay boards. |
| Board.Turn | src/App.js:118 | `xIsNext ? "X" : "O"`, the mark placed by a local click. `Client.MayMove` uses it as the side to move. |
| Board.Lines | src/App.js:8-17 | The eight winning triples in table order. `LineScan.TableMatchesScan` proves that a mark fills one of them exactly when a direction scan finds a run of three. |
| Board.LineWon | src/App.js:22 | The scan's guard on one triple. `Board.LineWonIsLineOf` proves it holds exactly when one mark fills the line. |
| Board.ScanFrom | src/App.js:20-26 | The loop over the table from entry k, with its early return. `Board.ScanFromSpec` proves it returns the mark of the first won line from k on, or nothing. |
| Board.CalculateWinner | src/App.js:19-27 | `calculateWinner`. `Board.WinnerSpec` proves it returns null exactly when no table line is filled, and otherwise the mark of the first filled line. `LineScan.WinnerAgreesWithScan` ties it to the direction scan. |
| Board.Full | src/App.js:59 | `board.every(Boolean)`: every cell holds a mark. `Board.EmptyBoardHasNoWinner` and `Board.DrawSpec` state its role. |
| Board.IsDraw | src/App.js:59 | The draw rule. `Board.DrawSpec` proves it excludes a winner and holds exactly when no line is filled and the board is full. |
| Board.LineWonIsLineOf | src/App.js:22-23 | The scan's guard (first cell non-empty and equal to the other two) holds exactly when the line is filled with X or with O, and then the line holds the first cell's mark. |
| Board.ScanFromSpec | src/App.js:20-26 | The loop from table entry k finds nothing exactly when no remaining line is won. What it returns fills a line that comes before every other won line from k on. |
| Board.WinnerSpec | src/App.js:8-27 | `calculateWinner` returns null exactly when neither mark fills a table line. A returned mark fills a line, and it fills the first won line in table order. |
| Board.EmptyBoardHasNoWinner | src/App.js:31 | The empty board has nine cells, is not full, has no winner and is not a draw. |
| Board.DrawSpec | src/App.js:58-59 | Winner and draw never hold together. A draw holds exactly when neither mark fills a line and every cell is occupied. |
| Board.CountUpdate | src/App.js:117-118 | Writing one cell changes a mark's count only by what left that cell and what came in. |
| Board.OnlyMoverCompletesLine | src/App.js:114-118 | On a board with no winner, placing p at one cell cannot give the other mark a line or make it the winner. |
| Board.EmptyBoardIsLocalPosition | src/App.js:31-32 | The initial and reset position (empty board, X to move) is a local position with no marks down. |
| Board.MoveKeepsLocalPosition | src/App.js:116-120 | An accepted local move keeps the alternation invariant with the turn flipped, adds exactly one mark, and cannot make the opponent the winner. |
| Board.PlayAfterWinIsNotLocal | src/App.js:114-120 | An example of what the invariant excludes: the board on which O moved again after X completed the top row, which the click guard refuses, is not a local position. |
| Board.LocalTurnParity | src/App.js:116-120 | In local play X is to move exactly when an even number of marks is down. |
| LineScan.RunIsLine | src/App.js:8-17 | Every run of three found by the direction scan is a line of the table. |
| LineScan.LineIsRun | src/App.js:8-17 | Every line of the table is a run of three along some direction. |
| LineScan.TableMatchesScan | src/App.js:8-17 | A mark fills a table line exactly when the direction scan finds a run of it. |
| LineScan.WinnerAgreesWithScan | src/App.js:19-27 | `calculateWinner` reports a mark exactly when the scan finds a run. The reported mark has a run, and a mark that alone has a run is the one reported. |
| Text.Trim | src/App.js:147 | `String.prototype.trim`. `Text.TrimSpec` proves it strips exactly the white space at both ends, and `Text.TrimEmptyIffBlank` that it gives "" exactly for a blank string. |
| Text.TrimStartSpec | src/App.js:147 | Leading trim drops a blank prefix, leaves a suffix that starts with a non-blank character, and gives "" exactly for a blank string. |
| Text.TrimEndSpec | src/App.js:147 | Trailing trim drops a blank suffix, leaves a prefix that ends with a non-blank character, and gives "" exactly for a blank string. |
| Text.TrimSpec | src/App.js:147 | `trim()` gives the input with only white space removed at both ends. The result neither starts nor ends with white space, and it is "" exactly when the input is blank. |
| Text.TrimEmptyIffBlank | src/App.js:147 | `roomId.trim() === ""` holds exactly when the room id is blank. |
| Relay.Message | src/App.js:48 | The three emits: `join-room` with the room id (line 48), `make-move` with `{roomId, index}` (line 131) and `reset-game` with the room id (line 142). |
| Relay.IndexOf | src/App.js:51 | `indexOf` gives -1 exactly when the value is absent. Otherwise it gives a position holding the value with no earlier occurrence. |
| Relay.SymbolFor | src/App.js:51-52 | The seat is X exactly when this client is first in the player list, and O otherwise. |
| Client.Scores.Get | src/App.js:72 | `prev[w]`, the score of one mark. |
| Client.NoScores | src/App.js:42 | `{ X: 0, O: 0 }`, the initial scores and the zeroed scores of both mode switches (lines 161 and 166). |
| Client.Scores.Bump | src/App.js:72 | The winner's score rises by one and the other score is unchanged. |
| Client.Tally | src/App.js:71-73 | Each score rises by one exactly when that mark was found as winner, and is otherwise unchanged. |
| Client.MayMove | src/App.js:124-129 | The online turn guard lets a move through exactly when the seat is the mark to move. |
| Client.JoinEffect | src/App.js:45-48 | `join-room` with the current room id is sent exactly when the client starts listening (it becomes online and joined), or changes its room id while listening. Otherwise nothing is sent. |
| Client.ConsistentOutcome | src/App.js:58-59 | A consistent state has these guarantees: never both winner and draw; draw exactly when there is no winner and the board is full; a winner fills a line; in local mode, X to move exactly on an even count, never two winning marks, and a winner is always the player who moved last. |
| Client.App.Listening | src/App.js:46-96 | The relay's listeners are registered exactly while the client is online and joined. Every relay-event method changes nothing otherwise. |
| Client.App.Open | src/App.js:114 | The click guard: the cell is empty, there is no winner and no draw. `Client.App.HandleClick` changes nothing when it fails. |
| Client.App.constructor | src/App.js:30-42 | The `useState` defaults are: local mode, empty board, X to move, no winner, no draw, empty room id, not joined, not connected, no seat, zero scores, nothing sent. Together they form a valid state. |
| Client.App.LocalEffect | src/App.js:100-111 | In local mode, winner and draw are re-derived from the board and a found winner gains one point. Online, nothing changes. |
| Client.App.HandleClick | src/App.js:113-133 | Valid is kept. An occupied cell or a finished game leaves everything unchanged. Local mode: the board changes only at `index`, which gets the mark of the side to move; the turn flips; winner, draw and scores follow the local effect; one more mark is down. Online: only `make-move` {roomId, index} may be sent, exactly when connected and on this client's turn. |
| Client.App.ClearBoard | src/App.js:77-80 | The four reset setters give an empty board, X to move, no winner and no draw. Everything else is unchanged, and the state is valid. |
| Client.App.AdoptBoard | src/App.js:56-59 | Online, the relay's board and turn are taken verbatim and winner and draw are re-derived from that board. The state stays valid. |
| Client.App.LeaveRoom | src/App.js:85-88 | Joined, connected, seat and room id are cleared. Nothing else changes. |
| Client.App.ResetGame | src/App.js:135-144 | Local mode: empty board, X to move, no winner or draw, scores kept. Online it changes no game state; it only sends `reset-game` with the room id, and only once joined. |
| Client.App.EditRoomId | src/App.js:211 | The room id becomes the typed text. While listening, a changed id re-sends `join-room` with it. |
| Client.App.HandleJoinRoom | src/App.js:146-149 | A blank room id changes nothing. Otherwise the client is marked joined. If it was online and not yet joined, `join-room` is sent with the room id. |
| Client.App.SwitchToLocal | src/App.js:151-162 | The result is: local mode, empty board, X to move, no winner or draw, empty room id, not joined, not connected, no seat, zero scores. Nothing is sent. |
| Client.App.SwitchToOnline | src/App.js:164-167 | Only the mode becomes online and the scores become zero. `join-room` is sent only if the client was local and already marked joined. |
| Client.App.RoomData | src/App.js:50-60 | While listening: the seat is X exactly when this client is first in the list, and O otherwise; the client is connected; board and turn are adopted verbatim; winner and draw are re-derived; scores are untouched. Otherwise nothing changes. |
| Client.App.MoveMade | src/App.js:62-74 | While listening: board and turn are adopted verbatim and winner and draw re-derived; a winner gains exactly one point and the other score is unchanged. Otherwise nothing changes. |
| Client.App.ResetBoard | src/App.js:76-81 | While listening: empty board, X to move, no winner or draw, scores untouched. Otherwise nothing changes. |
| Client.App.RoomFull | src/App.js:83-89 | While listening: not joined, not connected, no seat, empty room id; the board and everything else are kept and nothing is sent. Otherwise nothing changes. |
| Client.PeersAgreeAfterMove | src/App.js:62-69 | Two listening clients that receive the same `move-made` end with the same board, turn, winner and draw, whatever each held before. |

## Left out

- The socket connection (`src/App.js:5`) and the registration and removal of listeners (`src/App.js:50-96`) are not modelled as such. Emits are appended to the outbox, and each inbound event is a method that acts only while `Listening()`.
- React's scheduling and re-rendering are not modelled. Each method applies a handler's setters as one batch and then calls the effects whose dependencies changed.
- The mount of the component is not modelled: both effects run once and change nothing, since the client starts local and not joined on an empty board.
- The `alert` of `room-full` (`src/App.js:84`) is a UI side effect and is not modelled.
- The status text, JSX, CSS and `disabled` state of the join button (`src/App.js:169-260`) are presentation and are not modelled. The click handler receives an index below 9, as `renderCell` passes only 0 to 8.
- The relay server and its validation of moves are not part of this model. The relay's boards are taken as given, of any length. A cell past the end reads as empty, as `undefined` does.
- Reconnection is not modelled. `socket.id` is a constructor parameter fixed for the client's lifetime, but socket.io assigns a new id on every reconnection. The relay's player list may then still hold the old id, and the client would be seated O. The model does not capture that.
- No N×N board, configurable run length or board-size field is modelled, because the code has none.
- The string representation of marks and of `null` is not modelled: marks are the values X and O, and an empty cell, a missing winner and a missing seat are explicit cases.
