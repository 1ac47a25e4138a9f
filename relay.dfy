/** What the client sends to the relay, and how it reads its seat out of the
    relay's player list. */
module Relay {
  import opened Board

  /** Client-to-relay messages: `join-room` with the room id, `make-move`
      with `{roomId, index}`, `reset-game` with the room id. */
  datatype Message =
    | JoinRoom(roomId: string)
    | MakeMove(roomId: string, index: nat)
    | ResetGame(roomId: string)

  /** `xs.indexOf(v)`: the first position of v, or -1 when v is absent. */
  function IndexOf(xs: seq<string>, v: string): (r: int)
    ensures -1 <= r < |xs|
    ensures r == -1 <==> v !in xs
    ensures 0 <= r ==> xs[r] == v && v !in xs[..r]
  {
    if xs == [] then -1
    else if xs[0] == v then 0
    else
      var k := IndexOf(xs[1..], v);
      if k == -1 then -1
      else
        assert xs[..k + 1] == [xs[0]] + xs[1..][..k];
        k + 1
  }

  /** The seat of `room-data`: `index === 0 ? "X" : "O"` for this client's
      position in the player list; a client missing from the list is "O". */
  function SymbolFor(players: seq<string>, me: string): (p: Player)
    ensures p == X <==> |players| > 0 && players[0] == me
  {
    if IndexOf(players, me) == 0 then X else O
  }
}
