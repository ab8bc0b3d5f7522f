/** The state of one game room (the object stored in `games[roomCode]`,
    index.js:44-58) and the invariant every handler keeps on it. The host's
    socket id is stored by the source but never read, so it is not part of
    the model. */
module Session {
  import opened Common
  import opened Tickets
  import opened Claims

  datatype Room = Room(
    players: map<string, string>,              // player code -> player name
    tickets: map<string, seq<Ticket>>,         // player code -> tickets, in assignment order
    called: seq<int>,                          // numbers called, in call order
    calledSet: set<int>,                       // the same numbers, as a set
    current: Option<int>,                      // the last number called
    claims: map<ClaimType, Option<string>>)    // claim slot -> winner's name

  /** The room that `host_create_game` and `host_new_game` install. */
  function NewRoom(): Room {
    Room(map[], map[], [], {}, None, map ct | ct in AllClaimTypes :: None)
  }

  /** A room nobody has played in yet: no players, no tickets, nothing
      called, and all five claim slots present and empty. */
  predicate Fresh(r: Room) {
    && r.players == map[]
    && r.tickets == map[]
    && r.called == []
    && r.calledSet == {}
    && r.current == None
    && r.claims.Keys == AllClaimTypes
    && forall ct :: ct in r.claims ==> r.claims[ct] == None
  }

  /** `g.claims[claimType]` is truthy: the slot holds a winner whose name
      is not the empty string. */
  predicate Awarded(claims: map<ClaimType, Option<string>>, ct: ClaimType) {
    ct in claims && claims[ct].Some? && claims[ct].value != ""
  }

  /** The called history has no repeats, agrees with the called set, stays on
      the board, and `current` is its last element. */
  predicate CalledInv(r: Room) {
    && Distinct(r.called)
    && Elems(r.called) == r.calledSet
    && (forall n :: n in r.calledSet ==> OnBoard(n))
    && |r.calledSet| <= BoardSize
    && (if r.called == [] then r.current == None else r.current == Some(r.called[|r.called| - 1]))
  }

  /** Every ticket of the list is one `generateTicket` can return. */
  predicate AllValid(ts: seq<Ticket>) {
    forall i :: 0 <= i < |ts| ==> ValidTicket(ts[i])
  }

  /** What every handler keeps true of a room: the called state is
      consistent, every player has both a name and a ticket list, every
      ticket was generated, and all five claim slots exist. */
  predicate RoomInv(r: Room) {
    && CalledInv(r)
    && r.players.Keys == r.tickets.Keys
    && (forall pc :: pc in r.tickets ==> AllValid(r.tickets[pc]))
    && r.claims.Keys == AllClaimTypes
  }

  lemma NewRoomFresh()
    ensures Fresh(NewRoom())
    ensures RoomInv(NewRoom())
  {
  }

  /** While fewer than 90 numbers are called, the rejection-sampling loop of
      `host_call_number` has a number to find. */
  lemma CanDraw(r: Room)
    requires RoomInv(r)
    requires |r.calledSet| != BoardSize
    ensures exists n :: OnBoard(n) && n !in r.calledSet
  {
    BoardNotCovered(r.calledSet);
  }

  /** A room is exhausted exactly when every number of the board has been
      called. */
  lemma ExhaustedIsWholeBoard(r: Room)
    requires RoomInv(r)
    ensures |r.calledSet| == BoardSize <==> r.calledSet == Board()
  {
    if |r.calledSet| == BoardSize {
      BoardCovered(r.calledSet);
    } else {
      RangeSize(1, BoardSize + 1);
    }
  }
}
