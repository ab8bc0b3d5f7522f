/** The `games` registry (index.js:17) and the state logic of the socket
    handlers (index.js:41-193), each as a pure transition from the registry
    to the next registry plus the events the handler emits.

    Values the source draws at random are parameters: room and player codes
    (`randomUUID().slice(...)`), the called number, and the generated
    tickets. `WellDrawn` states what the source's draws guarantee about
    them. Codes are NOT assumed to be unused: as in the source, a colliding code
    overwrites the entry it collides with. */
module Registry {
  import opened Common
  import opened Tickets
  import opened Claims
  import opened Session

  /** Room code -> room. */
  type Games = map<string, Room>

  /** What the handlers emit, with their payloads. `RoomClosed` is sent
      without a payload (index.js:115); its field records the room it is
      addressed to. */
  datatype Event =
    | GameCreated(roomCode: string)
    | PlayerAdded(playerCode: string, playerName: string)
    | TicketAssigned(playerCode: string)
    | NumberCalled(number: int, called: seq<int>)
    | RoomClosed(roomCode: string)
    | PlayerJoined(roomCode: string, playerName: string, tickets: seq<Ticket>, called: seq<int>,
                   current: Option<int>, claims: map<ClaimType, Option<string>>)
    | JoinError(message: string)
    | ClaimAccepted(claimType: string, winner: string)
    | ClaimRejected(claimType: string)

  /** The `TypeError`s a handler can throw. Each is thrown before the
      handler has changed anything. */
  datatype Fault =
    | PushOnUndefined      // `g.tickets[playerCode].push` for an unknown player (index.js:82)
    | TicketsNotIterable   // `for (const t of tickets)` for an unknown player (index.js:171)
    | NameOfUndefined      // `g.players[playerCode].playerName` without a player record (index.js:150,189)

  /** A handler either finishes, with the new registry and its events in
      emission order, or throws. */
  datatype Outcome = Done(games: Games, events: seq<Event>) | Crashed(fault: Fault)

  const InvalidCodeMessage := "Invalid player code"

  /** Characters of an upper-cased UUID prefix. */
  predicate HexUpper(c: char) {
    '0' <= c <= '9' || 'A' <= c <= 'F'
  }

  /** `randomUUID().slice(0, 6).toUpperCase()` (index.js:42,118). The first
      eight characters of a UUID are hex digits. */
  predicate IsRoomCode(code: string) {
    |code| == 6 && forall i :: 0 <= i < |code| ==> HexUpper(code[i])
  }

  /** `randomUUID().slice(0, 4).toUpperCase()` (index.js:69). */
  predicate IsPlayerCode(code: string) {
    |code| == 4 && forall i :: 0 <= i < |code| ==> HexUpper(code[i])
  }

  /** Every room satisfies the room invariant. */
  predicate Inv(games: Games) {
    forall rc :: rc in games ==> RoomInv(games[rc])
  }

  /** Rooms other than `rc` are exactly as they were. */
  ghost predicate OthersUntouched(games: Games, games': Games, rc: string) {
    forall k :: k != rc ==> (k in games' <==> k in games) && (k in games ==> games'[k] == games[k])
  }

  /** Players other than `pc` keep their names and tickets. */
  ghost predicate OtherPlayersKept(r: Room, r': Room, pc: string) {
    && (forall p :: p != pc ==> (p in r'.players <==> p in r.players) && (p in r.players ==> r'.players[p] == r.players[p]))
    && (forall p :: p != pc ==> (p in r'.tickets <==> p in r.tickets) && (p in r.tickets ==> r'.tickets[p] == r.tickets[p]))
  }

  /** Called numbers and claim slots are as they were. */
  predicate SamePlay(r: Room, r': Room) {
    r'.called == r.called && r'.calledSet == r.calledSet && r'.current == r.current && r'.claims == r.claims
  }

  // ---------- host_create_game (index.js:41-62) ----------

  function CreateGame(games: Games, roomCode: string): (o: Outcome)
    ensures o.Done? && o.events == [GameCreated(roomCode)]
    ensures o.games.Keys == games.Keys + {roomCode}
    ensures Fresh(o.games[roomCode])
    ensures OthersUntouched(games, o.games, roomCode)
  {
    NewRoomFresh();
    Done(games[roomCode := NewRoom()], [GameCreated(roomCode)])
  }

  // ---------- host_add_player (index.js:65-74) ----------

  function AddPlayer(games: Games, roomCode: string, playerName: string, playerCode: string): (o: Outcome)
    ensures o.Done?
    ensures roomCode !in games ==> o == Done(games, [])
    ensures roomCode in games ==>
              && o.events == [PlayerAdded(playerCode, playerName)]
              && roomCode in o.games
              && OthersUntouched(games, o.games, roomCode)
              && playerCode in o.games[roomCode].players
              && o.games[roomCode].players[playerCode] == playerName
              && playerCode in o.games[roomCode].tickets
              && o.games[roomCode].tickets[playerCode] == []
              && OtherPlayersKept(games[roomCode], o.games[roomCode], playerCode)
              && SamePlay(games[roomCode], o.games[roomCode])
  {
    if roomCode !in games then Done(games, [])
    else
      var r := games[roomCode];
      var r' := r.(players := r.players[playerCode := playerName], tickets := r.tickets[playerCode := []]);
      Done(games[roomCode := r'], [PlayerAdded(playerCode, playerName)])
  }

  // ---------- host_assign_ticket (index.js:77-86) ----------

  /** How often `for (let i = 0; i < count; i++)` runs: `count` defaults to
      1 when absent, and a count of zero or less runs no iteration. */
  function Iterations(count: Option<int>): nat {
    match count
    case None => 1
    case Some(k) => if k > 0 then k else 0
  }

  /** `newTickets` are the tickets `generateTicket` returns in the loop. */
  function AssignTickets(games: Games, roomCode: string, playerCode: string, count: Option<int>,
                         newTickets: seq<Ticket>): (o: Outcome)
    requires |newTickets| == Iterations(count)
    ensures roomCode !in games ==> o == Done(games, [])
    ensures roomCode in games && playerCode !in games[roomCode].tickets ==>
              if Iterations(count) == 0 then o == Done(games, [TicketAssigned(playerCode)])
              else o == Crashed(PushOnUndefined)
    ensures roomCode in games && playerCode in games[roomCode].tickets ==>
              && o.Done?
              && o.events == [TicketAssigned(playerCode)]
              && roomCode in o.games
              && OthersUntouched(games, o.games, roomCode)
              && playerCode in o.games[roomCode].tickets
              && (var before, after := games[roomCode].tickets[playerCode], o.games[roomCode].tickets[playerCode];
                  && |after| == |before| + Iterations(count)
                  && after[..|before|] == before
                  && after[|before|..] == newTickets)
              && o.games[roomCode].players == games[roomCode].players
              && OtherPlayersKept(games[roomCode], o.games[roomCode], playerCode)
              && SamePlay(games[roomCode], o.games[roomCode])
  {
    if roomCode !in games then Done(games, [])
    else
      var r := games[roomCode];
      if Iterations(count) == 0 then Done(games, [TicketAssigned(playerCode)])
      else if playerCode !in r.tickets then Crashed(PushOnUndefined)
      else
        var r' := r.(tickets := r.tickets[playerCode := r.tickets[playerCode] + newTickets]);
        Done(games[roomCode := r'], [TicketAssigned(playerCode)])
  }

  // ---------- host_call_number (index.js:89-106) ----------

  /** `n` is the value the rejection-sampling loop settles on: a board
      number not yet called. It is only drawn when the room exists and fewer
      than 90 numbers are called. */
  function CallNumber(games: Games, roomCode: string, n: int): (o: Outcome)
    requires roomCode in games && |games[roomCode].calledSet| != BoardSize ==>
               OnBoard(n) && n !in games[roomCode].calledSet
    ensures o.Done?
    ensures roomCode !in games || |games[roomCode].calledSet| == BoardSize ==> o == Done(games, [])
    ensures roomCode in games && |games[roomCode].calledSet| != BoardSize ==>
              && roomCode in o.games
              && OthersUntouched(games, o.games, roomCode)
              && var r, r' := games[roomCode], o.games[roomCode];
                 && n !in r.calledSet
                 && r'.called == r.called + [n]
                 && r'.calledSet == r.calledSet + {n}
                 && |r'.calledSet| == |r.calledSet| + 1
                 && r'.current == Some(n)
                 && r'.players == r.players && r'.tickets == r.tickets && r'.claims == r.claims
                 && o.events == [NumberCalled(n, r'.called)]
  {
    if roomCode !in games then Done(games, [])
    else
      var r := games[roomCode];
      if |r.calledSet| == BoardSize then Done(games, [])
      else
        var r' := r.(calledSet := r.calledSet + {n}, called := r.called + [n], current := Some(n));
        Done(games[roomCode := r'], [NumberCalled(n, r'.called)])
  }

  // ---------- host_new_game (index.js:109-140) ----------

  function NewGame(games: Games, oldRoomCode: string, newRoomCode: string): (o: Outcome)
    ensures o.Done?
    ensures oldRoomCode !in games ==> o == Done(games, [])
    ensures oldRoomCode in games ==>
              && o.events == [RoomClosed(oldRoomCode), GameCreated(newRoomCode)]
              && o.games.Keys == games.Keys - {oldRoomCode} + {newRoomCode}
              && Fresh(o.games[newRoomCode])
              && (newRoomCode != oldRoomCode ==> oldRoomCode !in o.games)
              && forall k :: k in games && k != oldRoomCode && k != newRoomCode ==> o.games[k] == games[k]
  {
    if oldRoomCode !in games then Done(games, [])
    else
      NewRoomFresh();
      var rest := games - {oldRoomCode};
      Done(rest[newRoomCode := NewRoom()], [RoomClosed(oldRoomCode), GameCreated(newRoomCode)])
  }

  // ---------- player_join_with_code (index.js:143-160) ----------

  /** `scan` lists the keys of `games` in the order `for (const roomCode in
      games)` visits them, each once. */
  ghost predicate Enumerates(scan: seq<string>, games: Games) {
    Distinct(scan) && forall k :: k in scan <==> k in games
  }

  /** Index in `scan` of the first room that has a ticket list for
      `playerCode`. An empty list counts: `[]` is truthy (index.js:146). */
  function FindRoom(games: Games, scan: seq<string>, playerCode: string): (r: Option<nat>)
    requires forall k :: k in scan ==> k in games
    ensures r.Some? ==> r.value < |scan| && playerCode in games[scan[r.value]].tickets
    ensures r.Some? ==> forall j :: 0 <= j < r.value ==> playerCode !in games[scan[j]].tickets
    ensures r.None? ==> forall j :: 0 <= j < |scan| ==> playerCode !in games[scan[j]].tickets
    decreases |scan|
  {
    if scan == [] then None
    else if playerCode in games[scan[0]].tickets then Some(0)
    else
      match FindRoom(games, scan[1..], playerCode)
      case None => None
      case Some(i) => Some(i + 1)
  }

  /** The snapshot a joining player receives; it changes nothing. */
  function JoinWithCode(games: Games, playerCode: string, scan: seq<string>): (o: Outcome)
    requires Enumerates(scan, games)
    ensures o.Done? ==> o.games == games && |o.events| == 1
    ensures Inv(games) ==> o.Done?
    ensures o == Done(games, [JoinError(InvalidCodeMessage)]) <==>
              forall rc :: rc in games ==> playerCode !in games[rc].tickets
    ensures o.Done? && o.events[0].PlayerJoined? ==>
              var e := o.events[0];
              && e.roomCode in games
              && playerCode in games[e.roomCode].tickets
              && playerCode in games[e.roomCode].players
              && e.playerName == games[e.roomCode].players[playerCode]
              && e.tickets == games[e.roomCode].tickets[playerCode]
              && e.called == games[e.roomCode].called
              && e.current == games[e.roomCode].current
              && e.claims == games[e.roomCode].claims
    ensures FindRoom(games, scan, playerCode).Some? ==>
              var rc := scan[FindRoom(games, scan, playerCode).value];
              && (playerCode in games[rc].players ==>
                    o.Done? && o.events[0].PlayerJoined? && o.events[0].roomCode == rc)
              && (playerCode !in games[rc].players ==> o == Crashed(NameOfUndefined))
  {
    match FindRoom(games, scan, playerCode)
    case None => Done(games, [JoinError(InvalidCodeMessage)])
    case Some(i) =>
      var rc := scan[i];
      var g := games[rc];
      if playerCode !in g.players then Crashed(NameOfUndefined)
      else Done(games, [PlayerJoined(rc, g.players[playerCode], g.tickets[playerCode], g.called, g.current, g.claims)])
  }

  // ---------- player_claim (index.js:163-193) ----------

  /** The claim gets past the guard of index.js:165: the room exists and the
      slot named by `claimType` is not truthy. An unknown claim type names no
      slot, so it always gets past. */
  predicate ClaimOpen(games: Games, roomCode: string, claimType: string) {
    && roomCode in games
    && !(ParseClaim(claimType).Some? && Awarded(games[roomCode].claims, ParseClaim(claimType).value))
  }

  function Claim(games: Games, roomCode: string, playerCode: string, claimType: string): (o: Outcome)
    ensures !ClaimOpen(games, roomCode, claimType) ==> o == Done(games, [])
    ensures ClaimOpen(games, roomCode, claimType) && playerCode !in games[roomCode].tickets ==>
              o == Crashed(TicketsNotIterable)
    ensures ClaimOpen(games, roomCode, claimType) && playerCode in games[roomCode].tickets &&
            !(ParseClaim(claimType).Some? &&
              AnySatisfies(games[roomCode].tickets[playerCode], games[roomCode].calledSet, ParseClaim(claimType).value)) ==>
              o == Done(games, [ClaimRejected(claimType)])
    ensures ClaimOpen(games, roomCode, claimType) && playerCode in games[roomCode].tickets &&
            playerCode in games[roomCode].players &&
            ParseClaim(claimType).Some? &&
            AnySatisfies(games[roomCode].tickets[playerCode], games[roomCode].calledSet, ParseClaim(claimType).value) ==>
              var r, ct, winner := games[roomCode], ParseClaim(claimType).value, games[roomCode].players[playerCode];
              && o.Done?
              && o.events == [ClaimAccepted(claimType, winner)]
              && roomCode in o.games
              && OthersUntouched(games, o.games, roomCode)
              && o.games[roomCode].claims == r.claims[ct := Some(winner)]
              && o.games[roomCode] == r.(claims := o.games[roomCode].claims)
    ensures ClaimOpen(games, roomCode, claimType) && playerCode in games[roomCode].tickets &&
            playerCode !in games[roomCode].players &&
            ParseClaim(claimType).Some? &&
            AnySatisfies(games[roomCode].tickets[playerCode], games[roomCode].calledSet, ParseClaim(claimType).value) ==>
              o == Crashed(NameOfUndefined)
  {
    if !ClaimOpen(games, roomCode, claimType) then Done(games, [])
    else
      var r := games[roomCode];
      if playerCode !in r.tickets then Crashed(TicketsNotIterable)
      else if !ClaimValid(r.tickets[playerCode], r.calledSet, claimType) then Done(games, [ClaimRejected(claimType)])
      else if playerCode !in r.players then Crashed(NameOfUndefined)
      else
        var ct := ParseClaim(claimType).value;
        var winner := r.players[playerCode];
        Done(games[roomCode := r.(claims := r.claims[ct := Some(winner)])], [ClaimAccepted(claimType, winner)])
  }

  // ---------- dispatch ----------

  /** One inbound socket event, with the values the handler draws at random. */
  datatype Request =
    | HostCreateGame(newCode: string)
    | HostAddPlayer(roomCode: string, playerName: string, newCode: string)
    | HostAssignTicket(roomCode: string, playerCode: string, count: Option<int>, newTickets: seq<Ticket>)
    | HostCallNumber(roomCode: string, drawn: int)
    | HostNewGame(roomCode: string, newCode: string)
    | PlayerJoinWithCode(playerCode: string, scan: seq<string>)
    | PlayerClaim(roomCode: string, playerCode: string, claimType: string)

  /** What the random sources guarantee about the drawn values. */
  ghost predicate WellDrawn(games: Games, req: Request) {
    match req
    case HostCreateGame(code) => IsRoomCode(code)
    case HostAddPlayer(_, _, code) => IsPlayerCode(code)
    case HostAssignTicket(_, _, count, newTickets) => |newTickets| == Iterations(count) && AllValid(newTickets)
    case HostCallNumber(rc, n) =>
      rc in games && |games[rc].calledSet| != BoardSize ==> OnBoard(n) && n !in games[rc].calledSet
    case HostNewGame(_, code) => IsRoomCode(code)
    case PlayerJoinWithCode(_, scan) => Enumerates(scan, games)
    case PlayerClaim(_, _, _) => true
  }

  function Handle(games: Games, req: Request): Outcome
    requires WellDrawn(games, req)
  {
    match req
    case HostCreateGame(code) => CreateGame(games, code)
    case HostAddPlayer(rc, name, code) => AddPlayer(games, rc, name, code)
    case HostAssignTicket(rc, pc, count, newTickets) => AssignTickets(games, rc, pc, count, newTickets)
    case HostCallNumber(rc, n) => CallNumber(games, rc, n)
    case HostNewGame(rc, code) => NewGame(games, rc, code)
    case PlayerJoinWithCode(pc, scan) => JoinWithCode(games, pc, scan)
    case PlayerClaim(rc, pc, claimType) => Claim(games, rc, pc, claimType)
  }
}
