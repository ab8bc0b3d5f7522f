/** Properties that relate several handler calls: the room invariant is
    kept by every handler and every run of handlers, an awarded claim slot
    and the called history survive every later request that does not
    replace the room, the assign/join round trip, and the behaviour at
    exhaustion. */
module Properties {
  import opened Common
  import opened Tickets
  import opened Claims
  import opened Session
  import opened Registry

  // ---------- one request ----------

  /** Each handler keeps the invariant of every room. */
  lemma CreateGameKeepsInv(games: Games, code: string)
    requires Inv(games)
    ensures Inv(CreateGame(games, code).games)
  {
  }

  lemma NewGameKeepsInv(games: Games, oldCode: string, newCode: string)
    requires Inv(games)
    ensures Inv(NewGame(games, oldCode, newCode).games)
  {
  }

  lemma AddPlayerKeepsInv(games: Games, rc: string, name: string, pc: string)
    requires Inv(games)
    ensures Inv(AddPlayer(games, rc, name, pc).games)
  {
  }

  lemma CallNumberKeepsInv(games: Games, rc: string, n: int)
    requires Inv(games)
    requires rc in games && |games[rc].calledSet| != BoardSize ==> OnBoard(n) && n !in games[rc].calledSet
    ensures Inv(CallNumber(games, rc, n).games)
  {
  }

  lemma AssignTicketsKeepsInv(games: Games, rc: string, pc: string, count: Option<int>, newTickets: seq<Ticket>)
    requires Inv(games)
    requires |newTickets| == Iterations(count) && AllValid(newTickets)
    requires AssignTickets(games, rc, pc, count, newTickets).Done?
    ensures Inv(AssignTickets(games, rc, pc, count, newTickets).games)
  {
  }

  lemma ClaimKeepsInv(games: Games, rc: string, pc: string, claimType: string)
    requires Inv(games)
    requires Claim(games, rc, pc, claimType).Done?
    ensures Inv(Claim(games, rc, pc, claimType).games)
  {
  }

  /** Every handler keeps every room's invariant: the called history never
      repeats a number, equals the called set, holds at most 90 board
      numbers; every player has a name and tickets; all tickets are valid;
      all five slots exist. */
  lemma HandleKeepsInv(games: Games, req: Request)
    requires Inv(games)
    requires WellDrawn(games, req)
    requires Handle(games, req).Done?
    ensures Inv(Handle(games, req).games)
  {
    match req
    case HostCreateGame(code) => CreateGameKeepsInv(games, code);
    case HostAddPlayer(rc, name, code) => AddPlayerKeepsInv(games, rc, name, code);
    case HostAssignTicket(rc, pc, count, newTickets) => AssignTicketsKeepsInv(games, rc, pc, count, newTickets);
    case HostCallNumber(rc, n) => CallNumberKeepsInv(games, rc, n);
    case HostNewGame(rc, code) => NewGameKeepsInv(games, rc, code);
    case PlayerJoinWithCode(pc, scan) =>
    case PlayerClaim(rc, pc, claimType) => ClaimKeepsInv(games, rc, pc, claimType);
  }

  /** The request installs a fresh room under `rc` or removes `rc`. */
  predicate Replaces(req: Request, rc: string) {
    || (req.HostCreateGame? && req.newCode == rc)
    || (req.HostNewGame? && (req.roomCode == rc || req.newCode == rc))
  }

  /** `r'` is a later state of room `r`: the called history has only been
      extended, and every awarded slot keeps its winner. */
  ghost predicate Progressed(r: Room, r': Room) {
    && r.called <= r'.called
    && forall ct :: Awarded(r.claims, ct) ==> ct in r'.claims && r'.claims[ct] == r.claims[ct]
  }

  lemma HandleProgresses(games: Games, req: Request, rc: string)
    requires WellDrawn(games, req)
    requires rc in games && !Replaces(req, rc)
    requires Handle(games, req).Done?
    ensures rc in Handle(games, req).games
    ensures Progressed(games[rc], Handle(games, req).games[rc])
  {
  }

  // ---------- runs of requests ----------

  /** Each request of the run is well drawn in the state it meets. */
  ghost predicate Drawable(games: Games, reqs: seq<Request>)
    decreases |reqs|
  {
    || reqs == []
    || (&& WellDrawn(games, reqs[0])
        && (Handle(games, reqs[0]).Done? ==> Drawable(Handle(games, reqs[0]).games, reqs[1..])))
  }

  /** Handles the requests one after another, collecting the events, until
      one of them throws. */
  function Run(games: Games, reqs: seq<Request>): Outcome
    requires Drawable(games, reqs)
    decreases |reqs|
  {
    if reqs == [] then Done(games, [])
    else
      match Handle(games, reqs[0])
      case Crashed(f) => Crashed(f)
      case Done(g, evs) =>
        match Run(g, reqs[1..])
        case Crashed(f) => Crashed(f)
        case Done(g', evs') => Done(g', evs + evs')
  }

  /** The invariant holds after any run of requests from a registry where it
      holds, in particular from the empty registry of process start. */
  lemma {:induction false} RunKeepsInv(games: Games, reqs: seq<Request>)
    requires Inv(games)
    requires Drawable(games, reqs)
    requires Run(games, reqs).Done?
    ensures Inv(Run(games, reqs).games)
    decreases |reqs|
  {
    if reqs != [] {
      HandleKeepsInv(games, reqs[0]);
      RunKeepsInv(Handle(games, reqs[0]).games, reqs[1..]);
    }
  }

  /** A room that no request of the run replaces is still there afterwards;
      its called history only grew, and every claim slot awarded at the start
      still holds the same winner: each slot is awarded at most once. */
  lemma {:induction false} RunProgresses(games: Games, reqs: seq<Request>, rc: string)
    requires Drawable(games, reqs)
    requires rc in games
    requires forall i :: 0 <= i < |reqs| ==> !Replaces(reqs[i], rc)
    requires Run(games, reqs).Done?
    ensures rc in Run(games, reqs).games
    ensures Progressed(games[rc], Run(games, reqs).games[rc])
    decreases |reqs|
  {
    if reqs != [] {
      var g := Handle(games, reqs[0]).games;
      HandleProgresses(games, reqs[0], rc);
      RunProgresses(g, reqs[1..], rc);
      var r, r1, r2 := games[rc], g[rc], Run(games, reqs).games[rc];
      assert r.called <= r2.called by {
        assert r2.called[..|r1.called|] == r1.called;
        assert r1.called[..|r.called|] == r.called;
        assert r2.called[..|r.called|] == r2.called[..|r1.called|][..|r.called|];
      }
    }
  }

  // ---------- claims ----------

  /** First valid claimant wins: a valid claim on an open slot awards it to
      the claimant, and any later claim of that type is dropped silently,
      whoever makes it, provided the winner's name is not empty. */
  lemma FirstValidClaimantWins(games: Games, rc: string, first: string, later: string, ct: ClaimType)
    requires rc in games
    requires first in games[rc].tickets && first in games[rc].players
    requires games[rc].players[first] != ""
    requires !Awarded(games[rc].claims, ct)
    requires AnySatisfies(games[rc].tickets[first], games[rc].calledSet, ct)
    ensures var o := Claim(games, rc, first, ClaimName(ct));
            && o.Done?
            && o.events == [ClaimAccepted(ClaimName(ct), games[rc].players[first])]
            && Claim(o.games, rc, later, ClaimName(ct)) == Done(o.games, [])
  {
  }

  /** The slot test is truthiness, so a winner named "" does not close the
      slot: a later valid claimant takes it over. */
  lemma EmptyNameWinnerIsReplaced(games: Games, rc: string, pc: string, ct: ClaimType)
    requires rc in games
    requires ct in games[rc].claims && games[rc].claims[ct] == Some("")
    requires pc in games[rc].tickets && pc in games[rc].players
    requires AnySatisfies(games[rc].tickets[pc], games[rc].calledSet, ct)
    ensures var o := Claim(games, rc, pc, ClaimName(ct));
            o.Done? && o.games[rc].claims[ct] == Some(games[rc].players[pc])
  {
  }

  // ---------- joining ----------

  /** When exactly one room holds a player code, joining with that code
      reports that room whatever order the rooms are visited in. */
  lemma JoinFindsOnlyHolder(games: Games, pc: string, rc: string, scan: seq<string>)
    requires Inv(games)
    requires Enumerates(scan, games)
    requires rc in games && pc in games[rc].tickets
    requires forall k :: k in games && k != rc ==> pc !in games[k].tickets
    ensures var r := games[rc];
            JoinWithCode(games, pc, scan) ==
              Done(games, [PlayerJoined(rc, r.players[pc], r.tickets[pc], r.called, r.current, r.claims)])
  {
  }

  /** Adding a player with a code no room holds and assigning tickets
      leaves that player in exactly one room, holding exactly the assigned
      tickets; the room's called numbers and claims are as before. */
  lemma AddThenAssign(games: Games, rc: string, name: string, pc: string, count: Option<int>,
                      newTickets: seq<Ticket>) returns (g: Games)
    requires Inv(games)
    requires rc in games
    requires forall k :: k in games ==> pc !in games[k].tickets
    requires |newTickets| == Iterations(count) && AllValid(newTickets)
    ensures AssignTickets(AddPlayer(games, rc, name, pc).games, rc, pc, count, newTickets) == Done(g, [TicketAssigned(pc)])
    ensures Inv(g) && g.Keys == games.Keys
    ensures pc in g[rc].tickets && g[rc].tickets[pc] == newTickets
    ensures pc in g[rc].players && g[rc].players[pc] == name
    ensures forall k :: k in g && k != rc ==> pc !in g[k].tickets
    ensures SamePlay(games[rc], g[rc])
  {
    var g1 := AddPlayer(games, rc, name, pc).games;
    AddPlayerKeepsInv(games, rc, name, pc);
    var o2 := AssignTickets(g1, rc, pc, count, newTickets);
    AssignTicketsKeepsInv(g1, rc, pc, count, newTickets);
    g := o2.games;
    var after := g[rc].tickets[pc];
    assert after == after[..0] + after[0..];
  }

  /** Add, assign, call, join: a new player added to a room, given tickets,
      and joining after one more call, receives exactly the assigned tickets
      in order and the whole called history, and the join changes nothing. */
  lemma AddAssignCallJoin(games: Games, rc: string, name: string, pc: string, count: Option<int>,
                          newTickets: seq<Ticket>, n: int, scan: seq<string>)
    requires Inv(games)
    requires rc in games
    requires forall k :: k in games ==> pc !in games[k].tickets
    requires |newTickets| == Iterations(count) && AllValid(newTickets)
    requires |games[rc].calledSet| != BoardSize ==> OnBoard(n) && n !in games[rc].calledSet
    requires Enumerates(scan, games)
    ensures var g2 := AssignTickets(AddPlayer(games, rc, name, pc).games, rc, pc, count, newTickets).games;
            var g3 := CallNumber(g2, rc, n).games;
            && rc in g3
            && g3[rc].called == (if |games[rc].calledSet| == BoardSize then games[rc].called else games[rc].called + [n])
            && JoinWithCode(g3, pc, scan) ==
                 Done(g3, [PlayerJoined(rc, name, newTickets, g3[rc].called, g3[rc].current, games[rc].claims)])
  {
    var g2 := AddThenAssign(games, rc, name, pc, count, newTickets);
    var g3 := CallNumber(g2, rc, n).games;
    CallNumberKeepsInv(g2, rc, n);
    assert Enumerates(scan, g3);
    JoinFindsOnlyHolder(g3, pc, rc, scan);
  }

  // ---------- calling numbers ----------

  /** Once all 90 numbers are called the room holds the whole board, and a
      further call changes nothing and emits nothing. */
  lemma ExhaustedCallIsNoOp(games: Games, rc: string, n: int)
    requires Inv(games)
    requires rc in games && games[rc].calledSet == Board()
    ensures |games[rc].calledSet| == BoardSize
    ensures CallNumber(games, rc, n) == Done(games, [])
  {
    ExhaustedIsWholeBoard(games[rc]);
  }

  // ---------- new game ----------

  /** After a new game the old code resolves to nothing: calling a number,
      adding a player or claiming on it does nothing and emits nothing, while
      the new code names a fresh room. */
  lemma NewGameRetiresOldCode(games: Games, oldCode: string, newCode: string, n: int,
                              name: string, pc: string, claimType: string)
    requires oldCode in games && newCode != oldCode
    ensures var g := NewGame(games, oldCode, newCode).games;
            && CallNumber(g, oldCode, n) == Done(g, [])
            && AddPlayer(g, oldCode, name, pc) == Done(g, [])
            && Claim(g, oldCode, pc, claimType) == Done(g, [])
            && Fresh(g[newCode])
  {
  }
}
