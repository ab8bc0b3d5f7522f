# Tambola session server: a Dafny model

This project models the game logic of a Tambola (Housie) server. A host creates a room, adds players,
assigns each player randomly generated 15-number tickets, and calls numbers from 1 to 90 without
repetition. Players then claim the five win patterns: first five, first line, middle line, last line and
full house. The server keeps every room in an in-memory registry `games`, which maps a room code to a room.

The socket handlers are written as pure transitions. Each takes the registry and the request's payload.
It returns the new registry and the events the handler emits (`Registry.Outcome.Done`), or the
`TypeError` the handler throws (`Registry.Outcome.Crashed`). The values the server draws at random
become parameters of the handler:

- room and player codes;
- the number a call settles on;
- the tickets an assignment generates.

`Registry.WellDrawn` states what the random sources guarantee about these values. Ticket generation
itself is modelled on an explicit stream of random draws (`Tickets.GenerateTicket`).

Modules, one per component:

- `Common`: the optional value (`null`/`undefined`), distinct sequences, the board 1..90 and its size.
- `Tickets`: `generateTicket`. It returns the first 15 distinct draws, in the order they were first drawn.
- `Claims`: `firstFive`, `lineComplete`, `fullHouse`, and the per-ticket claim condition on the raw
  claim-type string.
- `Session`: the room record, the empty room, the truthiness of a claim slot, and the room invariant.
- `Registry`: the registry, the events, and one function per handler (`host_create_game`,
  `host_add_player`, `host_assign_ticket`, `host_call_number`, `host_new_game`,
  `player_join_with_code`, `player_claim`). It also has the request type and a dispatcher.
- `Properties`: lemmas that relate several handler calls. These cover the invariant under every
  handler and every run of handlers, winners that never change, the add/assign/call/join round trip,
  exhaustion, and retiring an old room code.

Some behaviours of the handlers are easy to miss; the model keeps them:

- A claim on a slot that already has a winner returns without emitting anything. It does not send a
  rejection.
- The slot test is JavaScript truthiness. A winner whose name is `""` leaves the slot open, so a later
  valid claim replaces that winner.
- An unknown player code is not ignored. `host_assign_ticket` with a positive count throws. So does
  `player_claim` once it gets past the slot test. The model returns `Crashed` in these cases, and the
  registry is unchanged.
- An unknown claim type passes the slot test. For a player who has a ticket list, it always ends in
  `claim_rejected`.
- Room and player codes are not checked for collisions. A colliding code overwrites the existing room
  or player, including that player's tickets.
- A player with zero tickets can still join, because an empty array is truthy.
- `host_assign_ticket` with a count of zero or less, for an unknown player, throws nothing. It emits
  `ticket_assigned` and changes nothing.

## Model

| member | source | states |
|---|---|---|
| Tickets.GenerateTicket | index.js:20-24 | with draws in 1..90, a ticket is produced iff the draws contain 15 distinct values; it is then 15 distinct board numbers, namely the distinct draws in first-drawn order, and drawing stops at the draw that brings the set to 15 |
| Tickets.FirstSeen | index.js:21-23 | definition of the insertion-ordered contents `[...set]` of a `Set` after each draw is added; its meaning is proved in `Tickets.FirstSeenDistinct` and `Tickets.FirstSeenPrefix`, and `Tickets.GenerateTicket` is proved against it |
| Tickets.FirstSeenDistinct | index.js:21-23 | the contents of the insertion-ordered set are duplicate-free and are exactly the drawn values |
| Tickets.FirstSeenPrefix | index.js:22 | later draws only append to the set's contents, so earlier ticket positions never change |
| Claims.ClaimName | index.js:52-56 | definition of the wire name of each claim type, the key of its claim slot; it is the inverse proved in `Claims.ParseClaim` and `Claims.ParseClaimName` |
| Claims.ParseClaim | index.js:173-177 | a claim-type string names a claim type exactly when it is that type's wire name; any other string names none |
| Claims.ParseClaimName | index.js:51-57 | each of the five claim types is read back from its own wire name |
| Claims.FirstFiveMet | index.js:26-28 | definition of `firstFive`; its meaning is proved in `Claims.FirstFiveMeaning` |
| Claims.Slice | index.js:30 | definition of `slice(start, start + 5)` with indices past the end clamped; used by `Claims.LineComplete` |
| Claims.LineComplete | index.js:29-31 | definition of `lineComplete`; its meaning is proved in `Claims.LineMeaning` |
| Claims.FullHouseMet | index.js:32-34 | definition of `fullHouse`; what it implies is proved in `Claims.FullHouseImpliesAll` and `Claims.CountAllCalled` |
| Claims.Satisfies | index.js:173-177 | definition of the pattern test of one claim type on one ticket; its meaning is proved in `Claims.FirstFiveMeaning`, `Claims.LineMeaning`, `Claims.SatisfiesMonotone` and `Claims.FullHouseImpliesAll`, and it is the reference `Claims.ClaimValid` is proved equal to |
| Claims.TicketMatches | index.js:172-178 | definition of the per-ticket condition on the raw claim-type string; its meaning over all tickets is proved in `Claims.ClaimValid` |
| Claims.LineStart | index.js:174-176 | definition of the start argument 0, 5 or 10 that the first, middle and last line claims pass to `lineComplete`; used by `Claims.Satisfies` and `Claims.TicketMatches`, and its meaning is proved in `Claims.LineMeaning` |
| Claims.CountCalled | index.js:27 | the `filter(...).length` count never exceeds the ticket length |
| Claims.CountCalledPositions | index.js:27 | the count equals the number of ticket positions whose number has been called |
| Claims.CountCalledDistinct | index.js:27 | on a ticket with no repeated number, the count equals the number of the ticket's numbers that have been called |
| Claims.FirstFiveMeaning | index.js:26-28 | `firstFive` holds iff at least five positions hold called numbers; on a valid ticket, iff at least five of its numbers are called |
| Claims.LineMeaning | index.js:29-31 | on a 15-number ticket, a first, middle or last line claim holds iff every number at positions 0-4, 5-9 or 10-14 respectively is called |
| Claims.CountCalledMonotone | index.js:27 | calling more numbers never lowers the count |
| Claims.SatisfiesMonotone | index.js:26-34 | every pattern that holds stays true when more numbers are called |
| Claims.ClaimValidMonotone | index.js:170-182 | a valid claim over a player's tickets stays valid when more numbers are called |
| Claims.CountAllCalled | index.js:27-33 | when every number of a ticket is called, every position counts |
| Claims.FullHouseImpliesAll | index.js:26-34 | on a 15-number ticket, a full house implies each line and the first five |
| Claims.ClaimValid | index.js:170-182 | the claim loop finds a match iff the claim type is one of the five and some ticket of the player satisfies its pattern; an unknown claim type is never valid |
| Session.NewRoom | index.js:44-58 | definition of the room object that `host_create_game` installs, and `host_new_game` installs again at index.js:120-134; its contents are proved in `Session.NewRoomFresh` |
| Session.Awarded | index.js:165 | definition of the truthiness test on a claim slot: a winner is recorded and its name is not `""`; its consequences are proved in `Properties.FirstValidClaimantWins` and `Properties.EmptyNameWinnerIsReplaced` |
| Session.NewRoomFresh | index.js:44-58 | a created room has no players or tickets, nothing called, no current number, five empty claim slots, and satisfies the room invariant |
| Session.CanDraw | index.js:92-96 | in a room with fewer than 90 called numbers there is a board number not yet called, so the rejection loop has something to find |
| Session.ExhaustedIsWholeBoard | index.js:92 | a room has 90 called numbers iff it has called every number of the board |
| Registry.IsRoomCode | index.js:42 | definition of a room code as drawn, six upper-case hex digits (also drawn at index.js:118); used by `Registry.WellDrawn` |
| Registry.IsPlayerCode | index.js:69 | definition of a player code as drawn, four upper-case hex digits; used by `Registry.WellDrawn` |
| Registry.CreateGame | index.js:41-62 | creating a game installs an empty room under the drawn code, leaves every other room alone, and emits `game_created` with that code |
| Registry.AddPlayer | index.js:65-74 | for an existing room, the code gets the player's name and an empty ticket list; other players, rooms, called numbers and claims are unchanged, and `player_added` is emitted; an unknown room is a silent no-op |
| Registry.Iterations | index.js:77-81 | definition of how often the assignment loop runs: `count` defaults to 1, and a count of zero or less runs no iteration; used in the contract of `Registry.AssignTickets` |
| Registry.AssignTickets | index.js:77-86 | for a known player, exactly `count` new tickets (1 by default) are appended after the old tickets, which keep their order, and nothing else changes; an unknown player throws when the count is positive; an unknown room is a silent no-op |
| Registry.CallNumber | index.js:89-106 | with fewer than 90 numbers called, one uncalled number is appended to the history, added to the set and made current, and players, tickets and claims are unchanged; with 90 called, or an unknown room, nothing changes and nothing is emitted |
| Registry.NewGame | index.js:109-140 | for an existing old room, the old code stops resolving (when the new code differs), an empty room is installed under the new code, and other rooms are untouched; `room_closed` is emitted, then `game_created`; an unknown old code is a no-op |
| Registry.Enumerates | index.js:144 | definition of the visiting order of `for (const roomCode in games)`: every room code exactly once; required by `Registry.JoinWithCode` and used by `Properties.JoinFindsOnlyHolder` |
| Registry.FindRoom | index.js:144-146 | the scan returns the first room in visiting order that has a ticket list for the code, or reports that no room has one |
| Registry.JoinWithCode | index.js:143-160 | joining mutates nothing; it gives `join_error` iff no room knows the code; otherwise it answers with the first room in visiting order that knows the code, giving `player_joined` with that room's stored tickets, called history, current number and claims, or throws if that room has no player record for the code (never while the invariant holds) |
| Registry.ClaimOpen | index.js:165 | definition of the guard a claim must pass: the room exists and the slot is not truthy, and an unknown claim type names no slot and always passes; used in every ensures of `Registry.Claim` |
| Registry.Claim | index.js:163-193 | an unknown room or an awarded slot is a silent no-op; an unknown player throws; a claim that no ticket satisfies gets `claim_rejected`; a valid claim sets only that slot to the player's name and emits `claim_accepted`, or throws if the code has tickets but no player record (never while the invariant holds) |
| Registry.WellDrawn | index.js:22-118 | definition of what the random draws guarantee: codes as `randomUUID` prefixes give them (index.js:42, 69, 118), the count and validity of generated tickets (index.js:22), and a called number on the board and not yet called (index.js:95-96); assumed by `Registry.Handle`, `Properties.HandleKeepsInv` and the run lemmas |
| Registry.Handle | index.js:41-193 | definition of the dispatch from a socket event to its handler; what every handler keeps is proved in `Properties.HandleKeepsInv` and `Properties.HandleProgresses` |
| Properties.CreateGameKeepsInv | index.js:41-62 | creating a game keeps the invariant of every room |
| Properties.NewGameKeepsInv | index.js:109-140 | a new game keeps the invariant of every room |
| Properties.AddPlayerKeepsInv | index.js:65-74 | adding a player keeps the invariant of every room |
| Properties.CallNumberKeepsInv | index.js:89-106 | after a call, the history still has no repeats, matches the set, holds at most 90 board numbers, and ends in the current number |
| Properties.AssignTicketsKeepsInv | index.js:77-86 | assigning generated tickets keeps every ticket valid |
| Properties.ClaimKeepsInv | index.js:163-193 | a claim keeps the five claim slots and the rest of the invariant |
| Properties.HandleKeepsInv | index.js:41-193 | every handler, given well-drawn random values, keeps the invariant of every room |
| Properties.HandleProgresses | index.js:41-193 | a request that does not replace a room leaves it present; its called history only grows and every awarded slot keeps its winner |
| Properties.RunKeepsInv | index.js:17-193 | the invariant holds after any run of requests that started from a registry where it held |
| Properties.RunProgresses | index.js:89-193 | over any run that never replaces a room, its called history only grows and an awarded winner is never changed |
| Properties.FirstValidClaimantWins | index.js:165-192 | a valid claim on an open slot is accepted for that claimant; when the claimant's name is not empty, any later claim of the same type, by anyone, is dropped without an event |
| Properties.EmptyNameWinnerIsReplaced | index.js:165-190 | a slot won under the name `""` is still open, and a later valid claimant takes it over |
| Properties.JoinFindsOnlyHolder | index.js:143-157 | when exactly one room holds a player code, joining reports that room, whatever order the rooms are visited in |
| Properties.AddThenAssign | index.js:65-86 | after a new player is added and given tickets, the player is in exactly one room and holds exactly those tickets |
| Properties.AddAssignCallJoin | index.js:65-157 | a player who was added, given tickets, and then joins after a call receives exactly those tickets and the whole called history in call order |
| Properties.ExhaustedCallIsNoOp | index.js:92 | once every board number is called, 90 numbers are called and a further call changes nothing and emits nothing |
| Properties.NewGameRetiresOldCode | index.js:109-140 | after a new game under a different code, calls, player additions and claims on the old code do nothing, and the new code names an empty room |
| Common.BoardNotCovered | index.js:92-96 | a set of board numbers with fewer than 90 members misses some board number |
| Common.BoardCovered | index.js:92 | a set of board numbers with 90 members is the whole board |

## Left out

- The Express app, the HTTP server, CORS, socket.io setup, the GET route and `listen` (index.js:1-15,196-204) are transport. Emitted events are returned values instead.
- Socket room membership (`join`, `leave`) and the audience of each event (whole room or requester only) belong to the messaging layer and are not modelled.
- `Math.random` and `randomUUID` are not modelled. Their results are parameters, constrained by `Registry.WellDrawn`. For tickets, a finite draw stream stands in for them. The rejection loops end only with probability 1, so `GenerateTicket` returns `None` when its stream runs out. `Session.CanDraw` shows that the call loop always has a number left to find.
- The host's socket id (index.js:45,121) is stored but never read, so it is not modelled.
- Concurrency is not modelled. Handlers run one at a time on the event loop.
- Payload values that are not of the expected type are not modelled. That covers a non-string player name, a non-integer or `null` count, and a non-string code. Object keys inherited from `Object.prototype` (such as `"constructor"`) are not modelled either. The model treats `games`, `players`, `tickets` and `claims` as plain maps.
- A `Crashed` outcome records only that the handler threw. What the Node process does after an uncaught exception is not modelled.
- JavaScript's `for…in` visiting order is not computed. `JoinWithCode` takes it as a parameter that lists every room code once. This matters only when two rooms hold the same player code.
