/** Claim validation: `firstFive`, `lineComplete`, `fullHouse`
    (index.js:26-34) and the per-ticket condition of `player_claim`
    (index.js:170-182). Everything here is a pure function of a ticket, the
    set of called numbers and the claim type. */
module Claims {
  import opened Common
  import opened Tickets

  /** The five win patterns, one claim slot each. */
  datatype ClaimType = FirstFive | FirstLine | MiddleLine | LastLine | FullHouse

  const AllClaimTypes: set<ClaimType> := {FirstFive, FirstLine, MiddleLine, LastLine, FullHouse}

  /** Numbers in one line of a ticket. */
  const LineLength := 5

  /** The claim type as it travels on the wire. */
  function ClaimName(ct: ClaimType): string {
    match ct
    case FirstFive => "FIRST_FIVE"
    case FirstLine => "FIRST_LINE"
    case MiddleLine => "MIDDLE_LINE"
    case LastLine => "LAST_LINE"
    case FullHouse => "FULL_HOUSE"
  }

  /** Reads a claim type from the wire; any other string is unknown. */
  function ParseClaim(s: string): (r: Option<ClaimType>)
    ensures r.Some? ==> ClaimName(r.value) == s
    ensures r.None? ==> forall ct :: ClaimName(ct) != s
  {
    if s == "FIRST_FIVE" then Some(FirstFive)
    else if s == "FIRST_LINE" then Some(FirstLine)
    else if s == "MIDDLE_LINE" then Some(MiddleLine)
    else if s == "LAST_LINE" then Some(LastLine)
    else if s == "FULL_HOUSE" then Some(FullHouse)
    else None
  }

  lemma ParseClaimName(ct: ClaimType)
    ensures ParseClaim(ClaimName(ct)) == Some(ct)
  {
  }

  /** First position of the line a line claim asks for (index.js:174-176). */
  function LineStart(ct: ClaimType): nat
    requires ct in {FirstLine, MiddleLine, LastLine}
  {
    match ct
    case FirstLine => 0
    case MiddleLine => 5
    case LastLine => 10
  }

  /** `ticket.filter(n => called.has(n)).length`: how many positions of `t`
      hold a called number. */
  function CountCalled(t: seq<int>, called: set<int>): (k: nat)
    ensures k <= |t|
    decreases |t|
  {
    if t == [] then 0
    else CountCalled(t[..|t| - 1], called) + (if t[|t| - 1] in called then 1 else 0)
  }

  /** Positions of `t` whose number has been called. */
  function CalledPositions(t: seq<int>, called: set<int>): set<nat> {
    set i: nat | i < |t| && t[i] in called
  }

  /** `firstFive`. */
  predicate FirstFiveMet(t: seq<int>, called: set<int>) {
    CountCalled(t, called) >= 5
  }

  /** `Array.prototype.slice(start, end)` for `0 <= start <= end`: indices
      past the end are clamped to the length. */
  function Slice(t: seq<int>, start: nat, end: nat): seq<int>
    requires start <= end
  {
    var a := if start < |t| then start else |t|;
    var b := if end < |t| then end else |t|;
    t[a..b]
  }

  /** `lineComplete`: every number of `t.slice(start, start + 5)` is called. */
  predicate LineComplete(t: seq<int>, called: set<int>, start: nat) {
    var line := Slice(t, start, start + LineLength);
    forall i :: 0 <= i < |line| ==> line[i] in called
  }

  /** `fullHouse`. */
  predicate FullHouseMet(t: seq<int>, called: set<int>) {
    forall i :: 0 <= i < |t| ==> t[i] in called
  }

  /** The pattern of claim type `ct` holds on ticket `t`. */
  predicate Satisfies(t: seq<int>, called: set<int>, ct: ClaimType) {
    match ct
    case FirstFive => FirstFiveMet(t, called)
    case FirstLine | MiddleLine | LastLine => LineComplete(t, called, LineStart(ct))
    case FullHouse => FullHouseMet(t, called)
  }

  /** Some ticket of the player satisfies the pattern. */
  predicate AnySatisfies(tickets: seq<Ticket>, called: set<int>, ct: ClaimType) {
    exists i :: 0 <= i < |tickets| && Satisfies(tickets[i], called, ct)
  }

  /** The condition tested for one ticket, on the raw claim type string
      (index.js:172-178). */
  predicate TicketMatches(t: Ticket, called: set<int>, claimType: string) {
    || (claimType == "FIRST_FIVE" && FirstFiveMet(t, called))
    || (claimType == "FIRST_LINE" && LineComplete(t, called, LineStart(FirstLine)))
    || (claimType == "MIDDLE_LINE" && LineComplete(t, called, LineStart(MiddleLine)))
    || (claimType == "LAST_LINE" && LineComplete(t, called, LineStart(LastLine)))
    || (claimType == "FULL_HOUSE" && FullHouseMet(t, called))
  }

  /** The `for (const t of tickets)` loop of `player_claim`: true as soon as
      one ticket matches. A claim is valid exactly when the claim type is one
      of the five and some ticket satisfies its pattern; an unknown claim type
      is never valid. */
  function ClaimValid(tickets: seq<Ticket>, called: set<int>, claimType: string): (valid: bool)
    ensures valid <==> ParseClaim(claimType).Some? && AnySatisfies(tickets, called, ParseClaim(claimType).value)
    decreases |tickets|
  {
    if tickets == [] then false
    else if TicketMatches(tickets[0], called, claimType) then true
    else
      var rest := ClaimValid(tickets[1..], called, claimType);
      assert forall i :: 1 <= i < |tickets| ==> tickets[i] == tickets[1..][i - 1];
      rest
  }

  /** The count of `firstFive` is the number of called positions. */
  lemma {:induction false} CountCalledPositions(t: seq<int>, called: set<int>)
    ensures CountCalled(t, called) == |CalledPositions(t, called)|
    decreases |t|
  {
    if t != [] {
      var init := t[..|t| - 1];
      CountCalledPositions(init, called);
      if t[|t| - 1] in called {
        assert CalledPositions(t, called) == CalledPositions(init, called) + {|t| - 1};
      } else {
        assert CalledPositions(t, called) == CalledPositions(init, called);
      }
    }
  }

  /** On a ticket without repeated numbers the count is the number of its
      numbers that have been called. */
  lemma {:induction false} CountCalledDistinct(t: seq<int>, called: set<int>)
    requires Distinct(t)
    ensures CountCalled(t, called) == |Elems(t) * called|
    decreases |t|
  {
    if t != [] {
      var init := t[..|t| - 1];
      var x := t[|t| - 1];
      CountCalledDistinct(init, called);
      assert t == init + [x];
      assert x !in Elems(init);
      if x in called {
        assert Elems(t) * called == (Elems(init) * called) + {x};
      } else {
        assert Elems(t) * called == Elems(init) * called;
      }
    }
  }

  /** `firstFive` holds iff at least five positions of the ticket hold a
      called number; on a valid ticket, iff at least five of its numbers have
      been called. */
  lemma FirstFiveMeaning(t: seq<int>, called: set<int>)
    ensures FirstFiveMet(t, called) <==> |CalledPositions(t, called)| >= 5
    ensures ValidTicket(t) ==> (FirstFiveMet(t, called) <==> |Elems(t) * called| >= 5)
  {
    CountCalledPositions(t, called);
    if ValidTicket(t) {
      CountCalledDistinct(t, called);
    }
  }

  /** A line claim holds iff every number at positions `start .. start + 4`
      of a 15-number ticket has been called. */
  lemma LineMeaning(t: seq<int>, called: set<int>, ct: ClaimType)
    requires |t| == TicketSize
    requires ct in {FirstLine, MiddleLine, LastLine}
    ensures Satisfies(t, called, ct) <==>
              forall i :: LineStart(ct) <= i < LineStart(ct) + LineLength ==> t[i] in called
  {
    var s := LineStart(ct);
    var line := Slice(t, s, s + LineLength);
    assert line == t[s..s + LineLength];
    assert forall i :: 0 <= i < LineLength ==> line[i] == t[s + i];
    if Satisfies(t, called, ct) {
      forall i | s <= i < s + LineLength
        ensures t[i] in called
      {
        assert line[i - s] == t[i];
      }
    }
  }

  /** Adding called numbers never removes a called position. */
  lemma {:induction false} CountCalledMonotone(t: seq<int>, called: set<int>, more: set<int>)
    requires called <= more
    ensures CountCalled(t, called) <= CountCalled(t, more)
    decreases |t|
  {
    if t != [] {
      CountCalledMonotone(t[..|t| - 1], called, more);
    }
  }

  /** Every pattern is monotone in the called set: once satisfied it stays
      satisfied as more numbers are called. */
  lemma SatisfiesMonotone(t: seq<int>, called: set<int>, more: set<int>, ct: ClaimType)
    requires called <= more
    requires Satisfies(t, called, ct)
    ensures Satisfies(t, more, ct)
  {
    if ct == FirstFive {
      CountCalledMonotone(t, called, more);
    }
  }

  /** The same holds for a whole claim over several tickets. */
  lemma ClaimValidMonotone(tickets: seq<Ticket>, called: set<int>, more: set<int>, claimType: string)
    requires called <= more
    requires ClaimValid(tickets, called, claimType)
    ensures ClaimValid(tickets, more, claimType)
  {
    var ct := ParseClaim(claimType).value;
    var i :| 0 <= i < |tickets| && Satisfies(tickets[i], called, ct);
    SatisfiesMonotone(tickets[i], called, more, ct);
  }

  /** When every number of `t` is called, every position counts. */
  lemma {:induction false} CountAllCalled(t: seq<int>, called: set<int>)
    requires FullHouseMet(t, called)
    ensures CountCalled(t, called) == |t|
    decreases |t|
  {
    if t != [] {
      CountAllCalled(t[..|t| - 1], called);
    }
  }

  /** On a 15-number ticket a full house implies all three lines and the
      first five. */
  lemma FullHouseImpliesAll(t: seq<int>, called: set<int>, ct: ClaimType)
    requires |t| == TicketSize
    requires Satisfies(t, called, FullHouse)
    ensures Satisfies(t, called, ct)
  {
    if ct == FirstFive {
      CountAllCalled(t, called);
    } else if ct != FullHouse {
      LineMeaning(t, called, ct);
    }
  }
}
