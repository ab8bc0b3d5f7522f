/** Ticket generation (`generateTicket`, index.js:20-24).

    The source keeps adding `Math.floor(Math.random() * 90) + 1` to a
    JavaScript `Set` until it holds 15 values, then spreads the set into an
    array. A `Set` iterates in insertion order, so the ticket is the first 15
    distinct draws in the order they were first drawn; that order fixes the
    three lines of the ticket. The random source is modelled as a finite
    stream of draws given by the caller. */
module Tickets {
  import opened Common

  /** Numbers on a ticket. */
  const TicketSize := 15

  /** A ticket: its numbers in draw order (positions 0-4, 5-9, 10-14 are the
      first, middle and last line). */
  type Ticket = seq<int>

  /** What a generated ticket always is: 15 distinct numbers of the board. */
  predicate ValidTicket(t: Ticket) {
    && |t| == TicketSize
    && Distinct(t)
    && forall i :: 0 <= i < |t| ==> OnBoard(t[i])
  }

  /** The contents of a `Set` after adding each of `draws` in turn, listed in
      insertion order: the distinct values of `draws` in order of first
      appearance. */
  function FirstSeen(draws: seq<int>): seq<int>
    decreases |draws|
  {
    if draws == [] then []
    else
      var prev := FirstSeen(draws[..|draws| - 1]);
      var x := draws[|draws| - 1];
      if x in prev then prev else prev + [x]
  }

  /** `FirstSeen` lists every drawn value exactly once. */
  lemma {:induction false} FirstSeenDistinct(draws: seq<int>)
    ensures Distinct(FirstSeen(draws))
    ensures Elems(FirstSeen(draws)) == Elems(draws)
    decreases |draws|
  {
    if draws != [] {
      var init := draws[..|draws| - 1];
      FirstSeenDistinct(init);
      assert draws == init + [draws[|draws| - 1]];
      assert Elems(draws) == Elems(init) + {draws[|draws| - 1]};
    }
  }

  /** Drawing more values only ever appends to the set's contents. */
  lemma {:induction false} FirstSeenPrefix(draws: seq<int>, k: nat)
    requires k <= |draws|
    ensures FirstSeen(draws[..k]) <= FirstSeen(draws)
    decreases |draws| - k
  {
    if k < |draws| {
      FirstSeenPrefix(draws, k + 1);
      assert draws[..k + 1][..k] == draws[..k];
    } else {
      assert draws[..k] == draws;
    }
  }

  /** `generateTicket` run on the random stream `draws`. It consumes draws
      until 15 distinct values have been seen and returns them in draw order;
      `used` is the number of draws consumed. `None` means the stream ran out
      first (the source would keep drawing). */
  method GenerateTicket(draws: seq<int>) returns (ticket: Option<Ticket>, used: nat)
    requires forall i :: 0 <= i < |draws| ==> OnBoard(draws[i])
    ensures used <= |draws|
    ensures ticket.Some? <==> |FirstSeen(draws)| >= TicketSize
    ensures ticket.Some? ==> ValidTicket(ticket.value)
    ensures ticket.Some? ==> ticket.value == FirstSeen(draws[..used])
    ensures ticket.Some? ==> 0 < used && |FirstSeen(draws[..used - 1])| < TicketSize
    ensures ticket.None? ==> used == |draws|
  {
    var t: seq<int> := [];
    var i := 0;
    while |t| < TicketSize && i < |draws|
      invariant i <= |draws|
      invariant t == FirstSeen(draws[..i])
      invariant |t| <= TicketSize
      invariant |t| == TicketSize ==> 0 < i && |FirstSeen(draws[..i - 1])| < TicketSize
    {
      assert draws[..i + 1][..i] == draws[..i];
      if draws[i] !in t {
        t := t + [draws[i]];
      }
      i := i + 1;
    }
    used := i;
    FirstSeenDistinct(draws[..i]);
    FirstSeenPrefix(draws, i);
    if |t| == TicketSize {
      forall j | 0 <= j < |t|
        ensures OnBoard(t[j])
      {
        assert t[j] in Elems(draws[..i]);
      }
      ticket := Some(t);
    } else {
      assert draws[..i] == draws;
      ticket := None;
    }
  }
}
