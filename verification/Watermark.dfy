/**
The worker's completion watermark: tickets finish in any order, and the flush
barrier publishes the highest ticket below which nothing is missing.
*/
module Watermark {
  import opened Records

  /** `saturating_add(1)` on a u64. */
  function Successor(t: Ticket): Ticket {
    if t < U64_MAX then t + 1 else U64_MAX
  }

  datatype Tracker = Tracker(watermark: Ticket, outOfOrder: set<Ticket>) {

    /** Every ticket at or below the watermark, and every parked one, is completed. */
    ghost predicate Has(t: Ticket) {
      1 <= t <= watermark || t in outOfOrder
    }

    /** Parked tickets are strictly above a gap. */
    predicate Normal() {
      && (forall t <- outOfOrder :: t > watermark)
      && (watermark < U64_MAX ==> watermark + 1 !in outOfOrder)
    }
  }

  const FRESH := Tracker(0, {})

  /** The loop of `complete`: move the watermark across every parked successor. */
  function Advance(w: Ticket, parked: set<Ticket>): (r: Tracker)
    decreases |parked|
  {
    if Successor(w) in parked then Advance(Successor(w), parked - {Successor(w)}) else Tracker(w, parked)
  }

  function AfterOne(tracker: Tracker, t: Ticket): Tracker {
    if t <= tracker.watermark then tracker else Advance(tracker.watermark, tracker.outOfOrder + {t})
  }

  function AfterAll(tracker: Tracker, tickets: seq<Ticket>): Tracker {
    if tickets == [] then tracker
    else AfterOne(AfterAll(tracker, tickets[..|tickets| - 1]), tickets[|tickets| - 1])
  }

  /** Advancing keeps the completed set, never lowers the watermark, and stops at the first gap. */
  lemma {:induction false} AdvanceKeepsMembers(w: Ticket, parked: set<Ticket>)
    requires forall t <- parked :: t > w
    ensures Advance(w, parked).watermark >= w
    ensures Advance(w, parked).Normal()
    ensures forall t: Ticket :: Advance(w, parked).Has(t) <==> Tracker(w, parked).Has(t)
    decreases |parked|
  {
    if Successor(w) in parked {
      AdvanceKeepsMembers(Successor(w), parked - {Successor(w)});
    }
  }

  /** One completion adds exactly that ticket (ticket 0 is never issued and is ignored). */
  lemma CompleteAddsOne(tracker: Tracker, t: Ticket)
    requires tracker.Normal()
    ensures AfterOne(tracker, t).Normal()
    ensures AfterOne(tracker, t).watermark >= tracker.watermark
    ensures forall u: Ticket :: AfterOne(tracker, t).Has(u) <==> tracker.Has(u) || (u == t && t >= 1)
  {
    if t > tracker.watermark {
      AdvanceKeepsMembers(tracker.watermark, tracker.outOfOrder + {t});
    }
  }

  /** No ticket up to `v` is missing from `done`. */
  ghost predicate Covers(v: Ticket, done: iset<Ticket>) {
    forall t: Ticket :: 1 <= t <= v ==> t in done
  }

  /** After any completions, in any order and with repeats: the watermark is the
      greatest contiguous one, and the parked set is exactly what lies above it. */
  lemma WatermarkIsGreatest(tickets: seq<Ticket>)
    ensures
      var r := AfterAll(FRESH, tickets);
      var done := iset t: Ticket | t in tickets && t >= 1;
      && Covers(r.watermark, done)
      && (forall v: Ticket :: Covers(v, done) ==> v <= r.watermark)
      && (forall t: Ticket :: t in r.outOfOrder <==> t in done && t > r.watermark)
  {
    var r := AfterAll(FRESH, tickets);
    var done := iset t: Ticket | t in tickets && t >= 1;
    MembersAreTickets(tickets);
    if r.watermark < U64_MAX {
      var gap: Ticket := r.watermark + 1;
      assert !r.Has(gap);
      assert gap !in done;
    }
  }

  lemma {:induction false} MembersAreTickets(tickets: seq<Ticket>)
    ensures AfterAll(FRESH, tickets).Normal()
    ensures forall t: Ticket :: AfterAll(FRESH, tickets).Has(t) <==> t in tickets && t >= 1
  {
    if tickets != [] {
      var init, last := tickets[..|tickets| - 1], tickets[|tickets| - 1];
      assert tickets == init + [last];
      MembersAreTickets(init);
      CompleteAddsOne(AfterAll(FRESH, init), last);
    }
  }

  /** The tracker forgets the order: equal sets of completed tickets give equal trackers. */
  lemma OrderIsIrrelevant(a: seq<Ticket>, b: seq<Ticket>)
    requires forall t: Ticket :: t >= 1 ==> (t in a <==> t in b)
    ensures AfterAll(FRESH, a) == AfterAll(FRESH, b)
  {
    var ra, rb := AfterAll(FRESH, a), AfterAll(FRESH, b);
    MembersAreTickets(a);
    MembersAreTickets(b);
    SameMembersSameWatermark(ra, rb);
    SameMembersSameWatermark(rb, ra);
    assert forall t: Ticket :: t in ra.outOfOrder <==> ra.Has(t) && t > ra.watermark;
    assert forall t: Ticket :: t in rb.outOfOrder <==> rb.Has(t) && t > rb.watermark;
    assert ra.outOfOrder == rb.outOfOrder;
  }

  lemma SameMembersSameWatermark(x: Tracker, y: Tracker)
    requires x.Normal() && y.Normal()
    requires forall t: Ticket :: x.Has(t) <==> y.Has(t)
    ensures x.watermark <= y.watermark
  {
    if y.watermark < U64_MAX {
      var gap: Ticket := y.watermark + 1;
      assert !y.Has(gap);
      assert !x.Has(gap);
    }
  }

  /** The two words of `Shared` that a completion writes: the published watermark
      and the number of `progress.notify_waiters` calls. */
  class Progress {
    var completedTicket: Ticket
    var wakes: nat

    constructor ()
      ensures completedTicket == 0 && wakes == 0
    {
      completedTicket := 0;
      wakes := 0;
    }
  }

  class CompletionTracker {
    var watermark: Ticket
    var outOfOrder: set<Ticket>

    function State(): Tracker
      reads this
    {
      Tracker(watermark, outOfOrder)
    }

    constructor (shared: Progress)
      ensures State() == Tracker(shared.completedTicket, {})
    {
      watermark := shared.completedTicket;
      outOfOrder := {};
    }

    /** Completes one ticket. Published progress is the new watermark, and waiters
        are woken exactly when the ticket was not already below it. */
    method Complete(ticket: Ticket, shared: Progress)
      requires State().Normal()
      modifies this, shared
      ensures State() == AfterOne(old(State()), ticket) && State().Normal()
      ensures watermark >= old(watermark)
      ensures ticket >= 1 ==> State().Has(ticket)
      ensures ticket <= old(watermark) ==>
        shared.completedTicket == old(shared.completedTicket) && shared.wakes == old(shared.wakes)
      ensures ticket > old(watermark) ==> shared.completedTicket == watermark && shared.wakes == old(shared.wakes) + 1
    {
      CompleteAddsOne(State(), ticket);
      if ticket <= watermark {
        return;
      }
      outOfOrder := outOfOrder + {ticket};
      while Successor(watermark) in outOfOrder
        invariant Advance(watermark, outOfOrder) == Advance(old(watermark), old(outOfOrder) + {ticket})
        invariant watermark >= old(watermark)
        invariant shared.completedTicket == old(shared.completedTicket) && shared.wakes == old(shared.wakes)
        decreases |outOfOrder|
      {
        outOfOrder := outOfOrder - {Successor(watermark)};
        watermark := Successor(watermark);
      }
      shared.completedTicket := watermark;
      shared.wakes := shared.wakes + 1;
    }

    /** Completes a whole segment; what is published never goes backwards. */
    method CompleteAll(tickets: seq<Ticket>, shared: Progress)
      requires State().Normal() && shared.completedTicket == watermark
      modifies this, shared
      ensures State() == AfterAll(old(State()), tickets) && State().Normal()
      ensures shared.completedTicket == watermark >= old(watermark)
      ensures forall t <- tickets :: t >= 1 ==> State().Has(t)
    {
      for i := 0 to |tickets|
        invariant State() == AfterAll(old(State()), tickets[..i]) && State().Normal()
        invariant shared.completedTicket == watermark >= old(watermark)
        invariant forall t <- tickets[..i] :: t >= 1 ==> State().Has(t)
      {
        ghost var before := State();
        Complete(tickets[i], shared);
        CompleteAddsOne(before, tickets[i]);
        assert tickets[..i + 1][..i] == tickets[..i];
      }
      assert tickets[..|tickets|] == tickets;
    }
  }
}
