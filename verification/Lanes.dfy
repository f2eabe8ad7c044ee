/** Producer lanes and the registry that the worker drains, updated in place. */
module Lanes {
  import opened Records
  import opened Drain
  import opened Wrappers

  class ProducerLane {
    var queues: LaneQueues
    var spare: Option<LaneQueues>
    var closed: bool

    /** Whatever waits to be swapped in is empty, so a swap never resurrects records. */
    predicate Valid()
      reads this
    {
      spare.Some? ==> spare.value.IsEmpty()
    }

    constructor ()
      ensures Valid() && queues == EMPTY_QUEUES && !closed
    {
      queues, spare, closed := EMPTY_QUEUES, None, false;
    }

    /** Returns whether both queues were empty: only that push must wake the worker. */
    method Push(log: QueuedLog) returns (wasEmpty: bool)
      requires Valid()
      modifies this`queues
      ensures Valid() && queues == old(queues).Push(log)
      ensures wasEmpty <==> old(queues).normal == [] && old(queues).reserved == []
    {
      wasEmpty := queues.IsEmpty();
      match log.queue
      case Normal => queues := queues.(normal := queues.normal + [log]);
      case Reserved => queues := queues.(reserved := queues.reserved + [log]);
    }

    /** Swaps both queues out; the lane is left empty. */
    method Take() returns (taken: LaneQueues)
      requires Valid()
      modifies this`queues, this`spare
      ensures Valid() && taken == old(queues) && queues == EMPTY_QUEUES && spare == None
    {
      var replacement := if spare.Some? then spare.value else EMPTY_QUEUES;
      spare := None;
      taken := queues;
      queues := replacement;
    }

    method Recycle(drained: LaneQueues)
      requires Valid() && drained.IsEmpty()
      modifies this`spare
      ensures Valid() && spare.Some? && (old(spare).Some? ==> spare == old(spare))
    {
      if spare.None? {
        spare := Some(drained);
      }
    }

    predicate IsClosedAndEmpty()
      reads this
    {
      closed && queues.IsEmpty()
    }
  }

  /** The lanes that a drain keeps: it drops those that are closed and hold nothing. */
  function Retained(lanes: seq<ProducerLane>): (r: seq<ProducerLane>)
    reads lanes
    ensures forall lane <- r :: lane in lanes
    ensures forall lane <- lanes :: lane in r <==> !lane.IsClosedAndEmpty()
  {
    if lanes == [] then []
    else if lanes[|lanes| - 1].IsClosedAndEmpty() then Retained(lanes[..|lanes| - 1])
    else Retained(lanes[..|lanes| - 1]) + [lanes[|lanes| - 1]]
  }

  /** The lanes that are kept stay in their order. */
  lemma {:induction false} RetainedInOrder(lanes: seq<ProducerLane>, i: nat, j: nat) returns (x: nat, y: nat)
    requires i < j < |lanes| && !lanes[i].IsClosedAndEmpty() && !lanes[j].IsClosedAndEmpty()
    ensures x < y < |Retained(lanes)| && Retained(lanes)[x] == lanes[i] && Retained(lanes)[y] == lanes[j]
  {
    var init := lanes[..|lanes| - 1];
    if j < |lanes| - 1 {
      x, y := RetainedInOrder(init, i, j);
    } else {
      assert lanes[i] in Retained(init);
      x :| x < |Retained(init)| && Retained(init)[x] == lanes[i];
      y := |Retained(init)|;
    }
  }

  function Queues(lanes: seq<ProducerLane>): (r: seq<LaneQueues>)
    reads lanes
    ensures |r| == |lanes|
  {
    seq(|lanes|, i requires 0 <= i < |lanes| reads lanes => lanes[i].queues)
  }

  method Retain(lanes: seq<ProducerLane>) returns (kept: seq<ProducerLane>)
    requires forall i, j :: 0 <= i < j < |lanes| ==> lanes[i] != lanes[j]
    ensures kept == Retained(lanes)
    ensures forall i, j :: 0 <= i < j < |kept| ==> kept[i] != kept[j]
  {
    kept := [];
    for i := 0 to |lanes|
      invariant kept == Retained(lanes[..i])
      invariant forall a, b :: 0 <= a < b < |kept| ==> kept[a] != kept[b]
    {
      assert lanes[..i + 1][..i] == lanes[..i];
      if !lanes[i].IsClosedAndEmpty() {
        kept := kept + [lanes[i]];
      }
    }
    assert lanes[..|lanes|] == lanes;
  }

  class LaneRegistry {
    var lanes: seq<ProducerLane>
    var cursor: nat

    ghost predicate Valid()
      reads this, lanes
    {
      && (forall lane <- lanes :: lane.Valid())
      && (forall i, j :: 0 <= i < j < |lanes| ==> lanes[i] != lanes[j])
    }

    constructor ()
      ensures Valid() && lanes == [] && cursor == 0
    {
      lanes, cursor := [], 0;
    }

    method Register() returns (lane: ProducerLane)
      requires Valid()
      modifies this`lanes
      ensures Valid() && fresh(lane) && lanes == old(lanes) + [lane]
      ensures lane.queues == EMPTY_QUEUES && !lane.closed
    {
      lane := new ProducerLane();
      lanes := lanes + [lane];
    }

    /** Appends everything the retained lanes hold to the worker's inbox, reserved and
        normal separately, and leaves those lanes empty. `order` is the visiting order. */
    method DrainInto(reserved: seq<QueuedLog>, normal: seq<QueuedLog>)
      returns (reserved': seq<QueuedLog>, normal': seq<QueuedLog>, moved: nat, ghost order: seq<ProducerLane>)
      requires Valid()
      modifies this, set lane | lane in lanes
      ensures Valid() && lanes == old(Retained(lanes))
      ensures order == Rotated(lanes, old(cursor)) && cursor == NextCursor(old(cursor), |lanes|)
      ensures reserved' == reserved + Interleave(KindQueues(old(Queues(order)), Reserved))
      ensures normal' == normal + Interleave(KindQueues(old(Queues(order)), Normal))
      ensures moved == |reserved'| + |normal'| - |reserved| - |normal|
      ensures forall lane <- order :: lane.queues == EMPTY_QUEUES && lane.closed == old(lane.closed)
    {
      lanes := Retain(lanes);
      label kept:
      reserved', normal', order := DrainKept(reserved, normal);
      assert old@kept(Queues(order)) == old(Queues(order));
      moved := |reserved'| + |normal'| - (|reserved| + |normal|);
    }

    method DrainKept(reserved: seq<QueuedLog>, normal: seq<QueuedLog>)
      returns (reserved': seq<QueuedLog>, normal': seq<QueuedLog>, ghost order: seq<ProducerLane>)
      requires Valid()
      modifies this`cursor, set lane | lane in lanes
      ensures Valid() && order == Rotated(lanes, old(cursor)) && cursor == NextCursor(old(cursor), |lanes|)
      ensures reserved' == reserved + Interleave(KindQueues(old(Queues(order)), Reserved))
      ensures normal' == normal + Interleave(KindQueues(old(Queues(order)), Normal))
      ensures forall lane <- order :: lane.queues == EMPTY_QUEUES && lane.closed == old(lane.closed)
    {
      order := Rotated(lanes, cursor);
      RotationVisitsAll(lanes, cursor);
      if |lanes| == 0 {
        cursor := 0;
        assert KindQueues([], Reserved) == [] == KindQueues([], Normal);
        return reserved, normal, [];
      }
      var ordered := VisitOrder(lanes, cursor);
      cursor := NextCursor(cursor, |lanes|);
      assert Queues(ordered) == old(Queues(ordered));
      assert forall lane <- ordered :: lane.Valid();
      reserved', normal' := DrainOrder(ordered, reserved, normal);
    }
  }

  /** Reserved records leave first; both queues of every batch end up empty. */
  method DrainTaken(batches: array<LaneQueues>, reserved: seq<QueuedLog>, normal: seq<QueuedLog>)
    returns (reserved': seq<QueuedLog>, normal': seq<QueuedLog>)
    modifies batches
    ensures reserved' == reserved + Interleave(KindQueues(old(batches[..]), Reserved))
    ensures normal' == normal + Interleave(KindQueues(old(batches[..]), Normal))
    ensures forall i :: 0 <= i < batches.Length ==> batches[i].IsEmpty()
  {
    ghost var taken := batches[..];
    reserved' := DrainBatches(batches, Reserved, reserved);
    assert KindQueues(batches[..], Normal) == KindQueues(taken, Normal);
    normal' := DrainBatches(batches, Normal, normal);
  }

  method DrainOrder(order: seq<ProducerLane>, reserved: seq<QueuedLog>, normal: seq<QueuedLog>)
    returns (reserved': seq<QueuedLog>, normal': seq<QueuedLog>)
    requires forall lane <- order :: lane.Valid()
    requires forall i, j :: 0 <= i < j < |order| ==> order[i] != order[j]
    modifies set lane | lane in order
    ensures reserved' == reserved + Interleave(KindQueues(old(Queues(order)), Reserved))
    ensures normal' == normal + Interleave(KindQueues(old(Queues(order)), Normal))
    ensures forall lane <- order :: lane.Valid() && lane.queues == EMPTY_QUEUES && lane.closed == old(lane.closed)
  {
    var batches := TakeAll(order);
    reserved', normal' := DrainTaken(batches, reserved, normal);
    RecycleAll(order, batches);
  }

  lemma RotationVisitsAll(lanes: seq<ProducerLane>, cursor: nat)
    requires forall i, j :: 0 <= i < j < |lanes| ==> lanes[i] != lanes[j]
    ensures var order := Rotated(lanes, cursor);
      && (forall i, j :: 0 <= i < j < |order| ==> order[i] != order[j])
      && (forall lane <- order :: lane in lanes)
      && (forall lane <- lanes :: lane in order)
  {
    if lanes != [] {
      var start := cursor % |lanes|;
      assert lanes == lanes[..start] + lanes[start..];
    }
  }

  method TakeAll(order: seq<ProducerLane>) returns (batches: array<LaneQueues>)
    requires forall lane <- order :: lane.Valid()
    requires forall i, j :: 0 <= i < j < |order| ==> order[i] != order[j]
    modifies set lane | lane in order
    ensures fresh(batches) && batches[..] == old(Queues(order))
    ensures forall lane <- order :: lane.Valid() && lane.queues == EMPTY_QUEUES && lane.closed == old(lane.closed)
  {
    batches := new LaneQueues[|order|](_ => EMPTY_QUEUES);
    for i := 0 to |order|
      invariant forall j :: 0 <= j < i ==> batches[j] == old(order[j].queues)
      invariant forall j :: 0 <= j < i ==> order[j].queues == EMPTY_QUEUES
      invariant forall j :: i <= j < |order| ==> order[j].queues == old(order[j].queues)
      invariant forall lane <- order :: lane.Valid() && lane.closed == old(lane.closed)
    {
      var taken := order[i].Take();
      batches[i] := taken;
    }
  }

  method RecycleAll(order: seq<ProducerLane>, batches: array<LaneQueues>)
    requires batches.Length == |order|
    requires forall lane <- order :: lane.Valid()
    requires forall i :: 0 <= i < batches.Length ==> batches[i].IsEmpty()
    modifies set lane | lane in order
    ensures forall lane <- order :: lane.Valid() && lane.queues == old(lane.queues) && lane.closed == old(lane.closed)
  {
    for i := 0 to |order|
      invariant forall j :: 0 <= j < batches.Length ==> batches[j].IsEmpty()
      invariant forall lane <- order ::
        lane.Valid() && lane.queues == old(lane.queues) && lane.closed == old(lane.closed)
    {
      order[i].Recycle(batches[i]);
    }
  }

  lemma NothingInterleaved(qs: seq<seq<QueuedLog>>)
    requires Interleave(qs) == []
    ensures forall i :: 0 <= i < |qs| ==> qs[i] == []
  {
    OnePassEmpty(qs);
    if OnePass(qs) != [] {
      InterleaveStarts(qs);
    }
  }

  lemma NothingInLanes(queues: seq<LaneQueues>)
    requires Interleave(KindQueues(queues, Reserved)) == [] == Interleave(KindQueues(queues, Normal))
    ensures forall i :: 0 <= i < |queues| ==> queues[i].IsEmpty()
  {
    NothingInterleaved(KindQueues(queues, Reserved));
    NothingInterleaved(KindQueues(queues, Normal));
    forall i | 0 <= i < |queues|
      ensures queues[i].IsEmpty()
    {
      assert KindQueues(queues, Reserved)[i] == queues[i].reserved && KindQueues(queues, Normal)[i] == queues[i].normal;
    }
  }

  /** The worker's inbox: what it has swapped out and not handled yet. */
  class WorkerInput {
    var reserved: seq<QueuedLog>
    var normal: seq<QueuedLog>

    /** Reserved records come out before normal ones. */
    function Pending(): seq<QueuedLog>
      reads this
    {
      reserved + normal
    }

    constructor ()
      ensures Pending() == []
    {
      reserved, normal := [], [];
    }

    method Refresh(registry: LaneRegistry) returns (ghost order: seq<ProducerLane>)
      requires registry.Valid()
      modifies this, registry, set lane | lane in registry.lanes
      ensures registry.Valid() && registry.lanes == old(Retained(registry.lanes))
      ensures order == Rotated(registry.lanes, old(registry.cursor))
      ensures reserved == old(reserved) + Interleave(KindQueues(old(Queues(order)), Reserved))
      ensures normal == old(normal) + Interleave(KindQueues(old(Queues(order)), Normal))
      ensures forall lane <- order :: lane.queues == EMPTY_QUEUES
    {
      var moved;
      reserved, normal, moved, order := registry.DrainInto(reserved, normal);
    }

    method PopFront() returns (log: Option<QueuedLog>)
      modifies this
      ensures old(Pending()) == [] ==> log == None && Pending() == []
      ensures old(Pending()) != [] ==> log == Some(old(Pending())[0]) && Pending() == old(Pending())[1..]
    {
      if reserved != [] {
        log := Some(reserved[0]);
        reserved := reserved[1..];
      } else if normal != [] {
        log := Some(normal[0]);
        normal := normal[1..];
      } else {
        log := None;
      }
    }

    /** What swapping the lanes out brings, in the order in which it is received. */
    ghost function Found(order: seq<ProducerLane>): seq<QueuedLog>
      reads order
    {
      Interleave(KindQueues(Queues(order), Reserved)) + Interleave(KindQueues(Queues(order), Normal))
    }

    /** `try_receive`, apart from releasing the budget: swaps the lanes out only when the inbox
        is empty, and then takes the first record of their interleaving, reserved records first,
        and keeps the rest. It returns nothing only if every lane was empty too. */
    method TryReceive(registry: LaneRegistry) returns (log: Option<QueuedLog>, ghost order: seq<ProducerLane>)
      requires registry.Valid()
      modifies this, registry, set lane | lane in registry.lanes
      ensures registry.Valid()
      ensures old(Pending()) != [] ==>
        && log == Some(old(Pending())[0]) && Pending() == old(Pending())[1..] && registry.lanes == old(registry.lanes)
        && forall lane <- registry.lanes :: lane.queues == old(lane.queues)
      ensures old(Pending()) == [] ==>
        && registry.lanes == old(Retained(registry.lanes)) && order == Rotated(registry.lanes, old(registry.cursor))
        && (if old(Found(order)) == [] then log == None && Pending() == []
            else log == Some(old(Found(order))[0]) && Pending() == old(Found(order))[1..])
      ensures old(Pending()) == [] && log == None ==>
        Pending() == [] && forall lane <- old(registry.lanes) :: old(lane.queues).IsEmpty()
    {
      order := [];
      if Pending() == [] {
        order := RefreshEmpty(registry);
      }
      log := PopFront();
    }

    lemma FoundNothing(order: seq<ProducerLane>)
      requires Found(order) == []
      ensures forall lane <- order :: lane.queues.IsEmpty()
    {
      NothingInLanes(Queues(order));
      forall lane <- order
        ensures lane.queues.IsEmpty()
      {
        var i :| 0 <= i < |order| && order[i] == lane;
        assert Queues(order)[i] == order[i].queues;
      }
    }

    /** Swapping out brings nothing only if there is nothing in any lane. */
    lemma FindsWhatIsThere(registry: LaneRegistry)
      requires registry.Valid()
      ensures Found(Rotated(Retained(registry.lanes), registry.cursor)) == [] ==>
        forall lane <- registry.lanes :: lane.queues.IsEmpty()
    {
      var order := Rotated(Retained(registry.lanes), registry.cursor);
      assert forall lane <- Retained(registry.lanes) :: lane in order;
      if Found(order) == [] {
        FoundNothing(order);
      }
    }

    method RefreshEmpty(registry: LaneRegistry) returns (ghost order: seq<ProducerLane>)
      requires registry.Valid() && Pending() == []
      modifies this, registry, set lane | lane in registry.lanes
      ensures registry.Valid() && registry.lanes == old(Retained(registry.lanes))
      ensures order == Rotated(registry.lanes, old(registry.cursor)) && Pending() == old(Found(order))
      ensures Pending() == [] ==> forall lane <- old(registry.lanes) :: old(lane.queues).IsEmpty()
    {
      ghost var expected := Rotated(Retained(registry.lanes), registry.cursor);
      ghost var fromReserved := Interleave(KindQueues(Queues(expected), Reserved));
      ghost var fromNormal := Interleave(KindQueues(Queues(expected), Normal));
      assert Found(expected) == fromReserved + fromNormal;
      FindsWhatIsThere(registry);
      order := Refresh(registry);
      assert order == expected && reserved == fromReserved && normal == fromNormal;
    }

    method Clear()
      modifies this
      ensures Pending() == []
    {
      reserved, normal := [], [];
    }
  }
}
