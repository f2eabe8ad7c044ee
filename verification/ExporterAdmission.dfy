/**
Admission by the configured limits: which claim is granted, what a refused record tries next,
and what an accepted one carries.
*/
module ExporterAdmission {
  import opened Records
  import opened Wrappers
  import opened Exporter
  import opened ExporterShape
  import opened ExporterBudgets
  import opened ExporterRuns

  // ---------------------------------------------------------------- limits by name

  /** Until a timed-out shutdown: the records and bytes granted on a queue stay within the limits
      configured for that queue. */
  lemma GrantedWithinLimits(cfg: Config, schedule: seq<Action>, b: Budget)
    requires Reach(cfg, schedule).Some? && !Reach(cfg, schedule).value.h.reset
    ensures Granted(Reach(cfg, schedule).value, b) <=
      match b
      case Budget(Normal, Slots) => cfg.normalCapacity
      case Budget(Reserved, Slots) => cfg.reservedCapacity
      case Budget(Normal, Bytes) => cfg.normalByteCapacity
      case Budget(Reserved, Bytes) => cfg.reservedByteCapacity
  {
    ReachKeepsInv(cfg, schedule);
    assert Bounded(Reach(cfg, schedule).value, b);
    match b
    case Budget(Normal, Slots) =>
    case Budget(Reserved, Slots) =>
    case Budget(Normal, Bytes) =>
    case Budget(Reserved, Bytes) =>
  }

  lemma CountersAreNatural(s: State)
    requires BudgetsHold(s) && !s.h.reset
    ensures s.sh.used.normalDepth >= 0 && s.sh.used.reservedDepth >= 0
    ensures s.sh.used.normalBytes >= 0 && s.sh.used.reservedBytes >= 0
  {
    assert Bounded(s, Budget(Normal, Slots)) && Bounded(s, Budget(Reserved, Slots));
    assert Bounded(s, Budget(Normal, Bytes)) && Bounded(s, Budget(Reserved, Bytes));
  }

  /** What a claim does to its counter: a granted one is charged; of the others, one that was
      charged all the same is about to be rolled back. */
  predicate Charged(before: int, after: int, amount: nat, granted: bool, undoing: bool) {
    after == before + (if granted || undoing then amount else 0) && !(granted && undoing)
  }

  /** A slot of the normal queue is granted exactly when the counter of the normal queue, one more,
      is within the capacity of the normal queue. */
  lemma NormalSlotIff(cfg: Config, schedule: seq<Action>, t: nat, m: ProducerMove, draft: Draft)
    requires Reach(cfg, schedule).Some? && !Reach(cfg, schedule).value.h.reset
    requires t < |Reach(cfg, schedule).value.producers|
    requires Reach(cfg, schedule).value.producers[t].pc == ClaimRecord(draft, Normal)
    ensures var s, r := Reach(cfg, schedule).value, Step(Reach(cfg, schedule).value, ByProducer(t, m));
      && r.Some?
      && (r.value.producers[t].pc == Ticketing(draft, Normal) <==> s.sh.used.normalDepth + 1 <= cfg.normalCapacity)
      && Charged(s.sh.used.normalDepth, r.value.sh.used.normalDepth, 1, r.value.producers[t].pc.Ticketing?,
                 r.value.producers[t].pc == UndoRecord(draft, Normal))
      && r.value.sh.used == s.sh.used.(normalDepth := r.value.sh.used.normalDepth)
  {
    ReachKeepsInv(cfg, schedule);
    var s := Reach(cfg, schedule).value;
    CountersAreNatural(s);
    ClaimVerdict(s.sh.used.normalDepth, cfg.normalCapacity, 1);
  }

  /** The same for the reserved queue. */
  lemma ReservedSlotIff(cfg: Config, schedule: seq<Action>, t: nat, m: ProducerMove, draft: Draft)
    requires Reach(cfg, schedule).Some? && !Reach(cfg, schedule).value.h.reset
    requires t < |Reach(cfg, schedule).value.producers|
    requires Reach(cfg, schedule).value.producers[t].pc == ClaimRecord(draft, Reserved)
    ensures var s, r := Reach(cfg, schedule).value, Step(Reach(cfg, schedule).value, ByProducer(t, m));
      && r.Some?
      && (r.value.producers[t].pc == Ticketing(draft, Reserved) <==>
            s.sh.used.reservedDepth + 1 <= cfg.reservedCapacity)
      && Charged(s.sh.used.reservedDepth, r.value.sh.used.reservedDepth, 1, r.value.producers[t].pc.Ticketing?,
                 r.value.producers[t].pc == UndoRecord(draft, Reserved))
      && r.value.sh.used == s.sh.used.(reservedDepth := r.value.sh.used.reservedDepth)
  {
    ReachKeepsInv(cfg, schedule);
    var s := Reach(cfg, schedule).value;
    CountersAreNatural(s);
    ClaimVerdict(s.sh.used.reservedDepth, cfg.reservedCapacity, 1);
  }

  /** Bytes of the normal queue are granted exactly when they fit into what is left of its byte budget. */
  lemma NormalBytesIff(cfg: Config, schedule: seq<Action>, t: nat, m: ProducerMove, draft: Draft)
    requires Reach(cfg, schedule).Some? && !Reach(cfg, schedule).value.h.reset
    requires t < |Reach(cfg, schedule).value.producers|
    requires Reach(cfg, schedule).value.producers[t].pc == ClaimBytes(draft, Normal)
    ensures var s, r := Reach(cfg, schedule).value, Step(Reach(cfg, schedule).value, ByProducer(t, m));
      && r.Some?
      && (r.value.producers[t].pc == ClaimRecord(draft, Normal) <==>
            s.sh.used.normalBytes + draft.bytes <= cfg.normalByteCapacity)
      && Charged(s.sh.used.normalBytes, r.value.sh.used.normalBytes, draft.bytes, r.value.producers[t].pc.ClaimRecord?,
                 r.value.producers[t].pc == UndoBytes(draft, Normal))
      && r.value.sh.used == s.sh.used.(normalBytes := r.value.sh.used.normalBytes)
  {
    ReachKeepsInv(cfg, schedule);
    var s := Reach(cfg, schedule).value;
    CountersAreNatural(s);
    ClaimVerdict(s.sh.used.normalBytes, cfg.normalByteCapacity, draft.bytes);
  }

  /** The same for the reserved queue. */
  lemma ReservedBytesIff(cfg: Config, schedule: seq<Action>, t: nat, m: ProducerMove, draft: Draft)
    requires Reach(cfg, schedule).Some? && !Reach(cfg, schedule).value.h.reset
    requires t < |Reach(cfg, schedule).value.producers|
    requires Reach(cfg, schedule).value.producers[t].pc == ClaimBytes(draft, Reserved)
    ensures var s, r := Reach(cfg, schedule).value, Step(Reach(cfg, schedule).value, ByProducer(t, m));
      && r.Some?
      && (r.value.producers[t].pc == ClaimRecord(draft, Reserved) <==>
            s.sh.used.reservedBytes + draft.bytes <= cfg.reservedByteCapacity)
      && Charged(s.sh.used.reservedBytes, r.value.sh.used.reservedBytes, draft.bytes,
                 r.value.producers[t].pc.ClaimRecord?, r.value.producers[t].pc == UndoBytes(draft, Reserved))
      && r.value.sh.used == s.sh.used.(reservedBytes := r.value.sh.used.reservedBytes)
  {
    ReachKeepsInv(cfg, schedule);
    var s := Reach(cfg, schedule).value;
    CountersAreNatural(s);
    ClaimVerdict(s.sh.used.reservedBytes, cfg.reservedByteCapacity, draft.bytes);
  }

  // ---------------------------------------------------------------- priority

  /** The draft and the queue that a submission is trying. */
  function Trying(pc: ProducerPc): Option<(Draft, QueueKind)> {
    match pc
    case ClaimBytes(draft, queue) => Some((draft, queue))
    case UndoBytes(draft, queue) => Some((draft, queue))
    case ClaimRecord(draft, queue) => Some((draft, queue))
    case UndoRecord(draft, queue) => Some((draft, queue))
    case ReturnBytes(draft, queue) => Some((draft, queue))
    case Ticketing(draft, queue) => Some((draft, queue))
    case _ => None
  }

  /** The reserved queue is tried for priority records only. */
  predicate ReservedForPriority(pc: ProducerPc) {
    Trying(pc).Some? && Trying(pc).value.1.Reserved? ==> Trying(pc).value.0.priority
  }

  ghost predicate PriorityKept(s: State) {
    forall t :: 0 <= t < |s.producers| ==> ReservedForPriority(s.producers[t].pc)
  }

  lemma ProducerKeepsPriority(s: State, t: nat, m: ProducerMove)
    requires PriorityKept(s) && ProducerStep(s, t, m).Some?
    ensures PriorityKept(ProducerStep(s, t, m).value)
  {
    match s.producers[t].pc
    case Outside =>
    case Loaded =>
    case Resolving(_) =>
    case ClaimBytes(_, _) =>
    case UndoBytes(_, _) =>
    case ClaimRecord(_, _) =>
    case UndoRecord(_, _) =>
    case ReturnBytes(_, _) =>
    case Ticketing(_, _) =>
    case Pushing(_) =>
    case Notifying =>
    case Leaving =>
    case Closing =>
    case Gone =>
  }

  lemma StepKeepsPriority(s: State, a: Action)
    requires PriorityKept(s) && Step(s, a).Some?
    ensures PriorityKept(Step(s, a).value)
  {
    match a
    case ByProducer(t, m) => ProducerKeepsPriority(s, t, m);
    case ByWorker(m) => WorkerFrame(s, m);
    case ByFlusher(f, m) => FlushFrame(s, f, m);
    case ByHandle(m) => HandleFrame(s, m);
  }

  /** Only priority records can use up the reserved queue, in every reachable state. */
  lemma {:induction false} ReservedIsForPriority(cfg: Config, schedule: seq<Action>)
    requires Reach(cfg, schedule).Some?
    ensures PriorityKept(Reach(cfg, schedule).value)
  {
    if schedule != [] {
      var init, last := schedule[..|schedule| - 1], schedule[|schedule| - 1];
      ReservedIsForPriority(cfg, init);
      StepKeepsPriority(Reach(cfg, init).value, last);
    }
  }

  /** A record is dropped only where it has nothing left to try: a submission goes from the normal
      queue to the reserved one exactly if it is of priority, and leaves otherwise. */
  lemma RefusedTriesReserved(s: State, t: nat, m: ProducerMove)
    requires t < |s.producers| && Trying(s.producers[t].pc).Some? && Step(s, ByProducer(t, m)).Some?
    ensures var (draft, queue) := Trying(s.producers[t].pc).value;
      var after := Step(s, ByProducer(t, m)).value.producers[t].pc;
      && (after.Leaving? ==> queue.Reserved? || !draft.priority)
      && (Trying(after).Some? ==> Trying(after).value.0 == draft)
      && (Trying(after).Some? && Trying(after).value.1 != queue ==>
            queue.Normal? && draft.priority && after == ClaimBytes(draft, Reserved))
  {
    match s.producers[t].pc
    case ClaimBytes(_, _) =>
    case UndoBytes(_, _) =>
    case ClaimRecord(_, _) =>
    case UndoRecord(_, _) =>
    case ReturnBytes(_, _) =>
    case Ticketing(_, _) =>
  }

  // ---------------------------------------------------------------- what is accepted

  /** When a thread can take this step: it enters the callback while the slot is set, may exit at any
      time outside it, passes the filter only while records are accepted, and waits for nothing but
      the registry lock, and that only to register its lane. */
  lemma ThreadMovesIff(s: State, t: nat, m: ProducerMove)
    requires LanesOwned(s) && t < |s.producers|
    ensures Step(s, ByProducer(t, m)).Some? <==>
      match s.producers[t].pc
      case Outside => (m.Enter? && s.sh.slot) || m.Exit?
      case Loaded => if s.sh.accepting then m.Filtered? || m.Log? else m.Go?
      case Resolving(_) => s.producers[t].lane.Some? || !s.w.pc.Refresh? || s.w.pc.refresh.Taking?
      case Ticketing(_, _) => s.sh.nextTicket != 0xFFFF_FFFF_FFFF_FFFF
      case Gone => false
      case _ => true
  {
    match s.producers[t].pc
    case Outside =>
    case Loaded =>
    case Resolving(_) =>
    case ClaimBytes(_, _) =>
    case UndoBytes(_, _) =>
    case ClaimRecord(_, _) =>
    case UndoRecord(_, _) =>
    case ReturnBytes(_, _) =>
    case Ticketing(_, _) =>
    case Pushing(_) => assert s.producers[t].pc.UsesLane();
    case Notifying =>
    case Leaving =>
    case Closing =>
    case Gone =>
  }

  /** Every submission starts with the normal queue; none starts once acceptance is stopped. */
  lemma SubmissionStarts(s: State, t: nat, m: ProducerMove)
    requires t < |s.producers| && Step(s, ByProducer(t, m)).Some?
    ensures var before, after := s.producers[t].pc, Step(s, ByProducer(t, m)).value.producers[t].pc;
      && (after.Resolving? ==> before.Loaded? && s.sh.accepting && m == Log(after.draft))
      && (before.Resolving? ==> after == ClaimBytes(before.draft, Normal))
      && (before.Loaded? && !s.sh.accepting ==> after.Leaving?)
  {
    match s.producers[t].pc
    case Outside =>
    case Loaded =>
    case Resolving(_) =>
    case ClaimBytes(_, _) =>
    case UndoBytes(_, _) =>
    case ClaimRecord(_, _) =>
    case UndoRecord(_, _) =>
    case ReturnBytes(_, _) =>
    case Ticketing(_, _) =>
    case Pushing(_) =>
    case Notifying =>
    case Leaving =>
    case Closing =>
    case Gone =>
  }

  /** The first record of a thread registers a lane of its own: open, empty, behind all others. Later
      ones use that lane. */
  lemma LaneIsRegistered(s: State, t: nat, m: ProducerMove)
    requires t < |s.producers| && s.producers[t].pc.Resolving? && Step(s, ByProducer(t, m)).Some?
    ensures var s' := Step(s, ByProducer(t, m)).value;
      if s.producers[t].lane.Some? then
        s'.producers[t].lane == s.producers[t].lane && s'.registry == s.registry && s'.lanes == s.lanes
      else
        && s'.producers[t].lane == Some(|s.lanes|) && s'.registry == s.registry + [|s.lanes|]
        && s'.lanes == s.lanes + [Lane(t, EMPTY_QUEUES, false)]
  {
    match s.producers[t].pc case Resolving(_) =>
  }

  /** An accepted record is what its thread wanted to log, in the queue that granted it, with the
      next ticket; it goes to the end of that queue of the thread's own lane, and the worker is
      woken exactly if the lane held nothing. */
  lemma AcceptedIsPushed(s: State, t: nat, m: ProducerMove, again: ProducerMove, draft: Draft, queue: QueueKind)
    requires LanesOwned(s) && t < |s.producers| && s.producers[t].pc == Ticketing(draft, queue)
    requires s.sh.nextTicket < U64_MAX
    ensures Step(s, ByProducer(t, m)).Some? && Step(Step(s, ByProducer(t, m)).value, ByProducer(t, again)).Some?
    ensures var mid := Step(s, ByProducer(t, m)).value; var end := Step(mid, ByProducer(t, again)).value;
      var log, l := QueuedLog(t, queue, draft.bytes, s.sh.nextTicket + 1, draft.size), s.producers[t].lane.value;
      && mid.h.issued == s.h.issued + [log]
      && end.lanes[l].queues.Of(queue) == s.lanes[l].queues.Of(queue) + [log]
      && (end.producers[t].pc == Notifying <==> s.lanes[l].queues.normal == [] && s.lanes[l].queues.reserved == [])
      && (end.producers[t].pc != Notifying ==> end.producers[t].pc == Leaving)
  {
    assert s.producers[t].pc.UsesLane();
    var mid := Step(s, ByProducer(t, m)).value;
    match mid.producers[t].pc case Pushing(_) =>
    match queue case Normal => case Reserved =>
  }

  /** The last lane of a thread that exits is closed, and the worker is then woken to retire it. */
  lemma ExitClosesLane(s: State, t: nat, again: ProducerMove)
    requires LanesOwned(s) && t < |s.producers| && s.producers[t].pc.Outside?
    ensures Step(s, ByProducer(t, Exit)).Some?
    ensures var mid := Step(s, ByProducer(t, Exit)).value;
      if s.producers[t].lane.None? then mid.producers[t].pc == Gone && mid.lanes == s.lanes
      else
        && mid.lanes[s.producers[t].lane.value].closed
        && mid.lanes[s.producers[t].lane.value].queues == s.lanes[s.producers[t].lane.value].queues
        && Step(mid, ByProducer(t, again)).Some?
        && Step(mid, ByProducer(t, again)).value.sh.recordsPermit
        && Step(mid, ByProducer(t, again)).value.producers[t].pc == Gone
  {
    match s.producers[t].pc case Outside =>
    if s.producers[t].lane.Some? {
      var mid := Step(s, ByProducer(t, Exit)).value;
      match mid.producers[t].pc case Closing =>
    }
  }
}
