/**
A shutdown whose deadline passes aborts the worker and zeroes the counters, one store after the
other, while threads may still be inside the sink callback. This module defines what endangers a
counter then, and proves that nothing else does; module ExporterUnderflow has the exact law.
*/
module ExporterReset {
  import opened Records
  import opened Wrappers
  import opened Exporter
  import opened ExporterShape
  import opened ExporterTickets
  import opened ExporterBudgets
  import opened ExporterRuns

  // ---------------------------------------------------------------- where a thread stands

  function BytesAsked(pc: ProducerPc): nat {
    match pc
    case Resolving(draft) => draft.bytes
    case ClaimBytes(draft, _) => draft.bytes
    case UndoBytes(draft, _) => draft.bytes
    case ClaimRecord(draft, _) => draft.bytes
    case UndoRecord(draft, _) => draft.bytes
    case ReturnBytes(draft, _) => draft.bytes
    case _ => 0
  }

  /** Bytes claimed, slot not yet. */
  predicate BetweenClaims(pc: ProducerPc, q: QueueKind) {
    pc.ClaimRecord? && pc.queue == q
  }

  /** About to claim bytes of this queue, before any refusal. */
  predicate ComingDirectly(pc: ProducerPc, q: QueueKind) {
    (pc.Resolving? && q.Normal?) || (pc.ClaimBytes? && pc.queue == q)
  }

  /** The next steps of this thread give something back. */
  predicate RollsBack(pc: ProducerPc, q: QueueKind) {
    (pc.UndoRecord? && pc.queue == q) || ((pc.UndoBytes? || pc.ReturnBytes?) && pc.queue == q && pc.draft.bytes > 0)
  }

  /** A priority record that the normal queue refuses for its size, or has refused already. */
  predicate FallsBack(cfg: Config, pc: ProducerPc) {
    || (ComingDirectly(pc, Normal) && pc.draft.priority && pc.draft.bytes > cfg.normalByteCapacity)
    || ((pc.UndoBytes? || pc.ReturnBytes?) && pc.queue.Normal? && pc.draft.priority)
  }

  /** Will claim bytes of this queue, and not more than the queue has. */
  predicate Comes(cfg: Config, pc: ProducerPc, q: QueueKind) {
    && (ComingDirectly(pc, q) || (q.Reserved? && FallsBack(cfg, pc)))
    && BytesAsked(pc) <= cfg.Capacity(Budget(q, Bytes))
  }

  // ---------------------------------------------------------------- the condition

  function Total(ps: seq<Producer>, weight: ProducerPc -> nat): nat {
    if ps == [] then 0 else Total(ps[..|ps| - 1], weight) + weight(ps[|ps| - 1].pc)
  }

  function BytesToCome(cfg: Config, q: QueueKind): ProducerPc -> nat {
    (pc: ProducerPc) => if Comes(cfg, pc, q) then BytesAsked(pc) else 0
  }

  function SlotsToCome(cfg: Config, q: QueueKind): ProducerPc -> nat {
    (pc: ProducerPc) => if Comes(cfg, pc, q) || BetweenClaims(pc, q) then 1 else 0
  }

  function SlotsUsed(s: State, q: QueueKind): int {
    s.sh.used.Get(Budget(q, Slots))
  }

  function BytesUsed(s: State, q: QueueKind): int {
    s.sh.used.Get(Budget(q, Bytes))
  }

  function ToCome(cfg: Config, b: Budget): ProducerPc -> nat {
    if b.unit.Bytes? then BytesToCome(cfg, b.queue) else SlotsToCome(cfg, b.queue)
  }

  /** The threads on their way bring more of this unit than there is room for. */
  predicate Overfull(s: State, b: Budget) {
    s.sh.used.Get(b) + Total(s.producers, ToCome(s.cfg, b)) > s.cfg.Capacity(b)
  }

  /** A thread is about to give something back, or can be brought to it. */
  ghost predicate Endangered(s: State, q: QueueKind) {
    (exists t :: 0 <= t < |s.producers| && RollsBack(s.producers[t].pc, q))
    || Overfull(s, Budget(q, Slots)) || Overfull(s, Budget(q, Bytes))
  }

  predicate Negative(s: State, q: QueueKind) {
    SlotsUsed(s, q) < 0 || BytesUsed(s, q) < 0
  }

  // ---------------------------------------------------------------- totals

  lemma {:induction false} TotalConcat(a: seq<Producer>, b: seq<Producer>, weight: ProducerPc -> nat)
    ensures Total(a + b, weight) == Total(a, weight) + Total(b, weight)
  {
    if b == [] {
      assert a + b == a;
    } else {
      assert (a + b)[..|a + b| - 1] == a + b[..|b| - 1];
      TotalConcat(a, b[..|b| - 1], weight);
    }
  }

  lemma TotalOne(p: Producer, weight: ProducerPc -> nat)
    ensures Total([p], weight) == weight(p.pc)
  {
    assert [p][..0] == [];
  }

  lemma TotalAt(ps: seq<Producer>, t: nat, p: Producer, weight: ProducerPc -> nat)
    requires t < |ps|
    ensures Total(ps[t := p], weight) == Total(ps[..t], weight) + weight(p.pc) + Total(ps[t + 1..], weight)
  {
    assert ps[t := p] == ps[..t] + [p] + ps[t + 1..];
    TotalConcat(ps[..t] + [p], ps[t + 1..], weight);
    TotalConcat(ps[..t], [p], weight);
    TotalOne(p, weight);
  }

  lemma TotalChanges(ps: seq<Producer>, t: nat, p: Producer, weight: ProducerPc -> nat)
    requires t < |ps|
    ensures Total(ps[t := p], weight) + weight(ps[t].pc) == Total(ps, weight) + weight(p.pc)
    ensures weight(ps[t].pc) <= Total(ps, weight)
  {
    TotalAt(ps, t, p, weight);
    TotalAt(ps, t, ps[t], weight);
    assert ps[t := ps[t]] == ps;
  }

  lemma {:induction false} TotalOfNothing(ps: seq<Producer>, weight: ProducerPc -> nat)
    requires forall t :: 0 <= t < |ps| ==> weight(ps[t].pc) == 0
    ensures Total(ps, weight) == 0
  {
    if ps != [] {
      TotalOfNothing(ps[..|ps| - 1], weight);
    }
  }

  // ---------------------------------------------------------------- the steps of a thread after the abort

  /** Nobody enters any more, and the worker is gone. */
  predicate Frozen(s: State) {
    s.w.pc.Aborted? && !s.sh.accepting && !s.sh.slot
  }

  /** Not on the way to a claim, nor between claims, nor rolling one back. */
  predicate Idle(pc: ProducerPc) {
    !pc.Resolving? && !pc.ClaimBytes? && !pc.UndoBytes? && !pc.ClaimRecord? && !pc.UndoRecord? && !pc.ReturnBytes?
  }

  /** The move of a thread from `pc` to `pc'`, and what it adds to the two counters of a queue. */
  predicate Moves(pc: ProducerPc, pc': ProducerPc, q: QueueKind, slots: int, bytes: int) {
    match pc
    case Resolving(draft) => pc' == ClaimBytes(draft, Normal) && slots == 0 == bytes
    case ClaimBytes(draft, queue) => slots == 0 &&
      (((pc' == ClaimRecord(draft, queue) || pc' == UndoBytes(draft, queue))
          && bytes == BytesOf(draft, queue, Budget(q, Bytes)))
        || (pc' == AfterRefusal(draft, queue) && bytes == 0))
    case UndoBytes(draft, queue) =>
      pc' == AfterRefusal(draft, queue) && slots == 0 && bytes == -(BytesOf(draft, queue, Budget(q, Bytes)) as int)
    case ClaimRecord(draft, queue) => bytes == 0 &&
      (((pc' == Ticketing(draft, queue) || pc' == UndoRecord(draft, queue)) && slots == SlotOf(queue, Budget(q, Slots)))
        || (pc' == ReturnBytes(draft, queue) && slots == 0))
    case UndoRecord(draft, queue) =>
      pc' == ReturnBytes(draft, queue) && bytes == 0 && slots == -(SlotOf(queue, Budget(q, Slots)) as int)
    case ReturnBytes(draft, queue) =>
      pc' == AfterRefusal(draft, queue) && slots == 0 && bytes == -(BytesOf(draft, queue, Budget(q, Bytes)) as int)
    case _ => Idle(pc') && slots == 0 == bytes
  }

  /** Everything a thread's step leaves alone. */
  ghost predicate OnlyThreadMoves(s: State, s': State, t: nat) {
    && t < |s.producers| && Frozen(s') && s'.cfg == s.cfg && |s'.producers| == |s.producers| && s'.w == s.w
    && (forall i :: 0 <= i < |s.producers| && i != t ==> s'.producers[i] == s.producers[i])
  }

  lemma StepIsLocal(s: State, t: nat, m: ProducerMove)
    requires Frozen(s) && ProducerStep(s, t, m).Some?
    ensures OnlyThreadMoves(s, ProducerStep(s, t, m).value, t)
  {
    match s.producers[t].pc
    case Outside =>
    case Loaded =>
    case Resolving(_) =>
    case ClaimBytes(_, _) =>
    case UndoBytes(_, _) =>
    case ClaimRecord(_, _) =>
    case UndoRecord(_, _) =>
    case ReturnBytes(_, _) =>
    case Ticketing(_, _) =>
    case Pushing(_) =>
    case Notifying =>
    case Leaving =>
    case Closing =>
    case Gone =>
  }

  lemma StepMoves(s: State, t: nat, m: ProducerMove, q: QueueKind)
    requires Frozen(s) && ProducerStep(s, t, m).Some?
    ensures var s' := ProducerStep(s, t, m).value;
      && |s'.producers| == |s.producers|
      && Moves(s.producers[t].pc, s'.producers[t].pc, q,
          SlotsUsed(s', q) - SlotsUsed(s, q), BytesUsed(s', q) - BytesUsed(s, q))
  {
    match s.producers[t].pc
    case ClaimBytes(draft, queue) => ClaimBytesMoves(s, t, m, draft, queue, q);
    case UndoBytes(draft, queue) => TakesBack(s, Budget(queue, Bytes), draft.bytes, q);
    case ClaimRecord(draft, queue) => ClaimRecordMoves(s, t, m, draft, queue, q);
    case UndoRecord(_, queue) => TakesBack(s, Budget(queue, Slots), 1, q);
    case ReturnBytes(draft, queue) => TakesBack(s, Budget(queue, Bytes), draft.bytes, q);
    case _ => OtherStepMoves(s, t, m, q);
  }

  /** A step that claims nothing and gives nothing back. */
  lemma OtherStepMoves(s: State, t: nat, m: ProducerMove, q: QueueKind)
    requires Frozen(s) && ProducerStep(s, t, m).Some? && (s.producers[t].pc.Resolving? || Idle(s.producers[t].pc))
    ensures var s' := ProducerStep(s, t, m).value;
      && |s'.producers| == |s.producers| && s'.sh.used == s.sh.used
      && Moves(s.producers[t].pc, s'.producers[t].pc, q, 0, 0)
  {
    match s.producers[t].pc
    case Outside =>
    case Loaded =>
    case Resolving(_) =>
    case Ticketing(_, _) =>
    case Pushing(_) =>
    case Notifying =>
    case Leaving =>
    case Closing =>
    case Gone =>
  }

  lemma TakesBack(s: State, b: Budget, amount: nat, q: QueueKind)
    ensures SlotsUsed(SubUsed(s, b, amount), q) == SlotsUsed(s, q) - (if b == Budget(q, Slots) then amount else 0)
    ensures BytesUsed(SubUsed(s, b, amount), q) == BytesUsed(s, q) - (if b == Budget(q, Bytes) then amount else 0)
  {
    CounterMoves(s.sh.used, b, -(amount as int), Budget(q, Slots));
    CounterMoves(s.sh.used, b, -(amount as int), Budget(q, Bytes));
  }

  lemma Charges(s: State, b: Budget, amount: nat, q: QueueKind)
    ensures SlotsUsed(AddUsed(s, b, amount), q) == SlotsUsed(s, q) + (if b == Budget(q, Slots) then amount else 0)
    ensures BytesUsed(AddUsed(s, b, amount), q) == BytesUsed(s, q) + (if b == Budget(q, Bytes) then amount else 0)
  {
    CounterMoves(s.sh.used, b, amount, Budget(q, Slots));
    CounterMoves(s.sh.used, b, amount, Budget(q, Bytes));
  }

  lemma ClaimBytesMoves(s: State, t: nat, m: ProducerMove, draft: Draft, queue: QueueKind, q: QueueKind)
    requires t < |s.producers| && s.producers[t].pc == ClaimBytes(draft, queue)
    ensures ProducerStep(s, t, m).Some?
    ensures var s' := ProducerStep(s, t, m).value;
      Moves(s.producers[t].pc, s'.producers[t].pc, q,
          SlotsUsed(s', q) - SlotsUsed(s, q), BytesUsed(s', q) - BytesUsed(s, q))
  {
    var b := Budget(queue, Bytes);
    Charges(s, b, ClaimCharge(Claim(s.sh.used.Get(b), s.cfg.Capacity(b), draft.bytes), draft.bytes), q);
  }

  lemma ClaimRecordMoves(s: State, t: nat, m: ProducerMove, draft: Draft, queue: QueueKind, q: QueueKind)
    requires t < |s.producers| && s.producers[t].pc == ClaimRecord(draft, queue)
    ensures ProducerStep(s, t, m).Some?
    ensures var s' := ProducerStep(s, t, m).value;
      Moves(s.producers[t].pc, s'.producers[t].pc, q,
          SlotsUsed(s', q) - SlotsUsed(s, q), BytesUsed(s', q) - BytesUsed(s, q))
  {
    var b := Budget(queue, Slots);
    Charges(s, b, ClaimCharge(Claim(s.sh.used.Get(b), s.cfg.Capacity(b), 1), 1), q);
  }

  /** A slot claim is granted exactly when a slot is free. */
  lemma SlotVerdict(s: State, t: nat, m: ProducerMove, q: QueueKind)
    requires t < |s.producers| && BetweenClaims(s.producers[t].pc, q) && SlotsUsed(s, q) >= 0
    ensures ProducerStep(s, t, m).Some?
    ensures ProducerStep(s, t, m).value.producers[t].pc.Ticketing?
        <==> SlotsUsed(s, q) + 1 <= s.cfg.Capacity(Budget(q, Slots))
  {
    ClaimVerdict(SlotsUsed(s, q), s.cfg.Capacity(Budget(q, Slots)), 1);
  }

  /** A claim of bytes is granted exactly when they fit what is unused, and over-claims only within the capacity. */
  lemma ByteVerdict(s: State, t: nat, m: ProducerMove, q: QueueKind)
    requires t < |s.producers| && s.producers[t].pc.ClaimBytes? && s.producers[t].pc.queue == q && BytesUsed(s, q) >= 0
    ensures ProducerStep(s, t, m).Some?
    ensures
      var pc', bytes, capacity := ProducerStep(s, t, m).value.producers[t].pc, BytesAsked(s.producers[t].pc),
          s.cfg.Capacity(Budget(q, Bytes));
      && (pc'.ClaimRecord? <==> BytesUsed(s, q) + bytes <= capacity)
      && (pc'.UndoBytes? <==> BytesUsed(s, q) + bytes > capacity && bytes <= capacity <= U64_MAX / 2)
  {
    ClaimVerdict(BytesUsed(s, q), s.cfg.Capacity(Budget(q, Bytes)), BytesAsked(s.producers[t].pc));
  }

  // ---------------------------------------------------------------- what is safe stays safe

  /** No thread gives anything back, and whatever is on its way fits. */
  ghost predicate Safe(s: State, q: QueueKind) {
    !Negative(s, q) && !Endangered(s, q)
  }

  /** What comes is granted, or refused outright for its size. */
  predicate MovesFreely(cfg: Config, pc: ProducerPc, pc': ProducerPc, q: QueueKind) {
    && (BetweenClaims(pc, q) ==> pc'.Ticketing?)
    && (pc.ClaimBytes? && pc.queue == q ==>
          if BytesAsked(pc) <= cfg.Capacity(Budget(q, Bytes)) then pc'.ClaimRecord?
              else pc' == AfterRefusal(pc.draft, q))
  }

  /** A free move turns what is to come into what is there. */
  lemma FreeMoveBalances(cfg: Config, pc: ProducerPc, pc': ProducerPc, q: QueueKind, slots: int, bytes: int)
    requires Moves(pc, pc', q, slots, bytes) && !RollsBack(pc, q) && MovesFreely(cfg, pc, pc', q)
    requires q.Reserved? ==> !RollsBack(pc, Normal) && MovesFreely(cfg, pc, pc', Normal)
    ensures !RollsBack(pc', q) && slots >= 0 && bytes >= 0
    ensures bytes + BytesToCome(cfg, q)(pc') <= BytesToCome(cfg, q)(pc)
    ensures slots + SlotsToCome(cfg, q)(pc') <= SlotsToCome(cfg, q)(pc)
  {
    match pc
    case Resolving(_) =>
    case ClaimBytes(_, _) =>
    case UndoBytes(_, _) =>
    case ClaimRecord(_, _) =>
    case UndoRecord(_, _) =>
    case ReturnBytes(_, _) =>
    case _ =>
  }

  lemma SafeThreadMovesFreely(s: State, t: nat, m: ProducerMove, q: QueueKind)
    requires Safe(s, q) && ProducerStep(s, t, m).Some? && |ProducerStep(s, t, m).value.producers| == |s.producers|
    ensures MovesFreely(s.cfg, s.producers[t].pc, ProducerStep(s, t, m).value.producers[t].pc, q)
  {
    TotalChanges(s.producers, t, s.producers[t], BytesToCome(s.cfg, q));
    TotalChanges(s.producers, t, s.producers[t], SlotsToCome(s.cfg, q));
    if BetweenClaims(s.producers[t].pc, q) {
      SlotVerdict(s, t, m, q);
    } else if s.producers[t].pc.ClaimBytes? && s.producers[t].pc.queue == q {
      ByteVerdict(s, t, m, q);
    }
  }

  lemma ThreadKeepsSafe(s: State, t: nat, m: ProducerMove, q: QueueKind)
    requires Frozen(s) && Safe(s, q) && (q.Reserved? ==> Safe(s, Normal)) && ProducerStep(s, t, m).Some?
    ensures Safe(ProducerStep(s, t, m).value, q)
  {
    var s' := ProducerStep(s, t, m).value;
    var pc, pc' := s.producers[t].pc, s'.producers[t].pc;
    StepIsLocal(s, t, m);
    StepMoves(s, t, m, q);
    SafeThreadMovesFreely(s, t, m, q);
    if q.Reserved? {
      SafeThreadMovesFreely(s, t, m, Normal);
    }
    FreeMoveBalances(s.cfg, pc, pc', q, SlotsUsed(s', q) - SlotsUsed(s, q), BytesUsed(s', q) - BytesUsed(s, q));
    OneThreadKeepsSafe(s, s', t, q);
  }

  lemma OneThreadKeepsSafe(s: State, s': State, t: nat, q: QueueKind)
    requires Safe(s, q) && OnlyThreadMoves(s, s', t) && !RollsBack(s'.producers[t].pc, q)
    requires SlotsUsed(s', q) >= SlotsUsed(s, q) && BytesUsed(s', q) >= BytesUsed(s, q)
    requires BytesUsed(s', q) - BytesUsed(s, q)
        + BytesToCome(s.cfg, q)(s'.producers[t].pc) <= BytesToCome(s.cfg, q)(s.producers[t].pc)
    requires SlotsUsed(s', q) - SlotsUsed(s, q)
        + SlotsToCome(s.cfg, q)(s'.producers[t].pc) <= SlotsToCome(s.cfg, q)(s.producers[t].pc)
    ensures Safe(s', q)
  {
    assert s'.producers == s.producers[t := s'.producers[t]];
    TotalChanges(s.producers, t, s'.producers[t], BytesToCome(s.cfg, q));
    TotalChanges(s.producers, t, s'.producers[t], SlotsToCome(s.cfg, q));
  }

  /** Other actors lower counters to zero at most, and leave threads alone. */
  ghost predicate OnlyZeroes(s: State, s': State) {
    && Frozen(s') && s'.cfg == s.cfg && s'.producers == s.producers
    && forall b: Budget :: s'.sh.used.Get(b) == s.sh.used.Get(b) || s'.sh.used.Get(b) == 0
  }

  lemma OthersOnlyZero(s: State, a: Action)
    requires Frozen(s) && !a.ByProducer? && Step(s, a).Some?
    ensures OnlyZeroes(s, Step(s, a).value)
  {
    match a
    case ByFlusher(f, m) => FlusherOnlyZeroes(s, f, m);
    case ByHandle(m) => HandleOnlyZeroes(s, m);
  }

  lemma FlusherOnlyZeroes(s: State, f: nat, m: FlushMove)
    requires Frozen(s) && FlushStep(s, f, m).Some?
    ensures OnlyZeroes(s, FlushStep(s, f, m).value)
  {
    FlushFrame(s, f, m);
    match s.flushers[f]
    case FlushIdle =>
    case FlushWake(_) =>
    case FlushEnable(_) =>
    case FlushLoad(_, _) =>
    case FlushLoadStatus(_, _, _) =>
    case FlushWait(_, _) =>
    case FlushDone(_, _, _) =>
  }

  lemma HandleOnlyZeroes(s: State, m: HandleMove)
    requires Frozen(s) && HandleStep(s, m).Some?
    ensures OnlyZeroes(s, HandleStep(s, m).value)
  {
    match m
    case StopAcceptance => StopFrame(s); StoppingAcceptsNothing(s.sh);
    case ClearSlot =>
    case ReleaseHandle =>
    case FenceStore =>
    case FenceNotify =>
    case Abort =>
    case ResetStep => ZeroingZeroes(s.w.pc.reset, s.sh.used);
  }

  lemma StoppingAcceptsNothing(sh: Shared)
    requires !sh.accepting
    ensures !StopShared(sh).accepting
  {
    match sh.stop
    case NotStopping =>
    case StopLoadStatus =>
    case StopStoreStatus =>
    case StopShutdown =>
    case StopRecords =>
    case StopFlush =>
  }

  lemma ZeroingZeroes(at: ResetPc, used: Counters)
    ensures forall b: Budget :: ZeroedAt(at, used).Get(b) == used.Get(b) || ZeroedAt(at, used).Get(b) == 0
  {
    match at
    case ZeroNormalDepth =>
    case ZeroReservedDepth =>
    case ZeroNormalBytes =>
    case ZeroReservedBytes =>
    case _ =>
  }

  /** However the stores of the handle and the steps of the threads interleave. */
  lemma StepKeepsSafe(s: State, a: Action, q: QueueKind)
    requires Frozen(s) && Safe(s, q) && (q.Reserved? ==> Safe(s, Normal)) && Step(s, a).Some?
    ensures Frozen(Step(s, a).value) && Safe(Step(s, a).value, q)
  {
    if a.ByProducer? {
      StepIsLocal(s, a.t, a.pm);
      ThreadKeepsSafe(s, a.t, a.pm, q);
    } else {
      OthersOnlyZero(s, a);
    }
  }

  lemma {:induction false} RunKeepsSafe(s: State, schedule: seq<Action>, q: QueueKind)
    requires Frozen(s) && Safe(s, q) && (q.Reserved? ==> Safe(s, Normal)) && Run(s, schedule).Some?
    ensures Frozen(Run(s, schedule).value) && Safe(Run(s, schedule).value, q)
    decreases |schedule|, if q.Reserved? then 1 else 0
  {
    if schedule != [] {
      var init, last := schedule[..|schedule| - 1], schedule[|schedule| - 1];
      RunKeepsSafe(s, init, q);
      if q.Reserved? {
        RunKeepsSafe(s, init, Normal);
      }
      StepKeepsSafe(Run(s, init).value, last, q);
    }
  }
}
