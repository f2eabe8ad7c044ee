/**
The exact condition for a timed-out shutdown to take a counter below zero: module ExporterReset
shows that nothing else can, and here a run that does is built from the condition.
*/
module ExporterUnderflow {
  import opened Records
  import opened Wrappers
  import opened Exporter
  import opened ExporterShape
  import opened ExporterTickets
  import opened ExporterBudgets
  import opened ExporterRuns
  import opened ExporterReset

  // ---------------------------------------------------------------- paths of one thread

  function Thread(t: nat): Action {
    ByProducer(t, Go)
  }

  lemma OneStep(s: State, t: nat, q: QueueKind) returns (e: State)
    requires Frozen(s) && ProducerStep(s, t, Go).Some?
    ensures Run(s, [Thread(t)]) == Some(e) && ProducerStep(s, t, Go) == Some(e) && OnlyThreadMoves(s, e, t)
    ensures Moves(s.producers[t].pc, e.producers[t].pc, q,
        SlotsUsed(e, q) - SlotsUsed(s, q), BytesUsed(e, q) - BytesUsed(s, q))
  {
    e := ProducerStep(s, t, Go).value;
    RunOn(s, [], Thread(t));
    assert [] + [Thread(t)] == [Thread(t)];
    StepIsLocal(s, t, Go);
    StepMoves(s, t, Go, q);
  }

  /** From `s` a path of thread `t` alone leads to `e`, adding so much to the two counters of the queue. */
  ghost predicate Leads(s: State, path: seq<Action>, e: State, t: nat, q: QueueKind, slots: int, bytes: int) {
    && Run(s, path) == Some(e) && OnlyThreadMoves(s, e, t)
    && SlotsUsed(e, q) == SlotsUsed(s, q) + slots && BytesUsed(e, q) == BytesUsed(s, q) + bytes
  }

  lemma LeadsOn(s: State, p: seq<Action>, mid: State, p': seq<Action>, e: State, t: nat, q: QueueKind,
                slots: int, bytes: int, slots': int, bytes': int)
    requires Leads(s, p, mid, t, q, slots, bytes) && Leads(mid, p', e, t, q, slots', bytes')
    ensures Leads(s, p + p', e, t, q, slots + slots', bytes + bytes')
  {
    RunInTwo(s, p, p');
  }

  lemma FindsLane(s: State, t: nat, q: QueueKind) returns (e: State)
    requires Frozen(s) && t < |s.producers| && s.producers[t].pc.Resolving?
    ensures Leads(s, [Thread(t)], e, t, q, 0, 0) && e.producers[t].pc == ClaimBytes(s.producers[t].pc.draft, Normal)
  {
    assert !s.w.pc.HoldsRegistry();
    e := OneStep(s, t, q);
  }

  /** A record larger than the normal queue's capacity is refused whatever the counter shows. */
  lemma TooLargeFallsBack(s: State, t: nat) returns (e: State)
    requires Frozen(s) && t < |s.producers| && s.producers[t].pc.ClaimBytes? && FallsBack(s.cfg, s.producers[t].pc)
    ensures Leads(s, [Thread(t)], e, t, Reserved, 0, 0)
        && e.producers[t].pc == ClaimBytes(s.producers[t].pc.draft, Reserved)
  {
    assert Claim(BytesUsed(s, Normal), s.cfg.normalByteCapacity, s.producers[t].pc.draft.bytes) == Refused;
    e := OneStep(s, t, Reserved);
  }

  /** A thread that comes to a queue gets as far as its claim of bytes there. */
  lemma ReachesClaim(s: State, t: nat, q: QueueKind) returns (path: seq<Action>, e: State)
    requires Frozen(s) && t < |s.producers| && Comes(s.cfg, s.producers[t].pc, q)
    ensures Run(s, path) == Some(e) && Frozen(e) && e.cfg == s.cfg && |e.producers| == |s.producers| && e.w == s.w
    ensures forall i :: 0 <= i < |s.producers| && i != t ==> e.producers[i] == s.producers[i]
    ensures SlotsUsed(e, q) == SlotsUsed(s, q) && BytesUsed(e, q) == BytesUsed(s, q)
    ensures e.producers[t].pc.ClaimBytes? && e.producers[t].pc.queue == q
    ensures BytesAsked(e.producers[t].pc) == BytesAsked(s.producers[t].pc)
  {
    var pc := s.producers[t].pc;
    if pc.ClaimBytes? && pc.queue == q {
      path, e := [], s;
    } else if pc.Resolving? && q.Normal? {
      path := [Thread(t)];
      e := FindsLane(s, t, q);
    } else if pc.Resolving? {
      var found := FindsLane(s, t, q);
      e := TooLargeFallsBack(found, t);
      path := [Thread(t)] + [Thread(t)];
      LeadsOn(s, [Thread(t)], found, [Thread(t)], e, t, q, 0, 0, 0, 0);
    } else if pc.ClaimBytes? {
      path := [Thread(t)];
      e := TooLargeFallsBack(s, t);
    } else {
      path := [Thread(t)];
      e := OneStep(s, t, q);
    }
  }

  // ---------------------------------------------------------------- a run to a pending rollback

  /** `ExporterConfig::validate` */
  ghost predicate Validated(cfg: Config) {
    forall b: Budget :: cfg.Capacity(b) > 0
  }

  /** A budget that more comes to than fits has the optimistic kind of claim. */
  predicate Optimistic(r: State, q: QueueKind) {
    && (Overfull(r, Budget(q, Slots)) ==> r.cfg.Capacity(Budget(q, Slots)) <= U64_MAX / 2)
    && (Overfull(r, Budget(q, Bytes)) ==> r.cfg.Capacity(Budget(q, Bytes)) <= U64_MAX / 2)
  }

  /** A claim of one more slot is not refused without over-claiming. */
  predicate SlotRoom(s: State, q: QueueKind) {
    || SlotsUsed(s, q) < s.cfg.Capacity(Budget(q, Slots))
    || 0 < s.cfg.Capacity(Budget(q, Slots)) <= U64_MAX / 2
  }

  predicate ByteRoom(s: State, q: QueueKind, bytes: nat) {
    || BytesUsed(s, q) + bytes <= s.cfg.Capacity(Budget(q, Bytes))
    || s.cfg.Capacity(Budget(q, Bytes)) <= U64_MAX / 2
  }

  predicate WithinCapacity(s: State, q: QueueKind) {
    && 0 <= SlotsUsed(s, q) <= s.cfg.Capacity(Budget(q, Slots))
    && 0 <= BytesUsed(s, q) <= s.cfg.Capacity(Budget(q, Bytes))
  }

  /** Thread `t` alone has moved: it has over-claimed, or it has all it came for. */
  ghost predicate Settles(s: State, path: seq<Action>, e: State, t: nat, q: QueueKind, bytes: nat) {
    && Run(s, path) == Some(e) && OnlyThreadMoves(s, e, t)
    && (RollsBack(e.producers[t].pc, q)
        || (WithinCapacity(e, q) && SlotsUsed(e, q) == SlotsUsed(s, q) + 1
            && BytesUsed(e, q) == BytesUsed(s, q) + bytes))
  }

  lemma ClaimsSlot(s: State, t: nat, q: QueueKind) returns (path: seq<Action>, e: State)
    requires Frozen(s) && WithinCapacity(s, q) && SlotRoom(s, q)
    requires t < |s.producers| && BetweenClaims(s.producers[t].pc, q)
    ensures Settles(s, path, e, t, q, 0)
  {
    SlotVerdict(s, t, Go, q);
    path := [Thread(t)];
    e := OneStep(s, t, q);
    assert Claim(SlotsUsed(s, q), s.cfg.Capacity(Budget(q, Slots)), 1) != Refused;
  }

  lemma ClaimsBoth(s: State, t: nat, q: QueueKind) returns (path: seq<Action>, e: State)
    requires Frozen(s) && WithinCapacity(s, q) && SlotRoom(s, q)
    requires t < |s.producers| && s.producers[t].pc.ClaimBytes? && s.producers[t].pc.queue == q
    requires ByteRoom(s, q, BytesAsked(s.producers[t].pc))
    requires BytesAsked(s.producers[t].pc) <= s.cfg.Capacity(Budget(q, Bytes))
    ensures Settles(s, path, e, t, q, BytesAsked(s.producers[t].pc))
  {
    ByteVerdict(s, t, Go, q);
    path := [Thread(t)];
    e := OneStep(s, t, q);
    if e.producers[t].pc.ClaimRecord? {
      var p', last := ClaimsSlot(e, t, q);
      RunInTwo(s, path, p');
      path, e := path + p', last;
    }
  }

  lemma ThreadSettles(s: State, t: nat, q: QueueKind) returns (path: seq<Action>, e: State)
    requires Frozen(s) && WithinCapacity(s, q) && t < |s.producers|
    requires SlotRoom(s, q) && ByteRoom(s, q, BytesToCome(s.cfg, q)(s.producers[t].pc))
    requires Comes(s.cfg, s.producers[t].pc, q) || BetweenClaims(s.producers[t].pc, q)
    ensures Settles(s, path, e, t, q, BytesToCome(s.cfg, q)(s.producers[t].pc))
  {
    if BetweenClaims(s.producers[t].pc, q) {
      path, e := ClaimsSlot(s, t, q);
    } else {
      var p, there := ReachesClaim(s, t, q);
      var p', last := ClaimsBoth(there, t, q);
      RunInTwo(s, p, p');
      path, e := p + p', last;
    }
  }

  ghost predicate Poised(s: State, q: QueueKind) {
    exists t :: 0 <= t < |s.producers| && RollsBack(s.producers[t].pc, q)
  }

  /** The first `i` threads have what they came for, the others have not moved. */
  ghost predicate Filling(r: State, s: State, i: nat, q: QueueKind) {
    && i <= |r.producers| == |s.producers| && Frozen(s) && s.cfg == r.cfg && s.w == r.w && WithinCapacity(s, q)
    && (forall t :: i <= t < |r.producers| ==> s.producers[t] == r.producers[t])
    && SlotsUsed(s, q) == SlotsUsed(r, q) + Total(r.producers[..i], SlotsToCome(r.cfg, q))
    && BytesUsed(s, q) == BytesUsed(r, q) + Total(r.producers[..i], BytesToCome(r.cfg, q))
  }

  lemma TotalNext(ps: seq<Producer>, i: nat, weight: ProducerPc -> nat)
    requires i < |ps|
    ensures Total(ps[..i + 1], weight) == Total(ps[..i], weight) + weight(ps[i].pc)
  {
    assert ps[..i + 1][..i] == ps[..i];
  }

  lemma {:induction false} PrefixTotal(ps: seq<Producer>, i: nat, weight: ProducerPc -> nat)
    requires i <= |ps|
    ensures Total(ps[..i], weight) <= Total(ps, weight)
  {
    TotalConcat(ps[..i], ps[i..], weight);
    assert ps == ps[..i] + ps[i..];
  }

  /** What does not fit when its turn comes makes the budget overfull. */
  lemma RoomForNext(r: State, s: State, i: nat, q: QueueKind)
    requires Validated(r.cfg) && Optimistic(r, q) && i < |r.producers| && Filling(r, s, i, q)
    ensures SlotsToCome(r.cfg, q)(r.producers[i].pc) == 1 ==> SlotRoom(s, q)
    ensures ByteRoom(s, q, BytesToCome(r.cfg, q)(r.producers[i].pc))
  {
    TotalNext(r.producers, i, SlotsToCome(r.cfg, q));
    TotalNext(r.producers, i, BytesToCome(r.cfg, q));
    PrefixTotal(r.producers, i + 1, SlotsToCome(r.cfg, q));
    PrefixTotal(r.producers, i + 1, BytesToCome(r.cfg, q));
    assert r.cfg.Capacity(Budget(q, Slots)) > 0;
  }

  lemma SettledFills(r: State, s: State, path: seq<Action>, e: State, i: nat, q: QueueKind)
    requires i < |r.producers| && Filling(r, s, i, q)
    requires SlotsToCome(r.cfg, q)(r.producers[i].pc) == 1
    requires Settles(s, path, e, i, q, BytesToCome(r.cfg, q)(r.producers[i].pc))
    ensures Poised(e, q) || Filling(r, e, i + 1, q)
  {
    TotalNext(r.producers, i, SlotsToCome(r.cfg, q));
    TotalNext(r.producers, i, BytesToCome(r.cfg, q));
  }

  lemma SkippedFills(r: State, s: State, i: nat, q: QueueKind)
    requires i < |r.producers| && Filling(r, s, i, q)
    requires !Comes(r.cfg, r.producers[i].pc, q) && !BetweenClaims(r.producers[i].pc, q)
    ensures Filling(r, s, i + 1, q)
  {
    TotalNext(r.producers, i, SlotsToCome(r.cfg, q));
    TotalNext(r.producers, i, BytesToCome(r.cfg, q));
  }

  lemma FillsNext(r: State, s: State, i: nat, q: QueueKind) returns (path: seq<Action>, e: State)
    requires Validated(r.cfg) && Optimistic(r, q) && i < |r.producers| && Filling(r, s, i, q)
    ensures Run(s, path) == Some(e) && e.w == r.w && Frozen(e) && (Poised(e, q) || Filling(r, e, i + 1, q))
  {
    path, e := [], s;
    if Comes(r.cfg, r.producers[i].pc, q) || BetweenClaims(r.producers[i].pc, q) {
      RoomForNext(r, s, i, q);
      path, e := ThreadSettles(s, i, q);
      SettledFills(r, s, path, e, i, q);
    } else {
      SkippedFills(r, s, i, q);
    }
  }

  lemma {:induction false} Fills(r: State, i: nat, q: QueueKind) returns (path: seq<Action>, e: State)
    requires Validated(r.cfg) && Optimistic(r, q) && i <= |r.producers| && Frozen(r) && WithinCapacity(r, q)
    ensures Run(r, path) == Some(e) && e.w == r.w && Frozen(e) && (Poised(e, q) || Filling(r, e, i, q))
  {
    if i == 0 {
      path, e := [], r;
    } else {
      path, e := Fills(r, i - 1, q);
      if !Poised(e, q) {
        var p', last := FillsNext(r, e, i - 1, q);
        RunInTwo(r, path, p');
        path, e := path + p', last;
      }
    }
  }

  /** If more is on its way than fits, some thread over-claims. */
  lemma OverfullOverclaims(r: State, q: QueueKind) returns (path: seq<Action>, e: State)
    requires Validated(r.cfg) && Optimistic(r, q) && Frozen(r) && WithinCapacity(r, q)
    requires Overfull(r, Budget(q, Slots)) || Overfull(r, Budget(q, Bytes))
    ensures Run(r, path) == Some(e) && e.w == r.w && Poised(e, q)
  {
    path, e := Fills(r, |r.producers|, q);
    assert r.producers[..|r.producers|] == r.producers;
  }

  // ---------------------------------------------------------------- the stores, and the rollback after them

  const RESET := ByHandle(ResetStep)

  lemma StoresOnce(s: State)
    requires Resetting(s.w.pc)
    ensures Run(s, [RESET]) == Some(NextReset(s, s.w.pc.reset))
  {
    RunOn(s, [], RESET);
    assert [] + [RESET] == [RESET];
  }

  lemma StoresTwice(s: State)
    requires s.w.pc == Aborted(ZeroNormalDepth) || s.w.pc == Aborted(ZeroNormalBytes)
    ensures Run(s, [RESET] + [RESET]) == Some(NextReset(NextReset(s, s.w.pc.reset), NextResetPc(s.w.pc.reset)))
  {
    var mid := NextReset(s, s.w.pc.reset);
    StoresOnce(s);
    StoresOnce(mid);
    RunInTwo(s, [RESET], [RESET]);
  }

  const STORES := [RESET] + [RESET] + ([RESET] + [RESET])

  /** The four stores, with no thread in between. */
  lemma StoresAll(s: State)
    requires s.w.pc == Aborted(ZeroNormalDepth)
    ensures Run(s, STORES).Some?
    ensures var e := Run(s, STORES).value; e.sh.used == ZERO && e.producers == s.producers
  {
    StoresTwice(s);
    var mid := Run(s, [RESET] + [RESET]).value;
    StoresTwice(mid);
    RunInTwo(s, [RESET] + [RESET], [RESET] + [RESET]);
  }

  lemma RollbackGoesBelow(s: State, t: nat, q: QueueKind)
    requires s.sh.used == ZERO && t < |s.producers| && RollsBack(s.producers[t].pc, q)
    ensures Run(s, [Thread(t)]).Some? && Negative(Run(s, [Thread(t)]).value, q)
  {
    RunOn(s, [], Thread(t));
    assert [] + [Thread(t)] == [Thread(t)];
    match s.producers[t].pc
    case UndoBytes(draft, queue) => TakesBack(s, Budget(queue, Bytes), draft.bytes, q);
    case UndoRecord(_, queue) => TakesBack(s, Budget(queue, Slots), 1, q);
    case ReturnBytes(draft, queue) => TakesBack(s, Budget(queue, Bytes), draft.bytes, q);
  }

  ghost predicate CanGoBelow(r: State, q: QueueKind) {
    exists after: seq<Action> :: Run(r, after).Some? && Negative(Run(r, after).value, q)
  }

  /** A thread that is about to give something back when the stores begin takes a counter below zero. */
  lemma PoisedGoesBelow(r: State, path: seq<Action>, s: State, q: QueueKind)
    requires Run(r, path) == Some(s) && s.w.pc == Aborted(ZeroNormalDepth) && Poised(s, q)
    ensures CanGoBelow(r, q)
  {
    var t :| 0 <= t < |s.producers| && RollsBack(s.producers[t].pc, q);
    StoresAll(s);
    RollbackGoesBelow(Run(s, STORES).value, t, q);
    RunInTwo(s, STORES, [Thread(t)]);
    RunInTwo(r, path, STORES + [Thread(t)]);
    assert Run(r, path + (STORES + [Thread(t)])).Some?;
  }

  // ---------------------------------------------------------------- where the counters stand at the abort

  lemma {:induction false} NothingPending(ps: seq<Producer>, q: QueueKind)
    requires forall t :: 0 <= t < |ps| ==> !RollsBack(ps[t].pc, q)
    ensures AllAwaitingUndo(ps, Budget(q, Slots)) == 0 == AllAwaitingUndo(ps, Budget(q, Bytes))
  {
    if ps != [] {
      NothingPending(ps[..|ps| - 1], q);
      assert !RollsBack(ps[|ps| - 1].pc, q);
    }
  }

  /** Where a generation stands when its worker is aborted. */
  ghost predicate JustAborted(r: State, q: QueueKind) {
    && Frozen(r) && r.w.pc == Aborted(ZeroNormalDepth) && !Negative(r, q) && (!Poised(r, q) ==> WithinCapacity(r, q))
  }

  lemma AbortingLeavesCounters(s: State, q: QueueKind)
    requires MayAbort(s) && Bounded(s, Budget(q, Slots)) && Bounded(s, Budget(q, Bytes))
    ensures JustAborted(AbortWorker(s), q)
  {
    if !Poised(s, q) {
      NothingPending(s.producers, q);
    }
  }

  lemma AtAbort(cfg: Config, before: seq<Action>, q: QueueKind)
    requires Reach(cfg, before + [ByHandle(Abort)]).Some?
    ensures var r := Reach(cfg, before + [ByHandle(Abort)]).value; r.cfg == cfg && JustAborted(r, q)
  {
    RunOn(Init(cfg), before, ByHandle(Abort));
    ReachKeepsInv(cfg, before);
    var s := Reach(cfg, before).value;
    assert Bounded(s, Budget(q, Slots)) && Bounded(s, Budget(q, Bytes));
    AbortingLeavesCounters(s, q);
  }

  // ---------------------------------------------------------------- main results

  /** After the abort of a timed-out shutdown, however the stores of zero and the threads
      interleave, a counter goes below zero only if a queue was endangered at the abort. */
  lemma UnderflowNeedsDanger(cfg: Config, before: seq<Action>, after: seq<Action>, q: QueueKind)
    requires Reach(cfg, before + [ByHandle(Abort)]).Some? && Reach(cfg, before + [ByHandle(Abort)] + after).Some?
    ensures Negative(Reach(cfg, before + [ByHandle(Abort)] + after).value, q) ==>
      var r := Reach(cfg, before + [ByHandle(Abort)]).value; Endangered(r, q) || Endangered(r, Normal)
  {
    var r := Reach(cfg, before + [ByHandle(Abort)]).value;
    AtAbort(cfg, before, q);
    AtAbort(cfg, before, Normal);
    RunInTwo(Init(cfg), before + [ByHandle(Abort)], after);
    if !Endangered(r, q) && !Endangered(r, Normal) {
      RunKeepsSafe(r, after, q);
    }
  }

  /** And if one was, some run takes one of its counters below zero. */
  lemma DangerGoesBelow(cfg: Config, before: seq<Action>, q: QueueKind)
    requires Validated(cfg) && Reach(cfg, before + [ByHandle(Abort)]).Some?
    requires Optimistic(Reach(cfg, before + [ByHandle(Abort)]).value, q)
    requires Endangered(Reach(cfg, before + [ByHandle(Abort)]).value, q)
    ensures CanGoBelow(Reach(cfg, before + [ByHandle(Abort)]).value, q)
  {
    var r := Reach(cfg, before + [ByHandle(Abort)]).value;
    AtAbort(cfg, before, q);
    if Poised(r, q) {
      PoisedGoesBelow(r, [], r, q);
    } else {
      var path, s := OverfullOverclaims(r, q);
      PoisedGoesBelow(r, path, s, q);
    }
  }

  /** The exact law: a counter can go below zero if and only if one of the queues is endangered
      at the abort. Only a budget of 2^63 or more that is overfull is excepted. */
  lemma ResetUnderflowsIff(cfg: Config, before: seq<Action>)
    requires Validated(cfg) && Reach(cfg, before + [ByHandle(Abort)]).Some?
    ensures var r := Reach(cfg, before + [ByHandle(Abort)]).value;
      Optimistic(r, Normal) && Optimistic(r, Reserved) ==>
        (CanGoBelow(r, Normal) || CanGoBelow(r, Reserved) <==> Endangered(r, Normal) || Endangered(r, Reserved))
  {
    var r := Reach(cfg, before + [ByHandle(Abort)]).value;
    if Optimistic(r, Normal) && Optimistic(r, Reserved) {
      if Endangered(r, Normal) {
        DangerGoesBelow(cfg, before, Normal);
      } else if Endangered(r, Reserved) {
        DangerGoesBelow(cfg, before, Reserved);
      } else {
        SafeNeverGoesBelow(cfg, before, Normal);
        SafeNeverGoesBelow(cfg, before, Reserved);
      }
    }
  }

  lemma SafeNeverGoesBelow(cfg: Config, before: seq<Action>, q: QueueKind)
    requires Reach(cfg, before + [ByHandle(Abort)]).Some?
    requires !Endangered(Reach(cfg, before + [ByHandle(Abort)]).value, Normal)
    requires !Endangered(Reach(cfg, before + [ByHandle(Abort)]).value, q)
    ensures !CanGoBelow(Reach(cfg, before + [ByHandle(Abort)]).value, q)
  {
    var r := Reach(cfg, before + [ByHandle(Abort)]).value;
    forall after | Run(r, after).Some?
      ensures !Negative(Run(r, after).value, q)
    {
      RunInTwo(Init(cfg), before + [ByHandle(Abort)], after);
      UnderflowNeedsDanger(cfg, before, after, q);
    }
  }

  /** The same for the normal queue alone, to which no thread falls back. */
  lemma NormalUnderflowsIff(cfg: Config, before: seq<Action>)
    requires Validated(cfg) && Reach(cfg, before + [ByHandle(Abort)]).Some?
    ensures var r := Reach(cfg, before + [ByHandle(Abort)]).value;
      Optimistic(r, Normal) ==> (CanGoBelow(r, Normal) <==> Endangered(r, Normal))
  {
    var r := Reach(cfg, before + [ByHandle(Abort)]).value;
    if Optimistic(r, Normal) {
      if Endangered(r, Normal) {
        DangerGoesBelow(cfg, before, Normal);
      } else {
        SafeNeverGoesBelow(cfg, before, Normal);
      }
    }
  }

  /** Whatever the capacities, a timed-out shutdown is harmless if no thread is on its way to a
      claim, between claims, or rolling one back, whether or not the fence is closed. */
  lemma ResetIsHarmless(cfg: Config, before: seq<Action>, after: seq<Action>, q: QueueKind)
    requires Reach(cfg, before + [ByHandle(Abort)]).Some? && Reach(cfg, before + [ByHandle(Abort)] + after).Some?
    requires forall t :: 0 <= t < |Reach(cfg, before + [ByHandle(Abort)]).value.producers| ==>
      Idle(Reach(cfg, before + [ByHandle(Abort)]).value.producers[t].pc)
    ensures !Negative(Reach(cfg, before + [ByHandle(Abort)] + after).value, q)
  {
    IdleIsSafe(cfg, before, q);
    IdleIsSafe(cfg, before, Normal);
    UnderflowNeedsDanger(cfg, before, after, q);
  }

  lemma IdleIsSafe(cfg: Config, before: seq<Action>, q: QueueKind)
    requires Reach(cfg, before + [ByHandle(Abort)]).Some?
    requires forall t :: 0 <= t < |Reach(cfg, before + [ByHandle(Abort)]).value.producers| ==>
      Idle(Reach(cfg, before + [ByHandle(Abort)]).value.producers[t].pc)
    ensures !Endangered(Reach(cfg, before + [ByHandle(Abort)]).value, q)
  {
    var r := Reach(cfg, before + [ByHandle(Abort)]).value;
    AtAbort(cfg, before, q);
    TotalOfNothing(r.producers, BytesToCome(cfg, q));
    TotalOfNothing(r.producers, SlotsToCome(cfg, q));
  }
}
