/**
A flush returns. Once submissions and retries have come to an end, the worker completes every
accepted record, unless it fails or finishes first; and a caller of `force_flush` then gets its
answer without its deadline.
*/
module ExporterFlushing {
  import opened Records
  import opened Wrappers
  import opened Drain
  import opened Exporter
  import opened ExporterShape
  import opened ExporterTickets
  import opened ExporterConservation
  import opened ExporterWake
  import opened ExporterStop
  import opened ExporterRuns
  import opened ExporterProgress
  import ExporterFlush

  // ---------------------------------------------------------------- rank

  /** On the way to a push, or to the wake-up after it. */
  predicate Submitting(pc: ProducerPc) {
    pc.Resolving? || pc.UsesLane() || pc.Notifying?
  }

  predicate Silent(s: State) {
    forall t :: 0 <= t < |s.producers| ==> !Submitting(s.producers[t].pc)
  }

  /** Some lane holds a record that the worker will not take before it waits. */
  predicate Missed(s: State) {
    exists l :: 0 <= l < |s.lanes| && !s.lanes[l].queues.IsEmpty() && !WillTake(s.w, l)
  }

  function LaneWork(s: State): nat {
    2 * |QueuedIn(s.lanes)| + (if Missed(s) then 1 else 0)
  }

  /** A worker that waits for the fence has passed its test. */
  function FlushPhase(w: Worker): nat {
    if w.pc == Wait(WaitFence) then 2 else Phase(w)
  }

  /** Open records and the stop still to be learnt; records in lanes, and whether one is missed;
      then as in the rank of a shutdown. */
  function FlushRank(s: State): Rank {
    Rank(Unaware(s.w) + OpenRecords(s), LaneWork(s), FlushPhase(s.w), Size(s), Stage(s.w.pc), Place(s))
  }

  ghost predicate Strives(s: State, s': State) {
    FlushRank(s').Below(FlushRank(s))
  }

  ghost predicate NoWorse(s: State, s': State) {
    Unaware(s'.w) <= Unaware(s.w) && OpenRecords(s') <= OpenRecords(s) && LaneWork(s') <= LaneWork(s)
  }

  lemma AdvanceStrives(s: State, s': State)
    requires NoWorse(s, s') && Advances(s, s') && s.w.pc != Wait(WaitFence) && s'.w.pc != Wait(WaitFence)
    ensures Strives(s, s')
  {
  }

  lemma StillTaken(s: State, s': State)
    requires s'.lanes == s.lanes && forall l :: WillTake(s.w, l) ==> WillTake(s'.w, l)
    ensures LaneWork(s') <= LaneWork(s)
  {
  }

  lemma {:induction false} NothingQueued(lanes: seq<Lane>)
    requires forall l :: 0 <= l < |lanes| ==> lanes[l].queues.IsEmpty()
    ensures QueuedIn(lanes) == []
  {
    if lanes != [] {
      NothingQueued(lanes[..|lanes| - 1]);
    }
  }

  lemma {:induction false} NothingHeld(ps: seq<Producer>)
    requires forall t :: 0 <= t < |ps| ==> !ps[t].pc.Pushing?
    ensures HeldByThreads(ps) == []
  {
    if ps != [] {
      NothingHeld(ps[..|ps| - 1]);
    }
  }

  /** With nobody submitting, a worker that has nothing in hand has missed what is still open. */
  lemma WaitingMisses(s: State)
    requires Inv(s) && Silent(s) && OpenRecords(s) > 0 && s.w.pc.Wait? && !s.w.pc.wait.WaitBatch?
    ensures Missed(s)
  {
    TicketsAddUp(s);
    NothingHeld(s.producers);
    if forall l :: 0 <= l < |s.lanes| ==> s.lanes[l].queues.IsEmpty() {
      NothingQueued(s.lanes);
    }
  }

  // ---------------------------------------------------------------- the worker

  lemma ReceiveStrives(s: State, m: WorkerMove)
    requires WorkerShape(s.w) && StopKept(s) && Missed(s) && s.w.pc == Wait(WaitReceive)
    requires WaitStep(s, WaitReceive, m).Some?
    ensures Strives(s, WaitStep(s, WaitReceive, m).value)
  {
  }

  lemma BatchWaitStrives(s: State, batch: seq<QueuedLog>, m: WorkerMove)
    requires WorkerShape(s.w) && StopKept(s) && s.w.pc == Wait(WaitBatch(batch))
    requires WaitStep(s, WaitBatch(batch), m).Some?
    ensures Strives(s, WaitStep(s, WaitBatch(batch), m).value)
  {
    if !m.OnShutdown? {
      StillTaken(s, WaitStep(s, WaitBatch(batch), m).value);
    }
  }

  lemma FenceWaitStrives(s: State, m: WorkerMove)
    requires WorkerShape(s.w) && Missed(s) && s.w.pc == Wait(WaitFence) && WaitStep(s, WaitFence, m).Some?
    ensures Strives(s, WaitStep(s, WaitFence, m).value)
  {
  }

  lemma ExitStrives(s: State, at: WaitPc, m: WorkerMove)
    requires s.w.pc == Wait(at) && WaitStep(s, at, m).Some?
    requires at.CheckFence? || at.StopStatus? || at.StopNotify?
    ensures Strives(s, WaitStep(s, at, m).value)
  {
    StillTaken(s, WaitStep(s, at, m).value);
  }

  lemma WaitStrives(s: State, at: WaitPc, m: WorkerMove)
    requires Inv(s) && StopKept(s) && Silent(s) && OpenRecords(s) > 0
    requires s.w.pc == Wait(at) && WaitStep(s, at, m).Some?
    ensures Strives(s, WaitStep(s, at, m).value)
  {
    if !at.WaitBatch? {
      WaitingMisses(s);
    }
    match at
    case WaitReceive => ReceiveStrives(s, m);
    case WaitBatch(batch) => BatchWaitStrives(s, batch, m);
    case WaitFence => FenceWaitStrives(s, m);
    case CheckFence => ExitStrives(s, at, m);
    case StopStatus => ExitStrives(s, at, m);
    case StopNotify => ExitStrives(s, at, m);
  }

  lemma LaneEmptied(lanes: seq<Lane>, l: nat)
    requires l < |lanes|
    ensures |QueuedIn(lanes[l := lanes[l].(queues := EMPTY_QUEUES)])| + |LogsOf(lanes[l].queues)| == |QueuedIn(lanes)|
  {
    var after := lanes[l := lanes[l].(queues := EMPTY_QUEUES)];
    QueuedAt(lanes, l);
    QueuedAt(after, l);
    assert after[..l] == lanes[..l] && after[l + 1..] == lanes[l + 1..];
  }

  lemma TakingIsNoWorse(s: State, site: Site, todo: seq<nat>, visited: seq<nat>, taken: seq<LaneQueues>)
    requires s.w.pc == Refresh(site, Taking(todo, visited, taken)) && RefreshStep(s, site, s.w.pc.refresh).Some?
    ensures LaneWork(RefreshStep(s, site, s.w.pc.refresh).value) <= LaneWork(s)
  {
    if todo != [] {
      LaneEmptied(s.lanes, todo[0]);
      assert todo == [todo[0]] + todo[1..];
    }
  }

  lemma RetiringIsNoWorse(s: State, site: Site, i: nat)
    requires RegistrySound(s) && s.w.pc == Refresh(site, Retiring(i))
    ensures RefreshStep(s, site, Retiring(i)).Some? && LaneWork(RefreshStep(s, site, Retiring(i)).value) <= LaneWork(s)
  {
    var s' := RefreshStep(s, site, Retiring(i)).value;
    RotationIsPermutation(s.registry, s.cursor);
    forall l | 0 <= l < |s.lanes| && !s.lanes[l].queues.IsEmpty()
      ensures WillTake(s'.w, l)
    {
      assert l in s.registry;
      assert l in multiset(s.registry);
      assert i >= |s.registry| ==> l in multiset(Rotated(s.registry, s.cursor));
    }
  }

  lemma RefreshIsNoWorse(s: State, site: Site, at: RefreshPc)
    requires RegistrySound(s) && s.w.pc == Refresh(site, at) && RefreshStep(s, site, at).Some?
    ensures LaneWork(RefreshStep(s, site, at).value) <= LaneWork(s)
  {
    match at
    case Retiring(i) => RetiringIsNoWorse(s, site, i);
    case RetireCheck(_) =>
    case Taking(todo, visited, taken) => TakingIsNoWorse(s, site, todo, visited, taken);
  }

  lemma RefreshNeverWaits(s: State, site: Site, at: RefreshPc)
    requires RefreshStep(s, site, at).Some?
    ensures !RefreshStep(s, site, at).value.w.pc.Wait?
  {
    match at
    case Retiring(_) =>
    case RetireCheck(_) =>
    case Taking(_, _, _) =>
  }

  lemma RefreshStrives(s: State, site: Site, at: RefreshPc)
    requires Inv(s) && s.w.pc == Refresh(site, at) && RefreshStep(s, site, at).Some?
    ensures Strives(s, RefreshStep(s, site, at).value)
  {
    RefreshAdvances(s, site, at);
    RefreshFrame(s, site, at);
    ExporterFlush.RefreshKeepsProgress(s, site, at);
    RefreshKeepsStop(s, site, at);
    RefreshIsNoWorse(s, site, at);
    RefreshNeverWaits(s, site, at);
    AdvanceStrives(s, RefreshStep(s, site, at).value);
  }

  lemma InputStrives(s: State, at: InputPc)
    requires Inv(s) && StopKept(s) && s.w.pc == Input(at)
    ensures Strives(s, InputStep(s, at))
  {
    InputAdvances(s, at);
    InputIsAttentive(s, at);
    InputFrame(s, at);
    ExporterFlush.InputKeepsProgress(s, at);
    InputKeepsStop(s, at);
    StillTaken(s, InputStep(s, at));
    AdvanceStrives(s, InputStep(s, at));
  }

  lemma BatchStrives(s: State, at: BatchPc)
    requires Inv(s) && s.w.pc == Assemble(at)
    ensures Strives(s, BatchStep(s, at))
  {
    HandsAreOpen(s);
    BatchAdvances(s, at);
    BatchFrame(s, at);
    ExporterFlush.BatchKeepsProgress(s, at);
    BatchKeepsStop(s, at);
    StillTaken(s, BatchStep(s, at));
    BatchNeverWaits(s, at);
    AdvanceStrives(s, BatchStep(s, at));
  }

  lemma BatchNeverWaits(s: State, at: BatchPc)
    ensures !BatchStep(s, at).w.pc.Wait?
  {
    match at
    case First(_) =>
    case Fill(_) =>
    case Next(_, _) =>
    case Export(_) =>
  }

  lemma TransmitStrives(s: State, stack: seq<seq<QueuedLog>>, at: TransmitPc, m: WorkerMove)
    requires Inv(s) && s.w.pc == Transmit(stack, at) && TransmitStep(s, stack, at, m).Some? && !AsksForRetry(m)
    ensures Strives(s, TransmitStep(s, stack, at, m).value)
  {
    TransmitAdvances(s, stack, at, m);
    TransmitFrame(s, stack, at, m);
    ExporterFlush.TransmitKeepsProgress(s, stack, at, m);
    TransmitKeepsStop(s, stack, at, m);
    StillTaken(s, TransmitStep(s, stack, at, m).value);
    TransmitNeverWaits(s, stack, at, m);
    AdvanceStrives(s, TransmitStep(s, stack, at, m).value);
  }

  lemma TransmitNeverWaits(s: State, stack: seq<seq<QueuedLog>>, at: TransmitPc, m: WorkerMove)
    requires TransmitStep(s, stack, at, m).Some?
    ensures !TransmitStep(s, stack, at, m).value.w.pc.Wait?
  {
    match at
    case NextSegment =>
    case Send(records) => { match m.outcome case Accepted(_) => case InvalidPayload => case Retryable =>
        case Permanent => }
    case Backoff(_) =>
  }

  lemma SettleStrives(s: State, logs: seq<QueuedLog>, resume: Resume, at: SettlePc)
    requires Inv(s) && s.w.pc == Settle(logs, resume, at)
    ensures Strives(s, SettleStep(s, logs, resume, at))
  {
    HandsAreOpen(s);
    SettleAdvances(s, logs, resume, at);
    SettleFrame(s, logs, resume, at);
    SettleKeepsStop(s, logs, resume, at);
    StillTaken(s, SettleStep(s, logs, resume, at));
    SettleNeverWaits(s, logs, resume, at);
    AdvanceStrives(s, SettleStep(s, logs, resume, at));
  }

  lemma SettleNeverWaits(s: State, logs: seq<QueuedLog>, resume: Resume, at: SettlePc)
    ensures !SettleStep(s, logs, resume, at).w.pc.Wait?
    ensures |SettleStep(s, logs, resume, at).h.done| >= |s.h.done|
  {
    match at
    case Complete => { match resume case ToTop => case ToFill(_) => case ToNextSegment(_) => }
    case Publish =>
    case Progress =>
  }

  /** All is completed and published, or the worker has failed or is gone. */
  predicate Over(s: State) {
    (OpenRecords(s) == 0 && !s.w.pc.Settle?) || s.w.pc.Fail? || Finished(s)
  }

  lemma WorkerStrives(s: State, m: WorkerMove)
    requires Inv(s) && StopKept(s) && Silent(s) && !Over(s) && WorkerStep(s, m).Some? && !AsksForRetry(m)
    ensures Strives(s, WorkerStep(s, m).value)
  {
    match s.w.pc
    case Refresh(site, at) => RefreshStrives(s, site, at);
    case Input(at) => InputStrives(s, at);
    case Assemble(at) => BatchStrives(s, at);
    case Wait(at) => WaitStrives(s, at, m);
    case Transmit(stack, at) => TransmitStrives(s, stack, at, m);
    case Settle(logs, resume, at) => SettleStrives(s, logs, resume, at);
  }

  lemma WaitingHasPermit(s: State)
    requires Inv(s) && Silent(s) && OpenRecords(s) > 0 && s.w.pc.Wait? && !s.w.pc.wait.WaitBatch?
    ensures s.sh.recordsPermit
  {
    WaitingMisses(s);
    var l :| 0 <= l < |s.lanes| && !s.lanes[l].queues.IsEmpty() && !WillTake(s.w, l);
    assert Attended(s, l);
  }

  /** A worker that strives is never asleep. */
  lemma StrivingIsAwake(s: State)
    requires Inv(s) && Silent(s) && !Over(s)
    ensures !Blocked(s)
  {
    if s.w.pc.Wait? && !s.w.pc.wait.WaitBatch? {
      WaitingHasPermit(s);
    }
    BlockedIffFinishedOrAsleep(s);
  }

  // ---------------------------------------------------------------- the other actors

  /** What threads that submit nothing leave alone. */
  ghost predicate SameWork(s: State, s': State) {
    && s'.w == s.w && s'.h.done == s.h.done && s'.sh.nextTicket == s.sh.nextTicket && s'.registry == s.registry
    && s'.sh.completedTicket == s.sh.completedTicket && s'.flushers == s.flushers
    && |s'.lanes| == |s.lanes| && forall l :: 0 <= l < |s.lanes| ==> s'.lanes[l].queues == s.lanes[l].queues
  }

  lemma SilentThreadLeavesWork(s: State, t: nat, m: ProducerMove)
    requires Silent(s) && ProducerStep(s, t, m).Some? && Silent(ProducerStep(s, t, m).value)
    ensures SameWork(s, ProducerStep(s, t, m).value)
  {
    StepKeepsThreads(s, ByProducer(t, m));
    assert !Submitting(s.producers[t].pc) && !Submitting(ProducerStep(s, t, m).value.producers[t].pc);
    match s.producers[t].pc
    case Outside =>
    case Loaded =>
    case Leaving =>
    case Closing =>
    case Gone =>
  }

  lemma SameWorkSameRank(s: State, s': State)
    requires SameWork(s, s')
    ensures FlushRank(s') == FlushRank(s)
  {
    SameQueuesSameLogs(s'.lanes, s.lanes);
    assert Missed(s') <==> Missed(s);
  }

  lemma OthersLeaveRank(s: State, a: Action)
    requires Silent(s) && !a.ByWorker? && Step(s, a).Some? && Silent(Step(s, a).value)
    ensures Step(s, a).value.w.pc.Aborted? || FlushRank(Step(s, a).value) == FlushRank(s)
  {
    match a
    case ByProducer(t, m) =>
      SilentThreadLeavesWork(s, t, m);
      SameWorkSameRank(s, Step(s, a).value);
    case ByFlusher(f, m) =>
      FlushFrame(s, f, m);
      assert Missed(Step(s, a).value) <==> Missed(s);
    case ByHandle(m) =>
      HandleFrame(s, m);
      assert Step(s, a).value.w.pc == s.w.pc ==> (Missed(Step(s, a).value) <==> Missed(s));
  }

  // ---------------------------------------------------------------- all is completed

  /** Every accepted record is completed, and its completion published. */
  ghost predicate AllDone(s: State) {
    s.sh.completedTicket == s.sh.nextTicket
  }

  lemma NothingOpenIsDone(s: State, t: Ticket)
    requires Inv(s) && OpenRecords(s) == 0 && !s.w.pc.Aborted? && 1 <= t <= s.sh.nextTicket
    ensures s.w.tracker.Has(t)
  {
    TicketsAddUp(s);
    var log := s.h.issued[t - 1];
    IssuedOnce(s.h.issued, log);
    assert Occurrences(s, log) == Count(s.h.issued, log);
    CountMember(s.h.done, log);
    assert log in s.h.done && log.ticket == t;
  }

  lemma WatermarkIsIssued(s: State)
    requires Inv(s)
    ensures s.w.tracker.watermark <= s.sh.nextTicket
  {
    if s.w.tracker.watermark >= 1 {
      assert s.w.tracker.Has(s.w.tracker.watermark);
      var log :| log in s.h.done && log.ticket == s.w.tracker.watermark;
      var i :| 0 <= i < |s.h.issued| && s.h.issued[i] == log;
    }
  }

  lemma NothingOpenIsAllDone(s: State)
    requires Inv(s) && OpenRecords(s) == 0 && !s.w.pc.Settle? && !s.w.pc.Aborted?
    ensures AllDone(s)
  {
    WatermarkIsIssued(s);
    if s.w.tracker.watermark < s.sh.nextTicket {
      NothingOpenIsDone(s, s.w.tracker.watermark + 1);
    }
  }

  // ---------------------------------------------------------------- the caller

  /** The steps that a caller still takes once all it waits for is published. */
  function CallerLeft(f: FlusherPc): nat {
    match f
    case FlushIdle => 7
    case FlushLoadStatus(_, _, _) => 6
    case FlushWait(_, _) => 5
    case FlushWake(_) => 4
    case FlushEnable(_) => 3
    case FlushLoad(_, _) => 2
    case FlushDone(_, _, _) => 0
  }

  /** The caller's target is published, and if it has to sleep it is woken at once. */
  ghost predicate Ready(s: State, f: nat, target: Ticket) {
    && f < |s.flushers| && TargetOf(s.flushers[f]) == Some(target) && target <= s.sh.completedTicket
    && (s.flushers[f].FlushLoadStatus? || s.flushers[f].FlushWait? ==> s.flushers[f].notified)
  }

  predicate TimedOutAt(s: State, f: nat) {
    f < |s.flushers| && s.flushers[f].FlushDone? && s.flushers[f].status.TimedOut?
  }

  lemma CallerGetsCloser(s: State, f: nat, target: Ticket)
    requires Ready(s, f, target) && FlushStep(s, f, FlushGo).Some?
    ensures var s' := FlushStep(s, f, FlushGo).value;
      Ready(s', f, target) && CallerLeft(s'.flushers[f]) < CallerLeft(s.flushers[f]) && !TimedOutAt(s', f)
  {
    match s.flushers[f]
    case FlushWake(_) =>
    case FlushEnable(_) =>
    case FlushLoad(_, _) =>
    case FlushLoadStatus(_, _, _) =>
    case FlushWait(_, _) =>
    case FlushDone(_, _, _) =>
  }

  /** A step that is not the caller's leaves it where it is, or wakes it. */
  ghost predicate LeavesCaller(s: State, s': State, f: nat) {
    && |s'.flushers| == |s.flushers| && s'.sh.completedTicket >= s.sh.completedTicket
    && (f < |s.flushers| ==> s'.flushers[f] == s.flushers[f] || s'.flushers[f] == WakeFlusher(s.flushers[f]))
  }

  lemma OtherCallerLeaves(s: State, f: nat, i: nat, m: FlushMove)
    requires FlushStep(s, i, m).Some? && i != f
    ensures LeavesCaller(s, FlushStep(s, i, m).value, f)
  {
    match s.flushers[i]
    case FlushIdle =>
    case FlushWake(_) =>
    case FlushEnable(_) =>
    case FlushLoad(_, _) =>
    case FlushLoadStatus(_, _, _) =>
    case FlushWait(_, _) =>
    case FlushDone(_, _, _) =>
  }

  lemma WorkerLeavesCaller(s: State, f: nat, m: WorkerMove)
    requires Inv(s) && WorkerStep(s, m).Some?
    ensures LeavesCaller(s, WorkerStep(s, m).value, f)
  {
    if s.w.pc.Settle? {
      match s.w.pc.settle case Complete => case Publish => case Progress =>
    } else {
      ExporterFlush.WorkerKeepsProgress(s, m);
    }
  }

  lemma OthersLeaveCaller(s: State, a: Action, f: nat)
    requires Inv(s) && Step(s, a).Some? && !(a.ByFlusher? && a.f == f)
    ensures LeavesCaller(s, Step(s, a).value, f)
  {
    match a
    case ByProducer(t, m) => ExporterFlush.ProducerKeepsProgress(s, t, m);
    case ByWorker(m) => WorkerLeavesCaller(s, f, m);
    case ByFlusher(i, m) => OtherCallerLeaves(s, f, i, m);
    case ByHandle(m) => HandleFrame(s, m); HandleKeepsTargets(s, m);
  }

  predicate CallersStep(a: Action, f: nat) {
    a.ByFlusher? && a.f == f
  }

  lemma StepKeepsReady(s: State, a: Action, f: nat, target: Ticket)
    requires Inv(s) && Ready(s, f, target) && Step(s, a).Some? && (CallersStep(a, f) ==> a.fm.FlushGo?)
    ensures var s' := Step(s, a).value;
      && Ready(s', f, target)
      && (if CallersStep(a, f) then CallerLeft(s'.flushers[f]) < CallerLeft(s.flushers[f])
          else CallerLeft(s'.flushers[f]) == CallerLeft(s.flushers[f]))
  {
    if CallersStep(a, f) {
      CallerGetsCloser(s, f, target);
    } else {
      OthersLeaveCaller(s, a, f);
    }
  }

  lemma StepNeverTimesOut(s: State, a: Action, f: nat)
    requires Inv(s) && !TimedOutAt(s, f) && Step(s, a).Some? && (CallersStep(a, f) ==> a.fm.FlushGo?)
    ensures !TimedOutAt(Step(s, a).value, f)
  {
    if CallersStep(a, f) {
      match s.flushers[f]
      case FlushIdle =>
      case FlushWake(_) =>
      case FlushEnable(_) =>
      case FlushLoad(_, _) =>
      case FlushLoadStatus(_, _, _) =>
      case FlushWait(_, _) =>
    } else {
      OthersLeaveCaller(s, a, f);
    }
  }

  // ---------------------------------------------------------------- infinite runs

  function OverAt(run: nat -> State): nat -> bool {
    (n: nat) => Over(run(n))
  }

  ghost function FlushRanks(run: nat -> State): nat -> Rank {
    (n: nat) => FlushRank(run(n))
  }

  /** From step `from` on nobody submits a record, and the collector asks for no retry. */
  ghost predicate Subsides(run: nat -> State, acts: nat -> Action, from: nat) {
    forall n: nat :: n >= from ==> Silent(run(n)) && (acts(n).ByWorker? ==> !AsksForRetry(acts(n).wm))
  }

  /** The runtime polls the worker whenever it can move. */
  ghost predicate WorkerGoesOn(run: nat -> State, acts: nat -> Action) {
    forall n: nat :: Blocked(run(n)) || exists k: nat :: WorksLater(WorkerActs(acts), n, k)
  }

  lemma NextStrives(cfg: Config, run: nat -> State, acts: nat -> Action, from: nat, n: nat)
    requires Execution(cfg, run, acts) && Subsides(run, acts, from) && n >= from
    ensures Over(run(n)) || Descends(FlushRanks(run), OverAt(run), WorkerActs(acts), n)
  {
    InvAlong(cfg, run, acts, n);
    assert StepsAt(run, acts, n) && Silent(run(n)) && Silent(run(n + 1));
    if !Over(run(n)) {
      if acts(n).ByWorker? {
        WorkerStrives(run(n), acts(n).wm);
      } else {
        OthersLeaveRank(run(n), acts(n));
      }
    }
  }

  /** The worker completes and publishes everything, unless it fails or finishes first. */
  lemma WorkerCatchesUp(cfg: Config, run: nat -> State, acts: nat -> Action, from: nat) returns (caught: nat)
    requires Execution(cfg, run, acts) && Subsides(run, acts, from) && WorkerGoesOn(run, acts)
    ensures caught >= from && Over(run(caught))
    ensures run(caught).w.pc.Fail? || Finished(run(caught)) || AllDone(run(caught))
  {
    forall n: nat | n >= from
      ensures Over(run(n)) || Descends(FlushRanks(run), OverAt(run), WorkerActs(acts), n)
      ensures Over(run(n)) || exists k: nat :: WorksLater(WorkerActs(acts), n, k)
    {
      NextStrives(cfg, run, acts, from, n);
      InvAlong(cfg, run, acts, n);
      if !Over(run(n)) {
        StrivingIsAwake(run(n));
      }
    }
    caught := FairDescent(FlushRanks(run), OverAt(run), WorkerActs(acts), from);
    InvAlong(cfg, run, acts, caught);
    if OpenRecords(run(caught)) == 0 && !run(caught).w.pc.Settle? && !run(caught).w.pc.Aborted? {
      NothingOpenIsAllDone(run(caught));
    }
  }

  /** The caller is in a call for this target, and its deadline does not pass. */
  ghost predicate Patient(run: nat -> State, acts: nat -> Action, f: nat, from: nat) {
    forall n: nat :: n >= from && CallersStep(acts(n), f) ==> acts(n).fm.FlushGo?
  }

  function CallerActs(acts: nat -> Action, f: nat): nat -> bool {
    (n: nat) => CallersStep(acts(n), f)
  }

  predicate Returned(s: State, f: nat) {
    f < |s.flushers| && s.flushers[f].FlushDone?
  }

  function ReturnedAt(run: nat -> State, f: nat): nat -> bool {
    (n: nat) => Returned(run(n), f)
  }

  function CallerRanks(run: nat -> State, f: nat): nat -> Rank {
    (n: nat) => Rank(0, 0, 0, if f < |run(n).flushers| then CallerLeft(run(n).flushers[f]) else 0, 0, 0)
  }

  predicate SleepsUnnotified(s: State, f: nat) {
    f < |s.flushers| && s.flushers[f].FlushWait? && !s.flushers[f].notified
  }

  /** A caller that does not sleep goes on. */
  ghost predicate CallerGoesOn(run: nat -> State, acts: nat -> Action, f: nat) {
    forall n: nat :: Returned(run(n), f) || SleepsUnnotified(run(n), f) ||
      exists k: nat :: WorksLater(CallerActs(acts, f), n, k)
  }

  ghost predicate ReadyAt(run: nat -> State, f: nat, target: Ticket, n: nat) {
    Ready(run(n), f, target)
  }

  lemma StaysReady(cfg: Config, run: nat -> State, acts: nat -> Action, f: nat, target: Ticket, from: nat, n: nat)
    requires Execution(cfg, run, acts) && Patient(run, acts, f, from) && ReadyAt(run, f, target, from) && n >= from
    ensures ReadyAt(run, f, target, n)
  {
    forall i: nat | i >= from && ReadyAt(run, f, target, i)
      ensures ReadyAt(run, f, target, i + 1)
    {
      InvAlong(cfg, run, acts, i);
      assert StepsAt(run, acts, i);
      StepKeepsReady(run(i), acts(i), f, target);
    }
    FromThenOn((i: nat) => ReadyAt(run, f, target, i), from, n);
  }

  /** A caller whose target is published returns. */
  lemma ReadyReturns(cfg: Config, run: nat -> State, acts: nat -> Action, f: nat, target: Ticket, from: nat)
      returns (end: nat)
    requires Execution(cfg, run, acts) && Patient(run, acts, f, from) && CallerGoesOn(run, acts, f)
    requires Ready(run(from), f, target)
    ensures end >= from && Returned(run(end), f)
  {
    forall n: nat | n >= from
      ensures Descends(CallerRanks(run, f), ReturnedAt(run, f), CallerActs(acts, f), n)
      ensures Returned(run(n), f) || exists k: nat :: WorksLater(CallerActs(acts, f), n, k)
    {
      StaysReady(cfg, run, acts, f, target, from, n);
      InvAlong(cfg, run, acts, n);
      assert StepsAt(run, acts, n);
      StepKeepsReady(run(n), acts(n), f, target);
    }
    end := FairDescent(CallerRanks(run, f), ReturnedAt(run, f), CallerActs(acts, f), from);
  }

  lemma {:induction false} NeverTimesOut(cfg: Config, run: nat -> State, acts: nat -> Action, f: nat, from: nat, n: nat)
    requires Execution(cfg, run, acts) && Patient(run, acts, f, from) && !TimedOutAt(run(from), f) && n >= from
    ensures !TimedOutAt(run(n), f)
  {
    if n > from {
      NeverTimesOut(cfg, run, acts, f, from, n - 1);
      InvAlong(cfg, run, acts, n - 1);
      assert StepsAt(run, acts, n - 1);
      StepNeverTimesOut(run(n - 1), acts(n - 1), f);
    }
  }

  lemma {:induction false} KeepsTarget(run: nat -> State, acts: nat -> Action, f: nat, target: Ticket,
                                       from: nat, n: nat)
    requires (forall i: nat :: StepsAt(run, acts, i)) && n >= from
    requires f < |run(from).flushers| && TargetOf(run(from).flushers[f]) == Some(target)
    ensures f < |run(n).flushers| && TargetOf(run(n).flushers[f]) == Some(target)
  {
    if n > from {
      KeepsTarget(run, acts, f, target, from, n - 1);
      assert StepsAt(run, acts, n - 1);
      StepKeepsCall(run(n - 1), acts(n - 1), f, target);
    }
  }

  lemma AllDoneIsReady(s: State, f: nat, target: Ticket)
    requires Inv(s) && AllDone(s) && Over(s) && !s.w.pc.Aborted?
    requires f < |s.flushers| && TargetOf(s.flushers[f]) == Some(target)
    ensures Ready(s, f, target)
  {
    assert ExporterFlush.FlusherSound(s.flushers[f], s.sh.nextTicket, s.sh.completedTicket,
                                      ExporterFlush.AboutToWake(s.w.pc));
  }

  /** The caller has its answer, not by its deadline; or the worker has failed or finished. */
  predicate HasAnswer(s: State, f: nat) {
    (Returned(s, f) && !TimedOutAt(s, f)) || s.w.pc.Fail? || Finished(s)
  }

  /** A flush returns. After an end of submissions and of retries, a caller whose deadline does
      not pass gets an answer, unless the worker fails or finishes. */
  lemma FlushReturns(cfg: Config, run: nat -> State, acts: nat -> Action, f: nat, target: Ticket, from: nat)
    requires Execution(cfg, run, acts) && Subsides(run, acts, from) && WorkerGoesOn(run, acts)
    requires Patient(run, acts, f, from) && CallerGoesOn(run, acts, f)
    requires f < |run(from).flushers| && TargetOf(run(from).flushers[f]) == Some(target) && !Returned(run(from), f)
    ensures exists end: nat :: end >= from && HasAnswer(run(end), f)
  {
    var caught := WorkerCatchesUp(cfg, run, acts, from);
    if !run(caught).w.pc.Fail? && !Finished(run(caught)) {
      InvAlong(cfg, run, acts, caught);
      KeepsTarget(run, acts, f, target, from, caught);
      AllDoneIsReady(run(caught), f, target);
      var end := ReadyReturns(cfg, run, acts, f, target, caught);
      NeverTimesOut(cfg, run, acts, f, from, end);
    }
  }
}
