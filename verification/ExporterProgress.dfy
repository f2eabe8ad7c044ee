/**
Shutdown completes. A rank of the worker's position falls with every step the worker takes
once it has been asked to stop and the fence is closed, and no other actor can raise it.
*/
module ExporterProgress {
  import opened Records
  import opened Replies
  import opened Wrappers
  import opened Watermark
  import opened Drain
  import opened Exporter
  import opened ExporterShape
  import opened ExporterTickets
  import opened ExporterConservation
  import opened ExporterShutdown
  import opened ExporterWake
  import opened ExporterStop
  import opened ExporterRuns

  // ---------------------------------------------------------------- rank

  /** Compared from left to right. */
  datatype Rank = Rank(first: nat, second: nat, third: nat, fourth: nat, fifth: nat, sixth: nat) {
    predicate Below(r: Rank) {
      if first != r.first then first < r.first
      else if second != r.second then second < r.second
      else if third != r.third then third < r.third
      else if fourth != r.fourth then fourth < r.fourth
      else if fifth != r.fifth then fifth < r.fifth
      else sixth < r.sixth
    }
  }

  /** Requests that a segment of n records may still cost. */
  function SegmentWork(n: nat): nat {
    if n == 0 then 0 else 2 * n - 1
  }

  function StackWork(stack: seq<seq<QueuedLog>>): nat {
    if stack == [] then 0 else StackWork(stack[..|stack| - 1]) + SegmentWork(|stack[|stack| - 1]|)
  }

  function TopPhase(w: Worker): nat {
    if w.pending == [] then 17 else 13
  }

  function SitePhase(w: Worker, site: Site): nat {
    match site
    case AtTop => TopPhase(w)
    case InReceive => 16
    case InDrain => 16
    case InLastPoll => 14
    case InBatch(_) => 11
    case InBatchWoken(_) => 11
  }

  function Phase(w: Worker): nat {
    match w.pc
    case Refresh(site, _) => SitePhase(w, site)
    case Input(at) => if at.Top? || at.Choose? then TopPhase(w) else SitePhase(w, at.site)
    case Assemble(at) => (match at case First(_) => 12 case Fill(_) => 11 case Next(_, _) => 11 case Export(_) => 10)
    case Wait(at) => (match at case WaitFence => 19 case WaitReceive => 15 case WaitBatch(_) => 11
                               case CheckFence => 6 case StopStatus => 5 case StopNotify => 4 case Drained => 3)
    case Transmit(stack, at) => if at.NextSegment? && stack == [] then 18 else 9
    case Settle(logs, _, _) => if logs == [] then 20 else 8
    case Fail(_, _) => 7
    case Aborted(_) => 0
  }

  /** Accepted records that are not in a batch under construction. */
  function Unbatched(total: nat, batch: seq<QueuedLog>): nat {
    if |batch| <= total then total - |batch| else 0
  }

  function SiteSize(total: nat, site: Site): nat {
    if site.InBatch? || site.InBatchWoken? then Unbatched(total, site.batch) else 0
  }

  function Size(s: State): nat {
    match s.w.pc
    case Refresh(site, _) => SiteSize(s.sh.nextTicket, site)
    case Input(at) => if at.Top? || at.Choose? then 0 else SiteSize(s.sh.nextTicket, at.site)
    case Assemble(at) => if at.First? || at.Export? then 0 else Unbatched(s.sh.nextTicket, at.batch)
    case Wait(at) => if at.WaitBatch? then Unbatched(s.sh.nextTicket, at.batch) else 0
    case Transmit(stack, at) => StackWork(stack) + (if at.NextSegment? then 0 else SegmentWork(|at.records|))
    case _ => 0
  }

  /** Asking for more records of a batch comes before waiting for them, and that before asking again. */
  function SiteStage(site: Site): nat {
    if site.InBatch? then 20 else 0
  }

  function Stage(pc: WorkerPc): nat {
    match pc
    case Refresh(site, at) => SiteStage(site) + (if at.Taking? then 7 else 8)
    case Input(at) => (match at case Top => 10 case Choose => 6
                                case Poll(site) => SiteStage(site) + 9
                                case Pop(site) => SiteStage(site) + 6
                                case ReleaseRecord(site, _) => SiteStage(site) + 5
                                case ReleaseBytes(site, _) => SiteStage(site) + 4)
    case Assemble(at) => if at.Fill? then 40 else 3
    case Wait(_) => 15
    case Transmit(_, at) => (match at case NextSegment => 3 case Backoff(_) => 2 case Send(_) => 1)
    case Settle(_, _, at) => (match at case Publish => 3 case Progress => 2 case Complete => 1)
    case Fail(_, at) => (match at case Terminal => 7 case TermShutdown => 6 case TermWait => 5 case TermFence => 4
                                  case TermClear => 3 case TermStatus(_) => 2 case TermNotify(_) => 1
                                  case Discarded(_) => 0)
    case Aborted(_) => 0
  }

  function Place(s: State): nat {
    match s.w.pc
    case Refresh(_, Retiring(i)) => if i <= |s.registry| then 2 * (|s.registry| - i) else 0
    case Refresh(_, RetireCheck(i)) => if i < |s.registry| then 2 * (|s.registry| - i) - 1 else 0
    case Refresh(_, Taking(todo, _, _)) => |todo|
    case _ => 0
  }

  function Unaware(w: Worker): nat {
    if w.shuttingDown then 0 else 1
  }

  /** Accepted records that are not completed yet. */
  function OpenRecords(s: State): nat {
    if |s.h.done| <= s.sh.nextTicket then s.sh.nextTicket - |s.h.done| else 0
  }

  /** Whether the stop is unknown to the worker, the records not yet completed, the phase of the
      main loop, records to batch or requests to send, the stage within a phase, and the position
      within a refresh. */
  function RankOf(s: State): Rank {
    Rank(Unaware(s.w), OpenRecords(s), Phase(s.w), Size(s), Stage(s.w.pc), Place(s))
  }

  // ---------------------------------------------------------------- what the worker may be assumed to do

  /** A biased `select!` prefers the shutdown branch. */
  predicate Biased(s: State, m: WorkerMove) {
    s.sh.shutdownPermit && s.w.pc.Wait? && (s.w.pc.wait.WaitReceive? || s.w.pc.wait.WaitBatch?) ==> m.OnShutdown?
  }

  predicate AsksForRetry(m: WorkerMove) {
    m.Answer? && m.outcome.Retryable?
  }

  /** The worker knows of the stop, or the request is on its way, and nobody can submit any more. */
  ghost predicate Stopping(s: State) {
    Inv(s) && StopKept(s) && Delivered(s) && s.sh.fence.Signalled?
  }

  ghost predicate Advances(s: State, s': State) {
    RankOf(s').Below(RankOf(s))
  }

  /** Records in the worker's hands are not completed ones. */
  lemma HandsAreOpen(s: State)
    requires Inv(s) && !s.w.pc.Aborted?
    ensures |s.h.done| + |PcLogs(s.w.pc)| <= s.sh.nextTicket
  {
    TicketsAddUp(s);
  }

  lemma RefreshAdvances(s: State, site: Site, at: RefreshPc)
    requires RegistrySound(s) && s.w.pc == Refresh(site, at) && RefreshStep(s, site, at).Some?
    ensures Advances(s, RefreshStep(s, site, at).value)
  {
    match at
    case Retiring(i) => RetiringAdvances(s, site, i);
    case RetireCheck(i) => RetireCheckAdvances(s, site, i);
    case Taking(todo, visited, taken) => TakingAdvances(s, site, todo, visited, taken);
  }

  lemma RetiringAdvances(s: State, site: Site, i: nat)
    requires s.w.pc == Refresh(site, Retiring(i))
    ensures RefreshStep(s, site, Retiring(i)).Some? && Advances(s, RefreshStep(s, site, Retiring(i)).value)
  {
  }

  lemma RetireCheckAdvances(s: State, site: Site, i: nat)
    requires RegistrySound(s) && s.w.pc == Refresh(site, RetireCheck(i))
    ensures RefreshStep(s, site, RetireCheck(i)).Some? && Advances(s, RefreshStep(s, site, RetireCheck(i)).value)
  {
  }

  lemma MergeAdvances(s: State, site: Site, visited: seq<nat>, taken: seq<LaneQueues>)
    requires s.w.pc == Refresh(site, Taking([], visited, taken))
    ensures Advances(s, MergeTaken(s, site, taken))
  {
    match site
    case AtTop =>
    case InReceive =>
    case InDrain =>
    case InLastPoll =>
    case InBatch(_) =>
    case InBatchWoken(_) =>
  }

  lemma SwapAdvances(s: State, s': State, site: Site, todo: seq<nat>, todo': seq<nat>)
    requires s.w.pc.Refresh? && s.w.pc.site == site && s.w.pc.refresh.Taking? && s.w.pc.refresh.todo == todo
    requires s'.w.pc.Refresh? && s'.w.pc.site == site && s'.w.pc.refresh.Taking? && s'.w.pc.refresh.todo == todo'
    requires |todo'| < |todo| && s'.w == s.w.(pc := s'.w.pc) && s'.sh == s.sh && s'.h == s.h
    ensures Advances(s, s')
  {
  }

  lemma TakingAdvances(s: State, site: Site, todo: seq<nat>, visited: seq<nat>, taken: seq<LaneQueues>)
    requires s.w.pc == Refresh(site, Taking(todo, visited, taken)) && RefreshStep(s, site, s.w.pc.refresh).Some?
    ensures Advances(s, RefreshStep(s, site, s.w.pc.refresh).value)
  {
    if todo == [] {
      MergeAdvances(s, site, visited, taken);
    } else {
      SwapAdvances(s, RefreshStep(s, site, s.w.pc.refresh).value, site, todo, todo[1..]);
    }
  }

  lemma InputAdvances(s: State, at: InputPc)
    requires StopKept(s) && WorkerShape(s.w) && s.w.pc == Input(at)
    ensures Advances(s, InputStep(s, at))
  {
    match at
    case Top =>
    case Choose =>
    case Poll(_) =>
    case Pop(site) => PopAdvances(s, site);
    case ReleaseRecord(_, _) =>
    case ReleaseBytes(site, log) => ReceivedAdvances(s, site, log);
  }

  lemma PopAdvances(s: State, site: Site)
    requires StopKept(s) && WorkerShape(s.w) && s.w.pc == Input(Pop(site))
    ensures Advances(s, InputStep(s, Pop(site)))
  {
    match site
    case AtTop =>
    case InReceive =>
    case InDrain =>
    case InLastPoll =>
    case InBatch(_) =>
    case InBatchWoken(_) =>
  }

  lemma ReceivedAdvances(s: State, site: Site, log: QueuedLog)
    requires WorkerShape(s.w) && s.w.pc == Input(ReleaseBytes(site, log))
    ensures Advances(s, InputStep(s, ReleaseBytes(site, log)))
  {
    match site
    case AtTop =>
    case InReceive =>
    case InDrain =>
    case InLastPoll =>
    case InBatch(_) =>
    case InBatchWoken(_) =>
  }

  lemma BatchAdvances(s: State, at: BatchPc)
    requires WorkerShape(s.w) && s.w.pc == Assemble(at) && |PcLogs(s.w.pc)| <= s.sh.nextTicket
    ensures Advances(s, BatchStep(s, at))
  {
    match at
    case First(_) =>
    case Fill(_) =>
    case Next(_, _) =>
    case Export(_) =>
  }

  lemma WaitAdvances(s: State, at: WaitPc, m: WorkerMove)
    requires StopKept(s) && Delivered(s) && s.sh.fence.ProducersClosed() && Biased(s, m)
    requires s.w.pc == Wait(at) && WaitStep(s, at, m).Some?
    ensures Advances(s, WaitStep(s, at, m).value)
  {
    match at
    case WaitReceive =>
    case WaitBatch(_) =>
    case WaitFence =>
    case CheckFence =>
    case StopStatus =>
    case StopNotify =>
    case Drained =>
  }

  lemma SplitWork(stack: seq<seq<QueuedLog>>, records: seq<QueuedLog>)
    requires |records| > 1
    ensures StackWork(stack + Split(records)) < StackWork(stack) + SegmentWork(|records|)
  {
    var two := stack + Split(records);
    var one := two[..|two| - 1];
    assert one[..|one| - 1] == stack;
  }

  lemma TransmitAdvances(s: State, stack: seq<seq<QueuedLog>>, at: TransmitPc, m: WorkerMove)
    requires WorkerShape(s.w) && s.w.pc == Transmit(stack, at) && TransmitStep(s, stack, at, m).Some?
    requires !AsksForRetry(m)
    ensures Advances(s, TransmitStep(s, stack, at, m).value)
  {
    match at
    case NextSegment =>
    case Send(records) => AnswerAdvances(s, stack, records, m.outcome);
    case Backoff(_) =>
  }

  lemma AnswerAdvances(s: State, stack: seq<seq<QueuedLog>>, records: seq<QueuedLog>, outcome: Outcome)
    requires s.w.pc == Transmit(stack, Send(records)) && records != [] && !outcome.Retryable?
    requires AnswerStep(s, stack, records, outcome).Some?
    ensures Advances(s, AnswerStep(s, stack, records, outcome).value)
  {
    var reply := Reply(records, outcome);
    match outcome
    case Accepted(rejected) => AnsweredAdvances(s, reply, stack, records, |records| - rejected, rejected);
    case InvalidPayload =>
      if |records| == 1 {
        AnsweredAdvances(s, reply, stack, records, 0, 1);
      } else {
        BisectingAdvances(s, reply, stack, records);
      }
    case Permanent =>
  }

  lemma BisectingAdvances(s: State, reply: Reply, stack: seq<seq<QueuedLog>>, records: seq<QueuedLog>)
    requires s.w.pc == Transmit(stack, Send(records)) && |records| > 1
    ensures Advances(s, To(Noting(s, reply), Transmit(stack + Split(records), NextSegment)))
  {
    SplitWork(stack, records);
  }

  lemma AnsweredAdvances(s: State, reply: Reply, stack: seq<seq<QueuedLog>>, records: seq<QueuedLog>, exported: nat,
                         rejected: nat)
    requires s.w.pc == Transmit(stack, Send(records)) && records != []
    ensures Advances(s, Answered(Noting(s, reply), stack, records, exported, rejected))
  {
    assert Phase(Answered(Noting(s, reply), stack, records, exported, rejected).w) == 8;
  }

  lemma SettleAdvances(s: State, logs: seq<QueuedLog>, resume: Resume, at: SettlePc)
    requires WorkerShape(s.w) && s.w.pc == Settle(logs, resume, at) && |s.h.done| + |PcLogs(s.w.pc)| <= s.sh.nextTicket
    ensures Advances(s, SettleStep(s, logs, resume, at))
  {
    match at
    case Complete => { match resume case ToTop => case ToFill(_) => case ToNextSegment(_) => }
    case Publish =>
    case Progress =>
  }

  /** The terminal branch touches neither of the leading parts of the rank. */
  lemma FailKeepsStop(s: State, stack: seq<seq<QueuedLog>>, at: FailPc)
    requires FailStep(s, stack, at).Some?
    ensures var s' := FailStep(s, stack, at).value;
      s'.w.shuttingDown == s.w.shuttingDown && s'.h.done == s.h.done && s'.sh.nextTicket == s.sh.nextTicket
          && s'.w.pc.Fail?
  {
    match at
    case Terminal =>
    case TermShutdown =>
    case TermFence =>
    case TermWait =>
    case TermClear =>
    case TermStatus(_) =>
    case TermNotify(_) =>
    case Discarded(_) =>
  }

  lemma FailAdvances(s: State, stack: seq<seq<QueuedLog>>, at: FailPc)
    requires s.sh.fence.ProducersClosed() && s.w.pc == Fail(stack, at) && FailStep(s, stack, at).Some?
    ensures Advances(s, FailStep(s, stack, at).value)
  {
    FailKeepsStop(s, stack, at);
    match at
    case Terminal =>
    case TermShutdown =>
    case TermFence =>
    case TermWait =>
    case TermClear =>
    case TermStatus(_) =>
    case TermNotify(_) =>
    case Discarded(_) =>
  }

  /** Every worker step towards the exit that is not a retry lowers the rank. */
  lemma WorkerAdvances(s: State, m: WorkerMove)
    requires Stopping(s) && WorkerStep(s, m).Some? && Biased(s, m) && !AsksForRetry(m)
    ensures Advances(s, WorkerStep(s, m).value)
  {
    HandsAreOpen(s);
    match s.w.pc
    case Refresh(site, at) => RefreshAdvances(s, site, at);
    case Input(at) => InputAdvances(s, at);
    case Assemble(at) => BatchAdvances(s, at);
    case Wait(at) => WaitAdvances(s, at, m);
    case Transmit(stack, at) => TransmitAdvances(s, stack, at, m);
    case Settle(logs, resume, at) => SettleAdvances(s, logs, resume, at);
    case Fail(stack, at) => FailAdvances(s, stack, at);
  }

  // ---------------------------------------------------------------- the other actors

  /** No other actor raises the rank; the handle may abort the worker. */
  lemma OthersKeepRank(s: State, a: Action)
    requires Stopping(s) && !a.ByWorker? && Step(s, a).Some?
    ensures Step(s, a).value.w.pc.Aborted? || RankOf(Step(s, a).value) == RankOf(s)
  {
    match a
    case ByProducer(t, m) => ClosedProducerExits(s, t, m);
    case ByFlusher(f, m) => FlushFrame(s, f, m);
    case ByHandle(m) => HandleKeepsRank(s, m);
  }

  /** Behind the fence a thread can only exit. */
  lemma ClosedProducerExits(s: State, t: nat, m: ProducerMove)
    requires Shape(s) && s.sh.fence.ProducersClosed() && ProducerStep(s, t, m).Some?
    ensures var s' := ProducerStep(s, t, m).value;
      s'.w == s.w && s'.h == s.h && s'.registry == s.registry && s'.sh.nextTicket == s.sh.nextTicket
  {
    ClosedAdmitsNobody(s);
    assert !s.producers[t].pc.HoldsCallback();
    match s.producers[t].pc
    case Outside =>
    case Closing =>
    case Gone =>
  }

  lemma HandleKeepsRank(s: State, m: HandleMove)
    requires HandleStep(s, m).Some?
    ensures HandleStep(s, m).value.w.pc.Aborted? || RankOf(HandleStep(s, m).value) == RankOf(s)
  {
    HandleFrame(s, m);
    match m
    case StopAcceptance => StopFrame(s);
    case ClearSlot =>
    case ReleaseHandle =>
    case FenceStore =>
    case FenceNotify =>
    case Abort =>
    case ResetStep =>
  }

  lemma StepKeepsStopping(s: State, a: Action)
    requires Stopping(s) && Step(s, a).Some?
    ensures Stopping(Step(s, a).value)
  {
    StepKeepsInv(s, a);
    StepKeepsStop(s, a);
    StepKeepsSignal(s, a);
  }

  lemma StepKeepsSignal(s: State, a: Action)
    requires FenceExact(s) && s.sh.fence.Signalled? && Step(s, a).Some?
    ensures Step(s, a).value.sh.fence.Signalled?
  {
    match a
    case ByProducer(t, m) => ProducerTouches(s, t, m);
    case ByWorker(m) => WorkerFrame(s, m);
    case ByFlusher(f, m) => FlushFrame(s, f, m);
    case ByHandle(m) => { match m case StopAcceptance => StopFrame(s); case ClearSlot => case ReleaseHandle =>
                                  case FenceStore => case FenceNotify => case Abort => case ResetStep => }
  }

  // ---------------------------------------------------------------- nothing is lost

  /** The last look, if it has begun, began behind the fence. */
  ghost predicate LooksBehindFence(s: State) {
    s.sh.fence.Signalled? && (LastLook(s.w) ==> s.h.seenClosed)
  }

  lemma InputLooks(s: State, at: InputPc)
    requires WorkerShape(s.w) && s.w.pc == Input(at) && LooksBehindFence(s)
    ensures LooksBehindFence(InputStep(s, at))
  {
    match at
    case Top =>
    case Choose =>
    case Poll(_) =>
    case Pop(AtTop) =>
    case Pop(InReceive) =>
    case Pop(InDrain) =>
    case Pop(InLastPoll) =>
    case Pop(InBatch(_)) =>
    case Pop(InBatchWoken(_)) =>
    case ReleaseRecord(_, _) =>
    case ReleaseBytes(InLastPoll, _) =>
    case ReleaseBytes(InBatch(_), _) =>
    case ReleaseBytes(InBatchWoken(_), _) =>
    case ReleaseBytes(_, _) =>
  }

  lemma WorkerLooks(s: State, m: WorkerMove)
    requires WorkerShape(s.w) && LooksBehindFence(s) && WorkerStep(s, m).Some?
    ensures LooksBehindFence(WorkerStep(s, m).value)
  {
    WorkerFrame(s, m);
    match s.w.pc
    case Refresh(site, at) => RefreshLooks(s, site, at);
    case Input(at) => InputLooks(s, at);
    case Assemble(at) => BatchKeepsSeen(s, at); BatchLooksAway(s, at);
    case Wait(at) => WaitKeepsSeen(s, at, m); WaitLooks(s, at, m);
    case Transmit(stack, at) => TransmitKeepsSeen(s, stack, at, m); TransmitLooksAway(s, stack, at, m);
    case Settle(logs, resume, at) => SettleKeepsSeen(s, logs, resume, at); SettleLooksAway(s, logs, resume, at);
    case Fail(stack, at) => FailKeepsSeen(s, stack, at); FailLooksAway(s, stack, at);
  }

  lemma StepLooks(s: State, a: Action)
    requires Shape(s) && LooksBehindFence(s) && Step(s, a).Some?
    ensures LooksBehindFence(Step(s, a).value)
  {
    StepKeepsSignal(s, a);
    match a
    case ByProducer(t, m) => ClosedProducerExits(s, t, m);
    case ByWorker(m) => WorkerLooks(s, m);
    case ByFlusher(f, m) => FlushFrame(s, f, m);
    case ByHandle(m) => HandleFrame(s, m);
  }

  // ---------------------------------------------------------------- fair descent

  /** At step n it is over, or about to be, or the rank falls if the step is a working one and stays otherwise. */
  predicate Descends(rank: nat -> Rank, over: nat -> bool, works: nat -> bool, n: nat) {
    over(n + 1) || (if works(n) then rank(n + 1).Below(rank(n)) else rank(n + 1) == rank(n))
  }

  ghost predicate WorksLater(works: nat -> bool, n: nat, k: nat) {
    k >= n && works(k)
  }

  lemma {:induction false} NextDescent(rank: nat -> Rank, over: nat -> bool, works: nat -> bool, n: nat, k: nat)
      returns (next: nat)
    requires forall i: nat :: i >= n ==> over(i) || Descends(rank, over, works, i)
    requires !over(n) && WorksLater(works, n, k)
    ensures next > n && (over(next) || rank(next).Below(rank(n)))
    decreases k - n
  {
    next := n + 1;
    assert Descends(rank, over, works, n);
    if !works(n) && !over(n + 1) {
      next := NextDescent(rank, over, works, n + 1, k);
    }
  }

  /** A rank that never rises and falls at every working step ends, if working steps keep coming until it does. */
  lemma {:induction false} FairDescent(rank: nat -> Rank, over: nat -> bool, works: nat -> bool, n: nat)
      returns (end: nat)
    requires forall i: nat :: i >= n ==> over(i) || Descends(rank, over, works, i)
    requires forall i: nat :: i >= n ==> over(i) || exists k: nat :: WorksLater(works, i, k)
    ensures end >= n && over(end)
    decreases rank(n).first, rank(n).second, rank(n).third, rank(n).fourth, rank(n).fifth, rank(n).sixth
  {
    end := n;
    if !over(n) {
      var k: nat :| WorksLater(works, n, k);
      end := NextDescent(rank, over, works, n, k);
      if !over(end) {
        end := FairDescent(rank, over, works, end);
      }
    }
  }

  // ---------------------------------------------------------------- infinite runs

  ghost predicate StepsAt(run: nat -> State, acts: nat -> Action, n: nat) {
    Step(run(n), acts(n)) == Some(run(n + 1))
  }

  /** An infinite run of a fresh generation. */
  ghost predicate Execution(cfg: Config, run: nat -> State, acts: nat -> Action) {
    run(0) == Init(cfg) && forall n: nat :: StepsAt(run, acts, n)
  }

  function WorkerActs(acts: nat -> Action): nat -> bool {
    (n: nat) => acts(n).ByWorker?
  }

  function RanksOf(run: nat -> State): nat -> Rank {
    (n: nat) => RankOf(run(n))
  }

  function FinishedAt(run: nat -> State): nat -> bool {
    (n: nat) => Finished(run(n))
  }

  /** The runtime keeps polling the worker until it returns. */
  ghost predicate Fair(run: nat -> State, acts: nat -> Action) {
    forall n: nat :: Finished(run(n)) || exists k: nat :: WorksLater(WorkerActs(acts), n, k)
  }

  /** A worker step that respects the bias and does not end in a retry, or another actor's. */
  ghost predicate Behaves(s: State, a: Action) {
    a.ByWorker? ==> Biased(s, a.wm) && !AsksForRetry(a.wm)
  }

  /** From step `settled` on, `select!` is biased and the collector asks for no retry. */
  ghost predicate Settled(run: nat -> State, acts: nat -> Action, settled: nat) {
    forall n: nat :: n >= settled ==> Behaves(run(n), acts(n))
  }

  lemma {:induction false} InvAlong(cfg: Config, run: nat -> State, acts: nat -> Action, n: nat)
    requires Execution(cfg, run, acts)
    ensures Inv(run(n)) && StopKept(run(n))
  {
    if n == 0 {
      InitInv(cfg);
      InitStop(cfg);
    } else {
      InvAlong(cfg, run, acts, n - 1);
      assert StepsAt(run, acts, n - 1);
      StepKeepsInv(run(n - 1), acts(n - 1));
      StepKeepsStop(run(n - 1), acts(n - 1));
    }
  }

  /** On the way to the exit; `first` is where the way began. */
  ghost predicate UnderWay(first: State, s: State) {
    Stopping(s) && (first.sh.fence.Signalled? && !LastLook(first.w) ==> LooksBehindFence(s))
  }

  lemma StepStaysUnderWay(first: State, s: State, a: Action)
    requires UnderWay(first, s) && Step(s, a).Some?
    ensures UnderWay(first, Step(s, a).value)
  {
    StepKeepsStopping(s, a);
    if first.sh.fence.Signalled? && !LastLook(first.w) {
      StepLooks(s, a);
    }
  }

  lemma StepNeverRetreats(s: State, a: Action)
    requires Stopping(s) && Step(s, a).Some? && Behaves(s, a)
    ensures Finished(Step(s, a).value)
         || (if a.ByWorker? then Advances(s, Step(s, a).value) else RankOf(Step(s, a).value) == RankOf(s))
  {
    if a.ByWorker? {
      WorkerAdvances(s, a.wm);
    } else {
      OthersKeepRank(s, a);
    }
  }

  lemma NextUnderWay(first: State, run: nat -> State, acts: nat -> Action, n: nat)
    requires StepsAt(run, acts, n) && UnderWay(first, run(n))
    ensures UnderWay(first, run(n + 1))
  {
    StepStaysUnderWay(first, run(n), acts(n));
  }

  lemma NextDescends(run: nat -> State, acts: nat -> Action, n: nat)
    requires StepsAt(run, acts, n) && Stopping(run(n)) && Behaves(run(n), acts(n))
    ensures Descends(RanksOf(run), FinishedAt(run), WorkerActs(acts), n)
  {
    StepNeverRetreats(run(n), acts(n));
  }

  ghost predicate UnderWayAt(run: nat -> State, settled: nat, n: nat) {
    UnderWay(run(settled), run(n))
  }

  lemma {:induction false} FromThenOn(p: nat -> bool, start: nat, n: nat)
    requires p(start) && (forall i: nat :: i >= start && p(i) ==> p(i + 1)) && start <= n
    ensures p(n)
  {
    if n > start {
      FromThenOn(p, start, n - 1);
    }
  }

  lemma StaysUnderWay(run: nat -> State, acts: nat -> Action, settled: nat, n: nat)
    requires (forall i: nat :: StepsAt(run, acts, i)) && settled <= n && UnderWayAt(run, settled, settled)
    ensures UnderWayAt(run, settled, n)
  {
    forall i: nat | i >= settled && UnderWayAt(run, settled, i)
      ensures UnderWayAt(run, settled, i + 1)
    {
      assert StepsAt(run, acts, i);
      NextUnderWay(run(settled), run, acts, i);
    }
    FromThenOn((i: nat) => UnderWayAt(run, settled, i), settled, n);
  }

  /** A clean exit that had not begun its last look at `first` has completed every record. */
  ghost predicate NothingLostSince(first: State, end: State) {
    end.w.pc == Wait(Drained) && !LastLook(first.w) ==> forall log <- end.h.issued :: log in end.h.done
  }

  lemma CleanEndLosesNothing(first: State, end: State)
    requires UnderWay(first, end) && first.sh.fence.Signalled?
    ensures NothingLostSince(first, end)
  {
    if end.w.pc == Wait(Drained) && !LastLook(first.w) {
      forall log <- end.h.issued
        ensures log in end.h.done
      {
        CleanExitLeavesOnlyLatecomers(end, log);
      }
    }
  }

  /** Once the stop is on its way or known and the fence has signalled, the worker returns. */
  lemma DeliveredCompletes(cfg: Config, run: nat -> State, acts: nat -> Action, settled: nat)
    requires Execution(cfg, run, acts) && Fair(run, acts) && Settled(run, acts, settled)
    requires Delivered(run(settled)) && run(settled).sh.fence.Signalled?
    ensures exists end: nat :: end >= settled && Finished(run(end)) && NothingLostSince(run(settled), run(end))
  {
    InvAlong(cfg, run, acts, settled);
    forall n: nat | n >= settled
      ensures Descends(RanksOf(run), FinishedAt(run), WorkerActs(acts), n)
    {
      StaysUnderWay(run, acts, settled, n);
      assert StepsAt(run, acts, n) && Behaves(run(n), acts(n));
      NextDescends(run, acts, n);
    }
    var end := FairDescent(RanksOf(run), FinishedAt(run), WorkerActs(acts), settled);
    StaysUnderWay(run, acts, settled, end);
    CleanEndLosesNothing(run(settled), run(end));
  }

  /** Shutdown completes. If from some step on `stop_acceptance` has returned, the fence has
      signalled and the collector asks for no further retry, then the worker returns,
      whatever the other actors do. If it returns cleanly, and had not begun its last look
      at the lanes by that step, then every accepted record is completed. */
  lemma ShutdownCompletes(cfg: Config, run: nat -> State, acts: nat -> Action, settled: nat)
    requires Execution(cfg, run, acts) && Fair(run, acts) && Settled(run, acts, settled)
    requires !run(settled).sh.accepting && run(settled).sh.stop.NotStopping? && run(settled).sh.fence.Signalled?
    ensures exists end: nat :: end >= settled && Finished(run(end)) && NothingLostSince(run(settled), run(end))
  {
    InvAlong(cfg, run, acts, settled);
    DeliveredCompletes(cfg, run, acts, settled);
  }

  /** Until then the worker can always move, so the runtime has something to poll. */
  lemma ShutdownNeverStuck(cfg: Config, schedule: seq<Action>)
    requires Reach(cfg, schedule).Some?
    requires !Reach(cfg, schedule).value.sh.accepting && Reach(cfg, schedule).value.sh.stop.NotStopping?
    requires Reach(cfg, schedule).value.sh.fence.Signalled?
    ensures Blocked(Reach(cfg, schedule).value) <==> Finished(Reach(cfg, schedule).value)
  {
    ReachKeepsInv(cfg, schedule);
    ReachKeepsStop(cfg, schedule);
    BlockedIffFinishedOrAsleep(Reach(cfg, schedule).value);
    StoppedStaysAwake(Reach(cfg, schedule).value);
  }

  lemma {:induction false} ReachKeepsStop(cfg: Config, schedule: seq<Action>)
    requires Reach(cfg, schedule).Some?
    ensures StopKept(Reach(cfg, schedule).value)
  {
    if schedule == [] {
      InitStop(cfg);
    } else {
      ReachKeepsStop(cfg, schedule[..|schedule| - 1]);
      StepKeepsStop(Reach(cfg, schedule[..|schedule| - 1]).value, schedule[|schedule| - 1]);
    }
  }
}
