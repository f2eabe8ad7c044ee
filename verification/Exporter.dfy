/**
One exporter generation as a step machine: producer threads, the worker, callers of
`force_flush`, and the handle that stops the generation. Every step is one atomic
operation, one critical section, or a stretch of one actor's private computation.
*/
module Exporter {
  import opened Records
  import opened Replies
  import opened Watermark
  import opened Drain
  import opened Wrappers

  // ================================================================ state

  datatype Unit = Slots | Bytes

  /** Four shared counters: records and bytes, for the normal and the reserved queue. */
  datatype Budget = Budget(queue: QueueKind, unit: Unit)

  datatype Counters = Counters(normalDepth: int, normalBytes: int, reservedDepth: int, reservedBytes: int) {

    function Get(b: Budget): int {
      match b
      case Budget(Normal, Slots) => normalDepth
      case Budget(Normal, Bytes) => normalBytes
      case Budget(Reserved, Slots) => reservedDepth
      case Budget(Reserved, Bytes) => reservedBytes
    }

    function Add(b: Budget, amount: int): Counters {
      match b
      case Budget(Normal, Slots) => this.(normalDepth := normalDepth + amount)
      case Budget(Normal, Bytes) => this.(normalBytes := normalBytes + amount)
      case Budget(Reserved, Slots) => this.(reservedDepth := reservedDepth + amount)
      case Budget(Reserved, Bytes) => this.(reservedBytes := reservedBytes + amount)
    }
  }

  const ZERO := Counters(0, 0, 0, 0)

  /** Limits of a generation. `fits` decides whether one request can carry records of
      the given encoded sizes; module ExporterLimits ties it to the size predictor. */
  datatype Config = Config(
    threads: nat, flushers: nat,
    normalCapacity: nat, reservedCapacity: nat, normalByteCapacity: nat, reservedByteCapacity: nat,
    maxBatchRecords: nat, fits: seq<nat> -> bool)
  {
    function Capacity(b: Budget): nat {
      match b
      case Budget(Normal, Slots) => normalCapacity
      case Budget(Normal, Bytes) => normalByteCapacity
      case Budget(Reserved, Slots) => reservedCapacity
      case Budget(Reserved, Bytes) => reservedByteCapacity
    }

    predicate Fits(logs: seq<QueuedLog>) {
      fits(EncodedSizes(logs))
    }
  }

  /** What a thread wants to log, once it has passed the sink's filter. */
  datatype Draft = Draft(priority: bool, bytes: nat, size: nat)

  datatype ProducerPc =
    | Outside
    | Loaded                                    // holds the callback, `accepting` not yet read
    | Resolving(draft: Draft)                   // looks up this thread's lane
    | ClaimBytes(draft: Draft, queue: QueueKind)
    | UndoBytes(draft: Draft, queue: QueueKind) // over-claimed bytes, about to roll back
    | ClaimRecord(draft: Draft, queue: QueueKind)
    | UndoRecord(draft: Draft, queue: QueueKind)
    | ReturnBytes(draft: Draft, queue: QueueKind)
    | Ticketing(draft: Draft, queue: QueueKind)
    | Pushing(log: QueuedLog)
    | Notifying                                 // pushed onto an empty lane, about to wake the worker
    | Leaving                                   // about to drop the callback
    | Closing                                   // thread exit: lane closed, about to wake the worker
    | Gone
  {
    /** The sink callback is being executed, so its reference is held. */
    predicate HoldsCallback() {
      !Outside? && !Closing? && !Gone?
    }

    /** Between resolving the lane and pushing, the lane pointer is used. */
    predicate UsesLane() {
      ClaimBytes? || UndoBytes? || ClaimRecord? || UndoRecord? || ReturnBytes? || Ticketing? || Pushing?
    }
  }

  datatype Producer = Producer(lane: Option<nat>, pc: ProducerPc)

  datatype Lane = Lane(owner: nat, queues: LaneQueues, closed: bool)

  /** Destruction of the sink callback: the last reference, the store, the wake-up. */
  datatype Fence = Alive | Dropping | Closed | Signalled {
    predicate ProducersClosed() {
      Closed? || Signalled?
    }
  }

  datatype Status = Running | BackingOff | TerminalFailure | ShuttingDown | Stopped

  /** `stop_acceptance`, one shared operation at a time. */
  datatype StopPc = NotStopping | StopLoadStatus | StopStoreStatus | StopShutdown | StopRecords | StopFlush

  datatype Shared = Shared(
    accepting: bool, fence: Fence, slot: bool, handle: bool,
    nextTicket: Ticket, completedTicket: Ticket, used: Counters,
    exported: nat, rejected: nat, oversize: nat, status: Status,
    shutdownPermit: bool, recordsPermit: bool, flushPermit: bool, stop: StopPc)

  /** The caller of `try_receive` (or the loop head) that a refresh of the inbox returns to. */
  datatype Site =
    | AtTop | InReceive | InDrain | InLastPoll
    | InBatch(batch: seq<QueuedLog>) | InBatchWoken(batch: seq<QueuedLog>)

  datatype Resume = ToTop | ToFill(batch: seq<QueuedLog>) | ToNextSegment(stack: seq<seq<QueuedLog>>)

  /** `drain_into`. */
  datatype RefreshPc =
    | Retiring(i: nat)                 // about to read `closed` of the i-th registered lane
    | RetireCheck(i: nat)              // read it as true, about to look at the queues
    | Taking(todo: seq<nat>, visited: seq<nat>, taken: seq<LaneQueues>)

  /** The loop head and `try_receive`. */
  datatype InputPc =
    | Top
    | Choose
    | Poll(site: Site)
    | Pop(site: Site)
    | ReleaseRecord(site: Site, log: QueuedLog)
    | ReleaseBytes(site: Site, log: QueuedLog)

  datatype BatchPc =
    | First(log: QueuedLog)
    | Fill(batch: seq<QueuedLog>)
    | Next(batch: seq<QueuedLog>, log: QueuedLog)
    | Export(batch: seq<QueuedLog>)

  /** Blocking points outside the terminal branch, and the clean exit. */
  datatype WaitPc =
    | WaitReceive
    | WaitBatch(batch: seq<QueuedLog>)
    | WaitFence
    | CheckFence
    | StopStatus
    | StopNotify
    | Drained
  {
    predicate BlockedOnRecords() {
      WaitReceive? || WaitBatch? || WaitFence?
    }
  }

  /** `export_batch`. */
  datatype TransmitPc = NextSegment | Send(records: seq<QueuedLog>) | Backoff(records: seq<QueuedLog>)

  /** `CompletionTracker::complete`, once per record. */
  datatype SettlePc = Complete | Publish | Progress

  datatype FailPc =
    | Terminal | TermShutdown | TermFence | TermWait | TermClear
    | TermStatus(remaining: nat) | TermNotify(remaining: nat) | Discarded(remaining: nat)

  /** What the handle has still to do about a worker that it aborted: four stores of zero, the
      store of `Stopped`, the wake-up. Threads run in between. */
  datatype ResetPc =
    | ZeroNormalDepth | ZeroReservedDepth | ZeroNormalBytes | ZeroReservedBytes
    | StoreStopped | WakeCallers | ResetDone

  /** The worker's control point together with the locals that are live there. */
  datatype WorkerPc =
    | Refresh(site: Site, refresh: RefreshPc)
    | Input(input: InputPc)
    | Assemble(assemble: BatchPc)
    | Wait(wait: WaitPc)
    | Transmit(stack: seq<seq<QueuedLog>>, transmit: TransmitPc)
    | Settle(logs: seq<QueuedLog>, resume: Resume, settle: SettlePc)
    | Fail(retained: seq<seq<QueuedLog>>, fail: FailPc)
    | Aborted(reset: ResetPc)
  {
    predicate HoldsRegistry() {
      Refresh? && !refresh.Taking?
    }
  }

  datatype Worker = Worker(
    pc: WorkerPc, shuttingDown: bool,
    reserved: seq<QueuedLog>, normal: seq<QueuedLog>, pending: seq<QueuedLog>,
    tracker: Tracker)

  datatype FlushStatus = Flushed | TimedOut | Failed | WorkerStopped

  datatype FlusherPc =
    | FlushIdle
    | FlushWake(target: Ticket)                       // target read, about to wake the worker
    | FlushEnable(target: Ticket)                     // about to register as a waiter
    | FlushLoad(target: Ticket, notified: bool)
    | FlushLoadStatus(target: Ticket, completed: Ticket, notified: bool)
    | FlushWait(target: Ticket, notified: bool)
    | FlushDone(status: FlushStatus, target: Ticket, completed: Ticket)

  /** History of a run, read by no step: every record in ticket order, in completion
      order, and in the order of first transmission; the records discarded by `clear`; the
      answers of the collector; the records pushed before the latest refresh began, and whether
      the fence was closed then; whether a timed-out shutdown has zeroed the counters. */
  datatype History = History(
    issued: seq<QueuedLog>, done: seq<QueuedLog>, sent: seq<QueuedLog>, cleared: seq<QueuedLog>,
    replies: seq<Reply>,
    seen: set<QueuedLog>, seenClosed: bool, reset: bool)

  datatype State = State(
    cfg: Config, sh: Shared, producers: seq<Producer>, lanes: seq<Lane>, registry: seq<nat>, cursor: nat,
    w: Worker, flushers: seq<FlusherPc>, h: History)

  function Init(cfg: Config): State {
    State(
      cfg,
      Shared(true, Alive, true, true, 0, 0, ZERO, 0, 0, 0, Running, false, false, false, NotStopping),
      seq(cfg.threads, _ => Producer(None, Outside)), [], [], 0,
      Worker(Input(Top), false, [], [], [], FRESH),
      seq(cfg.flushers, _ => FlushIdle),
      History([], [], [], [], [], {}, false, false))
  }

  // ================================================================ producers

  datatype ProducerMove = Enter | Exit | Filtered | Log(draft: Draft) | Go

  function SetPc(s: State, t: nat, pc: ProducerPc): State
    requires t < |s.producers|
  {
    s.(producers := s.producers[t := s.producers[t].(pc := pc)])
  }

  function SetLane(s: State, l: nat, lane: Lane): State
    requires l < |s.lanes|
  {
    s.(lanes := s.lanes[l := lane])
  }

  function AddUsed(s: State, b: Budget, amount: int): State {
    s.(sh := s.sh.(used := s.sh.used.Add(b, amount)))
  }

  function SubUsed(s: State, b: Budget, amount: int): State {
    s.(sh := s.sh.(used := s.sh.used.Add(b, -amount)))
  }

  function WakeRecords(s: State): State {
    s.(sh := s.sh.(recordsPermit := true))
  }

  datatype ClaimResult = Claimed | Refused | Overclaimed

  /** `claim_amount` on a counter that holds `used`: the verdict of its atomic operation. */
  function Claim(used: int, capacity: nat, amount: nat): ClaimResult {
    if amount > capacity then Refused
    else if capacity > U64_MAX / 2 then
      if used + amount <= capacity then Claimed else Refused
    else
      if used <= capacity - amount then Claimed else Overclaimed
  }

  function ClaimCharge(r: ClaimResult, amount: nat): nat {
    if r == Refused then 0 else amount
  }

  /** A refused normal claim falls back to the reserved queue for priority records only. */
  function AfterRefusal(draft: Draft, queue: QueueKind): ProducerPc {
    if queue.Normal? && draft.priority then ClaimBytes(draft, Reserved) else Leaving
  }

  /** The callback dies with its last reference: registry slot, registration, running dispatches. */
  predicate Unreferenced(s: State) {
    !s.sh.slot && !s.sh.handle && forall t :: 0 <= t < |s.producers| ==> !s.producers[t].pc.HoldsCallback()
  }

  function AfterDrop(s: State): State {
    if s.sh.fence.Alive? && Unreferenced(s) then s.(sh := s.sh.(fence := Dropping)) else s
  }

  function ProducerStep(s: State, t: nat, m: ProducerMove): Option<State> {
    if t >= |s.producers| then None
    else
      match s.producers[t].pc
      case Outside => EnterOrExit(s, t, m)
      case Loaded =>
        if !s.sh.accepting then (if m.Go? then Some(SetPc(s, t, Leaving)) else None)
        else if m.Filtered? then Some(SetPc(s, t, Leaving))
        else if m.Log? then Some(SetPc(s, t, Resolving(m.draft)))
        else None
      case Resolving(draft) => ResolveLane(s, t, draft)
      case ClaimBytes(draft, queue) =>
        var b := Budget(queue, Bytes);
        var r := Claim(s.sh.used.Get(b), s.cfg.Capacity(b), draft.bytes);
        var pc := match r case Claimed => ClaimRecord(draft, queue)
                          case Refused => AfterRefusal(draft, queue)
                          case Overclaimed => UndoBytes(draft, queue);
        Some(SetPc(AddUsed(s, b, ClaimCharge(r, draft.bytes)), t, pc))
      case UndoBytes(draft, queue) =>
        Some(SetPc(SubUsed(s, Budget(queue, Bytes), draft.bytes), t, AfterRefusal(draft, queue)))
      case ClaimRecord(draft, queue) =>
        var b := Budget(queue, Slots);
        var r := Claim(s.sh.used.Get(b), s.cfg.Capacity(b), 1);
        var pc := match r case Claimed => Ticketing(draft, queue)
                          case Refused => ReturnBytes(draft, queue)
                          case Overclaimed => UndoRecord(draft, queue);
        Some(SetPc(AddUsed(s, b, ClaimCharge(r, 1)), t, pc))
      case UndoRecord(draft, queue) =>
        Some(SetPc(SubUsed(s, Budget(queue, Slots), 1), t, ReturnBytes(draft, queue)))
      case ReturnBytes(draft, queue) =>
        Some(SetPc(SubUsed(s, Budget(queue, Bytes), draft.bytes), t, AfterRefusal(draft, queue)))
      case Ticketing(draft, queue) => TakeTicket(s, t, draft, queue)
      case Pushing(log) => Push(s, t, log)
      case Notifying => Some(SetPc(WakeRecords(s), t, Leaving))
      case Leaving => Some(AfterDrop(SetPc(s, t, Outside)))
      case Closing => Some(SetPc(WakeRecords(s), t, Gone))
      case Gone => None
  }

  function EnterOrExit(s: State, t: nat, m: ProducerMove): Option<State>
    requires t < |s.producers|
  {
    if m.Enter? then
      if s.sh.slot then Some(SetPc(s, t, Loaded)) else None
    else if m.Exit? then
      match s.producers[t].lane
      case None => Some(SetPc(s, t, Gone))
      case Some(l) =>
        if l < |s.lanes| then Some(SetPc(SetLane(s, l, s.lanes[l].(closed := true)), t, Closing)) else None
    else None
  }

  /** The first record of a thread registers a lane under the registry lock. */
  function ResolveLane(s: State, t: nat, draft: Draft): Option<State>
    requires t < |s.producers|
  {
    if s.producers[t].lane.Some? then Some(SetPc(s, t, ClaimBytes(draft, Normal)))
    else if s.w.pc.HoldsRegistry() then None
    else
      Some(s.(lanes := s.lanes + [Lane(t, EMPTY_QUEUES, false)],
              registry := s.registry + [|s.lanes|],
              producers := s.producers[t := Producer(Some(|s.lanes|), ClaimBytes(draft, Normal))]))
  }

  function TakeTicket(s: State, t: nat, draft: Draft, queue: QueueKind): Option<State>
    requires t < |s.producers|
  {
    if s.sh.nextTicket == U64_MAX then None
    else
      var log := QueuedLog(t, queue, draft.bytes, s.sh.nextTicket + 1, draft.size);
      Some(SetPc(s, t, Pushing(log)).(sh := s.sh.(nextTicket := s.sh.nextTicket + 1),
                                      h := s.h.(issued := s.h.issued + [log])))
  }

  /** Under the lane lock; only the push that finds both queues empty goes on to wake the worker. */
  function Push(s: State, t: nat, log: QueuedLog): Option<State>
    requires t < |s.producers|
  {
    match s.producers[t].lane
    case None => None
    case Some(l) =>
      if l >= |s.lanes| then None
      else
        var lane := s.lanes[l];
        Some(SetPc(SetLane(s, l, lane.(queues := lane.queues.Push(log))), t,
                   if lane.queues.IsEmpty() then Notifying else Leaving))
  }

  // ================================================================ worker

  datatype WorkerMove = Proceed | OnShutdown | OnRecords | OnFlush | OnTimer | Answer(outcome: Outcome)

  function To(s: State, pc: WorkerPc): State {
    s.(w := s.w.(pc := pc))
  }

  function SetStatus(s: State, status: Status): State {
    s.(sh := s.sh.(status := status))
  }

  function WorkerStep(s: State, m: WorkerMove): Option<State> {
    match s.w.pc
    case Refresh(site, at) => RefreshStep(s, site, at)
    case Input(at) => Some(InputStep(s, at))
    case Assemble(at) => Some(BatchStep(s, at))
    case Wait(at) => WaitStep(s, at, m)
    case Transmit(stack, at) => TransmitStep(s, stack, at, m)
    case Settle(logs, resume, at) => Some(SettleStep(s, logs, resume, at))
    case Fail(stack, at) => FailStep(s, stack, at)
    case Aborted(_) => None
  }

  /** Records that have reached a lane, or gone further. */
  function Pushed(s: State): set<QueuedLog> {
    set log | log in s.h.issued && forall t :: 0 <= t < |s.producers| ==> s.producers[t].pc != Pushing(log)
  }

  /** Locks the registry. The history notes what this refresh is bound to find. */
  function BeginRefresh(s: State, site: Site): State {
    To(s, Refresh(site, Retiring(0))).(h := s.h.(seen := Pushed(s), seenClosed := s.sh.fence.ProducersClosed()))
  }

  /** `drain_into`: retire closed and empty lanes (reading `closed` first), then swap
      each lane's queues out, then interleave what was taken into the inbox. */
  function RefreshStep(s: State, site: Site, at: RefreshPc): Option<State> {
    match at
    case Retiring(i) =>
      if i >= |s.registry| then
        var order := Rotated(s.registry, s.cursor);
        Some(To(s.(cursor := NextCursor(s.cursor, |s.registry|)), Refresh(site, Taking(order, [], []))))
      else if s.registry[i] < |s.lanes| && s.lanes[s.registry[i]].closed then Some(To(s, Refresh(site, RetireCheck(i))))
      else Some(To(s, Refresh(site, Retiring(i + 1))))
    case RetireCheck(i) =>
      if i < |s.registry| && s.registry[i] < |s.lanes| && s.lanes[s.registry[i]].queues.IsEmpty()
      then Some(To(s.(registry := s.registry[..i] + s.registry[i + 1..]), Refresh(site, Retiring(i))))
      else Some(To(s, Refresh(site, Retiring(i + 1))))
    case Taking(todo, visited, taken) =>
      if todo == [] then Some(MergeTaken(s, site, taken))
      else if todo[0] >= |s.lanes| then None
      else
        var lane := s.lanes[todo[0]];
        Some(To(SetLane(s, todo[0], lane.(queues := EMPTY_QUEUES)),
                Refresh(site, Taking(todo[1..], visited + [todo[0]], taken + [lane.queues]))))
  }

  function MergeTaken(s: State, site: Site, taken: seq<LaneQueues>): State {
    s.(w := s.w.(pc := Input(if site.AtTop? then Choose else Pop(site)),
                 reserved := s.w.reserved + Interleave(KindQueues(taken, Reserved)),
                 normal := s.w.normal + Interleave(KindQueues(taken, Normal))))
  }

  /** The head of the main loop and `try_receive`. */
  function InputStep(s: State, at: InputPc): State {
    match at
    case Top => BeginRefresh(s, AtTop)
    case Choose =>
      if s.w.pending != [] then s.(w := s.w.(pc := Assemble(First(s.w.pending[0])), pending := s.w.pending[1..]))
      else To(s, Input(Poll(if s.w.shuttingDown then InDrain else InReceive)))
    case Poll(site) =>
      if s.w.reserved == [] && s.w.normal == [] then BeginRefresh(s, site) else To(s, Input(Pop(site)))
    case Pop(site) =>
      if s.w.reserved != [] then
        s.(w := s.w.(pc := Input(ReleaseRecord(site, s.w.reserved[0])), reserved := s.w.reserved[1..]))
      else if s.w.normal != [] then
        s.(w := s.w.(pc := Input(ReleaseRecord(site, s.w.normal[0])), normal := s.w.normal[1..]))
      else To(s, Nothing(site, s.w.shuttingDown))
    case ReleaseRecord(site, log) => To(SubUsed(s, Budget(log.queue, Slots), 1), Input(ReleaseBytes(site, log)))
    case ReleaseBytes(site, log) => Received(SubUsed(s, Budget(log.queue, Bytes), log.bytes), site, log)
  }

  /** Where the worker goes when `try_receive` returns nothing. */
  function Nothing(site: Site, shuttingDown: bool): WorkerPc {
    match site
    case AtTop => Input(Choose)
    case InReceive => Wait(WaitReceive)
    case InDrain => Input(Poll(InLastPoll))
    case InLastPoll => Wait(CheckFence)
    case InBatch(batch) => if shuttingDown then Assemble(Export(batch)) else Wait(WaitBatch(batch))
    case InBatchWoken(batch) => Assemble(Export(batch))
  }

  function Received(s: State, site: Site, log: QueuedLog): State {
    match site
    case InLastPoll => s.(w := s.w.(pc := Input(Top), pending := s.w.pending + [log]))
    case InBatch(batch) => To(s, Assemble(Next(batch, log)))
    case InBatchWoken(batch) => To(s, Assemble(Next(batch, log)))
    case _ => To(s, Assemble(First(log)))
  }

  /** A record that no request can carry is rejected on its own and completed. */
  function RejectOversize(s: State, log: QueuedLog, resume: Resume): State {
    To(s, Settle([log], resume, Complete)).(sh := s.sh.(rejected := s.sh.rejected + 1, oversize := s.sh.oversize + 1))
  }

  /** Greedy batch assembly under the record and byte limits. */
  function BatchStep(s: State, at: BatchPc): State {
    match at
    case First(log) =>
      if !s.cfg.Fits([log]) then RejectOversize(s, log, ToTop) else To(s, Assemble(Fill([log])))
    case Fill(batch) =>
      if |batch| >= s.cfg.maxBatchRecords then To(s, Assemble(Export(batch)))
      else if s.w.pending != [] then
        s.(w := s.w.(pc := Assemble(Next(batch, s.w.pending[0])), pending := s.w.pending[1..]))
      else To(s, Input(Poll(InBatch(batch))))
    case Next(batch, log) =>
      if !s.cfg.Fits([log]) then RejectOversize(s, log, ToFill(batch))
      else if !s.cfg.Fits(batch + [log]) then
        s.(w := s.w.(pc := Assemble(Export(batch)), pending := [log] + s.w.pending))
      else To(s, Assemble(Fill(batch + [log])))
    case Export(batch) => To(s, Transmit([batch], NextSegment)).(h := s.h.(sent := s.h.sent + batch))
  }

  function WakeFlushers(fs: seq<FlusherPc>): (r: seq<FlusherPc>)
    ensures |r| == |fs|
  {
    seq(|fs|, i requires 0 <= i < |fs| => WakeFlusher(fs[i]))
  }

  /** `notify_waiters` reaches exactly the waiters that are already enabled. */
  function WakeFlusher(f: FlusherPc): FlusherPc {
    match f
    case FlushLoad(target, _) => FlushLoad(target, true)
    case FlushLoadStatus(target, completed, _) => FlushLoadStatus(target, completed, true)
    case FlushWait(target, _) => FlushWait(target, true)
    case _ => f
  }

  function TakeShutdownPermit(s: State): State {
    s.(sh := s.sh.(shutdownPermit := false))
  }

  function TakeRecordsPermit(s: State): State {
    s.(sh := s.sh.(recordsPermit := false))
  }

  /** The worker's blocking points and its clean exit. */
  function WaitStep(s: State, at: WaitPc, m: WorkerMove): Option<State> {
    match at
    case WaitReceive =>
      if m.OnShutdown? && s.sh.shutdownPermit then
        Some(TakeShutdownPermit(s).(w := s.w.(pc := Input(Poll(InLastPoll)), shuttingDown := true)))
      else if m.OnRecords? && s.sh.recordsPermit then Some(To(TakeRecordsPermit(s), Input(Poll(InReceive))))
      else None
    case WaitBatch(batch) =>
      if m.OnShutdown? && s.sh.shutdownPermit then
        Some(TakeShutdownPermit(s).(w := s.w.(pc := Assemble(Export(batch)), shuttingDown := true)))
      else if m.OnTimer? then Some(To(s, Assemble(Export(batch))))
      else if m.OnFlush? && s.sh.flushPermit then
        Some(To(s.(sh := s.sh.(flushPermit := false)), Assemble(Export(batch))))
      else if m.OnRecords? && s.sh.recordsPermit then Some(To(TakeRecordsPermit(s), Input(Poll(InBatchWoken(batch)))))
      else None
    case CheckFence => Some(To(s, Wait(if s.sh.fence.ProducersClosed() then StopStatus else WaitFence)))
    case WaitFence =>
      if m.OnRecords? && s.sh.recordsPermit then Some(To(TakeRecordsPermit(s), Input(Top))) else None
    case StopStatus => Some(To(SetStatus(s, Stopped), Wait(StopNotify)))
    case StopNotify => Some(To(s.(flushers := WakeFlushers(s.flushers)), Wait(Drained)))
    case Drained => None
  }

  function Answered(s: State, stack: seq<seq<QueuedLog>>, records: seq<QueuedLog>, exported: nat,
                    rejected: nat): State {
    To(s, Settle(records, ToNextSegment(stack), Complete))
      .(sh := s.sh.(exported := s.sh.exported + exported, rejected := s.sh.rejected + rejected))
  }

  /** `export_batch`: an explicit stack of segments, the collector's answer as an oracle. */
  function TransmitStep(s: State, stack: seq<seq<QueuedLog>>, at: TransmitPc, m: WorkerMove): Option<State> {
    match at
    case NextSegment =>
      if stack == [] then Some(To(SetStatus(s, if s.w.shuttingDown then ShuttingDown else Running), Input(Top)))
      else Some(To(s, Transmit(stack[..|stack| - 1], Send(stack[|stack| - 1]))))
    case Send(records) => if m.Answer? then AnswerStep(s, stack, records, m.outcome) else None
    case Backoff(records) =>
      Some(To(SetStatus(s, if s.sh.accepting then Running else ShuttingDown), Transmit(stack, Send(records))))
  }

  /** What the collector said, for the history. */
  function Noting(s: State, reply: Reply): State {
    s.(h := s.h.(replies := s.h.replies + [reply]))
  }

  function AnswerStep(s: State, stack: seq<seq<QueuedLog>>, records: seq<QueuedLog>, outcome: Outcome): Option<State> {
    var noted := Noting(s, Reply(records, outcome));
    match outcome
    case Accepted(rejected) =>
      if rejected <= |records| then Some(Answered(noted, stack, records, |records| - rejected, rejected)) else None
    case InvalidPayload =>
      if |records| == 1 then Some(Answered(noted, stack, records, 0, 1))
      else Some(To(noted, Transmit(stack + Split(records), NextSegment)))
    case Retryable => Some(To(SetStatus(noted, BackingOff), Transmit(stack, Backoff(records))))
    case Permanent => Some(To(SetStatus(noted, TerminalFailure), Fail(stack + [records], Terminal)))
  }

  function Resumed(resume: Resume): WorkerPc {
    match resume
    case ToTop => Input(Top)
    case ToFill(batch) => Assemble(Fill(batch))
    case ToNextSegment(stack) => Transmit(stack, NextSegment)
  }

  /** Completes the records of one answer, one ticket at a time. */
  function SettleStep(s: State, logs: seq<QueuedLog>, resume: Resume, at: SettlePc): State {
    match at
    case Complete =>
      if logs == [] then To(s, Resumed(resume))
      else
        var log := logs[0];
        var next := if log.ticket <= s.w.tracker.watermark then Complete else Publish;
        s.(w := s.w.(pc := Settle(logs[1..], resume, next), tracker := AfterOne(s.w.tracker, log.ticket)),
           h := s.h.(done := s.h.done + [log]))
    case Publish => To(s.(sh := s.sh.(completedTicket := s.w.tracker.watermark)), Settle(logs, resume, Progress))
    case Progress => To(s.(flushers := WakeFlushers(s.flushers)), Settle(logs, resume, Complete))
  }

  function NonNegative(n: int): nat {
    if n >= 0 then n else 0
  }

  function EmptyLanes(lanes: seq<Lane>): (r: seq<Lane>)
    ensures |r| == |lanes|
  {
    seq(|lanes|, i requires 0 <= i < |lanes| => lanes[i].(queues := EMPTY_QUEUES))
  }

  function QueuedIn(lanes: seq<Lane>): seq<QueuedLog> {
    if lanes == [] then []
    else
      var q := lanes[|lanes| - 1].queues;
      QueuedIn(lanes[..|lanes| - 1]) + (q.reserved + q.normal)
  }

  /** The terminal branch: wait for shutdown and for the fence, then discard everything. */
  function FailStep(s: State, stack: seq<seq<QueuedLog>>, at: FailPc): Option<State> {
    match at
    case Terminal => Some(To(s, Fail(stack, if s.sh.accepting then TermShutdown else TermFence)))
    case TermShutdown => if s.sh.shutdownPermit then Some(To(TakeShutdownPermit(s), Fail(stack, TermFence))) else None
    case TermFence => Some(To(s, Fail(stack, if s.sh.fence.ProducersClosed() then TermClear else TermWait)))
    case TermWait => if s.sh.recordsPermit then Some(To(TakeRecordsPermit(s), Fail(stack, TermFence))) else None
    case TermClear => Some(Discard(s, stack))
    case TermStatus(remaining) => Some(To(SetStatus(s, Stopped), Fail(stack, TermNotify(remaining))))
    case TermNotify(remaining) => Some(To(s.(flushers := WakeFlushers(s.flushers)), Fail(stack, Discarded(remaining))))
    case Discarded(_) => None
  }

  function Discard(s: State, stack: seq<seq<QueuedLog>>): State {
    var remaining := |TopDown(stack)| + NonNegative(s.sh.used.normalDepth + s.sh.used.reservedDepth);
    s.(sh := s.sh.(used := ZERO),
       lanes := EmptyLanes(s.lanes), registry := [], cursor := 0,
       w := s.w.(pc := Fail(stack, TermStatus(remaining)), reserved := [], normal := []),
       h := s.h.(cleared := s.w.reserved + s.w.normal + QueuedIn(s.lanes)))
  }

  // ================================================================ flush callers

  datatype FlushMove = FlushGo | FlushTimeout

  function FlushStep(s: State, f: nat, m: FlushMove): Option<State> {
    if f >= |s.flushers| then None
    else
      match s.flushers[f]
      case FlushIdle => Some(SetFlusher(s, f, FlushWake(s.sh.nextTicket)))
      case FlushWake(target) => Some(SetFlusher(s, f, FlushEnable(target)).(sh := s.sh.(flushPermit := true)))
      case FlushEnable(target) => Some(SetFlusher(s, f, FlushLoad(target, false)))
      case FlushLoad(target, notified) =>
        var completed := s.sh.completedTicket;
        Some(SetFlusher(s, f, if completed >= target then FlushDone(Flushed, target, completed)
                              else FlushLoadStatus(target, completed, notified)))
      case FlushLoadStatus(target, completed, notified) =>
        Some(SetFlusher(s, f, match s.sh.status
                              case TerminalFailure => FlushDone(Failed, target, completed)
                              case Stopped => FlushDone(WorkerStopped, target, completed)
                              case _ => FlushWait(target, notified)))
      case FlushWait(target, notified) =>
        if m.FlushTimeout? then Some(SetFlusher(s, f, FlushDone(TimedOut, target, s.sh.completedTicket)))
        else if notified then Some(SetFlusher(s, f, FlushEnable(target)))
        else None
      case FlushDone(_, _, _) => None
  }

  function SetFlusher(s: State, f: nat, pc: FlusherPc): State
    requires f < |s.flushers|
  {
    s.(flushers := s.flushers[f := pc])
  }

  // ================================================================ handle

  predicate Exited(s: State) {
    (s.w.pc.Wait? && s.w.pc.wait.Drained?) || (s.w.pc.Fail? && s.w.pc.fail.Discarded?)
  }

  datatype HandleMove = StopAcceptance | ClearSlot | ReleaseHandle | FenceStore | FenceNotify | Abort | ResetStep

  /** The handle is one actor: it does not let go of the sink in the middle of `stop_acceptance`
      nor the other way round, and it aborts the worker only after having done both. */
  function HandleStep(s: State, m: HandleMove): Option<State> {
    match m
    case StopAcceptance =>
      if (s.sh.stop.NotStopping? && s.sh.slot != s.sh.handle) || Resetting(s.w.pc) then None else Some(StopStep(s))
    // `replace` and `disable` empty this generation's slot, then let go of the registration.
    case ClearSlot =>
      if s.sh.slot && s.sh.stop.NotStopping? then Some(AfterDrop(s.(sh := s.sh.(slot := false)))) else None
    case ReleaseHandle =>
      if !s.sh.slot && s.sh.handle then Some(AfterDrop(s.(sh := s.sh.(handle := false)))) else None
    case FenceStore => if s.sh.fence.Dropping? then Some(s.(sh := s.sh.(fence := Closed))) else None
    case FenceNotify => if s.sh.fence.Closed? then Some(WakeRecords(s.(sh := s.sh.(fence := Signalled)))) else None
    case Abort => if MayAbort(s) then Some(AbortWorker(s)) else None
    case ResetStep => if Resetting(s.w.pc) then Some(NextReset(s, s.w.pc.reset)) else None
  }

  /** The deadline of `drain_generation` can pass: acceptance is stopped, the sink is let go,
      and the worker has neither returned nor been aborted. */
  predicate MayAbort(s: State) {
    && !Exited(s) && !s.w.pc.Aborted?
    && !s.sh.accepting && s.sh.stop.NotStopping? && !s.sh.slot && !s.sh.handle
  }

  /** One shared operation of `stop_acceptance`, which may be called any number of times. */
  function StopShared(sh: Shared): Shared {
    match sh.stop
    case NotStopping => sh.(accepting := false, stop := StopLoadStatus)
    case StopLoadStatus => sh.(stop := if sh.status.Stopped? then StopShutdown else StopStoreStatus)
    case StopStoreStatus => sh.(status := ShuttingDown, stop := StopShutdown)
    case StopShutdown => sh.(shutdownPermit := true, stop := StopRecords)
    case StopRecords => sh.(recordsPermit := true, stop := StopFlush)
    case StopFlush => sh.(flushPermit := true, stop := NotStopping)
  }

  function StopStep(s: State): State {
    s.(sh := StopShared(s.sh))
  }

  /** The deadline passed: the worker is aborted, and its live counters are about to be zeroed. */
  function AbortWorker(s: State): State {
    To(s, Aborted(ZeroNormalDepth)).(h := s.h.(reset := true))
  }

  predicate Resetting(pc: WorkerPc) {
    pc.Aborted? && !pc.reset.ResetDone?
  }

  /** The store of zero at this point of `reset_live_metrics`, if there is one. */
  function ZeroedAt(at: ResetPc, used: Counters): Counters {
    match at
    case ZeroNormalDepth => used.(normalDepth := 0)
    case ZeroReservedDepth => used.(reservedDepth := 0)
    case ZeroNormalBytes => used.(normalBytes := 0)
    case ZeroReservedBytes => used.(reservedBytes := 0)
    case _ => used
  }

  function NextResetPc(at: ResetPc): ResetPc {
    match at
    case ZeroNormalDepth => ZeroReservedDepth
    case ZeroReservedDepth => ZeroNormalBytes
    case ZeroNormalBytes => ZeroReservedBytes
    case ZeroReservedBytes => StoreStopped
    case StoreStopped => WakeCallers
    case _ => ResetDone
  }

  /** `reset_live_metrics`, store by store, and what `drain_generation` does after it. */
  function NextReset(s: State, at: ResetPc): State {
    s.(sh := s.sh.(used := ZeroedAt(at, s.sh.used), status := if at.StoreStopped? then Stopped else s.sh.status),
       w := s.w.(pc := Aborted(NextResetPc(at))),
       flushers := if at.WakeCallers? then WakeFlushers(s.flushers) else s.flushers,
       h := s.h.(reset := true))
  }

  // ================================================================ runs

  datatype Action =
    | ByProducer(t: nat, pm: ProducerMove)
    | ByWorker(wm: WorkerMove)
    | ByFlusher(f: nat, fm: FlushMove)
    | ByHandle(hm: HandleMove)

  function Step(s: State, a: Action): Option<State> {
    match a
    case ByProducer(t, m) => ProducerStep(s, t, m)
    case ByWorker(m) => WorkerStep(s, m)
    case ByFlusher(f, m) => FlushStep(s, f, m)
    case ByHandle(m) => HandleStep(s, m)
  }

  /** The state after a schedule, if every action of it is enabled in turn. */
  function Run(s: State, schedule: seq<Action>): Option<State> {
    if schedule == [] then Some(s)
    else
      match Run(s, schedule[..|schedule| - 1])
      case None => None
      case Some(mid) => Step(mid, schedule[|schedule| - 1])
  }

  lemma RunOn(s: State, schedule: seq<Action>, a: Action)
    ensures Run(s, schedule + [a]) == match Run(s, schedule) case None => None case Some(mid) => Step(mid, a)
  {
    assert (schedule + [a])[..|schedule|] == schedule;
  }

  lemma {:induction false} RunInTwo(s: State, first: seq<Action>, second: seq<Action>)
    ensures Run(s, first + second) == match Run(s, first) case None => None case Some(mid) => Run(mid, second)
  {
    if second == [] {
      assert first + second == first;
    } else {
      assert (first + second)[..|first + second| - 1] == first + second[..|second| - 1];
      RunInTwo(s, first, second[..|second| - 1]);
    }
  }
}
