/**
Concrete runs in which a plausible promise of the exporter fails, next to the exact laws of
module ExporterRuns: a record left behind by a clean exit, a parked record missing from the
terminal report, a flush caller nobody wakes, a counter below zero after a timed-out shutdown.
*/
module ExporterRaces {
  import opened Records
  import opened Replies
  import opened Wrappers
  import opened Drain
  import opened Watermark
  import opened Exporter
  import opened ExporterLimits
  import ExporterUnderflow
  import Sizing

  const RECORD := Draft(false, 1, 1)

  /** The size predictor of a generation with an empty resource and an empty scope. */
  const SIZER := Sizing.NewSizer(0, 0)

  function Within(maxBytes: nat): seq<nat> -> bool {
    (sizes: seq<nat>) => SIZER.EncodedLen(Sizing.RecordsLen(sizes)) <= maxBytes
  }

  /** Two threads, one flush caller, and a byte limit that one record meets and two exceed. */
  const SMALL := Config(2, 1, 2, 2, 2, 2, 2, Within(12))

  lemma SmallIsSized()
    ensures SizedBy(SMALL, SIZER, 12)
    ensures SMALL.fits([1]) && !SMALL.fits([1, 1])
  {
    var one: seq<nat> := [1];
    var two: seq<nat> := [1, 1];
    assert one[..0] == [] && two[..1] == one;
    assert Sizing.RecordsLen(one) == 3 && Sizing.RecordsLen(two) == 6;
  }

  const WORK := ByWorker(Proceed)
  const STOP := ByHandle(StopAcceptance)
  const THREAD := ByProducer(0, Go)

  function Times(a: Action, n: nat): seq<Action> {
    if n == 0 then [] else Times(a, n - 1) + [a]
  }

  lemma TimesOnce(s: State, a: Action, n: nat)
    requires n > 0
    ensures Run(s, Times(a, n)) == match Run(s, Times(a, n - 1)) case None => None case Some(mid) => Step(mid, a)
  {
    RunOn(s, Times(a, n - 1), a);
  }

  lemma FirstThenTimes(s: State, a: Action, b: Action, n: nat)
    requires Step(s, a).Some?
    ensures Run(s, [a] + Times(b, n)) == Run(Step(s, a).value, Times(b, n))
  {
    RunOn(s, [], a);
    assert [] + [a] == [a];
    RunInTwo(s, [a], Times(b, n));
  }

  lemma Once(s: State, a: Action, e: State)
    requires Step(s, a) == Some(e)
    ensures Run(s, [a]) == Some(e)
  {
    RunOn(s, [], a);
    assert [] + [a] == [a];
  }

  lemma Chain(s: State, p: seq<Action>, mid: State, q: seq<Action>, e: State)
    requires Run(s, p) == Some(mid) && Run(mid, q) == Some(e)
    ensures Run(s, p + q) == Some(e)
  {
    RunInTwo(s, p, q);
  }

  // ---------------------------------------------------------------- steps that several runs share

  function Begin(t: nat): seq<Action> {
    [ByProducer(t, Enter)] + [ByProducer(t, Log(RECORD))]
  }

  lemma EntersCallback(s: State, t: nat)
    requires t < |s.producers| && s.producers[t].pc.Outside? && s.sh.slot
    ensures Run(s, [ByProducer(t, Enter)]) == Some(SetPc(s, t, Loaded))
  {
    Once(s, ByProducer(t, Enter), SetPc(s, t, Loaded));
  }

  lemma PassesFilter(s: State, t: nat)
    requires t < |s.producers| && s.producers[t].pc.Loaded? && s.sh.accepting
    ensures Run(s, [ByProducer(t, Log(RECORD))]) == Some(SetPc(s, t, Resolving(RECORD)))
  {
    Once(s, ByProducer(t, Log(RECORD)), SetPc(s, t, Resolving(RECORD)));
  }

  /** A thread enters the callback and passes the `accepting` test and the filter. */
  lemma Begins(s: State, t: nat)
    requires t < |s.producers| && s.producers[t].pc.Outside? && s.sh.slot && s.sh.accepting
    ensures Run(s, Begin(t)) == Some(SetPc(s, t, Resolving(RECORD)))
  {
    var mid := SetPc(s, t, Loaded);
    EntersCallback(s, t);
    PassesFilter(mid, t);
    assert SetPc(mid, t, Resolving(RECORD)) == SetPc(s, t, Resolving(RECORD));
    Chain(s, [ByProducer(t, Enter)], mid, [ByProducer(t, Log(RECORD))], SetPc(s, t, Resolving(RECORD)));
  }

  const STOP_FOUR := [STOP] + [STOP] + [STOP] + [STOP]

  lemma StopsOnce(s: State)
    requires (s.sh.stop.NotStopping? ==> s.sh.slot == s.sh.handle) && !Resetting(s.w.pc)
    ensures Run(s, [STOP]) == Some(StopStep(s))
  {
    Once(s, STOP, StopStep(s));
  }

  /** `stop_acceptance` up to the shutdown permit. */
  function Stopping(s: State): State {
    s.(sh := s.sh.(accepting := false, status := ShuttingDown, shutdownPermit := true, stop := StopRecords))
  }

  lemma StopsFourTimes(s: State)
    requires s.sh.stop.NotStopping? && !s.sh.status.Stopped? && s.sh.slot == s.sh.handle && !s.w.pc.Aborted?
    ensures Run(s, STOP_FOUR) == Some(Stopping(s))
  {
    var begun := s.(sh := s.sh.(accepting := false, stop := StopLoadStatus));
    var loaded := begun.(sh := begun.sh.(stop := StopStoreStatus));
    var stored := loaded.(sh := loaded.sh.(status := ShuttingDown, stop := StopShutdown));
    Once(s, STOP, begun);
    Once(begun, STOP, loaded);
    Once(loaded, STOP, stored);
    Once(stored, STOP, Stopping(s));
    Chain(s, [STOP], begun, [STOP], loaded);
    Chain(s, [STOP] + [STOP], loaded, [STOP], stored);
    Chain(s, [STOP] + [STOP] + [STOP], stored, [STOP], Stopping(s));
  }

  const LET_GO := [ByHandle(ClearSlot)] + [ByHandle(ReleaseHandle)]

  lemma ClearsSlot(s: State)
    requires s.sh.slot && s.sh.handle && s.sh.stop.NotStopping?
    ensures Run(s, [ByHandle(ClearSlot)]) == Some(s.(sh := s.sh.(slot := false)))
  {
    Once(s, ByHandle(ClearSlot), s.(sh := s.sh.(slot := false)));
  }

  /** The slot is emptied and the registration let go; the callback dies unless a thread is inside. */
  lemma LetsGo(s: State)
    requires s.sh.slot && s.sh.handle && s.sh.stop.NotStopping?
    ensures Run(s, LET_GO) == Some(AfterDrop(s.(sh := s.sh.(slot := false, handle := false))))
  {
    var mid, e := s.(sh := s.sh.(slot := false)), AfterDrop(s.(sh := s.sh.(slot := false, handle := false)));
    ClearsSlot(s);
    Once(mid, ByHandle(ReleaseHandle), e);
    Chain(s, [ByHandle(ClearSlot)], mid, [ByHandle(ReleaseHandle)], e);
  }

  /** A registration let go while a thread is inside: the callback lives on. */
  lemma LetsGoDuringCall(s: State, t: nat)
    requires s.sh.slot && s.sh.handle && s.sh.stop.NotStopping? && t < |s.producers|
        && s.producers[t].pc.HoldsCallback()
    ensures Run(s, LET_GO) == Some(s.(sh := s.sh.(slot := false, handle := false)))
  {
    LetsGo(s);
    assert !Unreferenced(s.(sh := s.sh.(slot := false, handle := false)));
  }

  // ---------------------------------------------------------------- a latecomer is left behind

  /** The first thread, which has no lane yet, is inside the callback; the generation is stopping. */
  ghost predicate StoppingEmpty(s: State) {
    && s.cfg == SMALL && s.lanes == [] && s.registry == []
    && s.w.reserved == [] && s.w.normal == [] && s.w.pending == []
    && |s.producers| == 2 && s.producers[0] == Producer(None, Resolving(RECORD))
        && s.producers[1] == Producer(None, Outside)
    && !s.sh.slot && !s.sh.handle && s.sh.fence.Alive? && s.sh.used == ZERO && s.sh.nextTicket == 0
    && s.h.issued == [] && s.h.done == []
  }

  const STOP_DURING_LOG := Begin(0) + LET_GO + STOP_FOUR

  lemma StopDuringLog()
    ensures Run(Init(SMALL), STOP_DURING_LOG).Some?
    ensures var s := Run(Init(SMALL), STOP_DURING_LOG).value;
      StoppingEmpty(s) && s.w.pc == Input(Top) && !s.w.shuttingDown && s.sh.shutdownPermit
  {
    var s := Init(SMALL);
    var logging := SetPc(s, 0, Resolving(RECORD));
    var free := logging.(sh := logging.sh.(slot := false, handle := false));
    Begins(s, 0);
    LetsGoDuringCall(logging, 0);
    Chain(s, Begin(0), logging, LET_GO, free);
    StopsFourTimes(free);
    Chain(s, Begin(0) + LET_GO, free, STOP_FOUR, Stopping(free));
  }

  lemma NothingInterleaved()
    ensures Interleave(KindQueues([], Reserved)) == [] == Interleave(KindQueues([], Normal))
  {
  }

  /** A refresh without lanes finds nothing. */
  lemma RefreshesInVain(s: State, site: Site)
    requires StoppingEmpty(s) && s.w.pc == Refresh(site, Retiring(0))
    ensures Run(s, Times(WORK, 2)).Some?
    ensures var e := Run(s, Times(WORK, 2)).value;
      && StoppingEmpty(e) && e.w.pc == Input(if site.AtTop? then Choose else Pop(site))
      && e.sh.shutdownPermit == s.sh.shutdownPermit && e.w.shuttingDown == s.w.shuttingDown
  {
    TimesOnce(s, WORK, 1);
    TimesOnce(s, WORK, 2);
    NothingInterleaved();
  }

  const TOP_REFRESH := [WORK] + Times(WORK, 2)

  lemma StartsLoop(s: State)
    requires StoppingEmpty(s) && s.w.pc == Input(Top) && !s.w.shuttingDown
    ensures Run(s, TOP_REFRESH).Some?
    ensures var e := Run(s, TOP_REFRESH).value;
      StoppingEmpty(e) && e.w.pc == Input(Choose) && e.sh.shutdownPermit == s.sh.shutdownPermit && !e.w.shuttingDown
  {
    FirstThenTimes(s, WORK, WORK, 2);
    RefreshesInVain(Step(s, WORK).value, AtTop);
  }

  const FIRST_POLL := Times(WORK, 2) + Times(WORK, 2) + [WORK]

  lemma PollsInVain(s: State)
    requires StoppingEmpty(s) && s.w.pc == Input(Choose) && !s.w.shuttingDown
    ensures Run(s, FIRST_POLL).Some?
    ensures var e := Run(s, FIRST_POLL).value;
      StoppingEmpty(e) && e.w.pc == Wait(WaitReceive) && e.sh.shutdownPermit == s.sh.shutdownPermit
  {
    TimesOnce(s, WORK, 1);
    TimesOnce(s, WORK, 2);
    var polled := Run(s, Times(WORK, 2)).value;
    RefreshesInVain(polled, InReceive);
    RunInTwo(s, Times(WORK, 2), Times(WORK, 2));
    RunOn(s, Times(WORK, 2) + Times(WORK, 2), WORK);
  }

  const LAST_POLL := [ByWorker(OnShutdown)] + Times(WORK, 1) + Times(WORK, 2) + [WORK]

  lemma PollsOnceMore(s: State)
    requires StoppingEmpty(s) && s.w.pc == Wait(WaitReceive) && s.sh.shutdownPermit
    ensures Run(s, LAST_POLL).Some?
    ensures var e := Run(s, LAST_POLL).value; StoppingEmpty(e) && e.w.pc == Wait(CheckFence)
  {
    FirstThenTimes(s, ByWorker(OnShutdown), WORK, 1);
    var woken := Step(s, ByWorker(OnShutdown)).value;
    TimesOnce(woken, WORK, 1);
    RefreshesInVain(Run(woken, Times(WORK, 1)).value, InLastPoll);
    RunInTwo(s, [ByWorker(OnShutdown)] + Times(WORK, 1), Times(WORK, 2));
    RunOn(s, [ByWorker(OnShutdown)] + Times(WORK, 1) + Times(WORK, 2), WORK);
  }

  /** What the first thread's own steps leave alone, as long as it is inside the callback. */
  ghost predicate OnlyThread(s: State, e: State, pc: ProducerPc) {
    && e.cfg == s.cfg && e.w == s.w && e.flushers == s.flushers && e.registry == s.registry && e.cursor == s.cursor
    && |s.producers| == 2 && e.producers == s.producers[0 := s.producers[0].(pc := pc)]
    && e.sh.accepting == s.sh.accepting && e.sh.slot == s.sh.slot && e.sh.handle == s.sh.handle
        && e.sh.fence == s.sh.fence
    && e.sh.status == s.sh.status && e.sh.stop == s.sh.stop && e.sh.completedTicket == s.sh.completedTicket
    && e.sh.shutdownPermit == s.sh.shutdownPermit && e.h.done == s.h.done && e.h.reset == s.h.reset
  }

  /** The first thread is at `pc`, the second one outside; `n` records have been accepted. */
  ghost predicate Logging(s: State, pc: ProducerPc, n: nat)
    requires n <= 2
  {
    && s.cfg == SMALL && |s.producers| == 2 && s.producers[0] == Producer(Some(0), pc)
        && s.producers[1] == Producer(None, Outside)
    && s.sh.nextTicket == n && s.h.issued == Logged(n)
  }

  /** The first `n` records of the first thread. */
  function Logged(n: nat): seq<QueuedLog>
    requires n <= 2
  {
    if n == 0 then [] else if n == 1 then [QueuedLog(0, Normal, 1, 1, 1)]
    else [QueuedLog(0, Normal, 1, 1, 1), QueuedLog(0, Normal, 1, 2, 1)]
  }

  ghost predicate LaneHolds(s: State, n: nat)
    requires n <= 2
  {
    s.lanes == [Lane(0, LaneQueues(Logged(n), []), false)]
  }

  lemma Claims(s: State, n: nat)
    requires n < 2 && Logging(s, ClaimBytes(RECORD, Normal), n) && LaneHolds(s, n) && s.sh.used == Counters(n, n, 0, 0)
    ensures Step(s, THREAD).Some?
    ensures var e := Step(s, THREAD).value;
      && Logging(e, ClaimRecord(RECORD, Normal), n) && LaneHolds(e, n) && OnlyThread(s, e, ClaimRecord(RECORD, Normal))
      && e.sh.used == Counters(n, n + 1, 0, 0)
  {
  }

  lemma ClaimsSlot(s: State, n: nat)
    requires n < 2 && Logging(s, ClaimRecord(RECORD, Normal), n) && LaneHolds(s, n)
        && s.sh.used == Counters(n, n + 1, 0, 0)
    ensures Step(s, THREAD).Some?
    ensures var e := Step(s, THREAD).value;
      && Logging(e, Ticketing(RECORD, Normal), n) && LaneHolds(e, n) && OnlyThread(s, e, Ticketing(RECORD, Normal))
      && e.sh.used == Counters(n + 1, n + 1, 0, 0)
  {
  }

  lemma NextLogged(n: nat)
    requires n < 2
    ensures Logged(n + 1)[n] == QueuedLog(0, Normal, 1, n + 1, 1) && Logged(n) + [Logged(n + 1)[n]] == Logged(n + 1)
  {
  }

  lemma Tickets(s: State, n: nat)
    requires n < 2 && Logging(s, Ticketing(RECORD, Normal), n) && LaneHolds(s, n)
    ensures Step(s, THREAD).Some?
    ensures var e := Step(s, THREAD).value;
      && Logging(e, Pushing(Logged(n + 1)[n]), n + 1) && LaneHolds(e, n) && OnlyThread(s, e, Pushing(Logged(n + 1)[n]))
      && e.sh.used == s.sh.used
  {
    NextLogged(n);
    assert Step(s, THREAD) == TakeTicket(s, 0, RECORD, Normal);
    assert TakeTicket(s, 0, RECORD, Normal)
        == Some(SetPc(s, 0, Pushing(Logged(n + 1)[n]))
                  .(sh := s.sh.(nextTicket := n + 1), h := s.h.(issued := Logged(n + 1))));
  }

  lemma Pushes(s: State, n: nat)
    requires n < 2 && Logging(s, Pushing(Logged(n + 1)[n]), n + 1) && LaneHolds(s, n)
    ensures Step(s, THREAD).Some?
    ensures var e, pc := Step(s, THREAD).value, if n == 0 then Notifying else Leaving;
      Logging(e, pc, n + 1) && LaneHolds(e, n + 1) && OnlyThread(s, e, pc) && e.sh.used == s.sh.used
  {
    assert Logged(n) + [Logged(n + 1)[n]] == Logged(n + 1);
  }

  lemma Wakes(s: State)
    requires Logging(s, Notifying, 1) && LaneHolds(s, 1)
    ensures Step(s, THREAD).Some?
    ensures var e := Step(s, THREAD).value;
      Logging(e, Leaving, 1) && LaneHolds(e, 1) && OnlyThread(s, e, Leaving) && e.sh.used == s.sh.used
  {
  }

  /** From the lane look-up to the push. */
  lemma Submits(s: State, n: nat)
    requires n < 2 && Logging(s, ClaimBytes(RECORD, Normal), n) && LaneHolds(s, n) && s.sh.used == Counters(n, n, 0, 0)
    ensures Run(s, Times(THREAD, 4)).Some?
    ensures var e, pc := Run(s, Times(THREAD, 4)).value, if n == 0 then Notifying else Leaving;
      && Logging(e, pc, n + 1) && LaneHolds(e, n + 1) && OnlyThread(s, e, pc)
          && e.sh.used == Counters(n + 1, n + 1, 0, 0)
  {
    TimesOnce(s, THREAD, 1); Claims(s, n);
    TimesOnce(s, THREAD, 2); ClaimsSlot(Run(s, Times(THREAD, 1)).value, n);
    TimesOnce(s, THREAD, 3); Tickets(Run(s, Times(THREAD, 2)).value, n);
    TimesOnce(s, THREAD, 4); Pushes(Run(s, Times(THREAD, 3)).value, n);
  }

  lemma RegistersLate(s: State)
    requires StoppingEmpty(s) && s.w.pc == Wait(CheckFence)
    ensures Step(s, THREAD).Some?
    ensures var e := Step(s, THREAD).value;
      && Logging(e, ClaimBytes(RECORD, Normal), 0) && LaneHolds(e, 0) && e.sh.used == ZERO && e.w == s.w
          && e.h.done == []
      && e.sh.fence.Alive? && !e.sh.slot && !e.sh.handle
  {
  }

  lemma LeavesLast(s: State)
    requires |s.producers| == 2 && s.producers[0].pc.Leaving? && s.producers[1].pc.Outside?
    requires s.sh.fence.Alive? && !s.sh.slot && !s.sh.handle
    ensures Step(s, THREAD).Some?
    ensures var e := Step(s, THREAD).value; e.w == s.w && e.h == s.h && e.sh.fence.Dropping?
  {
  }

  const LATE_PUSH := [THREAD] + Times(THREAD, 4) + [THREAD] + [THREAD]

  /** Lane, claims, ticket, push, wake, return, all after the worker's last look at the lanes. */
  lemma LogsLate(s: State)
    requires StoppingEmpty(s) && s.w.pc == Wait(CheckFence)
    ensures Run(s, LATE_PUSH).Some?
    ensures var e := Run(s, LATE_PUSH).value;
      e.w.pc == Wait(CheckFence) && e.sh.fence.Dropping? && e.h.done == [] && e.h.issued == Logged(1)
  {
    RegistersLate(s);
    FirstThenTimes(s, THREAD, THREAD, 4);
    Submits(Step(s, THREAD).value, 0);
    var r := [THREAD] + Times(THREAD, 4);
    RunOn(s, r, THREAD); Wakes(Run(s, r).value); r := r + [THREAD];
    RunOn(s, r, THREAD); LeavesLast(Run(s, r).value);
  }

  const EXIT := [ByHandle(FenceStore)] + [WORK] + [WORK] + [WORK]

  lemma ExitsCleanly(s: State)
    requires s.w.pc == Wait(CheckFence) && s.sh.fence.Dropping?
    ensures Run(s, EXIT).Some?
    ensures var e := Run(s, EXIT).value;
      e.w.pc == Wait(Drained) && e.h.done == s.h.done && e.h.issued == s.h.issued && e.h.reset == s.h.reset
  {
    var closed := s.(sh := s.sh.(fence := Closed));
    var checked := To(closed, Wait(StopStatus));
    var stopped := To(SetStatus(checked, Stopped), Wait(StopNotify));
    var e := To(stopped.(flushers := WakeFlushers(stopped.flushers)), Wait(Drained));
    Once(s, ByHandle(FenceStore), closed);
    Once(closed, WORK, checked);
    Once(checked, WORK, stopped);
    Once(stopped, WORK, e);
    Chain(s, [ByHandle(FenceStore)], closed, [WORK], checked);
    Chain(s, [ByHandle(FenceStore)] + [WORK], checked, [WORK], stopped);
    Chain(s, [ByHandle(FenceStore)] + [WORK] + [WORK], stopped, [WORK], e);
  }

  const LATECOMER := STOP_DURING_LOG + TOP_REFRESH + FIRST_POLL + LAST_POLL + LATE_PUSH + EXIT

  /** Clean exit. The worker reports no remaining record and leaves an accepted record behind. */
  lemma CleanExitLosesLatecomer()
    ensures Run(Init(SMALL), LATECOMER).Some?
    ensures var s := Run(Init(SMALL), LATECOMER).value;
      s.w.pc == Wait(Drained) && s.h.issued == Logged(1) && s.h.done == []
  {
    var s := Init(SMALL);
    StopDuringLog();
    var r := STOP_DURING_LOG;
    RunInTwo(s, r, TOP_REFRESH); StartsLoop(Run(s, r).value); r := r + TOP_REFRESH;
    RunInTwo(s, r, FIRST_POLL); PollsInVain(Run(s, r).value); r := r + FIRST_POLL;
    RunInTwo(s, r, LAST_POLL); PollsOnceMore(Run(s, r).value); r := r + LAST_POLL;
    RunInTwo(s, r, LATE_PUSH); LogsLate(Run(s, r).value); r := r + LATE_PUSH;
    RunInTwo(s, r, EXIT); ExitsCleanly(Run(s, r).value);
  }

  // ---------------------------------------------------------------- a terminal failure

  /** A running generation whose worker has not moved yet; one flush caller has not called. */
  ghost predicate Untouched(s: State) {
    && s.w == Worker(Input(Top), false, [], [], [], Tracker(0, {})) && s.flushers == [FlushIdle]
    && s.registry == [0] && s.cursor == 0 && s.sh.accepting && s.sh.slot && s.sh.handle && s.sh.fence.Alive?
    && s.sh.status.Running? && s.sh.stop.NotStopping? && s.sh.completedTicket == 0 && !s.sh.shutdownPermit
    && s.h.done == [] && !s.h.reset
  }

  const START := Begin(0) + [THREAD]

  /** The first record of a thread registers its lane. */
  lemma Registers(s: State)
    requires s == SetPc(Init(SMALL), 0, Resolving(RECORD))
    ensures Step(s, THREAD).Some?
    ensures var e := Step(s, THREAD).value;
      Untouched(e) && Logging(e, ClaimBytes(RECORD, Normal), 0) && LaneHolds(e, 0) && e.sh.used == ZERO
  {
  }

  lemma StartsLogging()
    ensures Run(Init(SMALL), START).Some?
    ensures var e := Run(Init(SMALL), START).value;
      Untouched(e) && Logging(e, ClaimBytes(RECORD, Normal), 0) && LaneHolds(e, 0) && e.sh.used == ZERO
  {
    Begins(Init(SMALL), 0);
    RunOn(Init(SMALL), Begin(0), THREAD);
    Registers(SetPc(Init(SMALL), 0, Resolving(RECORD)));
  }

  lemma Leaves(s: State, n: nat)
    requires n <= 2 && Untouched(s) && Logging(s, Leaving, n) && LaneHolds(s, n)
    ensures Step(s, THREAD).Some?
    ensures var e := Step(s, THREAD).value;
      Untouched(e) && Logging(e, Outside, n) && LaneHolds(e, n) && e.sh.used == s.sh.used
  {
  }

  lemma Reenters(s: State, a: Action, pc: ProducerPc)
    requires Untouched(s) && Logging(s, pc, 1) && LaneHolds(s, 1)
    requires a == (if pc.Outside? then ByProducer(0, Enter)
        else if pc.Loaded? then ByProducer(0, Log(RECORD)) else THREAD)
    requires pc.Outside? || pc.Loaded? || pc == Resolving(RECORD)
    ensures Step(s, a).Some?
    ensures var e := Step(s, a).value;
      && Untouched(e) && LaneHolds(e, 1) && e.sh.used == s.sh.used
      && Logging(e, if pc.Outside? then Loaded else if pc.Loaded? then Resolving(RECORD)
          else ClaimBytes(RECORD, Normal), 1)
  {
  }

  const LOG_TWICE := START + Times(THREAD, 4) + [THREAD] + [THREAD]
    + [ByProducer(0, Enter)] + [ByProducer(0, Log(RECORD))] + [THREAD] + Times(THREAD, 4) + [THREAD]

  /** One thread logs two records. */
  lemma LogsTwice()
    ensures Run(Init(SMALL), LOG_TWICE).Some?
    ensures var e := Run(Init(SMALL), LOG_TWICE).value;
      Untouched(e) && Logging(e, Outside, 2) && LaneHolds(e, 2) && e.sh.used == Counters(2, 2, 0, 0)
  {
    var s := Init(SMALL);
    var r := START;
    StartsLogging();
    RunInTwo(s, r, Times(THREAD, 4)); Submits(Run(s, r).value, 0); r := r + Times(THREAD, 4);
    RunOn(s, r, THREAD); Wakes(Run(s, r).value); r := r + [THREAD];
    RunOn(s, r, THREAD); Leaves(Run(s, r).value, 1); r := r + [THREAD];
    RunOn(s, r, ByProducer(0, Enter)); Reenters(Run(s, r).value, ByProducer(0, Enter), Outside);
        r := r + [ByProducer(0, Enter)];
    RunOn(s, r, ByProducer(0, Log(RECORD))); Reenters(Run(s, r).value, ByProducer(0, Log(RECORD)), Loaded);
    r := r + [ByProducer(0, Log(RECORD))];
    RunOn(s, r, THREAD); Reenters(Run(s, r).value, THREAD, Resolving(RECORD)); r := r + [THREAD];
    RunInTwo(s, r, Times(THREAD, 4)); Submits(Run(s, r).value, 1); r := r + Times(THREAD, 4);
    RunOn(s, r, THREAD); Leaves(Run(s, r).value, 2);
  }

  /** Everything around the worker: both threads outside, the flush caller asleep on ticket 2. */
  ghost predicate Asleep(s: State, status: Status) {
    && s.cfg == SMALL && s.sh.accepting && s.sh.slot && s.sh.handle && s.sh.fence.Alive? && s.sh.stop.NotStopping?
    && s.sh.status == status && !s.sh.shutdownPermit && s.sh.nextTicket == 2 && s.sh.completedTicket == 0
    && |s.producers| == 2 && s.producers[0] == Producer(Some(0), Outside) && s.producers[1] == Producer(None, Outside)
    && |s.lanes| == 1 && s.registry == [0] && s.flushers == [FlushWait(2, false)] && !s.w.shuttingDown
    && s.h.issued == Logged(2) && s.h.done == [] && !s.h.reset
  }

  const FLUSH := ByFlusher(0, FlushGo)
  const CALL_FLUSH := [FLUSH] + [FLUSH] + [FLUSH] + [FLUSH] + [FLUSH]

  /** The state in which the flush caller finds the generation. */
  ghost predicate Accepted(s: State, caller: FlusherPc) {
    && s.cfg == SMALL && s.w == Worker(Input(Top), false, [], [], [], Tracker(0, {})) && s.flushers == [caller]
    && s.registry == [0] && s.cursor == 0 && s.sh.accepting && s.sh.slot && s.sh.handle && s.sh.fence.Alive?
    && s.sh.status.Running? && s.sh.stop.NotStopping? && s.sh.completedTicket == 0 && !s.sh.shutdownPermit
    && s.sh.nextTicket == 2 && s.h.issued == Logged(2) && s.h.done == [] && !s.h.reset && LaneHolds(s, 2)
    && |s.producers| == 2 && s.producers[0] == Producer(Some(0), Outside) && s.producers[1] == Producer(None, Outside)
    && s.sh.used == Counters(2, 2, 0, 0)
  }

  function NextInCall(caller: FlusherPc): FlusherPc {
    match caller
    case FlushIdle => FlushWake(2)
    case FlushWake(_) => FlushEnable(2)
    case FlushEnable(_) => FlushLoad(2, false)
    case FlushLoad(_, _) => FlushLoadStatus(2, 0, false)
    case _ => FlushWait(2, false)
  }

  /** One step of a call that finds nothing completed yet. */
  lemma CallMoves(s: State, caller: FlusherPc) returns (e: State)
    requires Accepted(s, caller)
    requires caller == FlushIdle || caller == FlushWake(2) || caller == FlushEnable(2) || caller == FlushLoad(2, false)
      || caller == FlushLoadStatus(2, 0, false)
    ensures Run(s, [FLUSH]) == Some(e) && Accepted(e, NextInCall(caller))
  {
    e := Step(s, FLUSH).value;
    Once(s, FLUSH, e);
    match caller
    case FlushIdle =>
    case FlushWake(_) =>
    case FlushEnable(_) =>
    case FlushLoad(_, _) =>
    case FlushLoadStatus(_, _, _) =>
  }

  lemma CallsFlush(s: State)
    requires Untouched(s) && Logging(s, Outside, 2) && LaneHolds(s, 2) && s.sh.used == Counters(2, 2, 0, 0)
    ensures Run(s, CALL_FLUSH).Some?
    ensures var e := Run(s, CALL_FLUSH).value;
      && Asleep(e, Running) && LaneHolds(e, 2) && e.sh.used == Counters(2, 2, 0, 0)
      && e.cursor == 0 && e.w.pc == Input(Top) && e.w.reserved == e.w.normal == e.w.pending == []
  {
    var a := CallMoves(s, FlushIdle);
    var b := CallMoves(a, FlushWake(2));
    var c := CallMoves(b, FlushEnable(2));
    var d := CallMoves(c, FlushLoad(2, false));
    var e := CallMoves(d, FlushLoadStatus(2, 0, false));
    Chain(s, [FLUSH], a, [FLUSH], b);
    Chain(s, [FLUSH] + [FLUSH], b, [FLUSH], c);
    Chain(s, [FLUSH] + [FLUSH] + [FLUSH], c, [FLUSH], d);
    Chain(s, [FLUSH] + [FLUSH] + [FLUSH] + [FLUSH], d, [FLUSH], e);
  }

  lemma OneLaneInterleaves(q: LaneQueues)
    requires |q.normal| <= 2 && q.reserved == []
    ensures Interleave(KindQueues([q], Normal)) == q.normal && Interleave(KindQueues([q], Reserved)) == []
  {
    OneQueueInterleaves(q.normal);
    OneQueueInterleaves(q.reserved);
    assert KindQueues([q], Normal) == [q.normal] && KindQueues([q], Reserved) == [q.reserved];
  }

  lemma OneQueueInterleaves(q: seq<QueuedLog>)
    requires |q| <= 2
    ensures Interleave([q]) == q
  {
    assert [q][..0] == [];
    assert OnePass([q]) == q;
    var none: seq<seq<QueuedLog>> := [[]];
    assert AfterPass([q]) == none;
    assert none[..0] == [];
    assert OnePass(none) == [];
  }

  const LOOK := Times(WORK, 3)

  lemma LooksAtLanes(s: State)
    requires Asleep(s, Running) && LaneHolds(s, 2) && s.cursor == 0
    requires s.w.pc == Input(Top) && s.w.reserved == s.w.normal == s.w.pending == []
    ensures Run(s, LOOK).Some?
    ensures var e := Run(s, LOOK).value;
      && Asleep(e, Running) && LaneHolds(e, 2) && e.sh.used == s.sh.used
      && e.w.pc == Refresh(AtTop, Taking([0], [], [])) && e.w.reserved == e.w.normal == e.w.pending == []
  {
    assert Rotated([0], 0) == [0];
    TimesOnce(s, WORK, 1);
    TimesOnce(s, WORK, 2);
    TimesOnce(s, WORK, 3);
  }

  const SWAP := Times(WORK, 2)

  lemma SwapsLane(s: State)
    requires Asleep(s, Running) && LaneHolds(s, 2)
    requires s.w.pc == Refresh(AtTop, Taking([0], [], [])) && s.w.reserved == s.w.normal == s.w.pending == []
    ensures Run(s, SWAP).Some?
    ensures var e := Run(s, SWAP).value;
      && Asleep(e, Running) && e.sh.used == s.sh.used
      && e.w.pc == Input(Choose) && e.w.normal == Logged(2) && e.w.reserved == e.w.pending == []
  {
    OneLaneInterleaves(LaneQueues(Logged(2), []));
    assert [] + [LaneQueues(Logged(2), [])] == [LaneQueues(Logged(2), [])];
    TimesOnce(s, WORK, 1);
    TimesOnce(s, WORK, 2);
  }

  /** The inbox holds records of the normal queue only, the oldest one first. */
  ghost predicate Stocked(s: State, pc: InputPc, normal: seq<QueuedLog>, used: Counters) {
    && Asleep(s, Running) && s.w.pc == Input(pc) && s.w.normal == normal && s.w.reserved == s.w.pending == []
        && s.sh.used == used
  }

  lemma PollFinds(s: State, site: Site, normal: seq<QueuedLog>, used: Counters) returns (e: State)
    requires Stocked(s, Poll(site), normal, used) && normal != []
    ensures Run(s, [WORK]) == Some(e) && Stocked(e, Pop(site), normal, used)
  {
    e := To(s, Input(Pop(site)));
    Once(s, WORK, e);
  }

  lemma PopTakes(s: State, site: Site, normal: seq<QueuedLog>, used: Counters) returns (e: State)
    requires Stocked(s, Pop(site), normal, used) && normal != []
    ensures Run(s, [WORK]) == Some(e) && Stocked(e, ReleaseRecord(site, normal[0]), normal[1..], used)
  {
    e := s.(w := s.w.(pc := Input(ReleaseRecord(site, normal[0])), normal := normal[1..]));
    Once(s, WORK, e);
  }

  lemma SlotReleased(s: State, site: Site, log: QueuedLog, normal: seq<QueuedLog>, used: Counters) returns (e: State)
    requires Stocked(s, ReleaseRecord(site, log), normal, used) && log.queue.Normal?
    ensures Run(s, [WORK]) == Some(e)
        && Stocked(e, ReleaseBytes(site, log), normal, used.Add(Budget(Normal, Slots), -1))
  {
    e := To(SubUsed(s, Budget(log.queue, Slots), 1), Input(ReleaseBytes(site, log)));
    Once(s, WORK, e);
  }

  const POP_ONE := [WORK] + [WORK] + [WORK]

  /** `try_receive` with records in the inbox: the oldest one, its slot already released. */
  lemma PopsOldest(s: State, site: Site, normal: seq<QueuedLog>, used: Counters) returns (e: State)
    requires Stocked(s, Poll(site), normal, used) && normal != [] && normal[0].queue.Normal?
    ensures Run(s, POP_ONE) == Some(e)
    ensures Stocked(e, ReleaseBytes(site, normal[0]), normal[1..], used.Add(Budget(Normal, Slots), -1))
  {
    var a := PollFinds(s, site, normal, used);
    var b := PopTakes(a, site, normal, used);
    e := SlotReleased(b, site, normal[0], normal[1..], used);
    Chain(s, [WORK], a, [WORK], b);
    Chain(s, [WORK] + [WORK], b, [WORK], e);
  }

  const TAKE := [WORK] + POP_ONE + [WORK] + [WORK]

  lemma ChoosesPoll(s: State) returns (e: State)
    requires Stocked(s, Choose, Logged(2), Counters(2, 2, 0, 0))
    ensures Run(s, [WORK]) == Some(e) && Stocked(e, Poll(InReceive), Logged(2), Counters(2, 2, 0, 0))
  {
    e := To(s, Input(Poll(InReceive)));
    Once(s, WORK, e);
  }

  lemma ReceivesFirst(s: State) returns (e: State)
    requires Stocked(s, ReleaseBytes(InReceive, Logged(1)[0]), [Logged(2)[1]], Counters(1, 2, 0, 0))
    ensures Run(s, [WORK]) == Some(e)
    ensures Assembling(e, First(Logged(1)[0]), [Logged(2)[1]], Counters(1, 1, 0, 0)) && e.w.pending == []
  {
    e := Step(s, WORK).value;
    Once(s, WORK, e);
  }

  ghost predicate Assembling(s: State, at: BatchPc, normal: seq<QueuedLog>, used: Counters) {
    Asleep(s, Running) && s.w.pc == Assemble(at) && s.w.normal == normal && s.w.reserved == [] && s.sh.used == used
  }

  lemma StartsBatch(s: State) returns (e: State)
    requires Assembling(s, First(Logged(1)[0]), [Logged(2)[1]], Counters(1, 1, 0, 0)) && s.w.pending == []
    ensures Run(s, [WORK]) == Some(e)
    ensures Assembling(e, Fill(Logged(1)), [Logged(2)[1]], Counters(1, 1, 0, 0)) && e.w.pending == []
  {
    e := To(s, Assemble(Fill(Logged(1))));
    assert [Logged(1)[0]] == Logged(1);
    Once(s, WORK, e);
  }

  lemma TakesFirst(s: State) returns (e: State)
    requires Stocked(s, Choose, Logged(2), Counters(2, 2, 0, 0))
    ensures Run(s, TAKE) == Some(e)
    ensures Assembling(e, Fill(Logged(1)), [Logged(2)[1]], Counters(1, 1, 0, 0)) && e.w.pending == []
  {
    var a := ChoosesPoll(s);
    var b := PopsOldest(a, InReceive, Logged(2), Counters(2, 2, 0, 0));
    assert Logged(2)[1..] == [Logged(2)[1]];
    var c := ReceivesFirst(b);
    e := StartsBatch(c);
    Chain(s, [WORK], a, POP_ONE, b);
    Chain(s, [WORK] + POP_ONE, b, [WORK], c);
    Chain(s, [WORK] + POP_ONE + [WORK], c, [WORK], e);
  }

  lemma PollsForMore(s: State) returns (e: State)
    requires Assembling(s, Fill(Logged(1)), [Logged(2)[1]], Counters(1, 1, 0, 0)) && s.w.pending == []
    ensures Run(s, [WORK]) == Some(e) && Stocked(e, Poll(InBatch(Logged(1))), [Logged(2)[1]], Counters(1, 1, 0, 0))
  {
    e := To(s, Input(Poll(InBatch(Logged(1)))));
    Once(s, WORK, e);
  }

  lemma ReceivesSecond(s: State) returns (e: State)
    requires Stocked(s, ReleaseBytes(InBatch(Logged(1)), Logged(2)[1]), [], Counters(0, 1, 0, 0))
    ensures Run(s, [WORK]) == Some(e)
    ensures Assembling(e, Next(Logged(1), Logged(2)[1]), [], ZERO) && e.w.pending == []
  {
    e := Step(s, WORK).value;
    Once(s, WORK, e);
  }

  lemma LoggedSizes()
    ensures EncodedSizes([Logged(2)[1]]) == [1] && EncodedSizes(Logged(1) + [Logged(2)[1]]) == [1, 1]
  {
  }

  lemma FitsOnlyAlone()
    ensures SMALL.Fits([Logged(2)[1]]) && !SMALL.Fits(Logged(1) + [Logged(2)[1]])
  {
    LoggedSizes();
    SmallIsSized();
  }

  /** The second record does not fit beside the first one: it is parked. */
  lemma Parks(s: State) returns (e: State)
    requires Assembling(s, Next(Logged(1), Logged(2)[1]), [], ZERO) && s.w.pending == []
    ensures Run(s, [WORK]) == Some(e) && Assembling(e, Export(Logged(1)), [], ZERO) && e.w.pending == [Logged(2)[1]]
  {
    e := s.(w := s.w.(pc := Assemble(Export(Logged(1))), pending := [Logged(2)[1]]));
    FitsOnlyAlone();
    assert [Logged(2)[1]] + s.w.pending == [Logged(2)[1]];
    Once(s, WORK, e);
  }

  lemma ParksSecond(s: State) returns (e: State)
    requires Assembling(s, Fill(Logged(1)), [Logged(2)[1]], Counters(1, 1, 0, 0)) && s.w.pending == []
    ensures Run(s, TAKE) == Some(e)
    ensures Assembling(e, Export(Logged(1)), [], ZERO) && e.w.pending == [Logged(2)[1]]
  {
    var a := PollsForMore(s);
    var b := PopsOldest(a, InBatch(Logged(1)), [Logged(2)[1]], Counters(1, 1, 0, 0));
    assert [Logged(2)[1]][1..] == [];
    var c := ReceivesSecond(b);
    e := Parks(c);
    Chain(s, [WORK], a, POP_ONE, b);
    Chain(s, [WORK] + POP_ONE, b, [WORK], c);
    Chain(s, [WORK] + POP_ONE + [WORK], c, [WORK], e);
  }

  const FAIL := [WORK] + [WORK] + [ByWorker(Answer(Permanent))] + [WORK]

  lemma StartsSending(s: State) returns (e: State)
    requires s.w.pc == Assemble(Export(Logged(1)))
    ensures Run(s, [WORK] + [WORK]) == Some(e)
    ensures e == To(s, Transmit([], Send(Logged(1)))).(h := s.h.(sent := s.h.sent + Logged(1)))
  {
    var begun := To(s, Transmit([Logged(1)], NextSegment)).(h := s.h.(sent := s.h.sent + Logged(1)));
    e := To(begun, Transmit([], Send(Logged(1))));
    Once(s, WORK, begun);
    assert [Logged(1)][..0] == [];
    Once(begun, WORK, e);
    Chain(s, [WORK], begun, [WORK], e);
  }

  lemma IsRefused(s: State) returns (e: State)
    requires s.w.pc == Transmit([], Send(Logged(1))) && s.sh.accepting
    ensures Run(s, [ByWorker(Answer(Permanent))] + [WORK]) == Some(e)
    ensures e == To(SetStatus(Noting(s, Reply(Logged(1), Permanent)), TerminalFailure), Fail([Logged(1)], TermShutdown))
  {
    var noted := Noting(s, Reply(Logged(1), Permanent));
    var failed := To(SetStatus(noted, TerminalFailure), Fail([Logged(1)], Terminal));
    e := To(failed, Fail([Logged(1)], TermShutdown));
    assert [] + [Logged(1)] == [Logged(1)];
    Once(s, ByWorker(Answer(Permanent)), failed);
    Once(failed, WORK, e);
    Chain(s, [ByWorker(Answer(Permanent))], failed, [WORK], e);
  }

  lemma FailsForGood(s: State)
    requires Asleep(s, Running) && s.sh.used == ZERO
    requires s.w.pc == Assemble(Export(Logged(1))) && s.w.pending == [Logged(2)[1]]
    ensures Run(s, FAIL).Some?
    ensures var e := Run(s, FAIL).value;
      && Asleep(e, TerminalFailure) && e.sh.used == ZERO
      && e.w.pc == Fail([Logged(1)], TermShutdown) && e.w.pending == [Logged(2)[1]]
  {
    var sending := StartsSending(s);
    var e := IsRefused(sending);
    Chain(s, [WORK] + [WORK], sending, [ByWorker(Answer(Permanent))] + [WORK], e);
    assert FAIL == [WORK] + [WORK] + ([ByWorker(Answer(Permanent))] + [WORK]);
  }

  const FAILURE := LOG_TWICE + CALL_FLUSH + LOOK + SWAP + TAKE + TAKE + FAIL

  lemma ReachesFailure()
    ensures Run(Init(SMALL), FAILURE).Some?
    ensures var e := Run(Init(SMALL), FAILURE).value;
      && Asleep(e, TerminalFailure) && e.sh.used == ZERO
      && e.w.pc == Fail([Logged(1)], TermShutdown) && e.w.pending == [Logged(2)[1]]
  {
    var s := Init(SMALL);
    var r := LOG_TWICE;
    LogsTwice();
    RunInTwo(s, r, CALL_FLUSH); CallsFlush(Run(s, r).value); r := r + CALL_FLUSH;
    RunInTwo(s, r, LOOK); LooksAtLanes(Run(s, r).value); r := r + LOOK;
    RunInTwo(s, r, SWAP); SwapsLane(Run(s, r).value); r := r + SWAP;
    var taken := TakesFirst(Run(s, r).value);
    RunInTwo(s, r, TAKE); r := r + TAKE;
    var parked := ParksSecond(taken);
    RunInTwo(s, r, TAKE); r := r + TAKE;
    RunInTwo(s, r, FAIL); FailsForGood(Run(s, r).value);
  }

  /** Flush wake-up does not cover `TerminalFailure`: the caller sleeps on, un-notified, while
      the status already is the one it would have returned on, and the worker cannot move
      until somebody shuts the generation down. Only its own deadline frees the caller. */
  lemma FailureWakesNobody()
    ensures Run(Init(SMALL), FAILURE).Some?
    ensures var s := Run(Init(SMALL), FAILURE).value;
      && s.flushers == [FlushWait(2, false)] && s.sh.status.TerminalFailure?
      && (forall m :: WorkerStep(s, m).None?) && FlushStep(s, 0, FlushGo).None?
  {
    ReachesFailure();
  }

  ghost predicate SameWork(s: State, e: State) {
    e.w == s.w && e.sh.used == s.sh.used && e.h == s.h
  }

  /** The flush caller gives up, then the handle reconfigures: sink replaced, acceptance stopped. */
  const STOP_ALL := [ByFlusher(0, FlushTimeout)] + LET_GO + FENCE + STOP_FOUR

  /** The callback's destructor runs on the thread that let go of the last reference. */
  const FENCE := [ByHandle(FenceStore)] + [ByHandle(FenceNotify)]

  lemma FenceFalls(s: State)
    requires s.sh.fence.Dropping?
    ensures Run(s, FENCE) == Some(s.(sh := s.sh.(fence := Signalled, recordsPermit := true)))
  {
    var closed := s.(sh := s.sh.(fence := Closed));
    var e := s.(sh := s.sh.(fence := Signalled, recordsPermit := true));
    Once(s, ByHandle(FenceStore), closed);
    Once(closed, ByHandle(FenceNotify), e);
    Chain(s, [ByHandle(FenceStore)], closed, [ByHandle(FenceNotify)], e);
  }

  lemma GivesUp(s: State)
    requires Asleep(s, TerminalFailure)
    ensures Run(s, [ByFlusher(0, FlushTimeout)]) == Some(SetFlusher(s, 0, FlushDone(TimedOut, 2, 0)))
  {
    Once(s, ByFlusher(0, FlushTimeout), SetFlusher(s, 0, FlushDone(TimedOut, 2, 0)));
  }

  /** With no thread inside, the callback dies with its registration. */
  lemma CallbackDies(s: State)
    requires s.sh.slot && s.sh.handle && s.sh.stop.NotStopping? && s.sh.fence.Alive?
    requires forall t :: 0 <= t < |s.producers| ==> s.producers[t].pc.Outside?
    ensures Run(s, LET_GO) == Some(s.(sh := s.sh.(slot := false, handle := false, fence := Dropping)))
  {
    LetsGo(s);
    assert Unreferenced(s.(sh := s.sh.(slot := false, handle := false)));
  }

  /** The generation is stopped from outside while the worker waits in the terminal branch. */
  lemma StopsAll(s: State)
    requires Asleep(s, TerminalFailure) && s.w.pc.Fail?
    ensures Run(s, STOP_ALL).Some?
    ensures var e := Run(s, STOP_ALL).value; SameWork(s, e) && e.sh.shutdownPermit && e.sh.fence.Signalled?
  {
    var alone := SetFlusher(s, 0, FlushDone(TimedOut, 2, 0));
    var free := alone.(sh := alone.sh.(slot := false, handle := false, fence := Dropping));
    var closed := free.(sh := free.sh.(fence := Signalled, recordsPermit := true));
    GivesUp(s);
    CallbackDies(alone);
    Chain(s, [ByFlusher(0, FlushTimeout)], alone, LET_GO, free);
    FenceFalls(free);
    Chain(s, [ByFlusher(0, FlushTimeout)] + LET_GO, free, FENCE, closed);
    StopsFourTimes(closed);
    Chain(s, [ByFlusher(0, FlushTimeout)] + LET_GO + FENCE, closed, STOP_FOUR, Stopping(closed));
  }

  const DISCARD := Times(WORK, 2) + [WORK] + Times(WORK, 2)

  lemma ReachesClear(s: State)
    requires s.w.pc == Fail([Logged(1)], TermShutdown) && s.sh.shutdownPermit && s.sh.fence.ProducersClosed()
    ensures Run(s, Times(WORK, 2)).Some?
    ensures var e := Run(s, Times(WORK, 2)).value;
      e.w == s.w.(pc := Fail([Logged(1)], TermClear)) && e.sh.used == s.sh.used && e.h == s.h
  {
    TimesOnce(s, WORK, 1);
    TimesOnce(s, WORK, 2);
  }

  lemma Clears(s: State)
    requires s.w.pc == Fail([Logged(1)], TermClear) && s.sh.used == ZERO
    ensures Step(s, WORK).Some?
    ensures var e := Step(s, WORK).value;
      && e.w.pc == Fail([Logged(1)], TermStatus(1)) && e.w.pending == s.w.pending
      && e.h.issued == s.h.issued && e.h.done == s.h.done
  {
    assert [Logged(1)][..0] == [];
    assert TopDown([Logged(1)]) == Logged(1) + TopDown([]);
  }

  lemma Announces(s: State)
    requires s.w.pc == Fail([Logged(1)], TermStatus(1))
    ensures Run(s, Times(WORK, 2)).Some?
    ensures var e := Run(s, Times(WORK, 2)).value; e.w == s.w.(pc := Fail([Logged(1)], Discarded(1))) && e.h == s.h
  {
    TimesOnce(s, WORK, 1);
    TimesOnce(s, WORK, 2);
  }

  lemma DiscardsAll(s: State)
    requires s.w.pc == Fail([Logged(1)], TermShutdown) && s.sh.used == ZERO && s.sh.shutdownPermit
      && s.sh.fence.ProducersClosed()
    ensures Run(s, DISCARD).Some?
    ensures var e := Run(s, DISCARD).value;
      && e.w.pc == Fail([Logged(1)], Discarded(1)) && e.w.pending == s.w.pending
      && e.h.issued == s.h.issued && e.h.done == s.h.done
  {
    ReachesClear(s);
    var r := Times(WORK, 2);
    RunOn(s, r, WORK); Clears(Run(s, r).value); r := r + [WORK];
    RunInTwo(s, r, Times(WORK, 2)); Announces(Run(s, r).value);
  }

  /** Terminal exit. Two records were accepted, none completed, and the report says one remained. */
  lemma TerminalExitMissesParked()
    ensures Run(Init(SMALL), FAILURE + STOP_ALL + DISCARD).Some?
    ensures var s := Run(Init(SMALL), FAILURE + STOP_ALL + DISCARD).value;
      && s.w.pc == Fail([Logged(1)], Discarded(1)) && s.h.issued == Logged(2) && s.h.done == []
      && s.w.pending == [Logged(2)[1]]
  {
    var s := Init(SMALL);
    var r := FAILURE;
    ReachesFailure();
    RunInTwo(s, r, STOP_ALL); StopsAll(Run(s, r).value); r := r + STOP_ALL;
    RunInTwo(s, r, DISCARD); DiscardsAll(Run(s, r).value);
  }

  // ---------------------------------------------------------------- retiring a lane in the other order

  /** The retirement check with its two reads swapped: emptiness read in the state `first`,
      `closed` in a `later` one. */
  predicate EmptyThenClosed(first: State, later: State, l: nat)
    requires l < |first.lanes| && l < |later.lanes|
  {
    first.lanes[l].queues.IsEmpty() && later.lanes[l].closed
  }

  const UP_TO_PUSH := START + Times(THREAD, 3) + [WORK]
  const PUSH_AND_EXIT := [THREAD] + [THREAD] + [THREAD] + [ByProducer(0, Exit)]

  /** The worker has the registry locked and looks at the first lane; its thread is about to push. */
  ghost predicate LooksWhilePushing(s: State, pc: ProducerPc, n: nat)
    requires n <= 1
  {
    Logging(s, pc, 1) && LaneHolds(s, n) && s.w.pc == Refresh(AtTop, Retiring(0)) && s.registry == [0] && s.sh.slot
  }

  lemma LooksBeforePush()
    ensures Run(Init(SMALL), UP_TO_PUSH).Some?
    ensures LooksWhilePushing(Run(Init(SMALL), UP_TO_PUSH).value, Pushing(Logged(1)[0]), 0)
  {
    var s := Init(SMALL);
    StartsLogging();
    var e := Run(s, START).value;
    TimesOnce(e, THREAD, 1); Claims(e, 0);
    TimesOnce(e, THREAD, 2); ClaimsSlot(Run(e, Times(THREAD, 1)).value, 0);
    TimesOnce(e, THREAD, 3); Tickets(Run(e, Times(THREAD, 2)).value, 0);
    RunInTwo(s, START, Times(THREAD, 3));
    RunOn(s, START + Times(THREAD, 3), WORK);
  }

  lemma PushesAndExits(s: State)
    requires LooksWhilePushing(s, Pushing(Logged(1)[0]), 0)
    ensures Run(s, PUSH_AND_EXIT).Some?
    ensures var e := Run(s, PUSH_AND_EXIT).value;
      && e.w.pc == Refresh(AtTop, Retiring(0)) && e.registry == [0]
      && e.lanes == [Lane(0, LaneQueues(Logged(1), []), true)]
  {
    var r := [THREAD];
    RunOn(s, [], THREAD); assert [] + [THREAD] == r; Pushes(s, 0);
    RunOn(s, r, THREAD); Wakes(Run(s, r).value); r := r + [THREAD];
    RunOn(s, r, THREAD); ReturnsToExit(Run(s, r).value); r := r + [THREAD];
    RunOn(s, r, ByProducer(0, Exit)); ExitsThread(Run(s, r).value);
  }

  lemma ReturnsToExit(s: State)
    requires LooksWhilePushing(s, Leaving, 1)
    ensures Step(s, THREAD).Some? && LooksWhilePushing(Step(s, THREAD).value, Outside, 1)
  {
  }

  lemma ExitsThread(s: State)
    requires LooksWhilePushing(s, Outside, 1)
    ensures Step(s, ByProducer(0, Exit)).Some?
    ensures var e := Step(s, ByProducer(0, Exit)).value;
      e.w == s.w && e.registry == s.registry && e.lanes == [s.lanes[0].(closed := true)]
  {
  }

  /** Read in the other order, the check retires a lane that holds an accepted record: the
      thread pushes and exits between the two reads. As coded, it never does. */
  lemma SwappedCheckDropsRecord()
    ensures Run(Init(SMALL), UP_TO_PUSH).Some?
    ensures var first := Run(Init(SMALL), UP_TO_PUSH).value;
      && Run(first, PUSH_AND_EXIT).Some?
      && var later := Run(first, PUSH_AND_EXIT).value;
      && first.w.pc == later.w.pc == Refresh(AtTop, Retiring(0)) && first.registry == later.registry == [0]
      && |first.lanes| == |later.lanes| == 1
      && EmptyThenClosed(first, later, 0) && later.lanes[0].queues.normal == Logged(1)
  {
    LooksBeforePush();
    PushesAndExits(Run(Init(SMALL), UP_TO_PUSH).value);
  }

  // ---------------------------------------------------------------- a counter below zero

  /** Two threads that compete for one slot and one byte. */
  const TIGHT := Config(2, 0, 1, 1, 1, 1, 1, Within(12))

  ghost predicate Contending(s: State, first: ProducerPc, second: ProducerPc) {
    s.cfg == TIGHT && |s.producers| == 2 && s.producers[0].pc == first && s.producers[1].pc == second
    && s.w.pc == Input(Top) && s.sh.slot && s.sh.handle && s.sh.accepting && s.sh.stop.NotStopping?
        && s.sh.status.Running?
    && s.sh.fence.Alive?
  }

  function GoesIn(t: nat): seq<Action> {
    Begin(t) + [ByProducer(t, Go)]
  }

  lemma FirstGoesIn()
    ensures Run(Init(TIGHT), GoesIn(0)).Some?
    ensures var e := Run(Init(TIGHT), GoesIn(0)).value;
      Contending(e, ClaimBytes(RECORD, Normal), Outside) && e.sh.used == ZERO && e.producers[1].lane.None?
  {
    Begins(Init(TIGHT), 0);
    RunOn(Init(TIGHT), Begin(0), ByProducer(0, Go));
  }

  lemma SecondGoesIn(s: State)
    requires Contending(s, ClaimBytes(RECORD, Normal), Outside) && s.sh.used == ZERO && s.producers[1].lane.None?
    ensures Run(s, GoesIn(1)).Some?
    ensures Contending(Run(s, GoesIn(1)).value, ClaimBytes(RECORD, Normal), ClaimBytes(RECORD, Normal))
    ensures Run(s, GoesIn(1)).value.sh.used == ZERO
  {
    Begins(s, 1);
    RunOn(s, Begin(1), ByProducer(1, Go));
  }

  lemma FirstClaims(s: State)
    requires Contending(s, ClaimBytes(RECORD, Normal), ClaimBytes(RECORD, Normal)) && s.sh.used == ZERO
    ensures Step(s, ByProducer(0, Go)).Some?
    ensures var e := Step(s, ByProducer(0, Go)).value;
      Contending(e, ClaimRecord(RECORD, Normal), ClaimBytes(RECORD, Normal)) && e.sh.used == Counters(0, 1, 0, 0)
  {
  }

  lemma SecondOverclaims(s: State)
    requires Contending(s, ClaimRecord(RECORD, Normal), ClaimBytes(RECORD, Normal)) && s.sh.used == Counters(0, 1, 0, 0)
    ensures Step(s, ByProducer(1, Go)).Some?
    ensures Contending(Step(s, ByProducer(1, Go)).value, ClaimRecord(RECORD, Normal), UndoBytes(RECORD, Normal))
  {
  }

  const CONTEND := GoesIn(0) + GoesIn(1) + [ByProducer(0, Go)] + [ByProducer(1, Go)]

  lemma Contends()
    ensures Run(Init(TIGHT), CONTEND).Some?
    ensures Contending(Run(Init(TIGHT), CONTEND).value, ClaimRecord(RECORD, Normal), UndoBytes(RECORD, Normal))
  {
    var s := Init(TIGHT);
    var r := GoesIn(0);
    FirstGoesIn();
    RunInTwo(s, r, GoesIn(1)); SecondGoesIn(Run(s, r).value); r := r + GoesIn(1);
    RunOn(s, r, ByProducer(0, Go)); FirstClaims(Run(s, r).value); r := r + [ByProducer(0, Go)];
    RunOn(s, r, ByProducer(1, Go)); SecondOverclaims(Run(s, r).value);
  }

  const STOP_SIX := STOP_FOUR + [STOP] + [STOP]

  /** The whole of `stop_acceptance`. */
  function NotAccepting(s: State): State {
    Stopping(s).(sh := Stopping(s).sh.(recordsPermit := true, flushPermit := true, stop := NotStopping))
  }

  lemma StopsSixTimes(s: State)
    requires s.sh.stop.NotStopping? && !s.sh.status.Stopped? && s.sh.slot == s.sh.handle && !s.w.pc.Aborted?
    ensures Run(s, STOP_SIX) == Some(NotAccepting(s))
  {
    var woken := StopStep(Stopping(s));
    StopsFourTimes(s);
    StopsOnce(Stopping(s));
    Chain(s, STOP_FOUR, Stopping(s), [STOP], woken);
    StopsOnce(woken);
    Chain(s, STOP_FOUR + [STOP], woken, [STOP], NotAccepting(s));
  }

  /** `shutdown` up to its deadline: acceptance stopped, sink disabled, acceptance stopped again, worker aborted. */
  const SHUTDOWN := STOP_SIX + LET_GO + STOP_SIX + [ByHandle(Abort)]

  lemma Aborts(s: State)
    requires MayAbort(s)
    ensures Run(s, [ByHandle(Abort)]) == Some(AbortWorker(s))
  {
    Once(s, ByHandle(Abort), AbortWorker(s));
  }

  /** The generation serves, and thread `t` is inside the callback. */
  predicate Serving(s: State, t: nat) {
    && s.sh.slot && s.sh.handle && s.sh.stop.NotStopping? && !s.sh.status.Stopped? && s.w.pc == Input(Top)
    && t < |s.producers| && s.producers[t].pc.HoldsCallback()
  }

  lemma ShutsDown(s: State, t: nat)
    requires Serving(s, t)
    ensures Run(s, SHUTDOWN).Some?
    ensures var e := Run(s, SHUTDOWN).value;
      e.cfg == s.cfg && e.producers == s.producers && e.sh.used == s.sh.used && e.w.pc == Aborted(ZeroNormalDepth)
  {
    var stopped := NotAccepting(s);
    var free := stopped.(sh := stopped.sh.(slot := false, handle := false));
    StopsSixTimes(s);
    LetsGoDuringCall(stopped, t);
    Chain(s, STOP_SIX, stopped, LET_GO, free);
    StopsSixTimes(free);
    Chain(s, STOP_SIX + LET_GO, free, STOP_SIX, NotAccepting(free));
    Aborts(NotAccepting(free));
    Chain(s, STOP_SIX + LET_GO + STOP_SIX, NotAccepting(free), [ByHandle(Abort)], AbortWorker(NotAccepting(free)));
  }

  const ROLLBACK := [ByProducer(1, Go)]

  /** A shutdown that times out zeroes the counters without waiting for the fence; a thread
      that rolls back afterwards takes the byte counter below zero (a wrap, in 64 bits).
      Module ExporterUnderflow says exactly when that can happen. */
  lemma ResetUnderflows()
    ensures Run(Init(TIGHT), CONTEND + SHUTDOWN + ExporterUnderflow.STORES + ROLLBACK).Some?
    ensures Run(Init(TIGHT), CONTEND + SHUTDOWN + ExporterUnderflow.STORES + ROLLBACK).value.sh.used.normalBytes == -1
  {
    var s := Init(TIGHT);
    var r := CONTEND;
    Contends();
    RunInTwo(s, r, SHUTDOWN); ShutsDown(Run(s, r).value, 1); r := r + SHUTDOWN;
    RunInTwo(s, r, ExporterUnderflow.STORES); ExporterUnderflow.StoresAll(Run(s, r).value);
        r := r + ExporterUnderflow.STORES;
    RunOn(s, r, ByProducer(1, Go));
  }

  /** The second thread is about to claim its byte while the first one's two records fill the queue. */
  ghost predicate Knocking(s: State, pc: ProducerPc, at: ResetPc, bytes: int) {
    && s.cfg == SMALL && |s.producers| == 2 && s.producers[1].pc == pc && s.w.pc == Aborted(at)
    && s.sh.used.normalBytes == bytes
  }

  lemma KnocksDuringLogging()
    ensures Run(Init(SMALL), LOG_TWICE + GoesIn(1)).Some?
    ensures var e := Run(Init(SMALL), LOG_TWICE + GoesIn(1)).value;
      && Serving(e, 1) && e.cfg == SMALL && |e.producers| == 2 && e.producers[1].pc == ClaimBytes(RECORD, Normal)
      && e.sh.used == Counters(2, 2, 0, 0)
  {
    LogsTwice();
    var s := Run(Init(SMALL), LOG_TWICE).value;
    RunInTwo(Init(SMALL), LOG_TWICE, GoesIn(1));
    Begins(s, 1);
    RunOn(s, Begin(1), ByProducer(1, Go));
  }

  lemma StoresNext(s: State, pc: ProducerPc, at: ResetPc, bytes: int)
    requires Knocking(s, pc, at, bytes) && !at.ResetDone?
    ensures Run(s, [ByHandle(ResetStep)]).Some?
    ensures Knocking(Run(s, [ByHandle(ResetStep)]).value, pc, NextResetPc(at), if at.ZeroNormalBytes? then 0 else bytes)
  {
    Once(s, ByHandle(ResetStep), NextReset(s, at));
    match at case ZeroNormalDepth => case ZeroReservedDepth => case ZeroNormalBytes =>
        case ZeroReservedBytes => case _ =>
  }

  lemma OverclaimsDuringStores(s: State)
    requires Knocking(s, ClaimBytes(RECORD, Normal), ZeroReservedDepth, 2)
    ensures Run(s, ROLLBACK).Some? && Knocking(Run(s, ROLLBACK).value, UndoBytes(RECORD, Normal), ZeroReservedDepth, 3)
  {
    Once(s, ByProducer(1, Go), Step(s, ByProducer(1, Go)).value);
  }

  lemma RollsBackDuringStores(s: State)
    requires Knocking(s, UndoBytes(RECORD, Normal), ZeroReservedBytes, 0)
    ensures Run(s, ROLLBACK).Some? && Run(s, ROLLBACK).value.sh.used.normalBytes == -1
  {
    assert AfterRefusal(RECORD, Normal) == Leaving;
    Once(s, ByProducer(1, Go), SetPc(SubUsed(s, Budget(Normal, Bytes), 1), 1, Leaving));
  }

  const STORE := [ByHandle(ResetStep)]
  const INTERRUPTED := STORE + ROLLBACK + STORE + STORE + ROLLBACK

  lemma InterruptsStores(s: State)
    requires Knocking(s, ClaimBytes(RECORD, Normal), ZeroNormalDepth, 2)
    ensures Run(s, INTERRUPTED).Some? && Run(s, INTERRUPTED).value.sh.used.normalBytes == -1
  {
    var r := STORE;
    StoresNext(s, ClaimBytes(RECORD, Normal), ZeroNormalDepth, 2);
    RunInTwo(s, r, ROLLBACK); OverclaimsDuringStores(Run(s, r).value); r := r + ROLLBACK;
    RunInTwo(s, r, STORE); StoresNext(Run(s, r).value, UndoBytes(RECORD, Normal), ZeroReservedDepth, 3); r := r + STORE;
    RunInTwo(s, r, STORE); StoresNext(Run(s, r).value, UndoBytes(RECORD, Normal), ZeroNormalBytes, 3); r := r + STORE;
    RunInTwo(s, r, ROLLBACK); RollsBackDuringStores(Run(s, r).value);
  }

  /** No thread has claimed anything that it will give back when the worker is aborted. But one
      over-claims after the first store of zero and rolls back before the last. */
  lemma StoresAreInterrupted()
    ensures Run(Init(SMALL), LOG_TWICE + GoesIn(1) + SHUTDOWN + INTERRUPTED).Some?
    ensures Run(Init(SMALL), LOG_TWICE + GoesIn(1) + SHUTDOWN + INTERRUPTED).value.sh.used.normalBytes == -1
  {
    var s := Init(SMALL);
    var r := LOG_TWICE + GoesIn(1);
    KnocksDuringLogging();
    RunInTwo(s, r, SHUTDOWN); ShutsDown(Run(s, r).value, 1); r := r + SHUTDOWN;
    RunInTwo(s, r, INTERRUPTED); InterruptsStores(Run(s, r).value);
  }
}
