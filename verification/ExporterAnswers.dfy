/**
What the collector said decides what is counted and completed: a record counts as exported or
rejected only by an answer to a request that carried it, and what is asked for again is sent again.
*/
module ExporterAnswers {
  import opened Records
  import opened Wrappers
  import opened Replies
  import opened Exporter
  import opened ExporterShape
  import opened ExporterRuns

  // ---------------------------------------------------------------- invariant

  /** Sent, and not settled yet, in the order in which it is sent or sent again. */
  function InTransmit(pc: WorkerPc): seq<QueuedLog> {
    match pc
    case Transmit(stack, at) => if at.NextSegment? then TopDown(stack) else at.records + TopDown(stack)
    case Settle(_, resume, _) => if resume.ToNextSegment? then TopDown(resume.stack) else []
    case Fail(stack, _) => TopDown(stack)
    case _ => []
  }

  function BeingSettled(pc: WorkerPc): seq<QueuedLog> {
    if pc.Settle? then pc.logs else []
  }

  /** The two counters are the sums of what the answers said. */
  ghost predicate CountedByAnswers(s: State) {
    && s.sh.exported == TotalExported(s.h.replies)
    && s.sh.rejected == TotalRejected(s.h.replies) + s.sh.oversize
  }

  /** Requests are settled in the order in which their records were first sent. */
  ghost predicate SettledInOrder(s: State) {
    s.w.pc.Aborted? || FinalRecords(s.h.replies) + InTransmit(s.w.pc) == s.h.sent
  }

  /** A record is completed because its request was settled, or because no request can carry it. */
  ghost predicate Explained(s: State) {
    forall log :: log in s.h.done || log in BeingSettled(s.w.pc) ==>
      log in FinalRecords(s.h.replies) || !s.cfg.Fits([log])
  }

  /** The worker is about to send what has to follow the latest answer. */
  ghost predicate AboutToFollow(s: State) {
    s.w.pc.Aborted? || s.h.replies == [] || Final(s.h.replies[|s.h.replies| - 1])
    || (var r := s.h.replies[|s.h.replies| - 1];
        if r.outcome.Permanent? then s.w.pc.Fail?
        else
          && s.w.pc.Transmit?
          && (if s.w.pc.transmit.NextSegment?
              then r.outcome.InvalidPayload? && s.w.pc.stack != [] && FollowedBy(r, s.w.pc.stack[|s.w.pc.stack| - 1])
              else FollowedBy(r, s.w.pc.transmit.records)))
  }

  ghost predicate Honoured(s: State) {
    CountedByAnswers(s) && SettledInOrder(s) && Explained(s) && Chained(s.h.replies) && AboutToFollow(s)
  }

  lemma InitHonoured(cfg: Config)
    ensures Honoured(Init(cfg))
  {
  }

  // ---------------------------------------------------------------- preservation

  /** A step outside the export of a batch. */
  ghost predicate Elsewhere(s: State, s': State) {
    && s'.cfg == s.cfg && s'.h.replies == s.h.replies && s'.h.sent == s.h.sent && s'.h.done == s.h.done
    && s'.sh.exported == s.sh.exported && s'.sh.rejected == s.sh.rejected && s'.sh.oversize == s.sh.oversize
    && (s.w.pc.Aborted? ==> s'.w.pc.Aborted?)
    && (s'.w.pc.Aborted? || SameTransmission(s.w.pc, s'.w.pc))
  }

  predicate SameTransmission(pc: WorkerPc, pc': WorkerPc) {
    && InTransmit(pc') == InTransmit(pc) && BeingSettled(pc') == BeingSettled(pc)
    && pc'.Fail? == pc.Fail? && (pc.Transmit? ==> pc' == pc)
  }

  lemma ElsewhereHonours(s: State, s': State)
    requires Honoured(s) && Elsewhere(s, s')
    ensures Honoured(s')
  {
    assert BeingSettled(s'.w.pc) == [] || BeingSettled(s'.w.pc) == BeingSettled(s.w.pc);
  }

  lemma InputElsewhere(s: State, at: InputPc)
    requires s.w.pc == Input(at)
    ensures Elsewhere(s, InputStep(s, at))
  {
    match at
    case Top =>
    case Choose =>
    case Poll(_) =>
    case Pop(AtTop) =>
    case Pop(InReceive) =>
    case Pop(InDrain) =>
    case Pop(InLastPoll) =>
    case Pop(InBatch(_)) =>
    case Pop(InBatchWoken(_)) =>
    case ReleaseRecord(_, _) =>
    case ReleaseBytes(InLastPoll, _) =>
    case ReleaseBytes(InBatch(_), _) =>
    case ReleaseBytes(InBatchWoken(_), _) =>
    case ReleaseBytes(_, _) =>
  }

  lemma RefreshElsewhere(s: State, site: Site, at: RefreshPc)
    requires s.w.pc == Refresh(site, at) && RefreshStep(s, site, at).Some?
    ensures Elsewhere(s, RefreshStep(s, site, at).value)
  {
    match at
    case Retiring(_) =>
    case RetireCheck(_) =>
    case Taking(_, _, _) =>
  }

  lemma WaitElsewhere(s: State, at: WaitPc, m: WorkerMove)
    requires s.w.pc == Wait(at) && WaitStep(s, at, m).Some?
    ensures Elsewhere(s, WaitStep(s, at, m).value)
  {
    match at
    case WaitReceive =>
    case WaitBatch(_) =>
    case WaitFence =>
    case CheckFence =>
    case StopStatus =>
    case StopNotify =>
    case Drained =>
  }

  lemma FailElsewhere(s: State, stack: seq<seq<QueuedLog>>, at: FailPc)
    requires s.w.pc == Fail(stack, at) && FailStep(s, stack, at).Some?
    ensures Elsewhere(s, FailStep(s, stack, at).value)
  {
    match at
    case Terminal =>
    case TermShutdown =>
    case TermFence =>
    case TermWait =>
    case TermClear =>
    case TermStatus(_) =>
    case TermNotify(_) =>
    case Discarded(_) =>
  }

  lemma ExportHonours(s: State, batch: seq<QueuedLog>)
    requires Honoured(s) && s.w.pc == Assemble(Export(batch))
    ensures Honoured(BatchStep(s, Export(batch)))
  {
    TopDownPush([], batch);
    assert [] + [batch] == [batch] && batch + TopDown([]) == batch;
  }

  lemma OversizeHonours(s: State, log: QueuedLog, resume: Resume)
    requires Honoured(s) && s.w.pc.Assemble? && !s.cfg.Fits([log]) && !resume.ToNextSegment?
    ensures Honoured(RejectOversize(s, log, resume))
  {
    assert InTransmit(RejectOversize(s, log, resume).w.pc) == [];
  }

  lemma BatchHonours(s: State, at: BatchPc)
    requires Honoured(s) && s.w.pc == Assemble(at)
    ensures Honoured(BatchStep(s, at))
  {
    match at
    case First(log) =>
      if s.cfg.Fits([log]) { ElsewhereHonours(s, BatchStep(s, at)); } else { OversizeHonours(s, log, ToTop); }
    case Fill(_) => ElsewhereHonours(s, BatchStep(s, at));
    case Next(batch, log) =>
      if s.cfg.Fits([log]) { ElsewhereHonours(s, BatchStep(s, at)); } else { OversizeHonours(s, log, ToFill(batch)); }
    case Export(batch) => ExportHonours(s, batch);
  }

  lemma SettleHonours(s: State, logs: seq<QueuedLog>, resume: Resume, at: SettlePc)
    requires Honoured(s) && s.w.pc == Settle(logs, resume, at)
    ensures Honoured(SettleStep(s, logs, resume, at))
  {
    match at
    case Complete =>
      if logs == [] {
        match resume case ToTop => case ToFill(_) => case ToNextSegment(_) =>
      } else {
        assert forall log :: log in s.h.done + [logs[0]] || log in logs[1..] ==> log in s.h.done || log in logs;
      }
    case Publish =>
    case Progress =>
  }

  lemma AnswerCounts(s: State, stack: seq<seq<QueuedLog>>, records: seq<QueuedLog>, outcome: Outcome)
    requires CountedByAnswers(s) && AnswerStep(s, stack, records, outcome).Some?
    ensures CountedByAnswers(AnswerStep(s, stack, records, outcome).value)
  {
    OneMore(s.h.replies, Reply(records, outcome));
    match outcome case Accepted(_) => case InvalidPayload => case Retryable => case Permanent =>
  }

  /** What an answer settles and what it leaves to be sent, together, is what was to be sent. */
  lemma AnswerDivides(s: State, stack: seq<seq<QueuedLog>>, records: seq<QueuedLog>, outcome: Outcome)
    requires AnswerStep(s, stack, records, outcome).Some?
    ensures var left := InTransmit(AnswerStep(s, stack, records, outcome).value.w.pc);
      if Final(Reply(records, outcome)) then left == TopDown(stack) else left == records + TopDown(stack)
  {
    var pc := AnswerStep(s, stack, records, outcome).value.w.pc;
    match outcome
    case Accepted(_) => assert pc == Settle(records, ToNextSegment(stack), Complete);
    case InvalidPayload =>
      if |records| == 1 {
        assert pc == Settle(records, ToNextSegment(stack), Complete);
      } else {
        assert pc == Transmit(stack + Split(records), NextSegment);
        SplitKeepsOrder(stack, records);
      }
    case Retryable => assert pc == Transmit(stack, Backoff(records));
    case Permanent =>
      assert pc == Fail(stack + [records], Terminal);
      TopDownPush(stack, records);
  }

  lemma AnswerSettlesInOrder(s: State, stack: seq<seq<QueuedLog>>, records: seq<QueuedLog>, outcome: Outcome)
    requires SettledInOrder(s) && s.w.pc == Transmit(stack, Send(records))
    requires AnswerStep(s, stack, records, outcome).Some?
    ensures SettledInOrder(AnswerStep(s, stack, records, outcome).value)
  {
    var settled, left := FinalRecords(s.h.replies), TopDown(stack);
    OneMore(s.h.replies, Reply(records, outcome));
    AnswerDivides(s, stack, records, outcome);
    OnlyNoted(s, stack, records, outcome);
    Regroup(settled, records, left);
  }

  lemma Regroup(a: seq<QueuedLog>, b: seq<QueuedLog>, c: seq<QueuedLog>)
    ensures (a + b) + c == a + (b + c) && (a + []) + c == a + c
  {
  }

  lemma OnlyNoted(s: State, stack: seq<seq<QueuedLog>>, records: seq<QueuedLog>, outcome: Outcome)
    requires AnswerStep(s, stack, records, outcome).Some?
    ensures var s' := AnswerStep(s, stack, records, outcome).value;
      s'.h.replies == s.h.replies + [Reply(records, outcome)] && s'.h.sent == s.h.sent
  {
    match outcome case Accepted(_) => case InvalidPayload => case Retryable => case Permanent =>
  }

  lemma AnswerExplains(s: State, stack: seq<seq<QueuedLog>>, records: seq<QueuedLog>, outcome: Outcome)
    requires Explained(s) && s.w.pc == Transmit(stack, Send(records))
    requires AnswerStep(s, stack, records, outcome).Some?
    ensures Explained(AnswerStep(s, stack, records, outcome).value)
  {
    OneMore(s.h.replies, Reply(records, outcome));
    match outcome case Accepted(_) => case InvalidPayload => case Retryable => case Permanent =>
  }

  lemma AnswerChains(s: State, stack: seq<seq<QueuedLog>>, records: seq<QueuedLog>, outcome: Outcome)
    requires Chained(s.h.replies) && AboutToFollow(s) && s.w.pc == Transmit(stack, Send(records))
    requires AnswerStep(s, stack, records, outcome).Some?
    ensures Chained(AnswerStep(s, stack, records, outcome).value.h.replies)
    ensures AboutToFollow(AnswerStep(s, stack, records, outcome).value)
  {
    ChainedOn(s.h.replies, Reply(records, outcome));
    match outcome case Accepted(_) => case InvalidPayload => case Retryable => case Permanent =>
  }

  lemma AnswerHonours(s: State, stack: seq<seq<QueuedLog>>, records: seq<QueuedLog>, outcome: Outcome)
    requires Honoured(s) && s.w.pc == Transmit(stack, Send(records)) && AnswerStep(s, stack, records, outcome).Some?
    ensures Honoured(AnswerStep(s, stack, records, outcome).value)
  {
    AnswerCounts(s, stack, records, outcome);
    AnswerSettlesInOrder(s, stack, records, outcome);
    AnswerExplains(s, stack, records, outcome);
    AnswerChains(s, stack, records, outcome);
  }

  lemma NextHonours(s: State, stack: seq<seq<QueuedLog>>)
    requires Honoured(s) && NoneEmpty(stack) && s.w.pc == Transmit(stack, NextSegment)
    requires stack != []
    ensures Honoured(TransmitStep(s, stack, NextSegment, Proceed).value)
  {
    var rest, top := stack[..|stack| - 1], stack[|stack| - 1];
    assert stack == rest + [top];
    TopDownPush(rest, top);
    assert InTransmit(Transmit(rest, Send(top))) == InTransmit(s.w.pc);
  }

  lemma TransmitHonours(s: State, stack: seq<seq<QueuedLog>>, at: TransmitPc, m: WorkerMove)
    requires Honoured(s) && WorkerShape(s.w) && s.w.pc == Transmit(stack, at) && TransmitStep(s, stack, at, m).Some?
    ensures Honoured(TransmitStep(s, stack, at, m).value)
  {
    match at
    case NextSegment => if stack != [] { NextHonours(s, stack); }
    case Send(records) => AnswerHonours(s, stack, records, m.outcome);
    case Backoff(_) =>
  }

  lemma WorkerHonours(s: State, m: WorkerMove)
    requires Honoured(s) && WorkerShape(s.w) && WorkerStep(s, m).Some?
    ensures Honoured(WorkerStep(s, m).value)
  {
    match s.w.pc
    case Refresh(site, at) => RefreshElsewhere(s, site, at); ElsewhereHonours(s, WorkerStep(s, m).value);
    case Input(at) => InputElsewhere(s, at); ElsewhereHonours(s, WorkerStep(s, m).value);
    case Assemble(at) => BatchHonours(s, at);
    case Wait(at) => WaitElsewhere(s, at, m); ElsewhereHonours(s, WorkerStep(s, m).value);
    case Transmit(stack, at) => TransmitHonours(s, stack, at, m);
    case Settle(logs, resume, at) => SettleHonours(s, logs, resume, at);
    case Fail(stack, at) => FailElsewhere(s, stack, at); ElsewhereHonours(s, WorkerStep(s, m).value);
  }

  lemma ProducerElsewhere(s: State, t: nat, m: ProducerMove)
    requires ProducerStep(s, t, m).Some?
    ensures Elsewhere(s, ProducerStep(s, t, m).value)
  {
    match s.producers[t].pc
    case Outside =>
    case Loaded =>
    case Resolving(_) =>
    case ClaimBytes(_, _) =>
    case UndoBytes(_, _) =>
    case ClaimRecord(_, _) =>
    case UndoRecord(_, _) =>
    case ReturnBytes(_, _) =>
    case Ticketing(_, _) =>
    case Pushing(_) =>
    case Notifying =>
    case Leaving =>
    case Closing =>
    case Gone =>
  }

  lemma FlusherElsewhere(s: State, f: nat, m: FlushMove)
    requires FlushStep(s, f, m).Some?
    ensures Elsewhere(s, FlushStep(s, f, m).value)
  {
    match s.flushers[f]
    case FlushIdle =>
    case FlushWake(_) =>
    case FlushEnable(_) =>
    case FlushLoad(_, _) =>
    case FlushLoadStatus(_, _, _) =>
    case FlushWait(_, _) =>
    case FlushDone(_, _, _) =>
  }

  lemma HandleElsewhere(s: State, m: HandleMove)
    requires HandleStep(s, m).Some?
    ensures Elsewhere(s, HandleStep(s, m).value)
  {
    match m
    case StopAcceptance => StopSharedFrame(s.sh);
    case ClearSlot =>
    case ReleaseHandle =>
    case FenceStore =>
    case FenceNotify =>
    case Abort =>
    case ResetStep =>
  }

  lemma StepHonours(s: State, a: Action)
    requires Honoured(s) && WorkerShape(s.w) && Step(s, a).Some?
    ensures Honoured(Step(s, a).value)
  {
    match a
    case ByProducer(t, m) => ProducerElsewhere(s, t, m); ElsewhereHonours(s, Step(s, a).value);
    case ByWorker(m) => WorkerHonours(s, m);
    case ByFlusher(f, m) => FlusherElsewhere(s, f, m); ElsewhereHonours(s, Step(s, a).value);
    case ByHandle(m) => HandleElsewhere(s, m); ElsewhereHonours(s, Step(s, a).value);
  }

  // ---------------------------------------------------------------- one answer

  /** Every answer is noted as it was given, to the request that it answers, and nothing else is. */
  lemma OnlyAnswersAreNoted(s: State, a: Action)
    requires Step(s, a).Some?
    ensures Step(s, a).value.h.replies == s.h.replies
      + (if a.ByWorker? && s.w.pc.Transmit? && s.w.pc.transmit.Send?
         then [Reply(s.w.pc.transmit.records, a.wm.outcome)] else [])
  {
    match a
    case ByProducer(t, m) => ProducerElsewhere(s, t, m);
    case ByWorker(m) => if !(s.w.pc.Transmit? && s.w.pc.transmit.Send?) { WorkerNotes(s, m); }
    case ByFlusher(f, m) => FlusherElsewhere(s, f, m);
    case ByHandle(m) => HandleElsewhere(s, m);
  }

  lemma WorkerNotes(s: State, m: WorkerMove)
    requires WorkerStep(s, m).Some?
    requires !(s.w.pc.Transmit? && s.w.pc.transmit.Send?)
    ensures WorkerStep(s, m).value.h.replies == s.h.replies
  {
    match s.w.pc
    case Refresh(site, at) => RefreshElsewhere(s, site, at);
    case Input(at) => InputElsewhere(s, at);
    case Assemble(at) => { match at case First(_) => case Fill(_) => case Next(_, _) => case Export(_) => }
    case Wait(at) => WaitElsewhere(s, at, m);
    case Transmit(stack, at) => { match at case NextSegment => case Backoff(_) => }
    case Settle(logs, resume, at) => { match at case Complete => case Publish => case Progress => }
    case Fail(stack, at) => FailElsewhere(s, stack, at);
  }

  /** After an answer that asks for a retry nothing is counted or completed, the worker shows that
      it backs off, and what it does next is to send the same records again. */
  lemma RetrySendsAgain(s: State, m: WorkerMove)
    requires s.w.pc.Transmit? && s.w.pc.transmit.Send? && Step(s, ByWorker(Answer(Retryable))).Some?
    ensures var s' := Step(s, ByWorker(Answer(Retryable))).value;
      && s'.h.done == s.h.done && s'.sh.exported == s.sh.exported && s'.sh.rejected == s.sh.rejected
      && s'.sh.status == BackingOff && Step(s', ByWorker(m)).Some?
      && Step(s', ByWorker(m)).value.w.pc == s.w.pc
      && Step(s', ByWorker(m)).value.h.done == s.h.done
      && Step(s', ByWorker(m)).value.sh.status == if s.sh.accepting then Running else ShuttingDown
  {
    match s.w.pc
    case Transmit(_, Send(_)) =>
  }

  // ---------------------------------------------------------------- every run

  lemma {:induction false} ReachHonours(cfg: Config, schedule: seq<Action>)
    requires Reach(cfg, schedule).Some?
    ensures Honoured(Reach(cfg, schedule).value)
  {
    if schedule == [] {
      InitHonoured(cfg);
    } else {
      var init, last := schedule[..|schedule| - 1], schedule[|schedule| - 1];
      ReachHonours(cfg, init);
      ReachKeepsInv(cfg, init);
      StepHonours(Reach(cfg, init).value, last);
    }
  }

  /** The collector has spoken about this record, or there is no request that could ask it. */
  ghost predicate AnsweredFor(s: State, log: QueuedLog) {
    || !s.cfg.Fits([log])
    || (exists r <- s.h.replies ::
          log in r.records && (r.outcome.Accepted? || (r.outcome.InvalidPayload? && r.records == [log])))
  }

  /** A completed record was in a request that the collector accepted, or alone in one that it
      refused, or fits no request. */
  lemma CompletedWasAnswered(cfg: Config, schedule: seq<Action>, log: QueuedLog)
    requires Reach(cfg, schedule).Some? && log in Reach(cfg, schedule).value.h.done
    ensures AnsweredFor(Reach(cfg, schedule).value, log)
  {
    ReachHonours(cfg, schedule);
    ReachKeepsInv(cfg, schedule);
    var s := Reach(cfg, schedule).value;
    if cfg.Fits([log]) {
      assert s.cfg == cfg;
      FinalMember(s.h.replies, log);
      var r :| r in s.h.replies && Final(r) && log in r.records;
      if !r.outcome.Accepted? {
        assert r.records == [log];
      }
    }
  }

  /** A flush that reports `Flushed` has had an answer of the collector for every record accepted
      before the call, however the steps interleave in between. */
  lemma FlushedMeansAnswered(cfg: Config, before: seq<Action>, f: nat, m: FlushMove, after: seq<Action>)
    requires Reach(cfg, before).Some? && f < |Reach(cfg, before).value.flushers|
    requires Reach(cfg, before).value.flushers[f].FlushIdle?
    requires Reach(cfg, before + [ByFlusher(f, m)] + after).Some?
    ensures var atCall, end := Reach(cfg, before).value, Reach(cfg, before + [ByFlusher(f, m)] + after).value;
      && |end.flushers| == |atCall.flushers|
      && (end.flushers[f].FlushDone? && end.flushers[f].status.Flushed? ==>
            forall log <- atCall.h.issued :: AnsweredFor(end, log))
  {
    ExactFlush(cfg, before, f, m, after);
    var atCall, end := Reach(cfg, before).value, Reach(cfg, before + [ByFlusher(f, m)] + after).value;
    if end.flushers[f].FlushDone? && end.flushers[f].status.Flushed? {
      forall log | log in atCall.h.issued
        ensures AnsweredFor(end, log)
      {
        CompletedWasAnswered(cfg, before + [ByFlusher(f, m)] + after, log);
      }
    }
  }

  /** The counters say what the collector said: `exported` is what it accepted and did not reject,
      `rejected` is what it rejected in accepted requests, the records that it refused one by one,
      and those that fit no request. */
  lemma CountersAreAnswers(cfg: Config, schedule: seq<Action>)
    requires Reach(cfg, schedule).Some?
    ensures var s := Reach(cfg, schedule).value;
      && s.sh.exported == TotalExported(s.h.replies)
      && s.sh.rejected == TotalRejected(s.h.replies) + s.sh.oversize
  {
    ReachHonours(cfg, schedule);
  }

  /** Requests are settled in the order of first transmission, whatever is bisected or repeated. */
  lemma SettledInSendingOrder(cfg: Config, schedule: seq<Action>)
    requires Reach(cfg, schedule).Some? && !Reach(cfg, schedule).value.w.pc.Aborted?
    ensures var s := Reach(cfg, schedule).value;
      FinalRecords(s.h.replies) + InTransmit(s.w.pc) == s.h.sent
  {
    ReachHonours(cfg, schedule);
  }

  /** The request after one that is to be retried carries the same records, the one after a
      refused payload of several records its first half, and there is none after `Permanent`. */
  lemma NextRequestFollows(cfg: Config, schedule: seq<Action>, i: nat)
    requires Reach(cfg, schedule).Some? && 0 < i < |Reach(cfg, schedule).value.h.replies|
    ensures var before, after := Reach(cfg, schedule).value.h.replies[i - 1], Reach(cfg, schedule).value.h.replies[i];
      && (before.outcome.Retryable? ==> after.records == before.records)
      && (before.outcome.InvalidPayload? && |before.records| != 1 ==>
            after.records == before.records[..|before.records| / 2])
      && !before.outcome.Permanent?
  {
    ReachHonours(cfg, schedule);
    ChainedAt(Reach(cfg, schedule).value.h.replies, i);
  }
}
